/** Control authority: pwrapis/src/comservice.c, the client status of pwrapic/src/powerapi.c, and both
    joined by a wire that may lose requests and replies. */
module ControlAuth {
  import opened Outcomes
  import opened PwrMessage

  datatype Code = Success | AuthRequested | OwnedByOthers | NotRegistered | NotAuthed | Common

  // ---------------------------------------------------------------- the server's record

  datatype Authority = Free | OwnedBy(client: u32)

  function Requested(a: Authority, client: u32): Authority { if a == Free then OwnedBy(client) else a }

  function Released(a: Authority, client: u32): Authority { if a == OwnedBy(client) then Free else a }

  class Authorities {
    var authed: bool
    var authOwner: u32

    /** An owner is only recorded while the authority is taken. */
    ghost predicate Valid()
      reads this
    {
      !authed ==> authOwner == 0
    }

    ghost function View(): Authority
      reads this
    {
      if authed then OwnedBy(authOwner) else Free
    }

    constructor ()
      ensures Valid() && View() == Free
    {
      authed, authOwner := false, 0;
    }

    method DoAuthRequest(client: u32) returns (code: Code)
      requires Valid()
      modifies this
      ensures Valid() && View() == Requested(old(View()), client)
      ensures code == if View() == OwnedBy(client) then Success else AuthRequested
      ensures View() == if old(View()) == Free then OwnedBy(client) else old(View())
    {
      if authed {
        if authOwner != client { return AuthRequested; }
        return Success;
      }
      authOwner := client;
      authed := true;
      code := Success;
    }

    method DoAuthRelease(client: u32) returns (code: Code)
      requires Valid()
      modifies this
      ensures Valid() && View() == Released(old(View()), client)
      ensures code == if View() == Free then Success else OwnedByOthers
      ensures View() == if old(View()) == OwnedBy(client) then Free else old(View())
    {
      if authed && authOwner == client {
        authOwner := 0;
        authed := false;
        return Success;
      }
      if !authed {
        authOwner := 0;
        return Success;
      }
      code := OwnedByOthers;
    }

    method CleanControlAuth(client: u32)
      requires Valid()
      modifies this
      ensures Valid() && View() == Released(old(View()), client)
    {
      var _ := DoAuthRelease(client);
    }
  }

  // ---------------------------------------------------------------- the client's status

  datatype Status = Unregistered | Registered | Authed

  datatype Kind = Request | Release

  /** The status after a call that returned this code. */
  function StatusAfter(status: Status, kind: Kind, code: Code): Status {
    if code != Success then status else if kind == Request then Authed else Registered
  }

  /** Registering does not lower the status of a client that is authed. */
  function StatusRegistered(status: Status): Status { if status == Unregistered then Registered else status }

  /** CHECK_STATUS: what a call needs. */
  predicate MayAsk(status: Status, kind: Kind) { if kind == Request then status != Unregistered else status == Authed }

  class PowerApi {
    var status: Status

    constructor ()
      ensures status == Unregistered
    {
      status := Unregistered;
    }

    /** connected: whether InitSockClient succeeds. */
    method Register(connected: bool) returns (code: Code)
      modifies this
      ensures status == if connected then StatusRegistered(old(status)) else old(status)
      ensures code == if connected then Success else Common
    {
      if !connected { return Common; }
      if status == Unregistered { status := Registered; }
      code := Success;
    }

    method UnRegister()
      modifies this
      ensures status == Unregistered
    {
      status := Unregistered;
    }

    /** answer: what SendReqAndWaitForRsp returns, if it is called. */
    method RequestControlAuth(answer: Code) returns (code: Code)
      modifies this
      ensures MayAsk(old(status), Request) ==> code == answer && status == StatusAfter(old(status), Request, answer)
      ensures !MayAsk(old(status), Request) ==> code == NotRegistered && status == old(status)
      ensures code == Success && answer == Success ==> old(status) != Unregistered && status == Authed
    {
      if status == Unregistered { return NotRegistered; }
      code := answer;
      if code == Success { status := Authed; }
    }

    method ReleaseControlAuth(answer: Code) returns (code: Code)
      modifies this
      ensures MayAsk(old(status), Release) ==> code == answer && status == StatusAfter(old(status), Release, answer)
      ensures !MayAsk(old(status), Release) ==> code == NotAuthed && status == old(status)
      ensures code == Success && answer == Success ==> old(status) == Authed && status == Registered
    {
      if status != Authed { return NotAuthed; }
      code := answer;
      if code == Success { status := Registered; }
    }
  }

  // ---------------------------------------------------------------- both over a wire

  datatype Asked = Asked(ticket: nat, kind: Kind)

  datatype Reply = Reply(ticket: nat, kind: Kind, code: Code)

  /** A client: its status, the one authority call it may be in, and what is on the wire in order. */
  datatype Api = Api(status: Status, call: Option<Asked>, next: nat, up: seq<Asked>, down: seq<Reply>)

  datatype State = State(server: Authority, clients: map<u32, Api>)

  datatype Action =
    | DoRegister(c: u32)
    | DoUnRegister(c: u32)
    | Ask(c: u32, kind: Kind)
    | LoseRequest(c: u32)
    | Process(c: u32)
    | LoseReply(c: u32)
    | Receive(c: u32)
    | GiveUp(c: u32)
    | Clean(c: u32)

  predicate Enabled(s: State, a: Action) {
    && a.c in s.clients
    && var api := s.clients[a.c];
    match a
    case DoRegister(_) => api.call == None
    case DoUnRegister(_) => api.call == None
    case Ask(_, kind) => api.call == None && MayAsk(api.status, kind)
    case LoseRequest(_) => api.up != []
    case Process(_) => api.up != []
    case LoseReply(_) => api.down != []
    case Receive(_) => api.down != []
    case GiveUp(_) => api.call.Some?
    case Clean(_) => true
  }

  /** The server's answer to a request. */
  function Answer(server: Authority, c: u32, q: Asked): (Authority, Reply) {
    if q.kind == Request then
      var a := Requested(server, c);
      (a, Reply(q.ticket, Request, if a == OwnedBy(c) then Success else AuthRequested))
    else
      var a := Released(server, c);
      (a, Reply(q.ticket, Release, if a == Free then Success else OwnedByOthers))
  }

  /** A reply the client waits for ends its call; any other is dropped. */
  function Received(api: Api): Api
    requires api.down != []
  {
    var r := api.down[0];
    var rest := api.(down := api.down[1..]);
    if api.call.Some? && api.call.value.ticket == r.ticket
    then rest.(call := None, status := StatusAfter(api.status, api.call.value.kind, r.code))
    else rest
  }

  function Next(s: State, a: Action): State {
    if !Enabled(s, a) then s
    else
      var api := s.clients[a.c];
      match a
      case DoRegister(c) =>
        State(s.server, s.clients[c := api.(status := StatusRegistered(api.status))])
      case DoUnRegister(c) => State(s.server, s.clients[c := api.(status := Unregistered)])
      case Ask(c, kind) =>
        var q := Asked(api.next, kind);
        State(s.server, s.clients[c := api.(call := Some(q), next := api.next + 1, up := api.up + [q])])
      case LoseRequest(c) => State(s.server, s.clients[c := api.(up := api.up[1..])])
      case Process(c) =>
        var (server, reply) := Answer(s.server, c, api.up[0]);
        State(server, s.clients[c := api.(up := api.up[1..], down := api.down + [reply])])
      case LoseReply(c) => State(s.server, s.clients[c := api.(down := api.down[1..])])
      case Receive(c) => State(s.server, s.clients[c := Received(api)])
      case GiveUp(c) => State(s.server, s.clients[c := api.(call := None)])
      case Clean(c) => State(Released(s.server, c), s.clients)
  }

  function Start(pids: set<u32>): State {
    State(Free, map c | c in pids :: Api(Unregistered, None, 0, [], []))
  }

  function Run(pids: set<u32>, actions: seq<Action>): State {
    if actions == [] then Start(pids)
    else Next(Run(pids, actions[..|actions| - 1]), actions[|actions| - 1])
  }

  /** The server grants a request exactly when the client then has the authority, which it takes from nobody; it grants
      a release exactly when nobody then has it, and takes it from the client only. */
  lemma AnswerMeans(s: State, c: u32)
    requires Enabled(s, Process(c))
    ensures var q, s' := s.clients[c].up[0], Next(s, Process(c));
      var r := s'.clients[c].down[|s'.clients[c].down| - 1];
      && s'.clients[c].up == s.clients[c].up[1..] && s'.clients[c].down == s.clients[c].down + [r]
      && s'.clients[c].status == s.clients[c].status && s'.clients[c].call == s.clients[c].call
      && r.ticket == q.ticket && r.kind == q.kind
      && (q.kind == Request ==>
            && s'.server == (if s.server == Free then OwnedBy(c) else s.server)
            && r.code == (if s.server == Free || s.server == OwnedBy(c) then Success else AuthRequested))
      && (q.kind == Release ==>
            && s'.server == (if s.server == OwnedBy(c) then Free else s.server)
            && r.code == (if s.server == Free || s.server == OwnedBy(c) then Success else OwnedByOthers))
  {
  }

  /** What a client's own steps do: registering makes an unregistered client registered and leaves an authed one,
      unregistering forgets both; asking puts one request with a new ticket at the end of the wire and makes it the
      call in progress; giving up ends that and leaves the wire. */
  lemma OwnStepsMean(s: State, a: Action)
    requires Enabled(s, a) && (a.DoRegister? || a.DoUnRegister? || a.Ask? || a.GiveUp?)
    ensures var s', api := Next(s, a), s.clients[a.c];
      && s'.server == s.server && s'.clients.Keys == s.clients.Keys
      && (forall d :: d in s.clients && d != a.c ==> s'.clients[d] == s.clients[d])
      && var api' := s'.clients[a.c];
      && api'.down == api.down
      && (a.Ask? ==> api'.call.Some? && api'.call.value.kind == a.kind && api'.up == api.up + [api'.call.value])
      && (a.Ask? ==> api'.call.value.ticket == api.next == api'.next - 1 && api'.status == api.status)
      && (!a.Ask? ==> api'.up == api.up && api'.next == api.next && api'.call == None)
      && (a.DoRegister? ==> api'.status != Unregistered && (api.status != Unregistered ==> api'.status == api.status))
      && (a.DoRegister? && api.status == Unregistered ==> api'.status == Registered)
      && (a.DoUnRegister? ==> api'.status == Unregistered) && (a.GiveUp? ==> api'.status == api.status)
  {
  }

  /** A client's status after the reply to its call: a granted request makes it authed, a carried-out release only
      registered, and a refusal leaves it; a reply to a call given up on changes nothing. */
  lemma ReceivedMeans(s: State, c: u32)
    requires Enabled(s, Receive(c))
    ensures var api, api' := s.clients[c], Next(s, Receive(c)).clients[c];
      var r := api.down[0];
      && api'.down == api.down[1..] && api'.up == api.up && api'.next == api.next
      && (if api.call.Some? && api.call.value.ticket == r.ticket then
            && api'.call == None
            && (r.code == Success && api.call.value.kind == Request ==> api'.status == Authed)
            && (r.code == Success && api.call.value.kind == Release ==> api'.status == Registered)
            && (r.code != Success ==> api'.status == api.status)
          else api'.call == api.call && api'.status == api.status)
  {
  }

  // ---------------------------------------------------------------- the invariant

  /** Tickets grow along the wire, and the call in progress is the last one drawn. */
  ghost predicate InOrder(api: Api) {
    && (forall i :: 0 <= i < |api.up| ==> api.up[i].ticket < api.next)
    && (forall i :: 0 <= i < |api.down| ==> api.down[i].ticket < api.next)
    && (forall i, j :: 0 <= i < j < |api.up| ==> api.up[i].ticket < api.up[j].ticket)
    && (forall i, j :: 0 <= i < j < |api.down| ==> api.down[i].ticket < api.down[j].ticket)
    && (forall i, j :: 0 <= i < |api.down| && 0 <= j < |api.up| ==> api.down[i].ticket < api.up[j].ticket)
    && (api.call.Some? ==> api.call.value.ticket == api.next - 1 && 0 < api.next)
    && (api.call.Some? && api.up != [] ==> api.up[|api.up| - 1] == api.call.value)
    && (api.call.Some? ==> forall i :: 0 <= i < |api.down| && api.down[i].ticket == api.next - 1 ==>
       api.down[i].kind == api.call.value.kind)
  }

  /** The authority was granted to the call in progress, which does not know yet. */
  predicate GrantOnItsWay(api: Api) {
    api.call.Some? && Reply(api.call.value.ticket, Request, Success) in api.down
  }

  /** A release is in progress whose request has been carried out or lost, and that no reply refuses. */
  ghost predicate ReleaseSettled(api: Api) {
    && api.call.Some? && api.call.value.kind == Release && api.up == []
    && forall i :: 0 <= i < |api.down| && api.down[i].ticket == api.call.value.ticket ==> api.down[i].code == Success
  }

  /** A client that believes it has the authority, or is about to, has it, or is about to believe otherwise. */
  ghost predicate Honest(server: Authority, c: u32, api: Api) {
    && (api.status == Authed ==> server == OwnedBy(c) || ReleaseSettled(api))
    && (GrantOnItsWay(api) ==> server == OwnedBy(c))
  }

  ghost predicate Inv(s: State) {
    forall c :: c in s.clients ==> InOrder(s.clients[c]) && Honest(s.server, c, s.clients[c])
  }

  /** The steps that do not take the authority from a client behind its back: no clean-up of a client that
      has it or is being granted it; no giving up on a release that was carried out, and no carrying out of
      a release that was given up on. */
  ghost predicate Fair(s: State, a: Action) {
    if !Enabled(s, a) then true
    else
      var api := s.clients[a.c];
      match a
      case Process(c) => api.up[0].kind == Release && s.server == OwnedBy(c) && api.status == Authed
        ==> api.call == Some(api.up[0])
      case GiveUp(c) => api.status == Authed ==> s.server == OwnedBy(c)
      case Clean(c) => s.server == OwnedBy(c) ==> (api.status == Authed ==> ReleaseSettled(api)) && !GrantOnItsWay(api)
      case _ => true
  }

  // ---------------------------------------------------------------- what each step does to one client

  lemma AskKeepsOrder(api: Api, q: Asked)
    requires InOrder(api) && api.call == None && q.ticket == api.next
    ensures InOrder(api.(call := Some(q), next := api.next + 1, up := api.up + [q]))
  {
  }

  lemma UpPoppedKeepsOrder(api: Api)
    requires InOrder(api) && api.up != []
    ensures InOrder(api.(up := api.up[1..]))
  {
  }

  lemma DownPoppedKeepsOrder(api: Api)
    requires InOrder(api) && api.down != []
    ensures InOrder(api.(down := api.down[1..]))
  {
  }

  lemma AnsweredKeepsOrder(api: Api, r: Reply)
    requires InOrder(api) && api.up != [] && r.ticket == api.up[0].ticket && r.kind == api.up[0].kind
    ensures InOrder(api.(up := api.up[1..], down := api.down + [r]))
  {
  }

  lemma EndedKeepsOrder(api: Api, status: Status)
    requires InOrder(api)
    ensures InOrder(api.(call := None, status := status)) && InOrder(api.(status := status))
  {
  }

  lemma StepKeepsOrder(s: State, a: Action)
    requires Enabled(s, a) && InOrder(s.clients[a.c])
    ensures InOrder(Next(s, a).clients[a.c])
  {
    hide InOrder, Answer;
    var api := s.clients[a.c];
    match a
    case DoRegister(c) => EndedKeepsOrder(api, StatusRegistered(api.status));
    case DoUnRegister(c) => EndedKeepsOrder(api, Unregistered);
    case Ask(c, kind) => AskKeepsOrder(api, Asked(api.next, kind));
    case LoseRequest(c) => UpPoppedKeepsOrder(api);
    case Process(c) =>
      AnswerIsFor(s.server, c, api.up[0]);
      AnsweredKeepsOrder(api, Answer(s.server, c, api.up[0]).1);
    case LoseReply(c) => DownPoppedKeepsOrder(api);
    case Receive(c) =>
      DownPoppedKeepsOrder(api);
      EndedKeepsOrder(api.(down := api.down[1..]), Received(api).status);
    case GiveUp(c) => EndedKeepsOrder(api, api.status);
    case Clean(c) =>
  }

  lemma AnswerIsFor(server: Authority, c: u32, q: Asked)
    ensures Answer(server, c, q).1.ticket == q.ticket && Answer(server, c, q).1.kind == q.kind
  {
  }

  /** Exactly the fair steps keep the client they are for honest. */
  lemma AskIsHonest(s: State, a: Action)
    requires Enabled(s, a) && InOrder(s.clients[a.c]) && Honest(s.server, a.c, s.clients[a.c])
    requires a.DoRegister? || a.DoUnRegister? || a.Ask? || a.LoseRequest?
    ensures Honest(Next(s, a).server, a.c, Next(s, a).clients[a.c])
  {
  }

  lemma ProcessIsHonestIff(s: State, c: u32)
    requires Enabled(s, Process(c)) && InOrder(s.clients[c]) && Honest(s.server, c, s.clients[c])
    ensures Honest(Next(s, Process(c)).server, c, Next(s, Process(c)).clients[c]) <==> Fair(s, Process(c))
  {
    var api := s.clients[c];
    assert |api.up| > 1 ==> api.up[0].ticket < api.up[|api.up| - 1].ticket;
  }

  lemma LoseReplyIsHonest(s: State, c: u32)
    requires Enabled(s, LoseReply(c)) && InOrder(s.clients[c]) && Honest(s.server, c, s.clients[c])
    ensures Honest(Next(s, LoseReply(c)).server, c, Next(s, LoseReply(c)).clients[c])
  {
  }

  lemma ReceiveIsHonest(s: State, c: u32)
    requires Enabled(s, Receive(c)) && InOrder(s.clients[c]) && Honest(s.server, c, s.clients[c])
    ensures Honest(Next(s, Receive(c)).server, c, Next(s, Receive(c)).clients[c])
  {
  }

  lemma EndIsHonestIff(s: State, a: Action)
    requires Enabled(s, a) && InOrder(s.clients[a.c]) && Honest(s.server, a.c, s.clients[a.c])
      && (a.GiveUp? || a.Clean?)
    ensures Honest(Next(s, a).server, a.c, Next(s, a).clients[a.c]) <==> Fair(s, a)
  {
  }

  lemma OthersStayHonest(s: State, a: Action)
    requires Inv(s)
    ensures forall c :: c in Next(s, a).clients && c != a.c ==>
      InOrder(Next(s, a).clients[c]) && Honest(Next(s, a).server, c, Next(s, a).clients[c])
  {
  }

  lemma ClientsStay(s: State, a: Action)
    ensures Next(s, a).clients.Keys == s.clients.Keys
  {
  }

  /** A step keeps every client honest exactly when it is fair. */
  lemma StepKeepsIff(s: State, a: Action)
    requires Inv(s)
    ensures Inv(Next(s, a)) <==> Fair(s, a)
  {
    hide InOrder, Honest, Answer, Received;
    OthersStayHonest(s, a);
    ClientsStay(s, a);
    if Enabled(s, a) {
      StepKeepsOrder(s, a);
      match a {
        case Process(c) => ProcessIsHonestIff(s, c);
        case LoseReply(c) => LoseReplyIsHonest(s, c);
        case Receive(c) => ReceiveIsHonest(s, c);
        case GiveUp(_) => EndIsHonestIff(s, a);
        case Clean(_) => EndIsHonestIff(s, a);
        case _ => AskIsHonest(s, a);
      }
      assert Inv(Next(s, a)) <==> Honest(Next(s, a).server, a.c, Next(s, a).clients[a.c]);
    }
  }

  ghost predicate FairRun(pids: set<u32>, actions: seq<Action>) {
    forall n :: 0 <= n < |actions| ==> Fair(Run(pids, actions[..n]), actions[n])
  }

  lemma FairPrefix(pids: set<u32>, actions: seq<Action>)
    requires actions != [] && FairRun(pids, actions)
    ensures FairRun(pids, actions[..|actions| - 1]) && Fair(Run(pids, actions[..|actions| - 1]), actions[|actions| - 1])
  {
    var before := actions[..|actions| - 1];
    forall n | 0 <= n < |before|
      ensures Fair(Run(pids, before[..n]), before[n])
    {
      assert before[..n] == actions[..n];
    }
  }

  lemma {:induction false} FairRunsKeep(pids: set<u32>, actions: seq<Action>)
    requires FairRun(pids, actions)
    ensures Inv(Run(pids, actions))
  {
    hide Next, Fair, FairRun;
    if actions != [] {
      FairPrefix(pids, actions);
      FairRunsKeep(pids, actions[..|actions| - 1]);
      StepKeepsIff(Run(pids, actions[..|actions| - 1]), actions[|actions| - 1]);
    }
  }

  // ---------------------------------------------------------------- the main results

  /** Status authed, and no release asked for that has not come back. */
  predicate HoldsAuthority(s: State, c: u32) {
    && c in s.clients && s.clients[c].status == Authed
    && (s.clients[c].call.Some? ==> s.clients[c].call.value.kind != Release)
  }

  /** In a fair run, a client that holds the authority is the server's recorded owner. */
  lemma HolderIsOwner(pids: set<u32>, actions: seq<Action>, c: u32)
    requires FairRun(pids, actions) && HoldsAuthority(Run(pids, actions), c)
    ensures Run(pids, actions).server == OwnedBy(c)
  {
    hide Run, FairRun;
    FairRunsKeep(pids, actions);
    var api := Run(pids, actions).clients[c];
    assert InOrder(api) && Honest(Run(pids, actions).server, c, api);
  }

  /** ... so there is at most one such client. */
  lemma AtMostOneHolder(pids: set<u32>, actions: seq<Action>, c: u32, d: u32)
    requires FairRun(pids, actions) && HoldsAuthority(Run(pids, actions), c) && HoldsAuthority(Run(pids, actions), d)
    ensures c == d
  {
    hide Run, FairRun, HoldsAuthority;
    HolderIsOwner(pids, actions, c);
    HolderIsOwner(pids, actions, d);
  }

  // ---------------------------------------------------------------- runs that are fair by their actions alone

  /** No call is given up on, and no client is cleaned up after; requests and replies may be lost. */
  predicate Plain(a: Action) { !a.GiveUp? && !a.Clean? }

  ghost predicate PlainRun(actions: seq<Action>) { forall n :: 0 <= n < |actions| ==> Plain(actions[n]) }

  /** All that is on the wire belongs to the call in progress. */
  ghost predicate Prompt(api: Api) {
    match api.call
    case None => api.up == [] && api.down == []
    case Some(q) =>
      && |api.up| + |api.down| <= 1 && (api.up != [] ==> api.up[0] == q)
      && (api.down != [] ==> api.down[0].ticket == q.ticket)
  }

  ghost predicate AllPrompt(s: State) { forall c :: c in s.clients ==> Prompt(s.clients[c]) }

  lemma PlainStepIsPrompt(s: State, a: Action)
    requires Enabled(s, a) && Plain(a) && Prompt(s.clients[a.c])
    ensures a.c in Next(s, a).clients && Prompt(Next(s, a).clients[a.c]) && Fair(s, a)
  {
    hide Requested, Released;
  }

  lemma PlainStepKeeps(s: State, a: Action)
    requires Plain(a) && AllPrompt(s)
    ensures AllPrompt(Next(s, a)) && Fair(s, a)
  {
    hide Prompt;
    if Enabled(s, a) {
      hide Next, Fair;
      PlainStepIsPrompt(s, a);
      OneClientChanges(s, a);
    }
  }

  lemma OneClientChanges(s: State, a: Action)
    ensures Next(s, a).clients.Keys == s.clients.Keys
    ensures forall c :: c in s.clients && c != a.c ==> Next(s, a).clients[c] == s.clients[c]
  {
  }

  lemma {:induction false} PlainRunsArePrompt(pids: set<u32>, actions: seq<Action>)
    requires PlainRun(actions)
    ensures AllPrompt(Run(pids, actions))
  {
    hide Next, Prompt;
    if actions == [] {
      StartIsPrompt(pids);
    } else {
      PlainRunsArePrompt(pids, actions[..|actions| - 1]);
      PlainStepKeeps(Run(pids, actions[..|actions| - 1]), actions[|actions| - 1]);
    }
  }

  lemma StartIsPrompt(pids: set<u32>)
    ensures AllPrompt(Start(pids))
  {
  }

  lemma PlainRunsAreFair(pids: set<u32>, actions: seq<Action>)
    requires PlainRun(actions)
    ensures FairRun(pids, actions)
  {
    hide Run, Fair, AllPrompt;
    forall n | 0 <= n < |actions|
      ensures Fair(Run(pids, actions[..n]), actions[n])
    {
      PlainRunsArePrompt(pids, actions[..n]);
      PlainStepKeeps(Run(pids, actions[..n]), actions[n]);
    }
  }

  /** In a run without those two kinds of action at most one client holds the authority, the server's owner. */
  lemma PlainHolderIsOwner(pids: set<u32>, actions: seq<Action>, c: u32, d: u32)
    requires PlainRun(actions) && HoldsAuthority(Run(pids, actions), c)
    ensures Run(pids, actions).server == OwnedBy(c)
    ensures HoldsAuthority(Run(pids, actions), d) ==> d == c
  {
    hide Run, FairRun, HoldsAuthority;
    PlainRunsAreFair(pids, actions);
    HolderIsOwner(pids, actions, c);
    if HoldsAuthority(Run(pids, actions), d) { AtMostOneHolder(pids, actions, c, d); }
  }

  // ---------------------------------------------------------------- what an unfair step leads to

  /** The state after more actions. */
  function Execute(s: State, actions: seq<Action>): State
    decreases |actions|
  {
    if actions == [] then s else Execute(Next(s, actions[0]), actions[1..])
  }

  lemma {:induction false} ExecuteMore(pids: set<u32>, before: seq<Action>, actions: seq<Action>)
    ensures Run(pids, before + actions) == Execute(Run(pids, before), actions)
    decreases |actions|
  {
    if actions == [] {
      assert before + actions == before;
    } else {
      var first := before + [actions[0]];
      assert first[..|before|] == before;
      ExecuteMore(pids, first, actions[1..]);
      assert first + actions[1..] == before + actions;
    }
  }

  ghost predicate HoldersOwn(s: State) { forall c :: HoldsAuthority(s, c) ==> s.server == OwnedBy(c) }

  function Receives(c: u32, n: nat): seq<Action> { seq(n, _ => Receive(c)) }

  /** What c does by itself: nothing, give up its call, or take replies that have come. */
  ghost predicate ByItself(c: u32, more: seq<Action>) {
    more == [] || more == [GiveUp(c)] || more == Receives(c, |more|)
  }

  lemma ExecuteOne(s: State, a: Action)
    ensures Execute(s, [a]) == Next(s, a)
  {
    hide Next;
    assert [a][1..] == [] && Execute(Next(s, a), []) == Next(s, a);
  }

  lemma ReceivesFirst(s: State, c: u32, n: nat)
    ensures Execute(s, Receives(c, n + 1)) == Execute(Next(s, Receive(c)), Receives(c, n))
  {
    hide Next;
    assert Receives(c, n + 1)[1..] == Receives(c, n);
  }

  /** A grant on its way that is no longer true is believed when it arrives. */
  lemma {:induction false} GrantArrives(s: State, c: u32, k: nat)
    requires c in s.clients && InOrder(s.clients[c]) && s.clients[c].call.Some? && s.server != OwnedBy(c)
    requires k < |s.clients[c].down|
    requires s.clients[c].down[k] == Reply(s.clients[c].call.value.ticket, Request, Success)
    ensures !HoldersOwn(Execute(s, Receives(c, k + 1)))
    decreases k
  {
    hide Execute;
    var api := s.clients[c];
    ReceivesFirst(s, c, k);
    if k == 0 {
      ExecuteNone(Next(s, Receive(c)), c);
      assert HoldsAuthority(Next(s, Receive(c)), c);
    } else {
      assert api.down[0].ticket < api.down[k].ticket;
      DownPoppedKeepsOrder(api);
      assert api.down[1..][k - 1] == api.down[k];
      GrantArrives(Next(s, Receive(c)), c, k - 1);
    }
  }

  lemma ExecuteNone(s: State, c: u32)
    ensures Execute(s, Receives(c, 0)) == s
  {
  }

  /** Without a grant on its way, the client is a holder at once, or is one when it gives up its release. */
  lemma UnfairToHolder(s: State, a: Action)
    requires Inv(s) && !Fair(s, a) && !(a.Clean? && GrantOnItsWay(s.clients[a.c]))
    ensures !HoldersOwn(Next(s, a)) || !HoldersOwn(Next(Next(s, a), GiveUp(a.c)))
  {
    hide InOrder;
    var c, s' := a.c, Next(s, a);
    assert Honest(s.server, c, s.clients[c]);
    if s'.clients[c].call.Some? && s'.clients[c].call.value.kind == Release {
      assert HoldsAuthority(Next(s', GiveUp(c)), c);
    } else {
      assert HoldsAuthority(s', c);
    }
  }

  /** After an unfair step some holder is not the owner, if not at once then as soon as the client gives up its
      call or has taken the replies that have come. */
  lemma UnfairLoses(s: State, a: Action)
    requires Inv(s) && !Fair(s, a)
    ensures exists more :: ByItself(a.c, more) && !HoldersOwn(Execute(Next(s, a), more))
  {
    hide Next, Fair, HoldersOwn, Honest, InOrder;
    var s' := Next(s, a);
    if a.Clean? && a.c in s.clients && GrantOnItsWay(s.clients[a.c]) {
      var api := s.clients[a.c];
      var k :| 0 <= k < |api.down| && api.down[k] == Reply(api.call.value.ticket, Request, Success);
      CleanTakes(s, a.c);
      GrantArrives(s', a.c, k);
      assert ByItself(a.c, Receives(a.c, k + 1));
    } else {
      UnfairIsEnabled(s, a);
      UnfairToHolder(s, a);
      ExecuteOne(s', GiveUp(a.c));
      assert Execute(s', []) == s';
      assert ByItself(a.c, []) && ByItself(a.c, [GiveUp(a.c)]);
    }
  }

  lemma UnfairIsEnabled(s: State, a: Action)
    requires !Fair(s, a)
    ensures Enabled(s, a)
  {
  }

  lemma CleanTakes(s: State, c: u32)
    requires Inv(s) && c in s.clients
    ensures Next(s, Clean(c)) == State(Released(s.server, c), s.clients)
    ensures InOrder(s.clients[c]) && Released(s.server, c) != OwnedBy(c)
  {
  }

  /** So a run that was fair until then is one step and what a client does by itself away from a holder who is
      not the owner. */
  lemma FirstUnfairStepLoses(pids: set<u32>, actions: seq<Action>, a: Action)
    requires FairRun(pids, actions) && !Fair(Run(pids, actions), a)
    ensures exists more :: ByItself(a.c, more) && !HoldersOwn(Run(pids, actions + [a] + more))
  {
    hide Run, Fair, FairRun, Next, HoldersOwn, ByItself, Inv;
    FairRunsKeep(pids, actions);
    var s := Run(pids, actions);
    UnfairLoses(s, a);
    var more :| ByItself(a.c, more) && !HoldersOwn(Execute(Next(s, a), more));
    ExecuteMore(pids, actions, [a]);
    ExecuteOne(s, a);
    ExecuteMore(pids, actions + [a], more);
  }

  // ---------------------------------------------------------------- runs with two holders

  /** Giving up on a carried-out release whose reply was lost makes two holders. */
  const LOST_RELEASE: seq<Action> :=
    [DoRegister(1), Ask(1, Request), Process(1), Receive(1), Ask(1, Release), Process(1), LoseReply(1), GiveUp(1),
     DoRegister(2), Ask(2, Request), Process(2), Receive(2)]

  /** So does cleaning up after a client that is still there. */
  const CLEANED: seq<Action> :=
    [DoRegister(1), Ask(1, Request), Process(1), Receive(1), Clean(1),
     DoRegister(2), Ask(2, Request), Process(2), Receive(2)]

  lemma ExecuteFour(s: State, a1: Action, a2: Action, a3: Action, a4: Action)
    ensures Execute(s, [a1, a2, a3, a4]) == Next(Next(Next(Next(s, a1), a2), a3), a4)
  {
    hide Next;
    assert [a1, a2, a3, a4][1..] == [a2, a3, a4] && [a2, a3, a4][1..] == [a3, a4] && [a3, a4][1..] == [a4]
      && [a4][1..] == [];
    var s1 := Next(s, a1);
    var s2 := Next(s1, a2);
    assert Execute(s, [a1, a2, a3, a4]) == Execute(s1, [a2, a3, a4]);
    assert Execute(s1, [a2, a3, a4]) == Execute(s2, [a3, a4]);
    assert Execute(s2, [a3, a4]) == Execute(Next(s2, a3), [a4]);
  }

  lemma GetsAuthority(s: State, c: u32)
    requires s.server == Free && c in s.clients && s.clients[c] == Api(Unregistered, None, 0, [], [])
    ensures Execute(s, [DoRegister(c), Ask(c, Request), Process(c), Receive(c)])
         == State(OwnedBy(c), s.clients[c := Api(Authed, None, 1, [], [])])
  {
    ExecuteFour(s, DoRegister(c), Ask(c, Request), Process(c), Receive(c));
    var s2 := Next(Next(s, DoRegister(c)), Ask(c, Request));
    var q := Asked(0, Request);
    assert s2.clients[c] == Api(Registered, Some(q), 1, [q], []);
    var s3 := Next(s2, Process(c));
    assert s3.clients[c] == Api(Registered, Some(q), 1, [], [Reply(0, Request, Success)]);
    assert Next(s3, Receive(c)).clients[c] == Api(Authed, None, 1, [], []);
  }

  lemma LosesRelease(s: State, c: u32)
    requires s.server == OwnedBy(c) && c in s.clients && s.clients[c] == Api(Authed, None, 1, [], [])
    ensures Execute(s, [Ask(c, Release), Process(c), LoseReply(c), GiveUp(c)])
         == State(Free, s.clients[c := Api(Authed, None, 2, [], [])])
  {
    ExecuteFour(s, Ask(c, Release), Process(c), LoseReply(c), GiveUp(c));
    var s1 := Next(s, Ask(c, Release));
    var q := Asked(1, Release);
    assert s1.clients[c] == Api(Authed, Some(q), 2, [q], []);
    var s2 := Next(s1, Process(c));
    assert s2.clients[c] == Api(Authed, Some(q), 2, [], [Reply(1, Release, Success)]);
    var s3 := Next(s2, LoseReply(c));
    assert s3.clients[c] == Api(Authed, Some(q), 2, [], []);
  }

  lemma StartOfTwo()
    ensures Run({1, 2}, []).clients
      == map[1 := Api(Unregistered, None, 0, [], []), 2 := Api(Unregistered, None, 0, [], [])]
    ensures Run({1, 2}, []).server == Free
  {
  }

  /** Two clients hold the authority after the lost release. */
  lemma LostReleaseMakesTwoHolders()
    ensures HoldsAuthority(Run({1, 2}, LOST_RELEASE), 1) && HoldsAuthority(Run({1, 2}, LOST_RELEASE), 2)
  {
    hide Run, Next, Execute;
    var a := [DoRegister(1), Ask(1, Request), Process(1), Receive(1)];
    var b := [Ask(1, Release), Process(1), LoseReply(1), GiveUp(1)];
    var c := [DoRegister(2), Ask(2, Request), Process(2), Receive(2)];
    StartOfTwo();
    ExecuteMore({1, 2}, [], a);
    GetsAuthority(Run({1, 2}, []), 1);
    assert [] + a == a;
    ExecuteMore({1, 2}, a, b);
    LosesRelease(Run({1, 2}, a), 1);
    ExecuteMore({1, 2}, a + b, c);
    GetsAuthority(Run({1, 2}, a + b), 2);
    assert a + b + c == LOST_RELEASE;
  }

  lemma CleanFrees(s: State, c: u32)
    requires s.server == OwnedBy(c) && c in s.clients
    ensures Execute(s, [Clean(c)]) == State(Free, s.clients)
  {
  }

  lemma CleanMakesTwoHolders()
    ensures HoldsAuthority(Run({1, 2}, CLEANED), 1) && HoldsAuthority(Run({1, 2}, CLEANED), 2)
  {
    hide Run, Next, Execute;
    var a := [DoRegister(1), Ask(1, Request), Process(1), Receive(1)];
    var b := [Clean(1)];
    var c := [DoRegister(2), Ask(2, Request), Process(2), Receive(2)];
    StartOfTwo();
    ExecuteMore({1, 2}, [], a);
    GetsAuthority(Run({1, 2}, []), 1);
    assert [] + a == a;
    ExecuteMore({1, 2}, a, b);
    CleanFrees(Run({1, 2}, a), 1);
    ExecuteMore({1, 2}, a + b, c);
    GetsAuthority(Run({1, 2}, a + b), 2);
    assert a + b + c == CLEANED;
  }
}
