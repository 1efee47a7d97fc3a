/** How the packets of the protocol advance: no request is handled twice, no reply is used twice. */
module ProtocolHistory {
  import opened Outcomes
  import opened PwrMessage
  import opened Sequences
  import MsgRing
  import opened Protocol
  import opened ProtocolNetwork
  import opened ProtocolLinks
  import ProtocolCallers
  import ProtocolSteps

  // ---------------------------------------------------------------- packets only move forward

  function Rank(p: Place): nat {
    match p
    case Fresh => 0
    case ClientRing => 1
    case Upstream(_) => 2
    case ServerRing => 3
    case Service => 4
    case ReplyRing => 5
    case Downstream(_) => 6
    case Given(_) => 7
    case Gone => 7
  }

  /** No call is forgotten; what moves, moves on; what has been given to a waiter or dropped, stays. */
  ghost predicate Advances(s: State, s': State) {
    forall x :: x in s.place ==>
      x in s'.place && (s'.place[x] == s.place[x] || Rank(s.place[x]) < Rank(s'.place[x]))
  }

  lemma MovedAdvances(s: State, s': State, x: Token, at: Place)
    requires Moved(s, s', x, at) && Rank(at) < Rank(s'.place[x])
    ensures Advances(s, s')
  {
  }

  lemma MovedInAdvances(s: State, s': State, x: Token, at: Place, ring: seq<Packet>, into: Place)
    requires MovedIn(s, s', x, at, ring, into) && Rank(at) < Rank(s'.place[x])
    requires MsgRing.Displaced(ring).Some? ==> Rank(into) < Rank(s'.place[ring[0].tok])
    ensures Advances(s, s')
  {
  }

  lemma DrawAdvances(s: State, c: u32, optType: u16, taskNo: u32, dataLen: u32, data: seq<u8>)
    requires Inv(s) && c in s.clients
    ensures Advances(s, DoDraw(s, c, optType, taskNo, dataLen, data))
  {
    hide FreshInv, RingsInv, ConnsInv, TableInv, WaitInv, StartInv, GivenInv, TakenInv;
    ProtocolCallers.DrawIsNew(s, c);
  }

  lemma EnqueueAdvances(s: State, t: Token)
    requires Inv(s) && t in s.calls && t.client in s.clients && s.calls[t].phase == Drawn
    ensures Advances(s, DoEnqueue(s, t))
  {
    hide CallsInv, FreshInv, RingsInv, ConnsInv, TableInv, WaitInv, StartInv, GivenInv, TakenInv;
    var s1, ring := SetPhase(s, t, Queued), s.clients[t.client].ring;
    DrawnIsFresh(s, t);
    ProtocolCallers.QueuedKeeps(s, t);
    PlacesOfCalls(s1);
    PushMoves(s1, t);
    assert DoEnqueue(s, t) == PushRequest(s1, t);
    if MsgRing.Displaced(ring).Some? { assert ring[0].tok != t; }
    MovedInAdvances(s1, PushRequest(s1, t), t, Fresh, ring, ClientRing);
  }

  lemma ClientSendAdvances(s: State, c: u32)
    requires Inv(s) && c in s.clients && Connected(s, c) && s.clients[c].ring != []
    ensures Advances(s, DoClientSend(s, c))
  {
    hide Inv, Moved;
    ClientSendMoves(s, c);
    MovedAdvances(s, DoClientSend(s, c), s.clients[c].ring[0].tok, ClientRing);
  }

  lemma ClientRecvAdvances(s: State, c: u32, i: nat)
    requires Inv(s) && CanRecv(s, c, i)
    ensures Advances(s, DoClientRecv(s, c, i))
  {
    hide Inv, Moved;
    RecvQueues(s, c, i);
    MovedAdvances(s, DoClientRecv(s, c, i), Arriving(s, c).tok, Downstream(s.clients[c].conn.value));
  }

  lemma ServerRecvAdvances(s: State, c: u32)
    requires Inv(s) && Registered(s, c) && s.conns[s.table[c]].up != []
    ensures Advances(s, DoServerRecv(s, c))
  {
    hide Inv;
    ServerRecvMoves(s, c);
    MovedInAdvances(s, DoServerRecv(s, c), s.conns[s.table[c]].up[0].tok, Upstream(s.table[c]), s.recvRing, ServerRing);
  }

  lemma ServeAdvances(s: State)
    requires Inv(s) && s.recvRing != []
    ensures Advances(s, DoServe(s))
  {
    hide CallsInv, FreshInv, RingsInv, ConnsInv, TableInv, WaitInv, StartInv, GivenInv, TakenInv, Moved;
    PlacesOfCalls(s);
    ServeRings(s);
    MovedAdvances(s, DoServe(s), s.recvRing[0].tok, ServerRing);
  }

  lemma AnswerAdvances(s: State, rspCode: u16, data: seq<u8>, dataLen: u32)
    requires Inv(s) && s.service.Some?
    ensures Advances(s, DoAnswer(s, rspCode, data, dataLen))
  {
    hide CallsInv, FreshInv, RingsInv, ConnsInv, TableInv, WaitInv, StartInv, GivenInv, TakenInv;
    PlacesOfCalls(s);
    AnswerMoves(s, rspCode, data, dataLen);
    MovedInAdvances(s, DoAnswer(s, rspCode, data, dataLen), s.service.value.tok, Service, s.sendRing, ReplyRing);
  }

  lemma StaySilentAdvances(s: State)
    requires Inv(s) && s.service.Some?
    ensures Advances(s, DoStaySilent(s))
  {
    hide CallsInv, FreshInv, RingsInv, ConnsInv, TableInv, WaitInv, StartInv, GivenInv, TakenInv, Moved;
    PlacesOfCalls(s);
    StaySilentRings(s);
    MovedAdvances(s, DoStaySilent(s), s.service.value.tok, Service);
  }

  lemma ServerSendAdvances(s: State)
    requires Inv(s) && s.sendRing != []
    ensures Advances(s, DoServerSend(s))
  {
    hide CallsInv, FreshInv, RingsInv, ConnsInv, TableInv, WaitInv, StartInv, GivenInv, TakenInv, Moved;
    PlacesOfCalls(s);
    ServerSendMoves(s);
    MovedAdvances(s, DoServerSend(s), s.sendRing[0].tok, ReplyRing);
  }

  lemma CrowdAdvances(s: State)
    requires Inv(s) && s.sendRing != []
    ensures Advances(s, DoCrowd(s))
  {
    hide CallsInv, FreshInv, RingsInv, ConnsInv, TableInv, WaitInv, StartInv, GivenInv, TakenInv, Moved;
    PlacesOfCalls(s);
    CrowdRings(s);
    MovedAdvances(s, DoCrowd(s), s.sendRing[0].tok, ReplyRing);
  }

  lemma StillAdvances(s: State, s': State)
    requires s'.place == s.place
    ensures Advances(s, s')
  {
  }

  lemma CallersMoveNothing(s: State, a: Action)
    requires a.Refuse? || a.Register? || a.Wake? || a.TimeOut? || a.MoveOut? || a.Return? || a.GiveReply?
    ensures Next(s, a).place == s.place
  {
    hide HeadOf;
  }

  lemma LinksMoveNothing(s: State, a: Action)
    requires a.Disconnect? || a.Connect? || a.Accept? || a.ServerClose?
    ensures Next(s, a).place == s.place
  {
    hide Close;
  }

  lemma NothingMoves(s: State, a: Action)
    requires (ByCaller(a) && !a.Draw? && !a.Enqueue?) || a.Disconnect? || a.Connect? || a.Accept? || a.ServerClose?
    ensures Advances(s, Next(s, a))
  {
    hide Next, Advances;
    if ByCaller(a) { CallersMoveNothing(s, a); } else { LinksMoveNothing(s, a); }
    StillAdvances(s, Next(s, a));
  }

  lemma StepAdvances(s: State, a: Action)
    requires Inv(s)
    ensures Advances(s, Next(s, a))
  {
    hide Inv, Advances, DoDraw, DoEnqueue, DoClientSend, DoClientRecv, DoServerRecv, DoServe, DoAnswer, DoStaySilent,
         DoServerSend, DoCrowd, SetPhase, DoRegister, DoMoveOut, DoReturn, DoGiveReply, DoDisconnect, DoConnect,
         DoAccept, DoServerClose;
    if !Enabled(s, a) {
      StillAdvances(s, s);
    } else {
      match a
      case Draw(c, optType, taskNo, dataLen, data) => DrawAdvances(s, c, optType, taskNo, dataLen, data);
      case Enqueue(t) => EnqueueAdvances(s, t);
      case ClientSend(c) => ClientSendAdvances(s, c);
      case ClientRecv(c, i) => ClientRecvAdvances(s, c, i);
      case ServerRecv(c) => ServerRecvAdvances(s, c);
      case Serve => ServeAdvances(s);
      case Answer(rspCode, data, dataLen) => AnswerAdvances(s, rspCode, data, dataLen);
      case StaySilent => StaySilentAdvances(s);
      case ServerSend => ServerSendAdvances(s);
      case Crowd => CrowdAdvances(s);
      case _ => NothingMoves(s, a);
    }
  }

  // ---------------------------------------------------------------- what a run does to requests

  /** The request that a step takes from the service's ring. */
  function ServedBy(s: State, a: Action): seq<Token> {
    if a == Serve && Enabled(s, a) then [s.recvRing[0].tok] else []
  }

  /** The request that a step answers. */
  function AnsweredBy(s: State, a: Action): seq<Token> {
    if a.Answer? && Enabled(s, a) then [s.service.value.tok] else []
  }

  /** The reply, by its request, and the waiter that a step brings together. */
  function DeliveredBy(s: State, a: Action): seq<(Token, Token)> {
    if a.ClientRecv? && Enabled(s, a) && a.pick < |s.clients[a.c].waiting|
    then [(Arriving(s, a.c).tok, s.clients[a.c].waiting[a.pick])] else []
  }

  function Served(pids: set<u32>, actions: seq<Action>): seq<Token> {
    if actions == [] then []
    else
      var before := actions[..|actions| - 1];
      Served(pids, before) + ServedBy(Run(pids, before), actions[|actions| - 1])
  }

  function Answered(pids: set<u32>, actions: seq<Action>): seq<Token> {
    if actions == [] then []
    else
      var before := actions[..|actions| - 1];
      Answered(pids, before) + AnsweredBy(Run(pids, before), actions[|actions| - 1])
  }

  function Delivered(pids: set<u32>, actions: seq<Action>): seq<(Token, Token)> {
    if actions == [] then []
    else
      var before := actions[..|actions| - 1];
      Delivered(pids, before) + DeliveredBy(Run(pids, before), actions[|actions| - 1])
  }

  /** Everything in the list has come at least as far as rank r. */
  ghost predicate Past(s: State, xs: seq<Token>, r: nat) {
    forall i :: 0 <= i < |xs| ==> xs[i] in s.place && r <= Rank(s.place[xs[i]])
  }

  lemma PastOnce(s: State, s': State, xs: seq<Token>, x: Token, r: nat)
    requires Past(s, xs, r) && Distinct(xs) && Advances(s, s')
    requires x in s.place && Rank(s.place[x]) < r && x in s'.place && r <= Rank(s'.place[x])
    ensures Past(s', xs + [x], r) && Distinct(xs + [x])
  {
  }

  lemma PastStays(s: State, s': State, xs: seq<Token>, r: nat)
    requires Past(s, xs, r) && Advances(s, s')
    ensures Past(s', xs, r)
  {
  }

  lemma FrontOfRing(s: State)
    requires Inv(s)
    ensures s.recvRing != [] ==> s.recvRing[0].tok in s.place && s.place[s.recvRing[0].tok] == ServerRing
    ensures s.service.Some? ==> s.service.value.tok in s.place && s.place[s.service.value.tok] == Service
  {
  }

  lemma AnswerPlaces(s: State, rspCode: u16, data: seq<u8>, dataLen: u32)
    requires s.service.Some?
    ensures var x := s.service.value.tok; var s' := DoAnswer(s, rspCode, data, dataLen);
      x in s'.place && s'.place[x] == ReplyRing
  {
  }

  /** The service takes no request twice. */
  lemma {:induction false} ServedOnce(pids: set<u32>, actions: seq<Action>)
    ensures Distinct(Served(pids, actions)) && Past(Run(pids, actions), Served(pids, actions), 4)
  {
    hide Inv, Advances, Past, Next;
    if actions == [] {
      NothingIsPast(Start(pids), 4);
    } else {
      var before, a := actions[..|actions| - 1], actions[|actions| - 1];
      var s := Run(pids, before);
      ServedOnce(pids, before);
      ProtocolSteps.EveryRunKeeps(pids, before);
      StepAdvances(s, a);
      if ServedBy(s, a) == [] {
        assert Served(pids, actions) == Served(pids, before);
        PastStays(s, Next(s, a), Served(pids, before), 4);
      } else {
        FrontOfRing(s);
        ServePlaces(s);
        PastOnce(s, Next(s, a), Served(pids, before), s.recvRing[0].tok, 4);
      }
    }
  }

  lemma NothingIsPast(s: State, r: nat)
    ensures Past(s, [], r)
  {
  }

  lemma ServePlaces(s: State)
    requires Enabled(s, Serve)
    ensures var x := s.recvRing[0].tok; x in Next(s, Serve).place && Next(s, Serve).place[x] == Service
  {
  }

  /** The service answers no request twice. */
  lemma {:induction false} AnsweredOnce(pids: set<u32>, actions: seq<Action>)
    ensures Distinct(Answered(pids, actions)) && Past(Run(pids, actions), Answered(pids, actions), 5)
  {
    hide Inv, Advances, Past, DoAnswer;
    if actions == [] {
      NothingIsPast(Start(pids), 5);
    } else {
      var before, a := actions[..|actions| - 1], actions[|actions| - 1];
      var s := Run(pids, before);
      AnsweredOnce(pids, before);
      ProtocolSteps.EveryRunKeeps(pids, before);
      StepAdvances(s, a);
      if AnsweredBy(s, a) == [] {
        assert Answered(pids, actions) == Answered(pids, before);
        PastStays(s, Next(s, a), Answered(pids, before), 5);
      } else {
        FrontOfRing(s);
        AnswerPlaces(s, a.rspCode, a.data, a.dataLen);
        PastOnce(s, Next(s, a), Answered(pids, before), s.service.value.tok, 5);
      }
    }
  }

  lemma CallersLeaveService(s: State, a: Action)
    requires ByCaller(a)
    ensures Next(s, a).service == s.service
  {
  }

  lemma CarriersLeaveService(s: State, a: Action)
    requires a.ClientSend? || a.ClientRecv? || a.Disconnect? || a.Connect? || a.Accept? || a.ServerRecv?
      || a.ServerClose? || a.ServerSend? || a.Crowd?
    ensures Next(s, a).service == s.service
  {
  }

  lemma ServiceStep(s: State, a: Action)
    requires a.Serve? || a.Answer? || a.StaySilent?
    ensures Next(s, a).service.Some? && Next(s, a).service != s.service ==>
      ServedBy(s, a) == [Next(s, a).service.value.tok]
  {
  }

  lemma ServiceComesFromServe(s: State, a: Action)
    ensures Next(s, a).service.Some? && Next(s, a).service != s.service ==>
      ServedBy(s, a) == [Next(s, a).service.value.tok]
  {
    hide Next;
    if a.Serve? || a.Answer? || a.StaySilent? {
      ServiceStep(s, a);
    } else if ByCaller(a) {
      CallersLeaveService(s, a);
    } else {
      CarriersLeaveService(s, a);
    }
  }

  /** The service answers only what it took. */
  lemma {:induction false} AnsweredWereServed(pids: set<u32>, actions: seq<Action>)
    ensures forall x :: x in Answered(pids, actions) ==> x in Served(pids, actions)
    ensures Run(pids, actions).service.Some? ==> Run(pids, actions).service.value.tok in Served(pids, actions)
  {
    hide Next;
    if actions != [] {
      AnsweredWereServed(pids, actions[..|actions| - 1]);
      ServiceComesFromServe(Run(pids, actions[..|actions| - 1]), actions[|actions| - 1]);
    }
  }

  // ---------------------------------------------------------------- replies and waiters

  lemma CallersGiveNothing(s: State, a: Action, x: Token)
    requires ByCaller(a)
    requires x in Next(s, a).place && Next(s, a).place[x].Given?
    ensures x in s.place && s.place[x] == Next(s, a).place[x]
  {
  }

  lemma CarriersGiveNothing(s: State, a: Action, x: Token)
    requires !ByCaller(a)
    requires !a.ClientRecv?
    requires x in Next(s, a).place && Next(s, a).place[x].Given?
    ensures x in s.place && s.place[x] == Next(s, a).place[x]
  {
  }

  lemma RecvGives(s: State, c: u32, i: nat)
    requires Enabled(s, ClientRecv(c, i))
    ensures var s', ds := DoClientRecv(s, c, i), DeliveredBy(s, ClientRecv(c, i));
      s'.place == s.place[Arriving(s, c).tok := if ds == [] then Gone else Given(ds[0].1)]
  {
  }

  /** A reply gets to a waiter only by a step that delivers it. */
  lemma GivenByDelivery(s: State, a: Action, x: Token)
    requires x in Next(s, a).place && Next(s, a).place[x].Given?
    ensures (x in s.place && s.place[x] == Next(s, a).place[x])
         || DeliveredBy(s, a) == [(x, Next(s, a).place[x].to)]
  {
    hide Next, DoClientRecv;
    if a.ClientRecv? && Enabled(s, a) {
      RecvGives(s, a.c, a.pick);
      RecvIsNext(s, a.c, a.pick);
    } else if a.ClientRecv? {
      DisabledStays(s, a);
    } else if ByCaller(a) {
      CallersGiveNothing(s, a, x);
    } else {
      CarriersGiveNothing(s, a, x);
    }
  }

  lemma RecvIsNext(s: State, c: u32, i: nat)
    requires Enabled(s, ClientRecv(c, i))
    ensures Next(s, ClientRecv(c, i)) == DoClientRecv(s, c, i)
  {
  }

  lemma DisabledStays(s: State, a: Action)
    requires !Enabled(s, a)
    ensures Next(s, a) == s
  {
  }

  /** What has been delivered is where the history says, and nothing else is. */
  ghost predicate DeliveredOk(s: State, ds: seq<(Token, Token)>) {
    && (forall i :: 0 <= i < |ds| ==> ds[i].0 in s.place && s.place[ds[i].0] == Given(ds[i].1))
    && (forall x :: x in s.place && s.place[x].Given? ==> (x, s.place[x].to) in ds)
    && (forall i, j :: 0 <= i < j < |ds| ==> ds[i].0 != ds[j].0)
  }

  lemma DeliveredStays(s: State, a: Action, ds: seq<(Token, Token)>)
    requires DeliveredOk(s, ds) && Advances(s, Next(s, a)) && DeliveredBy(s, a) == []
    ensures DeliveredOk(Next(s, a), ds)
  {
    hide Next, DeliveredBy;
    var s' := Next(s, a);
    forall i | 0 <= i < |ds|
      ensures ds[i].0 in s'.place && s'.place[ds[i].0] == Given(ds[i].1)
    {
      AtRankSeven(s, s', ds[i].0);
    }
    forall x | x in s'.place && s'.place[x].Given?
      ensures (x, s'.place[x].to) in ds
    {
      GivenByDelivery(s, a, x);
    }
  }

  lemma AtRankSeven(s: State, s': State, x: Token)
    requires Advances(s, s') && x in s.place && s.place[x].Given?
    ensures x in s'.place && s'.place[x] == s.place[x]
  {
  }

  lemma DeliveredGrows(s: State, a: Action, ds: seq<(Token, Token)>, x: Token, t: Token)
    requires DeliveredOk(s, ds) && Advances(s, Next(s, a)) && DeliveredBy(s, a) == [(x, t)]
    requires x in s.place && !s.place[x].Given? && x in Next(s, a).place && Next(s, a).place[x] == Given(t)
    ensures DeliveredOk(Next(s, a), ds + [(x, t)])
  {
  }

  lemma DeliveryPlaces(s: State, c: u32, i: nat)
    requires Inv(s) && Enabled(s, ClientRecv(c, i)) && DeliveredBy(s, ClientRecv(c, i)) != []
    ensures var (x, t) := DeliveredBy(s, ClientRecv(c, i))[0];
      x in s.place && s.place[x].Downstream? && x in Next(s, ClientRecv(c, i)).place
        && Next(s, ClientRecv(c, i)).place[x] == Given(t)
  {
    hide CallsInv, FreshInv, RingsInv, TableInv, WaitInv, StartInv, GivenInv, TakenInv, SetClient, RemoveAt;
  }

  lemma {:induction false} DeliveriesHold(pids: set<u32>, actions: seq<Action>)
    ensures DeliveredOk(Run(pids, actions), Delivered(pids, actions))
  {
    hide Inv, Advances, Next, DeliveredOk;
    if actions == [] {
      NothingDelivered(pids);
    } else {
      var before, a := actions[..|actions| - 1], actions[|actions| - 1];
      var s := Run(pids, before);
      DeliveriesHold(pids, before);
      ProtocolSteps.EveryRunKeeps(pids, before);
      StepAdvances(s, a);
      if DeliveredBy(s, a) == [] {
        assert Delivered(pids, actions) == Delivered(pids, before);
        DeliveredStays(s, a, Delivered(pids, before));
      } else {
        DeliveryPlaces(s, a.c, a.pick);
        DeliveredGrows(s, a, Delivered(pids, before), DeliveredBy(s, a)[0].0, DeliveredBy(s, a)[0].1);
      }
    }
  }

  lemma NothingDelivered(pids: set<u32>)
    ensures DeliveredOk(Start(pids), [])
  {
  }

  lemma OneReplyPerWaiter(s: State, a: Token, b: Token)
    requires Inv(s) && a in s.place && b in s.place && s.place[a].Given? && s.place[a] == s.place[b]
    ensures a == b
  {
  }

  /** Over a whole run each reply goes to at most one waiter and each waiter gets at most one reply. */
  lemma DeliveredOnce(pids: set<u32>, actions: seq<Action>, i: nat, j: nat)
    requires i < j < |Delivered(pids, actions)|
    ensures var ds := Delivered(pids, actions); ds[i].0 != ds[j].0 && ds[i].1 != ds[j].1
  {
    hide Inv, Run, Delivered;
    var ds := Delivered(pids, actions);
    DeliveriesHold(pids, actions);
    ProtocolSteps.EveryRunKeeps(pids, actions);
    if ds[i].1 == ds[j].1 { OneReplyPerWaiter(Run(pids, actions), ds[i].0, ds[j].0); }
  }

  /** What a call returned was delivered to it, so two calls never return the same reply. */
  lemma ResultsWereDelivered(pids: set<u32>, actions: seq<Action>, t: Token)
    requires var s := Run(pids, actions); t in s.calls && s.calls[t].result.Some?
    ensures (Run(pids, actions).calls[t].result.value.tok, t) in Delivered(pids, actions)
  {
    hide CallsInv, FreshInv, RingsInv, ConnsInv, TableInv, WaitInv, StartInv, GivenInv, Run, Delivered;
    DeliveriesHold(pids, actions);
    ProtocolSteps.EveryRunKeeps(pids, actions);
    assert PacketOk(Run(pids, actions), Run(pids, actions).calls[t].result.value, Given(t), true);
  }
}
