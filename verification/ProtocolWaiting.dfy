/** The callers' wait lists over whole runs: when a call leaves its list, and when leaving ends the process. */
module ProtocolWaiting {
  import opened Outcomes
  import opened PwrMessage
  import opened Sequences
  import WaitList
  import opened Protocol
  import opened ProtocolHistory
  import ProtocolCallers
  import ProtocolLinks
  import ProtocolSteps

  // ---------------------------------------------------------------- leaving the wait list

  /** In an undamaged list, a call that times out leaves its node behind exactly when the head it read has
      left the list. */
  lemma MoveOutMissesIff(pids: set<u32>, actions: seq<Action>, t: Token)
    requires Enabled(Run(pids, actions), MoveOut(t, true))
    ensures var s := Run(pids, actions);
      var waiting, start := s.clients[t.client].waiting, s.calls[t].phase.start;
      t in DoMoveOut(s, t, true).clients[t.client].waiting <==> t in waiting && start.Some? && start.value !in waiting
  {
    hide CallsInv, FreshInv, RingsInv, ConnsInv, TableInv, GivenInv, TakenInv, Run;
    ProtocolSteps.EveryRunKeeps(pids, actions);
    var s := Run(pids, actions);
    ProtocolCallers.WaitingIsDistinct(s, t.client);
    WaitList.MoveOutSucceedsIff(s.clients[t.client].waiting, s.calls[t].phase.start, t);
  }

  /** Steps in which no wakeup is spurious and no removal starts from a head that has left the list. */
  predicate Orderly(s: State, a: Action) {
    match a
    case Wake(t) => t in s.calls && s.calls[t].rsp.Some?
    case MoveOut(t, _) =>
      t in s.calls && t.client in s.clients
      && (s.calls[t].phase.TimedOut? && s.calls[t].phase.start.Some? ==>
            t !in s.clients[t.client].waiting || s.calls[t].phase.start.value in s.clients[t.client].waiting)
    case _ => true
  }

  ghost predicate OrderlyRun(pids: set<u32>, actions: seq<Action>) {
    forall n :: 0 <= n < |actions| ==> Orderly(Run(pids, actions[..n]), actions[n])
  }

  /** A call past the wait has no node in the list. */
  ghost predicate ReturnedAreOut(s: State) {
    forall t :: t in s.calls && (s.calls[t].phase == Woken || s.calls[t].phase == Done) && t.client in s.clients ==>
      t !in s.clients[t.client].waiting
  }

  predicate PastTheWait(p: Phase) { p == Woken || p == Done }

  /** A call was already past the wait, and its node does not come back; or its node is out now. */
  ghost predicate StayOut(s: State, s': State) {
    forall t :: t in s'.calls && PastTheWait(s'.calls[t].phase) && t.client in s'.clients ==>
      || t !in s'.clients[t.client].waiting
      || (t in s.calls && PastTheWait(s.calls[t].phase) && t.client in s.clients && t in s.clients[t.client].waiting)
  }

  lemma OutStays(s: State, s': State)
    requires ReturnedAreOut(s) && StayOut(s, s')
    ensures ReturnedAreOut(s')
  {
  }

  lemma RefuseStaysOut(s: State, t: Token)
    requires Inv(s) && Enabled(s, Refuse(t))
    ensures StayOut(s, Next(s, Refuse(t)))
  {
  }

  lemma WakeStaysOut(s: State, t: Token)
    requires Inv(s) && Enabled(s, Wake(t)) && Orderly(s, Wake(t))
    ensures StayOut(s, Next(s, Wake(t)))
  {
  }

  /** The list after MoveOut holds nothing new, and not the call's own node. */
  lemma AfterMoveOutShrinks(waiting: seq<Token>, start: Option<Token>, t: Token)
    requires Distinct(waiting) && (t in waiting ==> start.Some? && start.value in waiting && waiting[0] == start.value)
    ensures t !in WaitList.AfterMoveOut(waiting, start, t)
    ensures forall x :: x in WaitList.AfterMoveOut(waiting, start, t) ==> x in waiting
  {
  }

  lemma OrderlyHead(s: State, t: Token)
    requires Inv(s) && Enabled(s, MoveOut(t, true)) && Orderly(s, MoveOut(t, true))
    ensures var waiting, start := s.clients[t.client].waiting, s.calls[t].phase.start;
      t in waiting ==> start.Some? && start.value in waiting && waiting[0] == start.value
  {
  }

  lemma UndamagedIsReached(s: State, t: Token, reach: bool)
    requires Inv(s) && ReturnedAreOut(s) && Enabled(s, MoveOut(t, reach))
    ensures reach
  {
    hide Inv;
    ProtocolCallers.WaitingIsDistinct(s, t.client);
  }

  lemma MoveOutTakesOut(s: State, t: Token, reach: bool)
    requires Inv(s) && ReturnedAreOut(s) && Enabled(s, MoveOut(t, reach)) && Orderly(s, MoveOut(t, reach))
    ensures StayOut(s, Next(s, MoveOut(t, reach)))
  {
    hide Inv, Orderly, WaitList.AfterMoveOut, Distinct, ReturnedAreOut;
    UndamagedIsReached(s, t, reach);
    ProtocolCallers.WaitingIsDistinct(s, t.client);
    OrderlyHead(s, t);
    AfterMoveOutShrinks(s.clients[t.client].waiting, s.calls[t].phase.start, t);
  }

  lemma RecvStaysOut(s: State, c: u32, i: nat)
    requires Inv(s) && Enabled(s, ClientRecv(c, i))
    ensures StayOut(s, DoClientRecv(s, c, i))
  {
    hide Inv;
    ProtocolCallers.WaitingIsDistinct(s, c);
    if i < |s.clients[c].waiting| { ProtocolCallers.RemovalIsOrderly(s.clients[c].waiting, i); }
  }

  lemma EarlyStaysOut(s: State, a: Action)
    requires Inv(s) && Enabled(s, a)
    requires a.Draw? || a.Enqueue? || a.Register? || a.TimeOut? || a.Return? || a.GiveReply?
    ensures StayOut(s, Next(s, a))
  {
    hide Inv, SeqIdOf, HeadOf, Displace;
  }

  /** No call and no wait list changes. */
  ghost predicate SameLists(s: State, s': State) {
    && s'.calls == s.calls && s'.clients.Keys == s.clients.Keys
    && forall c :: c in s.clients ==> s'.clients[c].waiting == s.clients[c].waiting
  }

  lemma SameListsStayOut(s: State, s': State)
    requires SameLists(s, s')
    ensures StayOut(s, s')
  {
  }

  lemma ClientCarriersKeepLists(s: State, a: Action)
    requires Enabled(s, a) && (a.ClientSend? || a.Disconnect? || a.Connect?)
    ensures SameLists(s, Next(s, a))
  {
  }

  lemma ReceivingKeepsClients(s: State, c: u32)
    requires Registered(s, c) && s.conns[s.table[c]].up != []
    ensures DoServerRecv(s, c).calls == s.calls && DoServerRecv(s, c).clients == s.clients
  {
  }

  lemma SendingKeepsClients(s: State)
    requires s.sendRing != []
    ensures DoServerSend(s).calls == s.calls && DoServerSend(s).clients == s.clients
    ensures DoCrowd(s).calls == s.calls && DoCrowd(s).clients == s.clients
  {
  }

  lemma ServingKeepsClients(s: State, rspCode: u16, data: seq<u8>, dataLen: u32)
    ensures s.recvRing != [] ==> DoServe(s).calls == s.calls && DoServe(s).clients == s.clients
    ensures s.service.Some? ==> DoStaySilent(s).calls == s.calls && DoStaySilent(s).clients == s.clients
    ensures s.service.Some? ==>
      DoAnswer(s, rspCode, data, dataLen).calls == s.calls && DoAnswer(s, rspCode, data, dataLen).clients == s.clients
  {
  }

  lemma LinkingKeepsClients(s: State, k: ConnId, c: u32)
    ensures k in s.conns ==> DoAccept(s, k).calls == s.calls && DoAccept(s, k).clients == s.clients
    ensures Registered(s, c) ==> DoServerClose(s, c).calls == s.calls && DoServerClose(s, c).clients == s.clients
  {
  }

  lemma ServerCarriersKeepLists(s: State, a: Action)
    requires Enabled(s, a)
    requires a.Accept? || a.ServerRecv? || a.ServerClose? || a.Serve? || a.Answer? || a.StaySilent? || a.ServerSend?
      || a.Crowd?
    ensures Next(s, a).calls == s.calls && Next(s, a).clients == s.clients
  {
    hide DoAccept, DoServerRecv, DoServerClose, DoServe, DoAnswer, DoStaySilent, DoServerSend, DoCrowd;
    match a
    case Accept(k) => LinkingKeepsClients(s, k, 0);
    case ServerRecv(c) => ReceivingKeepsClients(s, c);
    case ServerClose(c) => LinkingKeepsClients(s, 0, c);
    case Serve => ServingKeepsClients(s, 0, [], 0);
    case Answer(rspCode, data, dataLen) => ServingKeepsClients(s, rspCode, data, dataLen);
    case StaySilent => ServingKeepsClients(s, 0, [], 0);
    case ServerSend => SendingKeepsClients(s);
    case Crowd => SendingKeepsClients(s);
  }

  lemma CarriersKeepLists(s: State, a: Action)
    requires Enabled(s, a)
    requires a.ClientSend? || a.Disconnect? || a.Connect? || a.Accept? || a.ServerRecv? || a.ServerClose?
             || a.Serve? || a.Answer? || a.StaySilent? || a.ServerSend? || a.Crowd?
    ensures SameLists(s, Next(s, a))
  {
    hide Next;
    if a.ClientSend? || a.Disconnect? || a.Connect? {
      ClientCarriersKeepLists(s, a);
    } else {
      ServerCarriersKeepLists(s, a);
    }
  }

  lemma OrderlyStepKeepsOut(s: State, a: Action)
    requires Inv(s) && Orderly(s, a) && ReturnedAreOut(s)
    ensures ReturnedAreOut(Next(s, a))
  {
    hide Inv, Orderly, StayOut, ReturnedAreOut, DoMoveOut, DoClientRecv;
    if Enabled(s, a) {
      match a {
        case Refuse(t) => RefuseStaysOut(s, t);
        case Wake(t) => WakeStaysOut(s, t);
        case MoveOut(t, reach) => MoveOutTakesOut(s, t, reach);
        case ClientRecv(c, i) => RecvStaysOut(s, c, i);
        case Draw(_, _, _, _, _) => EarlyStaysOut(s, a);
        case Enqueue(_) => EarlyStaysOut(s, a);
        case Register(_) => EarlyStaysOut(s, a);
        case TimeOut(_) => EarlyStaysOut(s, a);
        case Return(_) => EarlyStaysOut(s, a);
        case GiveReply(_) => EarlyStaysOut(s, a);
        case _ =>
          CarriersKeepLists(s, a);
          SameListsStayOut(s, Next(s, a));
      }
      OutStays(s, Next(s, a));
    }
  }

  lemma OrderlyPrefix(pids: set<u32>, actions: seq<Action>)
    requires actions != [] && OrderlyRun(pids, actions)
    ensures OrderlyRun(pids, actions[..|actions| - 1])
    ensures Orderly(Run(pids, actions[..|actions| - 1]), actions[|actions| - 1])
  {
    var before := actions[..|actions| - 1];
    forall n | 0 <= n < |before|
      ensures Orderly(Run(pids, before[..n]), before[n])
    {
      assert before[..n] == actions[..n];
    }
  }

  /** In an orderly run no call that has returned has left its node in the wait list. */
  lemma {:induction false} ReturnedCallsAreOut(pids: set<u32>, actions: seq<Action>)
    requires OrderlyRun(pids, actions)
    ensures ReturnedAreOut(Run(pids, actions))
  {
    hide Inv, Next, OrderlyRun, Orderly, ReturnedAreOut;
    if actions == [] {
      NoCallsAtStart(pids);
    } else {
      OrderlyPrefix(pids, actions);
      ReturnedCallsAreOut(pids, actions[..|actions| - 1]);
      ProtocolSteps.EveryRunKeeps(pids, actions[..|actions| - 1]);
      OrderlyStepKeepsOut(Run(pids, actions[..|actions| - 1]), actions[|actions| - 1]);
    }
  }

  lemma NoCallsAtStart(pids: set<u32>)
    ensures ReturnedAreOut(Start(pids))
  {
  }

  // ---------------------------------------------------------------- unlinking a node twice

  /** Between entering the wait list and being past the wait. */
  predicate InTheWait(p: Phase) { p == Waiting || p.TimedOut? }

  ghost predicate HasReply(s: State, t: Token) { exists a :: a in s.place && s.place[a] == Given(t) }

  /** A call in the wait whose node is out of the list. */
  predicate IsOut(s: State, t: Token) {
    && t in s.calls && InTheWait(s.calls[t].phase)
    && t.client in s.clients && t !in s.clients[t.client].waiting
  }

  /** Every such call has been given a reply. */
  ghost predicate OutIsGiven(s: State) { forall t :: IsOut(s, t) ==> HasReply(s, t) }

  /** A call that is out now was so before, or is given a reply. */
  ghost predicate LeavesByReply(s: State, s': State) {
    forall t :: IsOut(s', t) ==> HasReply(s', t) || IsOut(s, t)
  }

  lemma ReplyStays(s: State, s': State, t: Token)
    requires Advances(s, s') && HasReply(s, t)
    ensures HasReply(s', t)
  {
    var a :| a in s.place && s.place[a] == Given(t);
    AtRankSeven(s, s', a);
  }

  lemma OutIsGivenStays(s: State, s': State)
    requires OutIsGiven(s) && Advances(s, s') && LeavesByReply(s, s')
    ensures OutIsGiven(s')
  {
    hide Advances, HasReply, IsOut;
    forall t | IsOut(s', t)
      ensures HasReply(s', t)
    {
      if !HasReply(s', t) { ReplyStays(s, s', t); }
    }
  }

  lemma OthersAreLeft(waiting: seq<Token>, start: Option<Token>, t: Token)
    ensures forall x :: x in waiting && x != t ==> x in WaitList.AfterMoveOut(waiting, start, t)
  {
    if t in waiting { OthersRemain(waiting, IndexOf(waiting, t)); }
  }

  lemma MoveOutLeaves(s: State, t: Token, reach: bool)
    requires Enabled(s, MoveOut(t, reach))
    ensures LeavesByReply(s, Next(s, MoveOut(t, reach)))
  {
    hide WaitList.AfterMoveOut, HasReply;
    OthersAreLeft(s.clients[t.client].waiting, s.calls[t].phase.start, t);
  }

  lemma OthersRemain(s: seq<Token>, k: nat)
    requires k < |s|
    ensures forall x :: x in s && x != s[k] ==> x in RemoveAt(s, k)
  {
    forall x | x in s && x != s[k]
      ensures x in RemoveAt(s, k)
    {
      var j :| 0 <= j < |s| && s[j] == x;
      assert RemoveAt(s, k)[if j < k then j else j - 1] == x;
    }
  }

  lemma RecvLeaves(s: State, c: u32, i: nat)
    requires Enabled(s, ClientRecv(c, i))
    ensures LeavesByReply(s, DoClientRecv(s, c, i))
  {
    var s', waiting := DoClientRecv(s, c, i), s.clients[c].waiting;
    if i < |waiting| {
      OthersRemain(waiting, i);
      assert s'.place[ProtocolLinks.Arriving(s, c).tok] == Given(waiting[i]);
      assert HasReply(s', waiting[i]);
    }
  }

  lemma CallersLeave(s: State, a: Action)
    requires Enabled(s, a)
    requires a.Draw? || a.Refuse? || a.Enqueue? || a.Register? || a.Wake? || a.TimeOut? || a.Return? || a.GiveReply?
    ensures LeavesByReply(s, Next(s, a))
  {
    hide SeqIdOf, HeadOf, Displace, HasReply;
  }

  lemma SameListsLeave(s: State, s': State)
    requires SameLists(s, s')
    ensures LeavesByReply(s, s')
  {
  }

  lemma StepKeepsOutGiven(s: State, a: Action)
    requires Inv(s) && OutIsGiven(s)
    ensures OutIsGiven(Next(s, a))
  {
    hide Inv, OutIsGiven, LeavesByReply, Advances, SameLists, DoMoveOut, DoClientRecv;
    if Enabled(s, a) {
      StepAdvances(s, a);
      match a {
        case MoveOut(t, reach) => MoveOutLeaves(s, t, reach);
        case ClientRecv(c, i) => RecvLeaves(s, c, i);
        case Draw(_, _, _, _, _) => CallersLeave(s, a);
        case Refuse(_) => CallersLeave(s, a);
        case Enqueue(_) => CallersLeave(s, a);
        case Register(_) => CallersLeave(s, a);
        case Wake(_) => CallersLeave(s, a);
        case TimeOut(_) => CallersLeave(s, a);
        case Return(_) => CallersLeave(s, a);
        case GiveReply(_) => CallersLeave(s, a);
        case _ =>
          CarriersKeepLists(s, a);
          SameListsLeave(s, Next(s, a));
      }
      OutIsGivenStays(s, Next(s, a));
    }
  }

  lemma {:induction false} OutAreGiven(pids: set<u32>, actions: seq<Action>)
    ensures OutIsGiven(Run(pids, actions))
  {
    hide Inv, Next, OutIsGiven;
    if actions == [] {
      NoneOutAtStart(pids);
    } else {
      OutAreGiven(pids, actions[..|actions| - 1]);
      ProtocolSteps.EveryRunKeeps(pids, actions[..|actions| - 1]);
      StepKeepsOutGiven(Run(pids, actions[..|actions| - 1]), actions[|actions| - 1]);
    }
  }

  lemma NoneOutAtStart(pids: set<u32>)
    ensures OutIsGiven(Start(pids))
  {
  }

  /** In every run a removal ends the process exactly when the head read before the lock was the caller's own
      node and a reply has been given to the call since. */
  lemma MoveOutEndsProcessIff(pids: set<u32>, actions: seq<Action>, t: Token, reach: bool)
    requires Enabled(Run(pids, actions), MoveOut(t, reach))
    ensures var s := Run(pids, actions);
      !Next(s, MoveOut(t, reach)).clients[t.client].alive <==> s.calls[t].phase.start == Some(t) && HasReply(s, t)
  {
    hide CallsInv, FreshInv, RingsInv, ConnsInv, TableInv, WaitInv, StartInv, TakenInv, Run;
    ProtocolSteps.EveryRunKeeps(pids, actions);
    OutAreGiven(pids, actions);
    var s := Run(pids, actions);
    if HasReply(s, t) {
      var a :| a in s.place && s.place[a] == Given(t);
      assert t !in s.clients[t.client].waiting;
    }
  }
}
