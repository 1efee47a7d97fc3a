/** What calls return over whole runs: exactly the replies handed to them, as the service made them, to requests as
    they were drawn. */
module ProtocolResults {
  import opened Outcomes
  import opened PwrMessage
  import opened Sequences
  import opened Protocol
  import opened ProtocolHistory
  import opened ProtocolWaiting
  import MsgRing
  import ProtocolCallers
  import ProtocolSteps
  import WaitList

  // ---------------------------------------------------------------- replies handed to calls

  /** The reply, by its request, that a step hands to a call that has not returned, and that call. */
  function HandedBy(s: State, a: Action): seq<(Token, Token)> {
    if a.GiveReply? && Enabled(s, a) && s.calls[s.clients[a.c].hand.value.to].phase != Done then
      [(s.clients[a.c].hand.value.reply.tok, s.clients[a.c].hand.value.to)]
    else []
  }

  function Handed(pids: set<u32>, actions: seq<Action>): seq<(Token, Token)> {
    if actions == [] then []
    else
      var before := actions[..|actions| - 1];
      Handed(pids, before) + HandedBy(Run(pids, before), actions[|actions| - 1])
  }

  /** The reply to x is what the call has returned, or will return if nothing else comes. */
  predicate Has(call: Call, x: Token) {
    var p := if call.phase == Done then call.result else call.rsp;
    p.Some? && p.value.tok == x
  }

  /** Calls have exactly what they were handed, and a result only when they have returned. */
  ghost predicate HandedOk(s: State, hs: seq<(Token, Token)>) {
    && (forall t, x :: t in s.calls ==> (Has(s.calls[t], x) <==> (x, t) in hs))
    && (forall i :: 0 <= i < |hs| ==> hs[i].1 in s.calls)
    && (forall t :: t in s.calls && s.calls[t].phase != Done ==> s.calls[t].result == None)
  }

  /** No call gets or loses a reply; new calls have none. */
  ghost predicate SameReplies(s: State, s': State) {
    && (forall t :: t in s.calls ==> t in s'.calls && forall x :: Has(s'.calls[t], x) <==> Has(s.calls[t], x))
    && (forall t :: t in s'.calls && t !in s.calls ==> s'.calls[t].rsp == None == s'.calls[t].result)
    && (forall t :: t in s'.calls && s'.calls[t].phase != Done ==>
          s'.calls[t].result == if t in s.calls && s.calls[t].phase != Done then s.calls[t].result else None)
  }

  lemma SameRepliesStay(s: State, s': State, hs: seq<(Token, Token)>)
    requires HandedOk(s, hs) && SameReplies(s, s')
    ensures HandedOk(s', hs)
  {
    hide Has;
    forall t, x | t in s'.calls
      ensures Has(s'.calls[t], x) <==> (x, t) in hs
    {
      if t !in s.calls {
        NothingHad(s'.calls[t], x);
        HandedToCalls(s, hs, x, t);
      }
    }
  }

  lemma HandedToCalls(s: State, hs: seq<(Token, Token)>, x: Token, t: Token)
    requires HandedOk(s, hs)
    ensures (x, t) in hs ==> t in s.calls
  {
  }

  lemma NothingHad(call: Call, x: Token)
    requires call.rsp == None == call.result
    ensures !Has(call, x)
  {
  }

  /** One call ends with what it had. */
  lemma EndKeepsReplies(s: State, t: Token, call: Call, hs: seq<(Token, Token)>)
    requires t in s.calls && HandedOk(s, hs) && s.calls[t].phase != Done
    requires call.phase == Done && call.result == s.calls[t].rsp
    ensures SameReplies(s, s.(calls := s.calls[t := call]))
  {
  }

  /** A call that is refused has had nothing. */
  lemma DrawnHasNothing(s: State, t: Token)
    requires Inv(s) && t in s.calls && s.calls[t].phase == Drawn
    ensures s.calls[t].rsp == None
  {
    hide CallsInv, RingsInv, ConnsInv, TableInv, FreshInv, WaitInv, StartInv;
  }

  lemma EndsKeepReplies(s: State, a: Action, hs: seq<(Token, Token)>)
    requires Inv(s) && HandedOk(s, hs) && Enabled(s, a) && (a.Refuse? || a.Return?)
    ensures SameReplies(s, Next(s, a))
  {
    hide Inv, SameReplies;
    assert s.calls[a.t].result == None;
    if a.Refuse? { DrawnHasNothing(s, a.t); }
    EndKeepsReplies(s, a.t, Next(s, a).calls[a.t], hs);
  }

  /** One call's phase changes, or nothing. */
  ghost predicate OnePhase(s: State, s': State, t: Token) {
    && t in s.calls && t in s'.calls && s'.calls == s.calls[t := s.calls[t].(phase := s'.calls[t].phase)]
    && s.calls[t].phase != Done && s'.calls[t].phase != Done
  }

  lemma OnePhaseKeepsReplies(s: State, s': State, t: Token)
    requires OnePhase(s, s', t)
    ensures SameReplies(s, s')
  {
  }

  lemma CallersChangePhase(s: State, a: Action)
    requires Enabled(s, a) && (a.Enqueue? || a.Register? || a.Wake? || a.TimeOut? || a.MoveOut?)
    ensures OnePhase(s, Next(s, a), a.t)
  {
    hide HeadOf, Displace, Move, WaitList.AfterMoveOut, MsgRing.Pushed;
  }

  lemma DrawKeepsReplies(s: State, a: Action)
    requires CallsInv(s) && Enabled(s, a) && a.Draw?
    ensures SameReplies(s, Next(s, a))
  {
    hide SeqIdOf, RequestHead, Move, CallsInv;
    ProtocolCallers.DrawIsNew(s, a.c);
  }

  lemma OtherCallersKeepReplies(s: State, a: Action)
    requires Inv(s) && Enabled(s, a)
    requires a.Draw? || a.Enqueue? || a.Register? || a.Wake? || a.TimeOut? || a.MoveOut?
    ensures SameReplies(s, Next(s, a))
  {
    hide Inv, Next, SameReplies, OnePhase;
    CallsInvHolds(s);
    if a.Draw? {
      DrawKeepsReplies(s, a);
    } else {
      CallersChangePhase(s, a);
      OnePhaseKeepsReplies(s, Next(s, a), a.t);
    }
  }

  lemma CallsInvHolds(s: State)
    requires Inv(s)
    ensures CallsInv(s)
  {
  }

  lemma SameCallsKeepReplies(s: State, s': State)
    requires s'.calls == s.calls
    ensures SameReplies(s, s')
  {
  }

  lemma CarriersKeepCalls(s: State, a: Action)
    requires Enabled(s, a) && !ByCaller(a)
    ensures Next(s, a).calls == s.calls
  {
    if a.ClientRecv? {
      hide Move, MayPick;
    } else {
      hide Next;
      CarriersKeepLists(s, a);
    }
  }

  lemma HandingKeeps(s: State, c: u32, hs: seq<(Token, Token)>)
    requires Inv(s) && HandedOk(s, hs) && Enabled(s, GiveReply(c))
    ensures HandedOk(Next(s, GiveReply(c)), hs + HandedBy(s, GiveReply(c)))
  {
    hide RingsInv, ConnsInv, TableInv, FreshInv, WaitInv, StartInv, CallsInv;
    var m, s' := s.clients[c].hand.value, Next(s, GiveReply(c));
    if s.calls[m.to].phase == Done {
      SameCallsKeepReplies(s, s');
      SameRepliesStay(s, s', hs);
      assert hs + [] == hs;
    } else {
      var x := m.reply.tok;
      assert s'.calls[m.to].rsp == Some(m.reply) && Has(s'.calls[m.to], x);
      forall y | (y, m.to) in hs
        ensures y == x
      {
        assert Has(s.calls[m.to], y);
        OneReplyPerWaiter(s, x, y);
      }
      OneMoreHanded(s, s', hs, x, m.to);
    }
  }

  lemma OneMoreHanded(s: State, s': State, hs: seq<(Token, Token)>, x: Token, t: Token)
    requires HandedOk(s, hs) && t in s.calls && s.calls[t].phase != Done
    requires t in s'.calls && s'.calls == s.calls[t := s'.calls[t]]
    requires s'.calls[t].phase == s.calls[t].phase && s'.calls[t].result == s.calls[t].result
    requires Has(s'.calls[t], x) && forall y :: (y, t) in hs ==> y == x
    ensures HandedOk(s', hs + [(x, t)])
  {
    forall u, y | u in s'.calls
      ensures Has(s'.calls[u], y) <==> (y, u) in hs + [(x, t)]
    {
      if u == t { assert Has(s'.calls[t], y) <==> y == x; }
    }
  }

  lemma StepKeepsHanded(s: State, a: Action, hs: seq<(Token, Token)>)
    requires Inv(s) && HandedOk(s, hs)
    ensures HandedOk(Next(s, a), hs + HandedBy(s, a))
  {
    hide Inv, Next, HandedOk, SameReplies, HandedBy;
    if a.GiveReply? && Enabled(s, a) {
      HandingKeeps(s, a.c, hs);
    } else {
      OnlyGivingHands(s, a);
      assert hs + [] == hs;
      if !Enabled(s, a) { DisabledStays(s, a); SameCallsKeepReplies(s, Next(s, a)); }
      else if a.Refuse? || a.Return? { EndsKeepReplies(s, a, hs); }
      else if ByCaller(a) { OtherCallersKeepReplies(s, a); }
      else { CarriersKeepCalls(s, a); SameCallsKeepReplies(s, Next(s, a)); }
      SameRepliesStay(s, Next(s, a), hs);
    }
  }

  lemma OnlyGivingHands(s: State, a: Action)
    ensures HandedBy(s, a) != [] ==> a.GiveReply? && Enabled(s, a)
  {
  }

  lemma {:induction false} EveryRunHands(pids: set<u32>, actions: seq<Action>)
    ensures HandedOk(Run(pids, actions), Handed(pids, actions))
  {
    hide Inv, Next, HandedOk, HandedBy;
    if actions == [] {
      NothingHanded(pids);
    } else {
      var before := actions[..|actions| - 1];
      EveryRunHands(pids, before);
      ProtocolSteps.EveryRunKeeps(pids, before);
      StepKeepsHanded(Run(pids, before), actions[|actions| - 1], Handed(pids, before));
    }
  }

  lemma NothingHanded(pids: set<u32>)
    ensures HandedOk(Start(pids), [])
  {
  }

  /** What the history says is given to a call is in the socket thread's hand, or was handed over, or the call had
      returned by then. */
  ghost predicate GivenOk(s: State, hs: seq<(Token, Token)>) {
    forall x :: x in s.place && s.place[x].Given? ==> Reaches(s, hs, x, s.place[x].to)
  }

  ghost predicate Reaches(s: State, hs: seq<(Token, Token)>, x: Token, t: Token) {
    || (t.client in s.clients && s.clients[t.client].hand.Some?
        && s.clients[t.client].hand.value.reply.tok == x && s.clients[t.client].hand.value.to == t)
    || (x, t) in hs
    || (t in s.calls && s.calls[t].phase == Done)
  }

  lemma PhasesKeepHands(s: State, a: Action, c: u32)
    requires Enabled(s, a) && (a.Refuse? || a.Wake? || a.TimeOut? || a.Return? || a.Register? || a.MoveOut?)
    requires c in s.clients && s.clients[c].hand.Some?
    ensures c in Next(s, a).clients && Next(s, a).clients[c].hand == s.clients[c].hand
  {
    hide HeadOf, WaitList.AfterMoveOut;
  }

  lemma MakersKeepHands(s: State, a: Action, c: u32)
    requires Enabled(s, a) && (a.Draw? || a.Enqueue? || a.GiveReply?) && a != GiveReply(c)
    requires c in s.clients && s.clients[c].hand.Some?
    ensures c in Next(s, a).clients && Next(s, a).clients[c].hand == s.clients[c].hand
  {
    hide Move, Displace, MsgRing.Pushed, SeqIdOf, RequestHead;
  }

  lemma WaitersKeepHands(s: State, a: Action, c: u32)
    requires Enabled(s, a) && ByCaller(a) && a != GiveReply(c) && c in s.clients && s.clients[c].hand.Some?
    ensures c in Next(s, a).clients && Next(s, a).clients[c].hand == s.clients[c].hand
  {
    hide Next, Enabled;
    if a.Draw? || a.Enqueue? || a.GiveReply? { MakersKeepHands(s, a, c); } else { PhasesKeepHands(s, a, c); }
  }

  lemma CarriersKeepHands(s: State, a: Action, c: u32)
    requires Enabled(s, a) && !ByCaller(a) && c in s.clients && s.clients[c].hand.Some?
    ensures c in Next(s, a).clients && Next(s, a).clients[c].hand == s.clients[c].hand
  {
    hide Move, Displace, MsgRing.Pushed, GenerateRspMsg, OldestPending;
  }

  lemma DrawLeavesCalls(s: State, a: Action, t: Token)
    requires CallsInv(s) && Enabled(s, a) && a.Draw? && t in s.calls
    ensures t in Next(s, a).calls && Next(s, a).calls[t] == s.calls[t]
  {
    hide CallsInv, Move, SeqIdOf, RequestHead;
    ProtocolCallers.DrawIsNew(s, a.c);
  }

  lemma HandLeavesDone(s: State, c: u32, t: Token)
    requires Enabled(s, GiveReply(c)) && t in s.calls && s.calls[t].phase == Done
    ensures t in Next(s, GiveReply(c)).calls && Next(s, GiveReply(c)).calls[t] == s.calls[t]
  {
  }

  lemma EndsLeaveDone(s: State, a: Action, t: Token)
    requires Enabled(s, a) && (a.Refuse? || a.Return?) && t in s.calls && s.calls[t].phase == Done
    ensures t in Next(s, a).calls && Next(s, a).calls[t] == s.calls[t]
  {
  }

  lemma DoneStays(s: State, a: Action, t: Token)
    requires Inv(s) && Enabled(s, a) && ByCaller(a) && t in s.calls && s.calls[t].phase == Done
    ensures t in Next(s, a).calls && Next(s, a).calls[t].phase == Done
  {
    hide Inv, CallsInv, Next, Enabled;
    CallsInvHolds(s);
    match a
    case Draw(_, _, _, _, _) => DrawLeavesCalls(s, a, t);
    case GiveReply(c) => HandLeavesDone(s, c, t);
    case Refuse(_) => EndsLeaveDone(s, a, t);
    case Return(_) => EndsLeaveDone(s, a, t);
    case _ => CallersChangePhase(s, a);
  }

  lemma DeliveredIsInHand(s: State, a: Action, x: Token, t: Token)
    requires Inv(s) && DeliveredBy(s, a) == [(x, t)]
    ensures Reaches(Next(s, a), [], x, t)
  {
    hide CallsInv, FreshInv, RingsInv, TableInv, StartInv, GivenInv, TakenInv, ConnsInv, RemoveAt, Move;
  }

  lemma StepReaches(s: State, a: Action, hs: seq<(Token, Token)>, x: Token, t: Token)
    requires Inv(s) && Reaches(s, hs, x, t)
    ensures Reaches(Next(s, a), hs + HandedBy(s, a), x, t)
  {
    hide Inv, Next;
    if !Enabled(s, a) {
      DisabledStays(s, a);
    } else if (x, t) in hs {
    } else if t in s.calls && s.calls[t].phase == Done {
      if ByCaller(a) { DoneStays(s, a, t); } else { CarriersKeepCalls(s, a); }
    } else if ByCaller(a) {
      if a == GiveReply(t.client) { HandIsCall(s, t.client); } else { WaitersKeepHands(s, a, t.client); }
    } else {
      CarriersKeepHands(s, a, t.client);
    }
  }

  lemma HandIsCall(s: State, c: u32)
    requires Inv(s) && c in s.clients && s.clients[c].hand.Some?
    ensures s.clients[c].hand.value.to in s.calls
  {
  }

  /** In every run a reply that has been given to a call gets there, unless the call returns before. */
  lemma {:induction false} GivenIsHanded(pids: set<u32>, actions: seq<Action>)
    ensures GivenOk(Run(pids, actions), Handed(pids, actions))
  {
    hide Inv, Next, HandedBy, Reaches, DeliveredBy;
    if actions != [] {
      var before, a := actions[..|actions| - 1], actions[|actions| - 1];
      var s, hs := Run(pids, before), Handed(pids, before);
      GivenIsHanded(pids, before);
      ProtocolSteps.EveryRunKeeps(pids, before);
      forall x | x in Next(s, a).place && Next(s, a).place[x].Given?
        ensures Reaches(Next(s, a), hs + HandedBy(s, a), x, Next(s, a).place[x].to)
      {
        GivenByDelivery(s, a, x);
        var t := Next(s, a).place[x].to;
        if DeliveredBy(s, a) == [(x, t)] {
          DeliveredIsInHand(s, a, x, t);
          MoreReaches(Next(s, a), hs + HandedBy(s, a), x, t);
        } else {
          StepReaches(s, a, hs, x, t);
        }
      }
    }
  }

  lemma MoreReaches(s: State, hs: seq<(Token, Token)>, x: Token, t: Token)
    requires Reaches(s, [], x, t)
    ensures Reaches(s, hs, x, t)
  {
  }

  /** In every run a call has returned the reply to x exactly when that was handed to it before it returned. */
  lemma ReturnedIffHanded(pids: set<u32>, actions: seq<Action>, t: Token, x: Token)
    requires var s := Run(pids, actions); t in s.calls && s.calls[t].phase == Done
    ensures var s := Run(pids, actions);
      (s.calls[t].result.Some? && s.calls[t].result.value.tok == x) <==> (x, t) in Handed(pids, actions)
  {
    hide Run, Handed;
    EveryRunHands(pids, actions);
    assert Has(Run(pids, actions).calls[t], x) <==> (x, t) in Handed(pids, actions);
  }

  lemma {:induction false} HandedStay(pids: set<u32>, actions: seq<Action>, n: nat, h: (Token, Token))
    requires n <= |actions| && h in Handed(pids, actions[..n])
    ensures h in Handed(pids, actions)
    decreases |actions|
  {
    hide Run, HandedBy;
    if n == |actions| {
      assert actions[..n] == actions;
    } else {
      var before := actions[..|actions| - 1];
      assert before[..n] == actions[..n];
      HandedStay(pids, before, n, h);
    }
  }

  /** In an orderly run a call that was woken, and did not time out, returns a reply. */
  lemma WokenReturnsReply(pids: set<u32>, actions: seq<Action>, n: nat, t: Token)
    requires OrderlyRun(pids, actions) && n < |actions|
    requires actions[n] == Wake(t) && Enabled(Run(pids, actions[..n]), Wake(t))
    requires var s := Run(pids, actions); t in s.calls && s.calls[t].phase == Done
    ensures Run(pids, actions).calls[t].result.Some?
  {
    hide Run, Handed, HandedOk;
    var s := Run(pids, actions[..n]);
    assert Orderly(s, actions[n]);
    EveryRunHands(pids, actions[..n]);
    var x := s.calls[t].rsp.value.tok;
    HasIsHanded(s, Handed(pids, actions[..n]), t, x);
    HandedStay(pids, actions, n, (x, t));
    ReturnedIffHanded(pids, actions, t, x);
  }

  lemma HasIsHanded(s: State, hs: seq<(Token, Token)>, t: Token, x: Token)
    requires HandedOk(s, hs) && t in s.calls && s.calls[t].phase != Done
    requires s.calls[t].rsp.Some? && s.calls[t].rsp.value.tok == x
    ensures (x, t) in hs
  {
    assert Has(s.calls[t], x);
  }

  // ---------------------------------------------------------------- requests stay as they were drawn

  ghost predicate SameRequests(s: State, s': State) {
    forall t :: t in s.calls ==> t in s'.calls && s'.calls[t].req == s.calls[t].req
  }

  lemma StepKeepsRequests(s: State, a: Action)
    requires Inv(s)
    ensures SameRequests(s, Next(s, a))
  {
    hide Inv, CallsInv, Next;
    CallsInvHolds(s);
    if !Enabled(s, a) {
      DisabledStays(s, a);
    } else if a.Draw? {
      DrawKeepsRequests(s, a);
    } else if a.Refuse? || a.Return? || a.GiveReply? {
      EndsKeepRequests(s, a);
    } else if ByCaller(a) {
      CallersChangePhase(s, a);
    } else {
      CarriersKeepCalls(s, a);
    }
  }

  lemma EndsKeepRequests(s: State, a: Action)
    requires Enabled(s, a) && (a.Refuse? || a.Return? || a.GiveReply?)
    ensures SameRequests(s, Next(s, a))
  {
  }

  lemma DrawKeepsRequests(s: State, a: Action)
    requires CallsInv(s) && Enabled(s, a) && a.Draw?
    ensures SameRequests(s, Next(s, a))
  {
    ProtocolCallers.DrawIsNew(s, a.c);
  }

  lemma {:induction false} RequestsStay(pids: set<u32>, actions: seq<Action>, n: nat)
    requires n <= |actions|
    ensures SameRequests(Run(pids, actions[..n]), Run(pids, actions))
    decreases |actions|
  {
    hide Inv, Next;
    if n == |actions| {
      assert actions[..n] == actions;
    } else {
      var before := actions[..|actions| - 1];
      assert before[..n] == actions[..n];
      RequestsStay(pids, before, n);
      ProtocolSteps.EveryRunKeeps(pids, before);
      StepKeepsRequests(Run(pids, before), actions[|actions| - 1]);
    }
  }

  /** The request of the call that a Draw makes. */
  lemma DrawnRequest(s: State, a: Action)
    requires Enabled(s, a) && a.Draw?
    ensures var t := Token(a.c, s.clients[a.c].drawn);
      && t in Next(s, a).calls
      && var m := Next(s, a).calls[t].req;
      && m.head.majorVer == 1 && m.head.minorVer == 0 && m.head.optType == a.optType
      && m.head.dataFormat == 0 && m.head.msgType == 1 && m.head.rspCode == 0
      && m.head.seqId == (a.c % 0x1_0000) * 0x1_0000 + t.ticket % 0x1_0000
      && m.head.taskNo == a.taskNo && m.head.crcMagic == 0 && m.head.dataLen == a.dataLen
      && m.head.sysId == a.c && m.head.reserved == 0 && m.data == a.data
  {
  }

  /** In every run the service takes each request with every field as its caller drew it. */
  lemma TakenAsDrawn(pids: set<u32>, actions: seq<Action>, n: nat)
    requires n < |actions| && actions[n].Draw? && Enabled(Run(pids, actions[..n]), actions[n])
    requires Enabled(Run(pids, actions), Serve)
    requires var a := actions[n];
      Run(pids, actions).recvRing[0].tok == Token(a.c, Run(pids, actions[..n]).clients[a.c].drawn)
    ensures var a, s := actions[n], Next(Run(pids, actions), Serve);
      && s.service.Some?
      && var m := s.service.value.msg;
      && m.head.majorVer == 1 && m.head.minorVer == 0 && m.head.optType == a.optType
      && m.head.dataFormat == 0 && m.head.msgType == 1 && m.head.rspCode == 0
      && m.head.seqId == (a.c % 0x1_0000) * 0x1_0000 + s.service.value.tok.ticket % 0x1_0000
      && m.head.taskNo == a.taskNo && m.head.crcMagic == 0 && m.head.dataLen == a.dataLen
      && m.head.sysId == a.c && m.head.reserved == 0 && m.data == a.data
  {
    hide Run, Inv;
    var a, s0, s1 := actions[n], Run(pids, actions[..n]), Run(pids, actions);
    DrawnRequest(s0, a);
    assert actions[..n + 1][..n] == actions[..n];
    RunOne(pids, actions, n);
    RequestsStay(pids, actions, n + 1);
    ProtocolSteps.EveryRunKeeps(pids, actions);
    OldestIsRequest(s1);
  }

  lemma RunOne(pids: set<u32>, actions: seq<Action>, n: nat)
    requires n < |actions|
    ensures Run(pids, actions[..n + 1]) == Next(Run(pids, actions[..n]), actions[n])
  {
    hide Next;
    assert actions[..n + 1][..n] == actions[..n];
  }

  lemma OldestIsRequest(s: State)
    requires Inv(s)
    ensures s.recvRing != [] ==> s.recvRing[0].tok in s.calls && s.recvRing[0].msg == s.calls[s.recvRing[0].tok].req
    ensures s.service.Some? ==>
      s.service.value.tok in s.calls && s.service.value.msg == s.calls[s.service.value.tok].req
  {
  }

  // ---------------------------------------------------------------- replies stay as they were made

  /** p is on its way back, or has been handed over. */
  ghost predicate Carries(s: State, p: Packet) {
    || p in s.sendRing
    || (exists k :: k in s.conns && p in s.conns[k].down)
    || (exists c :: c in s.clients && s.clients[c].hand.Some? && s.clients[c].hand.value.reply == p)
    || (exists t :: t in s.calls && (s.calls[t].rsp == Some(p) || s.calls[t].result == Some(p)))
  }

  lemma WaitersCarry(s: State, a: Action, p: Packet)
    requires a.Draw? || a.Refuse? || a.Enqueue? || a.Register? || a.Wake? || a.TimeOut? || a.MoveOut?
    requires Enabled(s, a) && Carries(Next(s, a), p)
    ensures Carries(s, p)
  {
    hide SeqIdOf, HeadOf, Displace, Move, WaitList.AfterMoveOut, MsgRing.Pushed, RequestHead;
  }

  lemma ReturningCarries(s: State, a: Action, p: Packet)
    requires (a.Return? || a.GiveReply?) && Enabled(s, a) && Carries(Next(s, a), p)
    ensures Carries(s, p)
  {
  }

  lemma ClientLinksCarry(s: State, a: Action, p: Packet)
    requires (a.Disconnect? || a.Connect?) && Enabled(s, a) && Carries(Next(s, a), p)
    ensures Carries(s, p)
  {
  }

  lemma ServerLinksCarry(s: State, a: Action, p: Packet)
    requires (a.Accept? || a.ServerClose?) && Enabled(s, a) && Carries(Next(s, a), p)
    ensures Carries(s, p)
  {
  }

  lemma RequestsCarry(s: State, a: Action, p: Packet)
    requires a.ClientSend? || a.ServerRecv? || a.Serve? || a.StaySilent? || a.Crowd?
    requires Enabled(s, a) && Carries(Next(s, a), p)
    ensures Carries(s, p)
  {
    hide Displace, Move, MsgRing.Pushed;
  }

  lemma RecvCarries(s: State, c: u32, i: nat, p: Packet)
    requires Enabled(s, ClientRecv(c, i)) && Carries(Next(s, ClientRecv(c, i)), p)
    ensures Carries(s, p)
  {
    hide Move, MayPick;
  }

  lemma SendCarries(s: State, p: Packet)
    requires Enabled(s, ServerSend) && Carries(Next(s, ServerSend), p)
    ensures Carries(s, p)
  {
    hide Move;
  }

  lemma AnswerCarries(s: State, a: Action, p: Packet)
    requires a.Answer? && Enabled(s, a) && Carries(Next(s, a), p)
    ensures Carries(s, p)
         || p == Packet(s.service.value.tok, GenerateRspMsg(s.service.value.msg, a.rspCode, a.data, a.dataLen))
  {
    hide Move, Displace, GenerateRspMsg;
  }

  /** No step but an answer makes a reply or changes one. */
  lemma StepCarries(s: State, a: Action, p: Packet)
    requires Carries(Next(s, a), p)
    ensures Carries(s, p) || (a.Answer? && Enabled(s, a) &&
      p == Packet(s.service.value.tok, GenerateRspMsg(s.service.value.msg, a.rspCode, a.data, a.dataLen)))
  {
    hide Next, Carries;
    if !Enabled(s, a) { DisabledStays(s, a); }
    else if a.Return? || a.GiveReply? { ReturningCarries(s, a, p); }
    else if ByCaller(a) { WaitersCarry(s, a, p); }
    else if a.Disconnect? || a.Connect? { ClientLinksCarry(s, a, p); }
    else if a.Accept? || a.ServerClose? { ServerLinksCarry(s, a, p); }
    else if a.ClientRecv? { RecvCarries(s, a.c, a.pick, p); }
    else if a.ServerSend? { SendCarries(s, p); }
    else if a.Answer? { AnswerCarries(s, a, p); }
    else { RequestsCarry(s, a, p); }
  }

  /** The request of x has been answered, and all replies to it that there are are m. */
  ghost predicate OnlyReply(s: State, x: Token, m: PwrMsg) {
    && x in s.place && Rank(s.place[x]) >= 5
    && forall p :: Carries(s, p) && p.tok == x ==> p.msg == m
  }

  lemma CarriedHasPlace(s: State, p: Packet)
    requires Inv(s) && Carries(s, p)
    ensures p.tok in s.place && Rank(s.place[p.tok]) >= 5
  {
    hide CallsInv, FreshInv, RingsInv, ConnsInv, TableInv, WaitInv, StartInv, GivenInv, TakenInv;
    if p in s.sendRing {
      SentHasPlace(s, p);
    } else if k :| k in s.conns && p in s.conns[k].down {
      DownHasPlace(s, k, p);
    } else {
      TakenHasPlace(s, p);
    }
  }

  lemma SentHasPlace(s: State, p: Packet)
    requires RingsInv(s) && p in s.sendRing
    ensures p.tok in s.place && s.place[p.tok] == ReplyRing
  {
    assert QueueOk(s, s.sendRing, ReplyRing, true);
  }

  lemma DownHasPlace(s: State, k: ConnId, p: Packet)
    requires ConnsInv(s) && k in s.conns && p in s.conns[k].down
    ensures p.tok in s.place && s.place[p.tok] == Downstream(k)
  {
    assert ConnOk(s, k);
  }

  lemma TakenHasPlace(s: State, p: Packet)
    requires TakenInv(s)
    requires (exists c :: c in s.clients && s.clients[c].hand.Some? && s.clients[c].hand.value.reply == p)
          || (exists t :: t in s.calls && (s.calls[t].rsp == Some(p) || s.calls[t].result == Some(p)))
    ensures p.tok in s.place && s.place[p.tok].Given?
  {
  }

  lemma AnswerIsOnly(s: State, a: Action)
    requires Inv(s) && a.Answer? && Enabled(s, a)
    ensures OnlyReply(Next(s, a), s.service.value.tok,
              GenerateRspMsg(s.service.value.msg, a.rspCode, a.data, a.dataLen))
  {
    hide Inv, Carries, Next, GenerateRspMsg;
    var x := s.service.value.tok;
    FrontOfRing(s);
    AnswerPlaces(s, a.rspCode, a.data, a.dataLen);
    AnswerIsNext(s, a);
    forall p | Carries(Next(s, a), p) && p.tok == x
      ensures p.msg == GenerateRspMsg(s.service.value.msg, a.rspCode, a.data, a.dataLen)
    {
      StepCarries(s, a, p);
      if Carries(s, p) { CarriedHasPlace(s, p); }
    }
  }

  lemma AnswerIsNext(s: State, a: Action)
    requires a.Answer? && Enabled(s, a)
    ensures Next(s, a) == DoAnswer(s, a.rspCode, a.data, a.dataLen)
  {
  }

  lemma StepKeepsOnly(s: State, a: Action, x: Token, m: PwrMsg)
    requires Inv(s) && OnlyReply(s, x, m)
    ensures OnlyReply(Next(s, a), x, m)
  {
    hide Inv, Carries, Next, GenerateRspMsg;
    StepAdvances(s, a);
    FrontOfRing(s);
    forall p | Carries(Next(s, a), p) && p.tok == x
      ensures p.msg == m
    {
      StepCarries(s, a, p);
    }
  }

  lemma {:induction false} OnlyReplyStays(pids: set<u32>, actions: seq<Action>, n: nat, x: Token, m: PwrMsg)
    requires n <= |actions| && OnlyReply(Run(pids, actions[..n]), x, m)
    ensures OnlyReply(Run(pids, actions), x, m)
    decreases |actions|
  {
    hide Inv, Next, OnlyReply;
    if n == |actions| {
      assert actions[..n] == actions;
    } else {
      var before := actions[..|actions| - 1];
      assert before[..n] == actions[..n];
      OnlyReplyStays(pids, before, n, x, m);
      ProtocolSteps.EveryRunKeeps(pids, before);
      StepKeepsOnly(Run(pids, before), actions[|actions| - 1], x, m);
    }
  }

  /** In every run, what a call returns as the reply to x has every field as it was when x was answered: the code,
      the data and the length that the handler gave, and the rest from the request. */
  lemma ReturnedAsAnswered(pids: set<u32>, actions: seq<Action>, n: nat, t: Token)
    requires n < |actions| && actions[n].Answer? && Enabled(Run(pids, actions[..n]), actions[n])
    requires var s := Run(pids, actions); t in s.calls && s.calls[t].result.Some?
    requires Run(pids, actions).calls[t].result.value.tok == Run(pids, actions[..n]).service.value.tok
    ensures var a, s := actions[n], Run(pids, actions);
      var p := s.calls[t].result.value;
      && p.tok in s.calls
      && var req, rsp := s.calls[p.tok].req, p.msg;
      && rsp.head.rspCode == a.rspCode && rsp.data == a.data && rsp.head.dataLen == a.dataLen
      && rsp.head.msgType == 2 && rsp.head.dataFormat == 0
      && rsp.head.crcMagic == 0 && rsp.head.reserved == 0
      && rsp.head.majorVer == req.head.majorVer && rsp.head.minorVer == req.head.minorVer
      && rsp.head.optType == req.head.optType && rsp.head.seqId == req.head.seqId
      && rsp.head.taskNo == req.head.taskNo && rsp.head.sysId == req.head.sysId
  {
    hide Run, Inv, Next, Carries;
    var a, s0, s := actions[n], Run(pids, actions[..n]), Run(pids, actions);
    var x := s0.service.value.tok;
    ProtocolSteps.EveryRunKeeps(pids, actions[..n]);
    AnswerIsOnly(s0, a);
    RunOne(pids, actions, n);
    OnlyReplyStays(pids, actions, n + 1, x, GenerateRspMsg(s0.service.value.msg, a.rspCode, a.data, a.dataLen));
    OldestIsRequest(s0);
    RequestsStay(pids, actions, n);
    ResultIsCarried(s, t);
  }

  lemma ResultIsCarried(s: State, t: Token)
    requires t in s.calls && s.calls[t].result.Some?
    ensures Carries(s, s.calls[t].result.value)
  {
  }
}
