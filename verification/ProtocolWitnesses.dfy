/** Runs of the protocol in which the conditions of ProtocolTheorems fail. */
module ProtocolWitnesses {
  import opened Outcomes
  import opened PwrMessage
  import opened Sequences
  import opened Protocol

  const PID: u32 := 7
  const FIRST := Token(PID, 0)
  const SECOND := Token(PID, 1)

  lemma RunStep(pids: set<u32>, before: seq<Action>, a: Action)
    ensures Run(pids, before + [a]) == Next(Run(pids, before), a)
  {
  }

  /** What the run below changes: two calls of one client and its wait list. */
  ghost predicate Two(s: State, a: Phase, b: Phase, waiting: seq<Token>) {
    && PID in s.clients && s.clients[PID].alive && s.clients[PID].waiting == waiting
    && FIRST in s.calls && SECOND in s.calls && s.calls[FIRST].phase == a && s.calls[SECOND].phase == b
  }

  lemma DrawTwo(s: State)
    requires PID in s.clients && s.clients[PID].alive && s.clients[PID].drawn == 0 && s.clients[PID].waiting == []
    ensures Two(Next(Next(s, Draw(PID, 1, 0, 0, [])), Draw(PID, 1, 0, 0, [])), Drawn, Drawn, [])
  {
  }

  lemma EnqueueTwo(s: State)
    requires Two(s, Drawn, Drawn, [])
    ensures Two(Next(Next(s, Enqueue(FIRST)), Enqueue(SECOND)), Queued, Queued, [])
  {
  }

  lemma RegisterTwo(s: State)
    requires Two(s, Queued, Queued, [])
    ensures Two(Next(Next(s, Register(FIRST)), Register(SECOND)), Waiting, Waiting, [FIRST, SECOND])
  {
  }

  lemma TimeOutTwo(s: State)
    requires Two(s, Waiting, Waiting, [FIRST, SECOND])
    ensures Two(Next(Next(s, TimeOut(FIRST)), TimeOut(SECOND)), TimedOut(Some(FIRST)), TimedOut(Some(FIRST)),
      [FIRST, SECOND])
  {
  }

  lemma MoveOutTwo(s: State)
    requires Two(s, TimedOut(Some(FIRST)), TimedOut(Some(FIRST)), [FIRST, SECOND])
    ensures Two(Next(Next(s, MoveOut(FIRST, true)), MoveOut(SECOND, true)), Woken, Woken, [SECOND])
  {
  }

  /** Two callers time out together; the second starts from the first one's node, which is out by then. */
  const STALE_HEAD: seq<Action> :=
    [Draw(PID, 1, 0, 0, []), Draw(PID, 1, 0, 0, []), Enqueue(FIRST), Enqueue(SECOND), Register(FIRST), Register(SECOND),
     TimeOut(FIRST), TimeOut(SECOND), MoveOut(FIRST, true), MoveOut(SECOND, true), Return(SECOND)]

  function Prefix(n: nat): seq<Action>
    requires n <= |STALE_HEAD|
  {
    STALE_HEAD[..n]
  }

  lemma TwoSteps(n: nat)
    requires n + 2 <= |STALE_HEAD|
    ensures Run({PID}, Prefix(n + 2)) == Next(Next(Run({PID}, Prefix(n)), STALE_HEAD[n]), STALE_HEAD[n + 1])
  {
    assert Prefix(n + 1) == Prefix(n) + [STALE_HEAD[n]];
    assert Prefix(n + 2) == Prefix(n + 1) + [STALE_HEAD[n + 1]];
    RunStep({PID}, Prefix(n), STALE_HEAD[n]);
    RunStep({PID}, Prefix(n + 1), STALE_HEAD[n + 1]);
  }

  /** SendMsgSyn has returned for SECOND, and its node is still in the wait list. */
  lemma ReturnedNodeStaysInList()
    ensures var s := Run({PID}, STALE_HEAD);
      SECOND in s.calls && s.calls[SECOND].phase == Done && PID in s.clients && SECOND in s.clients[PID].waiting
  {
    hide Next, Run, Two;
    TwoSteps(0); TwoSteps(2); TwoSteps(4); TwoSteps(6); TwoSteps(8);
    StartsEmpty();
    DrawTwo(Run({PID}, Prefix(0)));
    EnqueueTwo(Run({PID}, Prefix(2)));
    RegisterTwo(Run({PID}, Prefix(4)));
    TimeOutTwo(Run({PID}, Prefix(6)));
    MoveOutTwo(Run({PID}, Prefix(8)));
    assert STALE_HEAD == Prefix(10) + [Return(SECOND)];
    RunStep({PID}, Prefix(10), Return(SECOND));
    ReturnLeaves(Run({PID}, Prefix(10)));
  }

  lemma StartsEmpty()
    ensures var s := Run({PID}, Prefix(0));
      PID in s.clients && s.clients[PID].alive && s.clients[PID].drawn == 0 && s.clients[PID].waiting == []
  {
  }

  lemma ReturnLeaves(s: State)
    requires Two(s, Woken, Woken, [SECOND])
    ensures var s' := Next(s, Return(SECOND));
      SECOND in s'.calls && s'.calls[SECOND].phase == Done && PID in s'.clients && SECOND in s'.clients[PID].waiting
  {
  }

  // ---------------------------------------------------------------- a reply 65536 draws late

  const LATER := Token(PID, 0x1_0000)

  const REQUEST: PwrMsg := PwrMsg(RequestHead(SeqIdOf(PID, 0), PID, 1, 0, 0), [])
  const REPLY: Packet := Packet(FIRST, GenerateRspMsg(REQUEST, 0, [], 0))

  /** One client on one connection, and what all the queues hold. */
  ghost predicate At(s: State, drawn: nat, waiting: seq<Token>, ring: seq<Packet>, up: seq<Packet>,
                     recvRing: seq<Packet>, service: Option<Packet>, sendRing: seq<Packet>, down: seq<Packet>) {
    && PID in s.clients && s.clients[PID] == Client(true, drawn, ring, waiting, None, Some(0))
    && 0 in s.conns && s.conns[0] == Conn(PID, Open, up, down) && s.table == map[PID := 0]
    && s.recvRing == recvRing && s.service == service && s.sendRing == sendRing
  }

  ghost predicate Has(s: State, t: Token, phase: Phase, seqId: u32) {
    t in s.calls && s.calls[t].phase == phase && s.calls[t].req.head.seqId == seqId
  }

  lemma RunTwo(before: seq<Action>, a: Action, b: Action)
    ensures Run({PID}, before + [a] + [b]) == Next(Next(Run({PID}, before), a), b)
  {
  }

  lemma Linked(s: State)
    requires s == Start({PID})
    ensures At(Next(Next(s, Connect(PID, 0)), Accept(0)), 0, [], [], [], [], None, [], [])
  {
  }

  lemma Sent(s: State)
    requires At(s, 0, [], [], [], [], None, [], [])
    ensures var s' := Next(Next(s, Draw(PID, 1, 0, 0, [])), Enqueue(FIRST));
      At(s', 1, [], [Packet(FIRST, REQUEST)], [], [], None, [], []) && FIRST in s'.calls
        && s'.calls[FIRST] == Call(REQUEST, Queued, None, None)
  {
  }

  lemma OnItsWay(s: State)
    requires At(s, 1, [], [Packet(FIRST, REQUEST)], [], [], None, [], []) && FIRST in s.calls
      && s.calls[FIRST] == Call(REQUEST, Queued, None, None)
    ensures var s' := Next(Next(s, Register(FIRST)), ClientSend(PID));
      At(s', 1, [FIRST], [], [Packet(FIRST, REQUEST)], [], None, [], []) && Has(s', FIRST, Waiting, SeqIdOf(PID, 0))
  {
  }

  lemma AtTheService(s: State)
    requires At(s, 1, [FIRST], [], [Packet(FIRST, REQUEST)], [], None, [], [])
      && Has(s, FIRST, Waiting, SeqIdOf(PID, 0))
    ensures var s' := Next(Next(s, ServerRecv(PID)), Serve);
      At(s', 1, [FIRST], [], [], [], Some(Packet(FIRST, REQUEST)), [], []) && Has(s', FIRST, Waiting, SeqIdOf(PID, 0))
  {
  }

  lemma ReplySent(s: State)
    requires At(s, 1, [FIRST], [], [], [], Some(Packet(FIRST, REQUEST)), [], [])
      && Has(s, FIRST, Waiting, SeqIdOf(PID, 0))
    ensures var s' := Next(Next(s, Answer(0, [], 0)), ServerSend);
      At(s', 1, [FIRST], [], [], [], None, [], [REPLY]) && Has(s', FIRST, Waiting, SeqIdOf(PID, 0))
  {
  }

  lemma GivenUp(s: State)
    requires At(s, 1, [FIRST], [], [], [], None, [], [REPLY]) && Has(s, FIRST, Waiting, SeqIdOf(PID, 0))
    ensures var s' := Next(Next(s, TimeOut(FIRST)), MoveOut(FIRST, true));
      At(s', 1, [], [], [], [], None, [], [REPLY]) && Has(s', FIRST, Woken, SeqIdOf(PID, 0))
  {
  }

  lemma RepliedTooLate(s: State)
    requires At(s, 1, [FIRST], [], [], [], None, [], [REPLY]) && Has(s, FIRST, Waiting, SeqIdOf(PID, 0))
    ensures var s' := Next(Next(s, TimeOut(FIRST)), ClientRecv(PID, 0));
      && PID in s'.clients && s'.clients[PID].alive && s'.clients[PID].waiting == []
      && FIRST in s'.calls && s'.calls[FIRST].phase == TimedOut(Some(FIRST))
  {
    var s1 := Next(s, TimeOut(FIRST));
    assert s1.calls[FIRST].phase == TimedOut(Some(FIRST)) && s1.clients == s.clients;
    assert FirstMatch(s1.calls, [FIRST], SeqIdOf(PID, 0)) == 0;
    assert RemoveAt([FIRST], 0) == [];
  }

  lemma EndsProcess(s: State)
    requires PID in s.clients && s.clients[PID].alive && s.clients[PID].waiting == []
    requires FIRST in s.calls && s.calls[FIRST].phase == TimedOut(Some(FIRST))
    ensures var s' := Next(s, MoveOut(FIRST, true)); PID in s'.clients && !s'.clients[PID].alive
  {
  }

  /** n draws. */
  function Draws(n: nat): seq<Action> {
    if n == 0 then [] else Draws(n - 1) + [Draw(PID, 1, 0, 0, [])]
  }

  lemma OneDraw(s: State, n: nat)
    requires At(s, 1 + n, [], [], [], [], None, [], [REPLY])
    ensures var s' := Next(s, Draw(PID, 1, 0, 0, []));
      At(s', 2 + n, [], [], [], [], None, [], [REPLY]) && Has(s', Token(PID, 1 + n), Drawn, SeqIdOf(PID, 1 + n))
  {
  }

  lemma {:induction false} ManyDraws(before: seq<Action>, n: nat)
    requires At(Run({PID}, before), 1, [], [], [], [], None, [], [REPLY])
    ensures var s' := Run({PID}, before + Draws(n));
      At(s', 1 + n, [], [], [], [], None, [], [REPLY]) && (n > 0 ==> Has(s', Token(PID, n), Drawn, SeqIdOf(PID, n)))
  {
    hide Run, Next, At;
    if n == 0 {
      assert before + Draws(0) == before;
    } else {
      ManyDraws(before, n - 1);
      OneDraw(Run({PID}, before + Draws(n - 1)), n - 1);
      RunStep({PID}, before + Draws(n - 1), Draw(PID, 1, 0, 0, []));
      assert before + Draws(n) == before + Draws(n - 1) + [Draw(PID, 1, 0, 0, [])];
    }
  }

  lemma SecondWaits(s: State)
    requires At(s, 0x1_0001, [], [], [], [], None, [], [REPLY]) && Has(s, LATER, Drawn, SeqIdOf(PID, 0x1_0000))
    ensures var s' := Next(Next(s, Enqueue(LATER)), Register(LATER));
      PID in s'.clients
        && s'.clients[PID] == Client(true, 0x1_0001, [Packet(LATER, s.calls[LATER].req)], [LATER], None, Some(0))
      && s'.conns == s.conns && Has(s', LATER, Waiting, SeqIdOf(PID, 0x1_0000))
  {
  }

  lemma SecondIsMatched(s: State, ring: seq<Packet>)
    requires PID in s.clients && s.clients[PID] == Client(true, 0x1_0001, ring, [LATER], None, Some(0))
    requires 0 in s.conns && s.conns[0].down == [REPLY] && Has(s, LATER, Waiting, SeqIdOf(PID, 0))
    ensures var s' := Next(Next(s, ClientRecv(PID, 0)), GiveReply(PID));
      PID in s'.clients && s'.clients[PID].alive && Has(s', LATER, Waiting, SeqIdOf(PID, 0))
        && s'.calls[LATER].rsp == Some(REPLY)
  {
    hide SeqIdOf, Move;
  }

  lemma SecondReturns(s: State)
    requires PID in s.clients && s.clients[PID].alive && Has(s, LATER, Waiting, SeqIdOf(PID, 0))
      && s.calls[LATER].rsp == Some(REPLY)
    ensures var s' := Next(Next(s, Wake(LATER)), Return(LATER));
      LATER in s'.calls && s'.calls[LATER].result == Some(REPLY)
  {
  }

  /** The first call gives up before its reply arrives. */
  function Late(n: nat): seq<Action>
    requires n <= 6
  {
    if n == 0 then []
    else if n == 1 then Late(0) + [Connect(PID, 0)] + [Accept(0)]
    else if n == 2 then Late(1) + [Draw(PID, 1, 0, 0, [])] + [Enqueue(FIRST)]
    else if n == 3 then Late(2) + [Register(FIRST)] + [ClientSend(PID)]
    else if n == 4 then Late(3) + [ServerRecv(PID)] + [Serve]
    else if n == 5 then Late(4) + [Answer(0, [], 0)] + [ServerSend]
    else Late(5) + [TimeOut(FIRST)] + [MoveOut(FIRST, true)]
  }

  /** ... and 65536 draws later the next call waits while it does. */
  function TooLate(): seq<Action> {
    Late(6) + Draws(0x1_0000) + [Enqueue(LATER)] + [Register(LATER)] + [ClientRecv(PID, 0)] + [GiveReply(PID)]
      + [Wake(LATER)] + [Return(LATER)]
  }

  lemma LateReplySent()
    ensures At(Run({PID}, Late(5)), 1, [FIRST], [], [], [], None, [], [REPLY])
    ensures Has(Run({PID}, Late(5)), FIRST, Waiting, SeqIdOf(PID, 0))
  {
    hide Run, Next, At, Has;
    assert Late(0) == [];
    StartRuns();
    Linked(Run({PID}, Late(0)));
    RunTwo(Late(0), Connect(PID, 0), Accept(0));
    Sent(Run({PID}, Late(1)));
    RunTwo(Late(1), Draw(PID, 1, 0, 0, []), Enqueue(FIRST));
    OnItsWay(Run({PID}, Late(2)));
    RunTwo(Late(2), Register(FIRST), ClientSend(PID));
    AtTheService(Run({PID}, Late(3)));
    RunTwo(Late(3), ServerRecv(PID), Serve);
    ReplySent(Run({PID}, Late(4)));
    RunTwo(Late(4), Answer(0, [], 0), ServerSend);
  }

  lemma LateReply()
    ensures At(Run({PID}, Late(6)), 1, [], [], [], [], None, [], [REPLY])
  {
    hide Run, Next, At, Has;
    LateReplySent();
    GivenUp(Run({PID}, Late(5)));
    RunTwo(Late(5), TimeOut(FIRST), MoveOut(FIRST, true));
  }

  lemma StartRuns()
    ensures Run({PID}, []) == Start({PID})
  {
  }

  /** Exactly 65536 draws late, a reply is returned to a call that did not ask for it. */
  lemma LateReplyReachesAnotherCall()
    ensures var s := Run({PID}, TooLate());
      LATER in s.calls && s.calls[LATER].result == Some(REPLY) && REPLY.tok != LATER
  {
    hide Run, Next, Late, Draws;
    LateReply();
    var before := Late(6) + Draws(0x1_0000);
    ManyDraws(Late(6), 0x1_0000);
    SecondWaits(Run({PID}, before));
    RunTwo(before, Enqueue(LATER), Register(LATER));
    SeqIdsCollide(PID, 0x1_0000, 0);
    var before2 := before + [Enqueue(LATER)] + [Register(LATER)];
    SecondIsMatched(Run({PID}, before2), Run({PID}, before2).clients[PID].ring);
    RunTwo(before2, ClientRecv(PID, 0), GiveReply(PID));
    var before3 := before2 + [ClientRecv(PID, 0)] + [GiveReply(PID)];
    SecondReturns(Run({PID}, before3));
    RunTwo(before3, Wake(LATER), Return(LATER));
  }

  // ---------------------------------------------------------------- a reply between timeout and removal

  /** The only waiter times out, gets its reply, and then unlinks its node a second time. */
  function UnlinkedTwice(): seq<Action> {
    Late(5) + [TimeOut(FIRST)] + [ClientRecv(PID, 0)] + [MoveOut(FIRST, true)]
  }

  lemma ProcessEnds()
    ensures PID in Run({PID}, UnlinkedTwice()).clients && !Run({PID}, UnlinkedTwice()).clients[PID].alive
  {
    hide Run, Next, At, Has, Late;
    LateReplySent();
    RepliedTooLate(Run({PID}, Late(5)));
    RunTwo(Late(5), TimeOut(FIRST), ClientRecv(PID, 0));
    var before := Late(5) + [TimeOut(FIRST)] + [ClientRecv(PID, 0)];
    EndsProcess(Run({PID}, before));
    RunStep({PID}, before, MoveOut(FIRST, true));
  }
}
