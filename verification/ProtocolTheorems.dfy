/** What holds after every run of the protocol. */
module ProtocolTheorems {
  import opened Outcomes
  import opened PwrMessage
  import opened Protocol
  import opened ProtocolHistory
  import opened ProtocolWaiting
  import ProtocolCallers
  import opened ProtocolLinks
  import ProtocolSteps

  // ---------------------------------------------------------------- routing

  /** Replies on a connection are for the client that owns it. */
  lemma RepliesAreRoutedHome(pids: set<u32>, actions: seq<Action>, k: ConnId, i: nat)
    requires var s := Run(pids, actions); k in s.conns && i < |s.conns[k].down|
    ensures var s := Run(pids, actions);
      var p := s.conns[k].down[i];
      p.tok in s.calls && p.tok.client == s.conns[k].owner && Answers(p.msg, s.calls[p.tok].req)
  {
    hide CallsInv, FreshInv, RingsInv, TableInv, WaitInv, StartInv, GivenInv, TakenInv, Run;
    ProtocolSteps.EveryRunKeeps(pids, actions);
    var s := Run(pids, actions);
    assert ConnOk(s, k);
    assert PacketOk(s, s.conns[k].down[i], Downstream(k), true);
  }

  /** The client table is injective, and lists exactly the connections the server holds open. */
  lemma OpenIffInTable(pids: set<u32>, actions: seq<Action>, k: ConnId)
    requires k in Run(pids, actions).conns
    ensures var s := Run(pids, actions);
      s.conns[k].status == Open <==> (s.conns[k].owner in s.table && s.table[s.conns[k].owner] == k)
    ensures var table := Run(pids, actions).table;
      forall c, d :: c in table && d in table && table[c] == table[d] ==> c == d
  {
    hide CallsInv, FreshInv, RingsInv, ConnsInv, WaitInv, StartInv, GivenInv, TakenInv, Run;
    ProtocolSteps.EveryRunKeeps(pids, actions);
  }

  /** In every run, sending puts the oldest reply at the end of exactly the connection registered for the client
      that made the call, which is open and its own; if there is none, and on all others, nothing changes. */
  lemma SentToTheRegistered(pids: set<u32>, actions: seq<Action>, k: ConnId)
    requires var s := Run(pids, actions); k in s.conns && s.sendRing != []
    ensures var s, s' := Run(pids, actions), Next(Run(pids, actions), ServerSend);
      var c := s.sendRing[0].tok.client;
      && s'.sendRing == s.sendRing[1..] && k in s'.conns
      && (s'.conns[k].down == s.conns[k].down + [s.sendRing[0]] <==> c in s.table && s.table[c] == k)
      && (s'.conns[k] != s.conns[k] ==>
            s'.conns[k].down == s.conns[k].down + [s.sendRing[0]] && s'.conns[k].up == s.conns[k].up
            && s'.conns[k].owner == s.conns[k].owner == c && s'.conns[k].status == s.conns[k].status == Open)
  {
    hide CallsInv, FreshInv, RingsInv, ConnsInv, WaitInv, StartInv, GivenInv, TakenInv, Run, Move;
    ProtocolSteps.EveryRunKeeps(pids, actions);
    var s := Run(pids, actions);
    SenderIsAddressee(s);
    LongerIsOther(s.conns[k].down, s.sendRing[0]);
  }

  lemma LongerIsOther(q: seq<Packet>, p: Packet)
    ensures q + [p] != q
  {
    assert |q + [p]| == |q| + 1;
  }

  lemma SenderIsAddressee(s: State)
    requires Inv(s) && s.sendRing != []
    ensures s.sendRing[0].msg.head.sysId == s.sendRing[0].tok.client
  {
  }

  /** In every run, accepting a connection opens it exactly when its client is registered, whose old connection is
      then closed, or fewer than three clients are; otherwise it is closed itself. No other connection changes, and
      no packet moves. */
  lemma AcceptMeans(pids: set<u32>, actions: seq<Action>, k: ConnId)
    requires Enabled(Run(pids, actions), Accept(k))
    ensures var s, s' := Run(pids, actions), Next(Run(pids, actions), Accept(k));
      var c := s.conns[k].owner;
      && k in s'.conns && (s'.conns[k].status == Open <==> c in s.table || |s.table| < 3)
      && (s'.conns[k].status == Open || s'.conns[k].status == Closed)
      && s'.table == (if s'.conns[k].status == Open then s.table[c := k] else s.table)
      && (forall j :: j in s.conns ==>
            && j in s'.conns && s'.conns[j] == s.conns[j].(status := s'.conns[j].status)
            && (j != k ==> s'.conns[j].status == if c in s.table && s.table[c] == j then Closed else s.conns[j].status))
  {
    hide CallsInv, FreshInv, RingsInv, ConnsInv, WaitInv, StartInv, GivenInv, TakenInv, Run;
    ProtocolSteps.EveryRunKeeps(pids, actions);
  }

  /** In every run, closing a client's connection closes that one and takes the client off the table. */
  lemma CloseMeans(pids: set<u32>, actions: seq<Action>, c: u32)
    requires Enabled(Run(pids, actions), ServerClose(c))
    ensures var s, s' := Run(pids, actions), Next(Run(pids, actions), ServerClose(c));
      && (forall d :: d in s'.table <==> d in s.table && d != c)
      && (forall d :: d in s'.table ==> s'.table[d] == s.table[d])
      && (forall j :: j in s.conns ==>
            && j in s'.conns && s'.conns[j] == s.conns[j].(status := s'.conns[j].status)
            && s'.conns[j].status
               == if s.conns[j].owner == c && s.conns[j].status == Open then Closed else s.conns[j].status)
  {
    hide CallsInv, FreshInv, RingsInv, ConnsInv, WaitInv, StartInv, GivenInv, TakenInv, Run;
    ProtocolSteps.EveryRunKeeps(pids, actions);
  }

  /** In every run, a client that loses its connection gets a new one, when no other is waiting to be accepted and
      the client is registered or there is room: its old one is closed, its requests go to the new one, replies to
      it come there, and nothing in its ring or wait list is lost. */
  lemma ReconnectWorks(pids: set<u32>, actions: seq<Action>, c: u32, k: ConnId)
    requires var s := Run(pids, actions);
      && SocketIdle(s, c) && (forall j :: j in s.conns ==> j < k && s.conns[j].status != Pending)
      && (c in s.table || |s.table| < 3)
    ensures var s := Run(pids, actions);
      var s' := Next(Next(Next(s, Disconnect(c)), Connect(c, k)), Accept(k));
      && c in s'.clients && s'.clients[c] == s.clients[c].(conn := Some(k))
      && k in s'.conns && s'.conns[k] == Conn(c, Open, [], []) && s'.table == s.table[c := k]
      && forall j :: j in s.conns && s.conns[j].owner == c ==> j in s'.conns && s'.conns[j].status == Closed
  {
    hide CallsInv, FreshInv, RingsInv, ConnsInv, WaitInv, StartInv, GivenInv, TakenInv, Run;
    ProtocolSteps.EveryRunKeeps(pids, actions);
    var s := Run(pids, actions);
    NewConnection(s, c, k);
    NewIsAccepted(s, Next(Next(s, Disconnect(c)), Connect(c, k)), c, k);
  }

  lemma NewConnection(s: State, c: u32, k: ConnId)
    requires SocketIdle(s, c) && forall j :: j in s.conns ==> j < k
    ensures Next(Next(s, Disconnect(c)), Connect(c, k))
         == s.(clients := s.clients[c := s.clients[c].(conn := Some(k))],
               conns := s.conns[k := Conn(c, Pending, [], [])])
  {
    var s1 := Next(s, Disconnect(c));
    assert s1 == s.(clients := s.clients[c := s.clients[c].(conn := None)]);
    assert s1.clients[c := s.clients[c].(conn := Some(k))] == s.clients[c := s.clients[c].(conn := Some(k))];
  }

  lemma NewIsAccepted(s: State, s2: State, c: u32, k: ConnId)
    requires TableInv(s) && k !in s.conns && (forall j :: j in s.conns ==> s.conns[j].status != Pending)
    requires s2.conns == s.conns[k := Conn(c, Pending, [], [])] && s2.table == s.table
    requires c in s.table || |s.table| < 3
    ensures var s' := Next(s2, Accept(k));
      && s'.clients == s2.clients && s'.table == s.table[c := k]
      && k in s'.conns && s'.conns[k] == Conn(c, Open, [], [])
      && forall j :: j in s.conns && s.conns[j].owner == c ==> j in s'.conns && s'.conns[j].status == Closed
  {
    assert OldestPending(s2, k);
  }

  // ---------------------------------------------------------------- correlation

  /** A returned reply answers a request of the same process whose draw is a multiple of 65536 away. */
  lemma ReplyAnswersAnEqualId(pids: set<u32>, actions: seq<Action>, t: Token)
    requires var s := Run(pids, actions); t in s.calls && s.calls[t].result.Some?
    ensures var s := Run(pids, actions);
      var p := s.calls[t].result.value;
      && p.tok in s.calls && Answers(p.msg, s.calls[p.tok].req)
      && p.tok.client == t.client && (p.tok.ticket - t.ticket) % 0x1_0000 == 0
  {
    hide FreshInv, RingsInv, ConnsInv, TableInv, WaitInv, StartInv, Run;
    ProtocolSteps.EveryRunKeeps(pids, actions);
    var s := Run(pids, actions);
    var p := s.calls[t].result.value;
    assert PacketOk(s, p, Given(t), true);
    SeqIdsCollide(t.client, p.tok.ticket, t.ticket);
  }

  lemma DrawnBefore(s: State, t: Token)
    requires Inv(s) && t in s.calls
    ensures t.client in s.clients && t.ticket < s.clients[t.client].drawn
    ensures s.calls[t].req.head.seqId == SeqIdOf(t.client, t.ticket)
  {
  }

  /** A reply is at the front of the client's connection, and the socket thread is free to take it. */
  predicate Arrives(s: State, c: u32) {
    SocketIdle(s, c) && Connected(s, c) && s.conns[s.clients[c].conn.value].down != []
  }

  /** The call waits, and its id is that of the arriving reply, which is for another call. */
  predicate Rivals(s: State, c: u32, t: Token)
    requires Arrives(s, c)
  {
    var x := Arriving(s, c).tok;
    t in s.calls && s.calls[t].phase != Done && t != x && (t.ticket - x.ticket) % 0x1_0000 == 0
  }

  /** Every such call stands behind the one that the arriving reply is for, in an undamaged list. */
  ghost predicate InTurn(s: State, c: u32)
    requires Arrives(s, c)
  {
    var waiting := s.clients[c].waiting;
    forall j :: 0 <= j < |waiting| && Rivals(s, c, waiting[j]) ==>
      !Damaged(s, c) && Arriving(s, c).tok in waiting[..j]
  }

  /** The step gives the reply to the call it is for, or to none. */
  predicate OwnOrDropped(s: State, a: Action) {
    DeliveredBy(s, a) == [] || DeliveredBy(s, a)[0].0 == DeliveredBy(s, a)[0].1
  }

  lemma ArrivesIsEnabled(s: State, c: u32, i: nat)
    requires Arrives(s, c)
    ensures Enabled(s, ClientRecv(c, i)) <==> MayPick(s, c, i)
    ensures Enabled(s, ClientRecv(c, i)) ==>
      DeliveredBy(s, ClientRecv(c, i)) ==
      if i < |s.clients[c].waiting| then [(Arriving(s, c).tok, s.clients[c].waiting[i])] else []
  {
  }

  /** The ids of waiting calls agree with the reply's exactly for congruent draws. */
  lemma AwaitsIff(s: State, c: u32, i: nat, t: Token)
    requires Inv(s) && Arrives(s, c) && Enabled(s, ClientRecv(c, i)) && t in s.clients[c].waiting
    ensures Awaits(s.calls, t, Arriving(s, c).msg.head.seqId) <==>
      t in s.calls && s.calls[t].phase != Done && (t.ticket - Arriving(s, c).tok.ticket) % 0x1_0000 == 0
  {
    hide Inv;
    var x := Arriving(s, c).tok;
    ArrivingIsOurs(s, c, i);
    ProtocolCallers.WaitingIsDistinct(s, c);
    DrawnBefore(s, t);
    DrawnBefore(s, x);
    SeqIdsCollide(c, t.ticket, x.ticket);
  }

  lemma FirstPick(s: State, c: u32)
    requires Arrives(s, c)
    ensures MayPick(s, c, FirstMatch(s.calls, s.clients[c].waiting, Arriving(s, c).msg.head.seqId))
  {
  }

  lemma UndamagedAreNotDone(s: State, c: u32, t: Token)
    requires Inv(s) && c in s.clients && !Damaged(s, c) && t in s.clients[c].waiting
    ensures t in s.calls && s.calls[t].phase != Done
  {
    hide Inv;
    ProtocolCallers.WaitingIsDistinct(s, c);
  }

  /** In turn, whatever the search finds is the call itself. */
  lemma InTurnIsOwn(s: State, c: u32, i: nat)
    requires Inv(s) && Arrives(s, c) && Enabled(s, ClientRecv(c, i)) && InTurn(s, c)
    ensures OwnOrDropped(s, ClientRecv(c, i))
  {
    hide Inv, Awaits;
    var x, waiting := Arriving(s, c).tok, s.clients[c].waiting;
    ArrivesIsEnabled(s, c, i);
    if i < |waiting| && waiting[i] != x {
      AwaitsIff(s, c, i, waiting[i]);
      assert Rivals(s, c, waiting[i]);
      var k :| 0 <= k < i && waiting[k] == x;
      AwaitsIff(s, c, i, x);
      UndamagedAreNotDone(s, c, x);
    }
  }

  /** Out of turn, some search gives the reply to another call. */
  lemma OutOfTurnIsForeign(s: State, c: u32, j: nat)
    requires Inv(s) && Arrives(s, c) && j < |s.clients[c].waiting| && Rivals(s, c, s.clients[c].waiting[j])
    requires Damaged(s, c) || Arriving(s, c).tok !in s.clients[c].waiting[..j]
    ensures exists i :: Enabled(s, ClientRecv(c, i)) && !OwnOrDropped(s, ClientRecv(c, i))
  {
    hide Inv, Awaits;
    var waiting := s.clients[c].waiting;
    var f := FirstMatch(s.calls, waiting, Arriving(s, c).msg.head.seqId);
    FirstPick(s, c);
    ArrivesIsEnabled(s, c, f);
    ArrivesIsEnabled(s, c, j);
    AwaitsIff(s, c, f, waiting[j]);
    if Damaged(s, c) {
      assert MayPick(s, c, j);
      assert !OwnOrDropped(s, ClientRecv(c, j));
    } else {
      assert f <= j;
      if f < j { assert waiting[..j][f] == waiting[f]; }
      assert !OwnOrDropped(s, ClientRecv(c, f));
    }
  }

  /** In every reachable state: an arriving reply can only go to the call it is for, or be dropped, exactly
      when it is in turn. */
  lemma MatchIsOwnIff(pids: set<u32>, actions: seq<Action>, c: u32)
    requires Arrives(Run(pids, actions), c)
    ensures var s := Run(pids, actions);
      InTurn(s, c) <==> forall i :: Enabled(s, ClientRecv(c, i)) ==> OwnOrDropped(s, ClientRecv(c, i))
  {
    hide Inv, Run, Enabled, OwnOrDropped, Damaged, Rivals;
    ProtocolSteps.EveryRunKeeps(pids, actions);
    var s := Run(pids, actions);
    if InTurn(s, c) {
      forall i | Enabled(s, ClientRecv(c, i))
        ensures OwnOrDropped(s, ClientRecv(c, i))
      {
        InTurnIsOwn(s, c, i);
      }
    } else {
      var waiting := s.clients[c].waiting;
      var j :| 0 <= j < |waiting| && Rivals(s, c, waiting[j]) && (Damaged(s, c) || Arriving(s, c).tok !in waiting[..j]);
      OutOfTurnIsForeign(s, c, j);
    }
  }

  /** Whenever the run takes a reply off a connection, the reply is in turn. */
  ghost predicate AllInTurn(pids: set<u32>, actions: seq<Action>) {
    forall n :: 0 <= n < |actions| ==> TakenInTurn(Run(pids, actions[..n]), actions[n])
  }

  ghost predicate TakenInTurn(s: State, a: Action) {
    a.ClientRecv? && Enabled(s, a) ==> Arrives(s, a.c) && InTurn(s, a.c)
  }

  /** Every reply delivered goes to the call that it is for. */
  ghost predicate AllOwn(pids: set<u32>, actions: seq<Action>) {
    forall i :: 0 <= i < |Delivered(pids, actions)| ==>
      Delivered(pids, actions)[i].0 == Delivered(pids, actions)[i].1
  }

  lemma InTurnPrefix(pids: set<u32>, actions: seq<Action>)
    requires actions != []
    ensures var before := actions[..|actions| - 1];
      AllInTurn(pids, actions) <==>
        AllInTurn(pids, before) && TakenInTurn(Run(pids, before), actions[|actions| - 1])
  {
    hide Run, TakenInTurn;
    var before, last := actions[..|actions| - 1], |actions| - 1;
    assert actions[..last] == before;
    if AllInTurn(pids, actions) {
      forall n | 0 <= n < last
        ensures TakenInTurn(Run(pids, before[..n]), before[n])
      {
        assert before[..n] == actions[..n];
      }
      assert TakenInTurn(Run(pids, actions[..last]), actions[last]);
    }
    if AllInTurn(pids, before) && TakenInTurn(Run(pids, before), actions[last]) {
      forall n | 0 <= n < |actions|
        ensures TakenInTurn(Run(pids, actions[..n]), actions[n])
      {
        if n < last {
          assert before[..n] == actions[..n];
          assert TakenInTurn(Run(pids, before[..n]), before[n]);
        }
      }
    }
  }

  lemma OwnPrefix(pids: set<u32>, actions: seq<Action>)
    requires actions != []
    ensures var before := actions[..|actions| - 1];
      AllOwn(pids, actions) <==> AllOwn(pids, before) && OwnOrDropped(Run(pids, before), actions[|actions| - 1])
  {
    var before := actions[..|actions| - 1];
    var ds, d := Delivered(pids, before), DeliveredBy(Run(pids, before), actions[|actions| - 1]);
    OnlyRecvDelivers(Run(pids, before), actions[|actions| - 1]);
    assert Delivered(pids, actions) == ds + d;
    if d != [] { assert (ds + d)[|ds|] == d[0]; }
    forall i | 0 <= i < |ds|
      ensures (ds + d)[i] == ds[i]
    {
    }
  }

  lemma OnlyRecvDelivers(s: State, a: Action)
    ensures DeliveredBy(s, a) != [] ==> a.ClientRecv? && Enabled(s, a) && |DeliveredBy(s, a)| == 1
  {
  }

  lemma StepInTurnIsOwn(s: State, a: Action)
    requires Inv(s) && TakenInTurn(s, a)
    ensures OwnOrDropped(s, a)
  {
    hide Inv, InTurn;
    OnlyRecvDelivers(s, a);
    if a.ClientRecv? && Enabled(s, a) { InTurnIsOwn(s, a.c, a.pick); }
  }

  /** In every run in which replies are taken in turn only, every reply goes to the call that it is for. */
  lemma {:induction false} InTurnDeliveriesAreOwn(pids: set<u32>, actions: seq<Action>)
    requires AllInTurn(pids, actions)
    ensures AllOwn(pids, actions)
  {
    hide Inv, AllInTurn, TakenInTurn, OwnOrDropped;
    if actions != [] {
      var before := actions[..|actions| - 1];
      InTurnPrefix(pids, actions);
      InTurnDeliveriesAreOwn(pids, before);
      ProtocolSteps.EveryRunKeeps(pids, before);
      StepInTurnIsOwn(Run(pids, before), actions[|actions| - 1]);
      OwnPrefix(pids, actions);
    }
  }

  /** In an undamaged list the search has one outcome. */
  lemma UndamagedIsOwnIff(s: State, a: Action)
    requires Inv(s) && ReturnedAreOut(s)
    ensures OwnOrDropped(s, a) <==> TakenInTurn(s, a)
  {
    hide Inv, ReturnedAreOut, InTurn, MayPick, Rivals;
    OnlyRecvDelivers(s, a);
    if a.ClientRecv? && Enabled(s, a) {
      var c, waiting := a.c, s.clients[a.c].waiting;
      ReturnedAreOutMeans(s, c);
      if InTurn(s, c) {
        InTurnIsOwn(s, c, a.pick);
      } else {
        var j := FirstOutOfTurn(s, c);
        OutOfTurnIsForeign(s, c, j);
        var i :| Enabled(s, ClientRecv(c, i)) && !OwnOrDropped(s, ClientRecv(c, i));
        OnePick(s, c, i, a.pick);
      }
    }
  }

  lemma ReturnedAreOutMeans(s: State, c: u32)
    requires Inv(s) && ReturnedAreOut(s)
    ensures !Damaged(s, c)
  {
    hide Inv;
    if c in s.clients { ProtocolCallers.WaitingIsDistinct(s, c); }
  }

  ghost function FirstOutOfTurn(s: State, c: u32): (j: nat)
    requires Arrives(s, c) && !InTurn(s, c)
    ensures j < |s.clients[c].waiting| && Rivals(s, c, s.clients[c].waiting[j])
    ensures Damaged(s, c) || Arriving(s, c).tok !in s.clients[c].waiting[..j]
  {
    var waiting := s.clients[c].waiting;
    var j :| 0 <= j < |waiting| && Rivals(s, c, waiting[j]) &&
             (Damaged(s, c) || Arriving(s, c).tok !in waiting[..j]);
    j
  }

  lemma OnePick(s: State, c: u32, i: nat, j: nat)
    requires !Damaged(s, c) && Enabled(s, ClientRecv(c, i)) && Enabled(s, ClientRecv(c, j))
    ensures i == j
  {
  }

  /** In every orderly run: all replies go to the calls that they are for exactly when all are taken in turn. */
  lemma {:induction false} DeliveriesAreOwnIff(pids: set<u32>, actions: seq<Action>)
    requires OrderlyRun(pids, actions)
    ensures AllOwn(pids, actions) <==> AllInTurn(pids, actions)
  {
    hide Inv, AllInTurn, TakenInTurn, OwnOrDropped, AllOwn, OrderlyRun, ReturnedAreOut, Run;
    if actions == [] {
      NothingYet(pids);
    } else {
      var before := actions[..|actions| - 1];
      OrderlyPrefix(pids, actions);
      DeliveriesAreOwnIff(pids, before);
      ReturnedCallsAreOut(pids, before);
      ProtocolSteps.EveryRunKeeps(pids, before);
      UndamagedIsOwnIff(Run(pids, before), actions[|actions| - 1]);
      InTurnPrefix(pids, actions);
      OwnPrefix(pids, actions);
    }
  }

  lemma NothingYet(pids: set<u32>)
    ensures AllOwn(pids, []) && AllInTurn(pids, [])
  {
  }

  /** What SendMsgSyn returns then answers the caller's own request. */
  lemma InTurnReplyIsOwn(pids: set<u32>, actions: seq<Action>, t: Token)
    requires AllInTurn(pids, actions)
    requires var s := Run(pids, actions); t in s.calls && s.calls[t].result.Some?
    ensures var s := Run(pids, actions);
      s.calls[t].result.value.tok == t && Answers(s.calls[t].result.value.msg, s.calls[t].req)
  {
    hide Run, Delivered, AllInTurn;
    InTurnDeliveriesAreOwn(pids, actions);
    ResultsWereDelivered(pids, actions, t);
    ReplyAnswersAnEqualId(pids, actions, t);
  }

  // ---------------------------------------------------------------- the window of 65536 draws

  /** Fewer than 65536 ids have been drawn since x was. */
  predicate Recent(s: State, x: Token) {
    x.client in s.clients && s.clients[x.client].drawn - x.ticket <= 0x1_0000
  }

  /** The reply about to be taken, if there is one, and every call that waits for one are recent. */
  ghost predicate InWindow(s: State) {
    && (forall c :: Arrives(s, c) ==> Recent(s, Arriving(s, c).tok))
    && (forall c, t :: c in s.clients && t in s.clients[c].waiting && t in s.calls && s.calls[t].phase != Done ==>
          Recent(s, t))
  }

  ghost predicate Windowed(pids: set<u32>, actions: seq<Action>) {
    forall n :: 0 <= n <= |actions| ==> InWindow(Run(pids, actions[..n]))
  }

  /** In the window no other waiting call has the reply's id. */
  lemma WindowIsInTurn(s: State, a: Action)
    requires Inv(s) && InWindow(s)
    ensures TakenInTurn(s, a)
  {
    hide Inv, MayPick;
    if a.ClientRecv? && Enabled(s, a) {
      var c, waiting := a.c, s.clients[a.c].waiting;
      var x := Arriving(s, c).tok;
      forall j | 0 <= j < |waiting| && Rivals(s, c, waiting[j])
        ensures false
      {
        ArrivingIsOurs(s, c, a.pick);
        ProtocolCallers.WaitingIsDistinct(s, c);
        DrawnBefore(s, waiting[j]);
        DrawnBefore(s, x);
        assert Recent(s, waiting[j]) && Recent(s, x);
        NearAndCongruent(waiting[j].ticket, x.ticket);
      }
    }
  }

  lemma NearAndCongruent(a: nat, b: nat)
    requires (a - b) % 0x1_0000 == 0 && -0x1_0000 < a - b < 0x1_0000
    ensures a == b
  {
  }

  /** When nothing that can meet is 65536 draws old, every reply that SendMsgSyn returns answers the
      caller's own request. */
  lemma WindowedReplyIsOwn(pids: set<u32>, actions: seq<Action>, t: Token)
    requires Windowed(pids, actions)
    requires var s := Run(pids, actions); t in s.calls && s.calls[t].result.Some?
    ensures var s := Run(pids, actions);
      s.calls[t].result.value.tok == t && Answers(s.calls[t].result.value.msg, s.calls[t].req)
  {
    hide Run;
    WindowedDeliveriesAreOwn(pids, actions);
    InTurnReplyIsOwn(pids, actions, t);
  }

  lemma WindowedDeliveriesAreOwn(pids: set<u32>, actions: seq<Action>)
    requires Windowed(pids, actions)
    ensures AllInTurn(pids, actions) && AllOwn(pids, actions)
  {
    hide Run, InWindow, TakenInTurn, Inv;
    forall n | 0 <= n < |actions|
      ensures TakenInTurn(Run(pids, actions[..n]), actions[n])
    {
      ProtocolSteps.EveryRunKeeps(pids, actions[..n]);
      WindowIsInTurn(Run(pids, actions[..n]), actions[n]);
    }
    InTurnDeliveriesAreOwn(pids, actions);
  }

  // ---------------------------------------------------------------- who gets a reply

  lemma ListedIsFound(s: State, c: u32, i: nat)
    requires Inv(s) && Arrives(s, c) && Enabled(s, ClientRecv(c, i)) && !Damaged(s, c)
    requires Arriving(s, c).tok in s.clients[c].waiting
    ensures i < |s.clients[c].waiting|
  {
    hide Inv;
    AwaitsIff(s, c, i, Arriving(s, c).tok);
    UndamagedAreNotDone(s, c, Arriving(s, c).tok);
  }

  /** In an orderly run an arriving reply goes to the call that it is for if that still waits, and is dropped
      otherwise, exactly when it is in turn. */
  lemma ReplyIsDeliveredIffAwaited(pids: set<u32>, actions: seq<Action>, c: u32, i: nat)
    requires OrderlyRun(pids, actions) && Enabled(Run(pids, actions), ClientRecv(c, i))
    ensures var s := Run(pids, actions);
      var x := Arriving(s, c).tok;
      Arrives(s, c) && (InTurn(s, c) <==>
        DeliveredBy(s, ClientRecv(c, i)) == if x in s.clients[c].waiting then [(x, x)] else [])
  {
    hide Inv, Run, OrderlyRun, InTurn, ReturnedAreOut, MayPick, Awaits;
    ProtocolSteps.EveryRunKeeps(pids, actions);
    ReturnedCallsAreOut(pids, actions);
    var s := Run(pids, actions);
    ReturnedAreOutMeans(s, c);
    UndamagedIsOwnIff(s, ClientRecv(c, i));
    ArrivesIsEnabled(s, c, i);
    if Arriving(s, c).tok in s.clients[c].waiting { ListedIsFound(s, c, i); }
  }
}
