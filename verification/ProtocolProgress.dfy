/** Whoever has something to do can do it: in no run is a caller, a socket thread or the server stuck. */
module ProtocolProgress {
  import opened Outcomes
  import opened PwrMessage
  import opened Protocol
  import ProtocolSteps

  /** k is the least of ks. */
  ghost predicate IsLeast(ks: set<ConnId>, k: ConnId) { k in ks && forall j :: j in ks ==> k <= j }

  lemma {:induction false} LeastExists(ks: set<ConnId>)
    requires ks != {}
    ensures exists k :: IsLeast(ks, k)
  {
    var k :| k in ks;
    if ks == {k} {
      assert IsLeast(ks, k);
    } else {
      assert ks == (ks - {k}) + {k};
      LeastExists(ks - {k});
      var m :| IsLeast(ks - {k}, m);
      assert IsLeast(ks, if k < m then k else m);
    }
  }

  lemma PendingIsAccepted(s: State, k: ConnId)
    requires k in s.conns && s.conns[k].status == Pending
    ensures exists j :: Enabled(s, Accept(j))
  {
    var ks := set j | j in s.conns && s.conns[j].status == Pending;
    assert k in ks;
    LeastExists(ks);
    var j :| IsLeast(ks, j);
    assert forall i :: i in s.conns && s.conns[i].status == Pending ==> i in ks;
    assert Enabled(s, Accept(j));
  }

  /** In every run the caller of a call can go on in each of its phases. */
  lemma CallIsNotStuck(pids: set<u32>, actions: seq<Action>, t: Token)
    requires var s := Run(pids, actions); t in s.calls && s.calls[t].phase != Done
    ensures var s := Run(pids, actions);
      && t.client in s.clients
      && (s.clients[t.client].alive ==>
            match s.calls[t].phase
            case Drawn => Enabled(s, Enqueue(t))
            case Queued => Enabled(s, Register(t))
            case Waiting => Enabled(s, Wake(t)) && Enabled(s, TimeOut(t))
            case TimedOut(_) => Enabled(s, MoveOut(t, true))
            case Woken => Enabled(s, Return(t)))
  {
    hide Run, FreshInv, RingsInv, ConnsInv, TableInv, WaitInv, StartInv, GivenInv, TakenInv;
    ProtocolSteps.EveryRunKeeps(pids, actions);
  }

  lemma SocketFacts(s: State, c: u32)
    requires Inv(s) && c in s.clients
    ensures s.clients[c].conn.Some? ==> s.clients[c].conn.value in s.conns
    ensures s.clients[c].hand.Some? ==> s.clients[c].hand.value.to in s.calls
  {
    hide CallsInv, FreshInv, RingsInv, TableInv, WaitInv, StartInv, GivenInv;
  }

  /** In every run a process can make a call; its socket thread can hand over the reply in its hand, and without one
      send the oldest request and take the oldest reply of its connection. */
  lemma ProcessIsNotStuck(pids: set<u32>, actions: seq<Action>, c: u32)
    requires var s := Run(pids, actions); c in s.clients && s.clients[c].alive
    ensures var s := Run(pids, actions);
      && (forall optType, taskNo, dataLen, data :: Enabled(s, Draw(c, optType, taskNo, dataLen, data)))
      && (s.clients[c].hand.Some? ==> Enabled(s, GiveReply(c)))
      && (s.clients[c].hand == None && s.clients[c].conn.Some? ==>
            && s.clients[c].conn.value in s.conns
            && (s.clients[c].ring != [] ==> Enabled(s, ClientSend(c)))
            && (s.conns[s.clients[c].conn.value].down != [] ==> exists i :: Enabled(s, ClientRecv(c, i))))
  {
    hide Run, Inv;
    ProtocolSteps.EveryRunKeeps(pids, actions);
    var s := Run(pids, actions);
    SocketFacts(s, c);
    if Connected(s, c) && s.clients[c].hand == None && s.conns[s.clients[c].conn.value].down != [] {
      var seqId := s.conns[s.clients[c].conn.value].down[0].msg.head.seqId;
      assert Enabled(s, ClientRecv(c, FirstMatch(s.calls, s.clients[c].waiting, seqId)));
    }
  }

  lemma OpenIsListed(s: State, k: ConnId)
    requires Inv(s) && k in s.conns && s.conns[k].status == Open
    ensures Registered(s, s.conns[k].owner) && s.table[s.conns[k].owner] == k
  {
    hide CallsInv, FreshInv, RingsInv, ConnsInv, WaitInv, StartInv, GivenInv, TakenInv;
  }

  /** In every run the server can receive what is on an open connection, accept what waits, serve what it has
      received, make any reply, and send what it has made. */
  lemma ServerIsNotStuck(pids: set<u32>, actions: seq<Action>, k: ConnId)
    ensures var s := Run(pids, actions);
      && (k in s.conns && s.conns[k].status == Open ==>
            && Enabled(s, ServerClose(s.conns[k].owner))
            && (s.conns[k].up != [] ==> Enabled(s, ServerRecv(s.conns[k].owner))))
      && (k in s.conns && s.conns[k].status == Pending ==> exists j :: Enabled(s, Accept(j)))
      && (s.recvRing != [] && s.service == None ==> Enabled(s, Serve))
      && (s.service.Some? ==> Enabled(s, StaySilent) && forall code, data, n :: Enabled(s, Answer(code, data, n)))
      && (s.sendRing != [] ==> Enabled(s, ServerSend))
  {
    hide Run, Inv;
    ProtocolSteps.EveryRunKeeps(pids, actions);
    var s := Run(pids, actions);
    if k in s.conns && s.conns[k].status == Open { OpenIsListed(s, k); }
    if k in s.conns && s.conns[k].status == Pending { PendingIsAccepted(s, k); }
  }
}
