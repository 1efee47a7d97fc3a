/** What a step may change, and what of the protocol's invariant it then keeps. */
module ProtocolFrames {
  import opened Outcomes
  import opened PwrMessage
  import opened Sequences
  import MsgRing
  import opened Protocol

  // ---------------------------------------------------------------- frames

  /** Calls are only added, and keep their requests. */
  ghost predicate Extends(s: State, s': State) {
    forall t :: t in s.calls ==> t in s'.calls && s'.calls[t].req == s.calls[t].req
  }

  /** What was at a place is still there, but for one token. */
  ghost predicate StaysBut(s: State, s': State, at: Place, but: Option<Token>) {
    forall t :: t in s.place && s.place[t] == at && Some(t) != but ==> t in s'.place && s'.place[t] == at
  }

  lemma QueueStays(s: State, s': State, q: seq<Packet>, at: Place, reply: bool)
    requires QueueOk(s, q, at, reply) && Extends(s, s') && StaysBut(s, s', at, None)
    ensures QueueOk(s', q, at, reply)
  {
  }

  lemma RingPushed(s: State, s': State, q: seq<Packet>, p: Packet, at: Place, reply: bool)
    requires QueueOk(s, q, at, reply) && Extends(s, s')
    requires StaysBut(s, s', at, if MsgRing.Displaced(q).Some? then Some(q[0].tok) else None)
    requires PacketOk(s', p, at, reply) && p.tok in s.place && s.place[p.tok] != at
    ensures QueueOk(s', MsgRing.Pushed(q, p), at, reply)
  {
  }

  lemma RingPushedBelong(q: seq<Packet>, p: Packet, c: u32)
    requires BelongTo(q, c) && p.tok.client == c
    ensures BelongTo(MsgRing.Pushed(q, p), c)
  {
  }

  /** The client rings hold what they held. */
  ghost predicate SameRings(s: State, s': State) {
    forall c :: c in s'.clients ==> c in s.clients && s'.clients[c].ring == s.clients[c].ring
  }

  lemma ClientRingsStay(s: State, s': State)
    requires RingsInv(s) && Extends(s, s') && SameRings(s, s') && StaysBut(s, s', ClientRing, None)
    ensures forall c :: c in s'.clients ==>
      QueueOk(s', s'.clients[c].ring, ClientRing, false) && BelongTo(s'.clients[c].ring, c)
  {
  }

  lemma RingsStay(s: State, s': State)
    requires RingsInv(s) && Extends(s, s') && SameRings(s, s')
    requires s'.recvRing == s.recvRing && s'.sendRing == s.sendRing && s'.service == s.service
    requires StaysBut(s, s', ClientRing, None) && StaysBut(s, s', ServerRing, None)
    requires StaysBut(s, s', ReplyRing, None) && StaysBut(s, s', Service, None)
    ensures RingsInv(s')
  {
  }

  /** A connection's queues hold what they held, and stay where they are. */
  ghost predicate SameConn(s: State, s': State, k: ConnId) {
    && k in s.conns && k in s'.conns && s'.conns[k].owner == s.conns[k].owner
    && s'.conns[k].up == s.conns[k].up && s'.conns[k].down == s.conns[k].down
    && StaysBut(s, s', Upstream(k), None) && StaysBut(s, s', Downstream(k), None)
  }

  lemma ConnStays(s: State, s': State, k: ConnId)
    requires Extends(s, s') && SameConn(s, s', k) && ConnOk(s, k)
    ensures ConnOk(s', k)
  {
  }

  /** Every connection but those in the set is as it was; the clients' links to them too. */
  ghost predicate SameConnsBut(s: State, s': State, but: set<ConnId>) {
    && (forall k :: k in s'.conns && k !in but ==> SameConn(s, s', k))
    && (forall c :: c in s'.clients ==> c in s.clients && s'.clients[c].conn == s.clients[c].conn)
    && (forall k :: k in s.conns ==> k in s'.conns && s'.conns[k].owner == s.conns[k].owner)
  }

  lemma ConnsStayBut(s: State, s': State, but: set<ConnId>)
    requires ConnsInv(s) && Extends(s, s') && SameConnsBut(s, s', but)
    requires forall k :: k in but && k in s'.conns ==> ConnOk(s', k)
    ensures ConnsInv(s')
  {
  }

  /** A step on the callers' side that matches no reply: calls are added or proceed, nodes enter or
      leave the wait lists, a matched reply is handed over, a returning call takes its reply. */
  ghost predicate CallersStep(s: State, s': State) {
    CallsStep(s, s') && WaitStep(s, s') && TakenStep(s, s') && GivenSame(s, s')
  }

  ghost predicate GivenSame(s: State, s': State) {
    forall a :: a in s'.place && (s'.place[a].Given? || (a in s.place && s.place[a].Given?)) ==>
      a in s.place && s'.place[a] == s.place[a]
  }

  ghost predicate CallsStep(s: State, s': State) {
    && Extends(s, s') && s'.clients.Keys == s.clients.Keys && s'.place.Keys == s'.calls.Keys
    && (forall c :: c in s.clients ==> s.clients[c].drawn <= s'.clients[c].drawn)
    && (forall t :: t in s'.calls && t !in s.calls ==>
      && t.client in s.clients && t.ticket < s'.clients[t.client].drawn
      && s'.calls[t].req.head.seqId == SeqIdOf(t.client, t.ticket)
      && s'.calls[t].req.head.sysId == t.client && s'.calls[t].req.head.msgType == MT_REQ)
    && (forall t :: t in s.calls && Early(s'.calls[t].phase) ==> Early(s.calls[t].phase))
  }

  ghost predicate WaitStep(s: State, s': State) {
    forall c :: c in s'.clients && c in s.clients ==>
      && Distinct(s'.clients[c].waiting)
      && forall t :: t in s'.clients[c].waiting ==>
        && t in s'.calls && t in s.calls && t.client == c && !Early(s'.calls[t].phase)
        && (t in s.clients[c].waiting || Early(s.calls[t].phase))
  }

  ghost predicate TakenStep(s: State, s': State) {
    && (forall c :: c in s'.clients && c in s.clients ==>
      s'.clients[c].hand == s.clients[c].hand || s'.clients[c].hand == None)
    && (forall t :: t in s'.calls && t !in s.calls ==> s'.calls[t].rsp == None && s'.calls[t].result == None)
    && (forall t :: t in s.calls && t in s'.calls ==>
      && (s'.calls[t].rsp == s.calls[t].rsp || s'.calls[t].rsp == None
          || (t.client in s.clients && s'.calls[t].rsp.Some?
             && s.clients[t.client].hand == Some(Match(s'.calls[t].rsp.value, t))))
      && (s'.calls[t].result == s.calls[t].result || s'.calls[t].result == s.calls[t].rsp))
  }

  /** All of the callers' invariant but the part about heads read early. */
  ghost predicate CallersInv(s: State) { CallsInv(s) && WaitInv(s) && GivenInv(s) && TakenInv(s) }

  lemma CallsKept(s: State, s': State)
    requires CallsInv(s) && CallsStep(s, s')
    ensures CallsInv(s')
  {
  }

  lemma WaitKept(s: State, s': State)
    requires WaitInv(s) && CallsStep(s, s') && WaitStep(s, s')
    ensures WaitInv(s')
  {
  }

  lemma GivenKept(s: State, s': State)
    requires GivenInv(s) && CallersStep(s, s')
    ensures GivenInv(s')
  {
  }

  lemma GivenPacketKept(s: State, s': State, p: Packet, t: Token)
    requires PacketOk(s, p, Given(t), true) && CallsStep(s, s')
    requires p.tok in s'.place && s'.place[p.tok] == s.place[p.tok]
    ensures PacketOk(s', p, Given(t), true)
  {
  }

  lemma TakenKept(s: State, s': State)
    requires TakenInv(s) && CallersStep(s, s')
    ensures TakenInv(s')
  {
    hide CallsStep, WaitStep;
    forall c | c in s'.clients && s'.clients[c].hand.Some?
      ensures var m := s'.clients[c].hand.value;
        m.to in s'.calls && m.to.client == c && PacketOk(s', m.reply, Given(m.to), true)
    {
      ClientsAndCallsKept(s, s');
      var m := s'.clients[c].hand.value;
      GivenStays(s, s', m.reply, m.to);
      GivenPacketKept(s, s', m.reply, m.to);
    }
    forall t | t in s'.calls && s'.calls[t].rsp.Some?
      ensures PacketOk(s', s'.calls[t].rsp.value, Given(t), true)
    {
      GivenStays(s, s', s'.calls[t].rsp.value, t);
      GivenPacketKept(s, s', s'.calls[t].rsp.value, t);
    }
    forall t | t in s'.calls && s'.calls[t].result.Some?
      ensures PacketOk(s', s'.calls[t].result.value, Given(t), true)
    {
      GivenStays(s, s', s'.calls[t].result.value, t);
      GivenPacketKept(s, s', s'.calls[t].result.value, t);
    }
  }

  lemma ClientsAndCallsKept(s: State, s': State)
    requires CallsStep(s, s')
    ensures s'.clients.Keys == s.clients.Keys && Extends(s, s')
  {
  }

  lemma GivenStays(s: State, s': State, p: Packet, t: Token)
    requires PacketOk(s, p, Given(t), true) && CallersStep(s, s')
    ensures p.tok in s'.place && s'.place[p.tok] == s.place[p.tok]
  {
  }

  lemma CallersKept(s: State, s': State)
    requires CallersInv(s) && CallersStep(s, s')
    ensures CallersInv(s')
  {
    hide CallsInv, WaitInv, GivenInv, TakenInv, CallsStep, WaitStep, TakenStep;
    CallsKept(s, s');
    WaitKept(s, s');
    GivenKept(s, s');
    TakenKept(s, s');
  }

  ghost predicate SameTable(s: State, s': State) {
    && s'.table == s.table && s'.conns.Keys == s.conns.Keys
    && forall k :: k in s.conns ==> s'.conns[k].owner == s.conns[k].owner && s'.conns[k].status == s.conns[k].status
  }

  lemma TableStays(s: State, s': State)
    requires TableInv(s) && SameTable(s, s')
    ensures TableInv(s')
  {
  }

  /** Nothing moved between queues. */
  ghost predicate SameQueues(s: State, s': State) {
    && s'.recvRing == s.recvRing && s'.sendRing == s.sendRing && s'.service == s.service
    && s'.clients.Keys == s.clients.Keys && s'.conns == s.conns && s'.table == s.table
    && (forall c :: c in s.clients ==>
       s'.clients[c].ring == s.clients[c].ring && s'.clients[c].conn == s.clients[c].conn)
    && (forall a :: a in s.place && !s.place[a].Given? ==> a in s'.place && s'.place[a] == s.place[a])
    && Extends(s, s')
  }

  lemma QueuesStay(s: State, s': State)
    requires RingsInv(s) && SameQueues(s, s')
    ensures RingsInv(s')
  {
  }

  lemma LinksStay(s: State, s': State)
    requires ConnsInv(s) && TableInv(s) && SameQueues(s, s')
    ensures ConnsInv(s') && TableInv(s')
  {
  }
}
