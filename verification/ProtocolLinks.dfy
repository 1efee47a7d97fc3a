/** The steps that deliver replies, and those that open and close connections, keep the invariant. */
module ProtocolLinks {
  import opened Outcomes
  import opened PwrMessage
  import opened Sequences
  import ClientTable
  import opened Protocol
  import opened ProtocolFrames
  import opened ProtocolNetwork
  import ProtocolCallers

  // ---------------------------------------------------------------- the server sends a reply

  lemma ServerSendMoves(s: State)
    requires RingsInv(s) && s.sendRing != [] && s.place.Keys == s.calls.Keys
    ensures Moved(s, DoServerSend(s), s.sendRing[0].tok, ReplyRing) && PacketOk(s, s.sendRing[0], ReplyRing, true)
  {
  }

  lemma RoutedByInv(s: State)
    requires Inv(s) && s.sendRing != []
    ensures s.sendRing[0].tok.client == s.sendRing[0].msg.head.sysId
  {
  }

  lemma PlacesOfCalls(s: State)
    requires Inv(s)
    ensures s.place.Keys == s.calls.Keys
  {
  }

  lemma ServerSendRings(s: State)
    requires RingsInv(s) && s.sendRing != [] && Moved(s, DoServerSend(s), s.sendRing[0].tok, ReplyRing)
    ensures RingsInv(DoServerSend(s))
  {
  }

  lemma CrowdRings(s: State)
    requires RingsInv(s) && s.sendRing != [] && s.place.Keys == s.calls.Keys
    ensures Moved(s, DoCrowd(s), s.sendRing[0].tok, ReplyRing) && RingsInv(DoCrowd(s))
  {
  }

  lemma CrowdKeeps(s: State)
    requires Inv(s) && s.sendRing != []
    ensures Inv(DoCrowd(s))
  {
    hide CallsInv, RingsInv, ConnsInv, TableInv, FreshInv, WaitInv, StartInv, GivenInv, TakenInv, SameCallers,
      SameLinks;
    PlacesOfCalls(s);
    CrowdRings(s);
    MovedSame(s, DoCrowd(s), s.sendRing[0].tok, ReplyRing);
    MovedInside(s, DoCrowd(s), s.sendRing[0].tok, ReplyRing);
    InsideStep(s, DoCrowd(s));
  }

  lemma TableConnIsOwned(s: State, c: u32)
    requires Inv(s) && Registered(s, c)
    ensures s.conns[s.table[c]].owner == c && ConnOk(s, s.table[c])
  {
  }

  lemma ServerSendConn(s: State)
    requires s.sendRing != [] && Registered(s, s.sendRing[0].msg.head.sysId)
    requires Moved(s, DoServerSend(s), s.sendRing[0].tok, ReplyRing) && PacketOk(s, s.sendRing[0], ReplyRing, true)
    requires s.sendRing[0].tok.client == s.conns[s.table[s.sendRing[0].msg.head.sysId]].owner
    requires ConnOk(s, s.table[s.sendRing[0].msg.head.sysId])
    ensures ConnOk(DoServerSend(s), s.table[s.sendRing[0].msg.head.sysId])
  {
  }

  lemma ServerSendSame(s: State)
    requires s.sendRing != [] && Registered(s, s.sendRing[0].msg.head.sysId)
    requires Moved(s, DoServerSend(s), s.sendRing[0].tok, ReplyRing)
    ensures OnlyConn(s, DoServerSend(s), s.table[s.sendRing[0].msg.head.sysId])
  {
  }

  lemma ServerSendKeeps(s: State)
    requires Inv(s) && s.sendRing != []
    ensures Inv(DoServerSend(s))
  {
    hide CallsInv, RingsInv, ConnsInv, TableInv, FreshInv, WaitInv, StartInv, GivenInv, TakenInv, ConnOk, Moved,
      OnlyConn, PacketOk;
    var c := s.sendRing[0].msg.head.sysId;
    if Registered(s, c) {
      PlacesOfCalls(s);
      RoutedByInv(s);
      ServerSendMoves(s);
      TableConnIsOwned(s, c);
      ServerSendSame(s);
      ServerSendRings(s);
      ServerSendConn(s);
      OneConnStep(s, DoServerSend(s), s.table[c]);
    } else {
      CrowdKeeps(s);
    }
  }

  // ---------------------------------------------------------------- connections

  /** No packet moves. */
  ghost predicate NoPacket(s: State, s': State) {
    && s'.calls == s.calls && s'.place == s.place && s'.clients.Keys == s.clients.Keys
    && s'.recvRing == s.recvRing && s'.sendRing == s.sendRing && s'.service == s.service
    && (forall c :: c in s.clients ==>
      && s'.clients[c].waiting == s.clients[c].waiting && s'.clients[c].hand == s.clients[c].hand
      && s'.clients[c].drawn == s.clients[c].drawn && s'.clients[c].ring == s.clients[c].ring)
  }

  lemma NoPacketStep(s: State, s': State)
    requires Inv(s) && NoPacket(s, s') && ConnsInv(s') && TableInv(s')
    ensures Inv(s')
  {
    hide CallsInv, RingsInv, ConnsInv, TableInv, FreshInv, WaitInv, StartInv, GivenInv, TakenInv;
    RingsStay(s, s');
    NetworkStep(s, s');
  }

  lemma DisconnectKeeps(s: State, c: u32)
    requires Inv(s) && c in s.clients
    ensures Inv(DoDisconnect(s, c))
  {
    hide CallsInv, RingsInv, FreshInv, WaitInv, StartInv, GivenInv, TakenInv, ConnOk, TableInv;
    var s' := DoDisconnect(s, c);
    forall k | k in s'.conns
      ensures ConnOk(s', k)
    {
      ConnStays(s, s', k);
    }
    TableStays(s, s');
    NoPacketStep(s, s');
  }

  lemma ConnectConns(s: State, c: u32, k: ConnId)
    requires ConnsInv(s) && c in s.clients && k !in s.conns
    ensures ConnsInv(DoConnect(s, c, k))
  {
  }

  lemma ConnectTable(s: State, c: u32, k: ConnId)
    requires TableInv(s) && c in s.clients && k !in s.conns
    ensures TableInv(DoConnect(s, c, k))
  {
  }

  lemma ConnectKeeps(s: State, c: u32, k: ConnId)
    requires Inv(s) && c in s.clients && k !in s.conns
    ensures Inv(DoConnect(s, c, k))
  {
    hide CallsInv, RingsInv, FreshInv, WaitInv, StartInv, GivenInv, TakenInv, ConnOk, TableInv, ConnsInv;
    ConnectConns(s, c, k);
    ConnectTable(s, c, k);
    NoPacketStep(s, DoConnect(s, c, k));
  }

  /** Connections change nothing but their status. */
  ghost predicate StatusOnly(s: State, s': State) {
    && s'.calls == s.calls && s'.place == s.place && s'.clients == s.clients && s'.conns.Keys == s.conns.Keys
    && forall k :: k in s.conns ==>
      && s'.conns[k].owner == s.conns[k].owner && s'.conns[k].up == s.conns[k].up
      && s'.conns[k].down == s.conns[k].down
  }

  lemma StatusOnlyConns(s: State, s': State)
    requires ConnsInv(s) && StatusOnly(s, s')
    ensures ConnsInv(s')
  {
  }

  /** A connection that finds no room. */
  lemma AcceptRefused(s: State, k: ConnId)
    requires TableInv(s) && k in s.conns && s.conns[k].status == Pending
      && !ClientTable.Accepts(s.table, s.conns[k].owner)
    ensures TableInv(DoAccept(s, k))
  {
  }

  /** A client that is not in the table. */
  lemma AcceptNew(s: State, k: ConnId)
    requires TableInv(s) && k in s.conns && s.conns[k].status == Pending
    requires s.conns[k].owner !in s.table && ClientTable.Accepts(s.table, s.conns[k].owner)
    ensures TableInv(DoAccept(s, k))
  {
  }

  /** A client whose old connection is replaced. */
  lemma AcceptAgain(s: State, k: ConnId)
    requires TableInv(s) && k in s.conns && s.conns[k].status == Pending && s.conns[k].owner in s.table
    ensures TableInv(DoAccept(s, k))
  {
  }

  lemma AcceptStatus(s: State, k: ConnId)
    requires k in s.conns
    ensures StatusOnly(s, DoAccept(s, k)) && NoPacket(s, DoAccept(s, k))
  {
  }

  lemma AcceptKeeps(s: State, k: ConnId)
    requires Inv(s) && k in s.conns && s.conns[k].status == Pending
    ensures Inv(DoAccept(s, k))
  {
    hide CallsInv, RingsInv, FreshInv, WaitInv, StartInv, GivenInv, TakenInv, ConnOk, TableInv, ConnsInv,
         StatusOnly, NoPacket, DoAccept;
    if !ClientTable.Accepts(s.table, s.conns[k].owner) { AcceptRefused(s, k); }
    else if s.conns[k].owner in s.table { AcceptAgain(s, k); }
    else { AcceptNew(s, k); }
    AcceptStatus(s, k);
    StatusOnlyConns(s, DoAccept(s, k));
    NoPacketStep(s, DoAccept(s, k));
  }

  lemma ServerCloseTable(s: State, c: u32)
    requires TableInv(s) && Registered(s, c)
    ensures TableInv(DoServerClose(s, c))
  {
  }

  lemma ServerCloseKeeps(s: State, c: u32)
    requires Inv(s) && Registered(s, c)
    ensures Inv(DoServerClose(s, c))
  {
    hide CallsInv, RingsInv, FreshInv, WaitInv, StartInv, GivenInv, TakenInv, ConnOk, TableInv, ConnsInv;
    ServerCloseTable(s, c);
    StatusOnlyConns(s, DoServerClose(s, c));
    NoPacketStep(s, DoServerClose(s, c));
  }

  // ---------------------------------------------------------------- the client takes a reply

  ghost predicate CanRecv(s: State, c: u32, i: nat) {
    && c in s.clients && Connected(s, c) && s.conns[s.clients[c].conn.value].down != []
    && s.clients[c].hand == None && MayPick(s, c, i)
  }

  /** The reply at the front of the client's connection. */
  function Arriving(s: State, c: u32): Packet
    requires c in s.clients && Connected(s, c) && s.conns[s.clients[c].conn.value].down != []
  {
    s.conns[s.clients[c].conn.value].down[0]
  }

  lemma ArrivingIsOurs(s: State, c: u32, i: nat)
    requires Inv(s) && CanRecv(s, c, i)
    ensures var p, k := Arriving(s, c), s.clients[c].conn.value;
      PacketOk(s, p, Downstream(k), true) && p.tok.client == c && s.conns[k].owner == c && ConnOk(s, k)
  {
  }

  lemma RecvMoves(s: State, c: u32, i: nat)
    requires CanRecv(s, c, i) && PacketOk(s, Arriving(s, c), Downstream(s.clients[c].conn.value), true)
    requires s.place.Keys == s.calls.Keys
    ensures Moved(s, DoClientRecv(s, c, i), Arriving(s, c).tok, Downstream(s.clients[c].conn.value))
  {
  }

  lemma RecvRings(s: State, c: u32, i: nat)
    requires RingsInv(s) && CanRecv(s, c, i)
    requires Moved(s, DoClientRecv(s, c, i), Arriving(s, c).tok, Downstream(s.clients[c].conn.value))
    ensures RingsInv(DoClientRecv(s, c, i))
  {
    hide RingsInv, Moved;
    MovedStays(s, DoClientRecv(s, c, i), Arriving(s, c).tok, Downstream(s.clients[c].conn.value));
    RingsStay(s, DoClientRecv(s, c, i));
  }

  lemma RecvConn(s: State, c: u32, i: nat)
    requires CanRecv(s, c, i) && ConnOk(s, s.clients[c].conn.value)
    requires Moved(s, DoClientRecv(s, c, i), Arriving(s, c).tok, Downstream(s.clients[c].conn.value))
    ensures ConnOk(DoClientRecv(s, c, i), s.clients[c].conn.value)
  {
  }

  lemma RecvOther(s: State, c: u32, i: nat)
    requires CanRecv(s, c, i)
    requires Moved(s, DoClientRecv(s, c, i), Arriving(s, c).tok, Downstream(s.clients[c].conn.value))
    ensures SameTable(s, DoClientRecv(s, c, i)) && SameConnsBut(s, DoClientRecv(s, c, i), {s.clients[c].conn.value})
    ensures Extends(s, DoClientRecv(s, c, i))
  {
    hide Moved;
    MovedStays(s, DoClientRecv(s, c, i), Arriving(s, c).tok, Downstream(s.clients[c].conn.value));
  }

  /** Whether or not a waiter is found, the queues stay in order. */
  lemma RecvQueues(s: State, c: u32, i: nat)
    requires Inv(s) && CanRecv(s, c, i)
    ensures RingsInv(DoClientRecv(s, c, i)) && ConnsInv(DoClientRecv(s, c, i)) && TableInv(DoClientRecv(s, c, i))
    ensures Moved(s, DoClientRecv(s, c, i), Arriving(s, c).tok, Downstream(s.clients[c].conn.value))
  {
    hide CallsInv, RingsInv, ConnsInv, FreshInv, WaitInv, StartInv, GivenInv, TakenInv, TableInv, PacketOk, Moved,
         SameTable, SameConnsBut, ConnOk, DoClientRecv;
    ArrivingIsOurs(s, c, i);
    PlacesOfCalls(s);
    RecvMoves(s, c, i);
    RecvRings(s, c, i);
    RecvConn(s, c, i);
    RecvOther(s, c, i);
    ConnsStayBut(s, DoClientRecv(s, c, i), {s.clients[c].conn.value});
    TableStays(s, DoClientRecv(s, c, i));
  }

  lemma DropKeeps(s: State, c: u32, i: nat)
    requires Inv(s) && CanRecv(s, c, i) && i == |s.clients[c].waiting|
    ensures Inv(DoClientRecv(s, c, i))
  {
    hide CallsInv, RingsInv, ConnsInv, FreshInv, WaitInv, StartInv, GivenInv, TakenInv, TableInv;
    RecvQueues(s, c, i);
    MovedSame(s, DoClientRecv(s, c, i), Arriving(s, c).tok, Downstream(s.clients[c].conn.value));
    NetworkStep(s, DoClientRecv(s, c, i));
  }

  /** The waiter at position i is taken out of the list and gets reply p. */
  ghost predicate Matched(s: State, s': State, c: u32, i: nat, p: Packet) {
    && c in s.clients && i < |s.clients[c].waiting| && s'.calls == s.calls && s'.clients.Keys == s.clients.Keys
    && (forall d :: d in s.clients && d != c ==> s'.clients[d] == s.clients[d])
    && s'.clients[c].drawn == s.clients[c].drawn
    && s'.clients[c].waiting == RemoveAt(s.clients[c].waiting, i)
    && s'.clients[c].hand == Some(Match(p, s.clients[c].waiting[i]))
    && p.tok in s.place && s.place[p.tok].Downstream?
    && s'.place == s.place[p.tok := Given(s.clients[c].waiting[i])]
  }

  lemma MatchedCalls(s: State, s': State, c: u32, i: nat, p: Packet)
    requires CallsInv(s) && FreshInv(s) && Matched(s, s', c, i, p)
    ensures CallsInv(s') && FreshInv(s')
  {
  }

  lemma MatchedWait(s: State, s': State, c: u32, i: nat, p: Packet)
    requires WaitInv(s) && Matched(s, s', c, i, p)
    ensures WaitInv(s')
  {
  }

  lemma MatchedStart(s: State, s': State, c: u32, i: nat, p: Packet)
    requires StartInv(s) && Matched(s, s', c, i, p) && Distinct(s.clients[c].waiting)
    ensures StartInv(s')
  {
  }

  /** What makes p a reply for waiter t by its sequence id. */
  ghost predicate Fits(s: State, c: u32, t: Token, p: Packet) {
    && t in s.calls && p.tok in s.calls && t.client == c && p.tok.client == c && !Early(s.calls[t].phase)
    && s.calls[t].req.head.seqId == s.calls[p.tok].req.head.seqId && Answers(p.msg, s.calls[p.tok].req)
  }

  lemma MatchedGiven(s: State, s': State, c: u32, i: nat, p: Packet)
    requires GivenInv(s) && Matched(s, s', c, i, p) && Distinct(s.clients[c].waiting)
    requires Fits(s, c, s.clients[c].waiting[i], p)
    ensures GivenInv(s')
  {
  }

  lemma GivenUnmoved(s: State, s': State, c: u32, i: nat, p: Packet, q: Packet, t: Token)
    requires Matched(s, s', c, i, p) && PacketOk(s, q, Given(t), true)
    ensures PacketOk(s', q, Given(t), true)
  {
  }

  lemma MatchedHands(s: State, s': State, c: u32, i: nat, p: Packet)
    requires TakenInv(s) && Matched(s, s', c, i, p) && Fits(s, c, s.clients[c].waiting[i], p)
    ensures forall d :: d in s'.clients && s'.clients[d].hand.Some? ==>
      var m := s'.clients[d].hand.value;
        m.to in s'.calls && m.to.client == d && PacketOk(s', m.reply, Given(m.to), true)
  {
  }

  lemma MatchedTaken(s: State, s': State, c: u32, i: nat, p: Packet)
    requires TakenInv(s) && Matched(s, s', c, i, p) && Fits(s, c, s.clients[c].waiting[i], p)
    ensures TakenInv(s')
  {
    hide PacketOk, Fits;
    MatchedHands(s, s', c, i, p);
    forall t | t in s'.calls && s'.calls[t].rsp.Some?
      ensures PacketOk(s', s'.calls[t].rsp.value, Given(t), true)
    {
      GivenUnmoved(s, s', c, i, p, s.calls[t].rsp.value, t);
    }
    forall t | t in s'.calls && s'.calls[t].result.Some?
      ensures PacketOk(s', s'.calls[t].result.value, Given(t), true)
    {
      GivenUnmoved(s, s', c, i, p, s.calls[t].result.value, t);
    }
  }

  lemma ArrivingFits(s: State, c: u32, i: nat)
    requires Inv(s) && CanRecv(s, c, i) && i < |s.clients[c].waiting|
    ensures Fits(s, c, s.clients[c].waiting[i], Arriving(s, c))
  {
  }

  lemma RecvMatches(s: State, c: u32, i: nat)
    requires CanRecv(s, c, i) && i < |s.clients[c].waiting|
    requires PacketOk(s, Arriving(s, c), Downstream(s.clients[c].conn.value), true)
    ensures Matched(s, DoClientRecv(s, c, i), c, i, Arriving(s, c))
  {
  }

  lemma MatchKeeps(s: State, c: u32, i: nat)
    requires Inv(s) && CanRecv(s, c, i) && i < |s.clients[c].waiting|
    ensures Inv(DoClientRecv(s, c, i))
  {
    hide CallsInv, RingsInv, ConnsInv, FreshInv, WaitInv, StartInv, GivenInv, TakenInv, TableInv, DoClientRecv,
         Matched, Fits, PacketOk, ConnOk, Moved;
    var s', p := DoClientRecv(s, c, i), Arriving(s, c);
    ArrivingIsOurs(s, c, i);
    ArrivingFits(s, c, i);
    ProtocolCallers.WaitingIsDistinct(s, c);
    RecvMatches(s, c, i);
    RecvQueues(s, c, i);
    MatchedCalls(s, s', c, i, p);
    MatchedWait(s, s', c, i, p);
    MatchedStart(s, s', c, i, p);
    MatchedGiven(s, s', c, i, p);
    MatchedTaken(s, s', c, i, p);
  }
}
