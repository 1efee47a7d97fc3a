/** The steps that carry packets keep the invariant. */
module ProtocolNetwork {
  import opened Outcomes
  import opened PwrMessage
  import MsgRing
  import opened Protocol
  import opened ProtocolFrames
  import ProtocolCallers

  // ---------------------------------------------------------------- the callers do not notice

  ghost predicate SameCallers(s: State, s': State) {
    && s'.calls == s.calls && s'.clients.Keys == s.clients.Keys && s'.place.Keys == s.place.Keys
    && (forall c :: c in s.clients ==>
      && s'.clients[c].waiting == s.clients[c].waiting && s'.clients[c].hand == s.clients[c].hand
      && s'.clients[c].drawn == s.clients[c].drawn)
    && (forall t :: t in s.calls && t in s.place && s.calls[t].phase == Drawn && s.place[t] == Fresh ==>
       s'.place[t] == Fresh)
    && GivenSame(s, s')
  }

  lemma SameCalls(s: State, s': State)
    requires CallsInv(s) && FreshInv(s) && SameCallers(s, s')
    ensures CallsInv(s') && FreshInv(s')
  {
  }

  lemma SameWait(s: State, s': State)
    requires WaitInv(s) && StartInv(s) && SameCallers(s, s')
    ensures WaitInv(s') && StartInv(s')
  {
  }

  lemma SameGiven(s: State, s': State)
    requires GivenInv(s) && SameCallers(s, s')
    ensures GivenInv(s')
  {
  }

  lemma SameTaken(s: State, s': State)
    requires TakenInv(s) && SameCallers(s, s')
    ensures TakenInv(s')
  {
  }

  /** What the network steps leave to be shown. */
  lemma NetworkStep(s: State, s': State)
    requires Inv(s) && SameCallers(s, s') && RingsInv(s') && ConnsInv(s') && TableInv(s')
    ensures Inv(s')
  {
    hide CallsInv, FreshInv, RingsInv, ConnsInv, TableInv, WaitInv, StartInv, GivenInv, TakenInv, SameCallers;
    SameCalls(s, s');
    SameWait(s, s');
    SameGiven(s, s');
    SameTaken(s, s');
  }

  // ---------------------------------------------------------------- one packet moves

  /** Only x moves, from the place at, and it was on its way. */
  ghost predicate Moved(s: State, s': State, x: Token, at: Place) {
    && s'.calls == s.calls && s'.place.Keys == s.place.Keys
    && x in s.place && s.place[x] == at
    && forall a :: a in s.place && a != x ==> s'.place[a] == s.place[a]
  }

  /** The same with a second token y, displaced from the ring x enters. */
  ghost predicate MovedIn(s: State, s': State, x: Token, at: Place, ring: seq<Packet>, into: Place) {
    && s'.calls == s.calls && s'.place.Keys == s.place.Keys
    && x in s.place && s.place[x] == at
    && (MsgRing.Displaced(ring).Some? ==> ring[0].tok in s.place && s.place[ring[0].tok] == into)
    && forall a :: a in s.place && a != x && (MsgRing.Displaced(ring).Some? ==> a != ring[0].tok) ==>
       s'.place[a] == s.place[a]
  }

  lemma MovedStays(s: State, s': State, x: Token, at: Place)
    requires Moved(s, s', x, at)
    ensures Extends(s, s') && StaysBut(s, s', at, Some(x))
    ensures x in s.place && s.place[x] == at && s'.place.Keys == s.place.Keys
    ensures forall other :: other != at ==> StaysBut(s, s', other, None)
  {
  }

  lemma MovedInStays(s: State, s': State, x: Token, at: Place, ring: seq<Packet>, into: Place)
    requires MovedIn(s, s', x, at, ring, into) && at != into
    ensures Extends(s, s') && StaysBut(s, s', at, Some(x))
    ensures x in s.place && s.place[x] == at && s'.place.Keys == s.place.Keys
    ensures StaysBut(s, s', into, if MsgRing.Displaced(ring).Some? then Some(ring[0].tok) else None)
    ensures forall other :: other != at && other != into ==> StaysBut(s, s', other, None)
  {
  }

  /** When only tokens of client c leave the client rings, the other rings stay. */
  lemma OtherRingsStay(s: State, s': State, c: u32, x: Token)
    requires RingsInv(s) && Extends(s, s') && StaysBut(s, s', ClientRing, Some(x)) && x.client == c
    requires forall d :: d in s'.clients && d != c ==> d in s.clients && s'.clients[d].ring == s.clients[d].ring
    ensures forall d :: d in s'.clients && d != c ==>
      QueueOk(s', s'.clients[d].ring, ClientRing, false) && BelongTo(s'.clients[d].ring, d)
  {
  }

  /** The server's side is untouched. */
  lemma ServerRingsStay(s: State, s': State)
    requires RingsInv(s) && Extends(s, s')
    requires s'.recvRing == s.recvRing && s'.sendRing == s.sendRing && s'.service == s.service
    requires StaysBut(s, s', ServerRing, None) && StaysBut(s, s', ReplyRing, None) && StaysBut(s, s', Service, None)
    ensures QueueOk(s', s'.recvRing, ServerRing, false) && QueueOk(s', s'.sendRing, ReplyRing, true)
    ensures s'.service.Some? ==> PacketOk(s', s'.service.value, Service, false)
  {
  }

  // ---------------------------------------------------------------- the client's ring takes the request

  /** DoEnqueue after the call's phase has changed. */
  function PushRequest(s: State, t: Token): State
    requires t in s.calls && t.client in s.clients
  {
    var client := s.clients[t.client];
    SetClient(s, t.client, client.(ring := MsgRing.Pushed(client.ring, Packet(t, s.calls[t].req))))
      .(place := Move(Displace(s.place, client.ring), t, ClientRing))
  }

  lemma PushMoves(s: State, t: Token)
    requires RingsInv(s) && t in s.calls && t.client in s.clients && t in s.place && s.place[t] == Fresh
    requires s.place.Keys == s.calls.Keys
    ensures MovedIn(s, PushRequest(s, t), t, Fresh, s.clients[t.client].ring, ClientRing)
  {
  }

  lemma PushRings(s: State, t: Token)
    requires RingsInv(s) && t in s.calls && t.client in s.clients
    requires MovedIn(s, PushRequest(s, t), t, Fresh, s.clients[t.client].ring, ClientRing)
    ensures RingsInv(PushRequest(s, t))
  {
    hide QueueOk, MovedIn;
    var s', ring := PushRequest(s, t), s.clients[t.client].ring;
    MovedInStays(s, s', t, Fresh, ring, ClientRing);
    ServerRingsStay(s, s');
    RingPushed(s, s', ring, Packet(t, s.calls[t].req), ClientRing, false);
    RingPushedBelong(ring, Packet(t, s.calls[t].req), t.client);
    OtherRingsStay(s, s', t.client, if MsgRing.Displaced(ring).Some? then ring[0].tok else t);
  }

  /** The rest of the state does not notice a packet that moves among the client's ring, the server's
      rings and thin air. */
  ghost predicate SameLinks(s: State, s': State) {
    && s'.conns == s.conns && s'.table == s.table && s'.calls == s.calls && s'.clients.Keys == s.clients.Keys
    && (forall c :: c in s.clients ==> s'.clients[c].conn == s.clients[c].conn)
    && forall k :: StaysBut(s, s', Upstream(k), None) && StaysBut(s, s', Downstream(k), None)
  }

  lemma SameLinksStay(s: State, s': State)
    requires ConnsInv(s) && TableInv(s) && SameLinks(s, s')
    ensures ConnsInv(s') && TableInv(s')
  {
    hide ConnsInv, TableInv;
    ConnsStayBut(s, s', {});
    TableStays(s, s');
  }

  lemma PushSame(s: State, t: Token)
    requires t in s.calls && t.client in s.clients && s.calls[t].phase != Drawn
    requires MovedIn(s, PushRequest(s, t), t, Fresh, s.clients[t.client].ring, ClientRing)
    ensures SameCallers(s, PushRequest(s, t)) && SameLinks(s, PushRequest(s, t))
  {
    PushSameCallers(s, t);
    PushSameLinks(s, t);
  }

  lemma PushSameCallers(s: State, t: Token)
    requires t in s.calls && t.client in s.clients && s.calls[t].phase != Drawn
    requires MovedIn(s, PushRequest(s, t), t, Fresh, s.clients[t.client].ring, ClientRing)
    ensures SameCallers(s, PushRequest(s, t))
  {
  }

  lemma PushSameLinks(s: State, t: Token)
    requires t in s.calls && t.client in s.clients
    requires MovedIn(s, PushRequest(s, t), t, Fresh, s.clients[t.client].ring, ClientRing)
    ensures SameLinks(s, PushRequest(s, t))
  {
  }

  lemma PushKeeps(s: State, t: Token)
    requires Inv(s) && t in s.calls && t.client in s.clients && s.calls[t].phase != Drawn
    requires t in s.place && s.place[t] == Fresh
    ensures Inv(PushRequest(s, t))
  {
    hide RingsInv, ConnsInv, TableInv, FreshInv, WaitInv, StartInv, GivenInv, TakenInv, PushRequest, MovedIn,
      SameCallers, SameLinks;
    PushMoves(s, t);
    PushSame(s, t);
    PushRings(s, t);
    SameLinksStay(s, PushRequest(s, t));
    NetworkStep(s, PushRequest(s, t));
  }

  lemma EnqueueKeeps(s: State, t: Token)
    requires Inv(s) && t in s.calls && t.client in s.clients && s.calls[t].phase == Drawn
    ensures Inv(DoEnqueue(s, t))
  {
    hide Inv;
    ProtocolCallers.QueuedKeeps(s, t);
    DrawnIsFresh(s, t);
    PushKeeps(SetPhase(s, t, Queued), t);
  }

  lemma DrawnIsFresh(s: State, t: Token)
    requires Inv(s) && t in s.calls && s.calls[t].phase == Drawn
    ensures t in s.place && s.place[t] == Fresh
  {
  }

  // ---------------------------------------------------------------- from ring to socket and back

  lemma ClientSendMoves(s: State, c: u32)
    requires Inv(s) && c in s.clients && Connected(s, c) && s.clients[c].ring != []
    ensures Moved(s, DoClientSend(s, c), s.clients[c].ring[0].tok, ClientRing)
    ensures PacketOk(s, s.clients[c].ring[0], ClientRing, false) && s.clients[c].ring[0].tok.client == c
    ensures s.conns[s.clients[c].conn.value].owner == c
  {
    hide FreshInv, TableInv, WaitInv, StartInv, GivenInv, TakenInv;
    assert QueueOk(s, s.clients[c].ring, ClientRing, false) && BelongTo(s.clients[c].ring, c);
  }

  lemma ClientSendRings(s: State, c: u32)
    requires RingsInv(s) && c in s.clients && Connected(s, c) && s.clients[c].ring != []
    requires Moved(s, DoClientSend(s, c), s.clients[c].ring[0].tok, ClientRing)
    requires s.clients[c].ring[0].tok.client == c
    ensures RingsInv(DoClientSend(s, c))
  {
  }

  lemma ClientSendConn(s: State, c: u32)
    requires ConnsInv(s) && c in s.clients && Connected(s, c) && s.clients[c].ring != []
    requires Moved(s, DoClientSend(s, c), s.clients[c].ring[0].tok, ClientRing)
    requires PacketOk(s, s.clients[c].ring[0], ClientRing, false) && s.clients[c].ring[0].tok.client == c
    ensures ConnOk(DoClientSend(s, c), s.clients[c].conn.value)
  {
  }

  /** Only connection k differs, in what its queues hold. */
  ghost predicate OnlyConn(s: State, s': State, k: ConnId) {
    && SameTable(s, s') && SameConnsBut(s, s', {k}) && SameCallers(s, s') && Extends(s, s')
  }

  lemma OneConnStep(s: State, s': State, k: ConnId)
    requires Inv(s) && OnlyConn(s, s', k) && RingsInv(s') && k in s'.conns && ConnOk(s', k)
    ensures Inv(s')
  {
    hide CallsInv, RingsInv, ConnsInv, TableInv, FreshInv, WaitInv, StartInv, GivenInv, TakenInv, ConnOk,
         SameCallers, SameTable, SameConnsBut;
    ConnsStayBut(s, s', {k});
    TableStays(s, s');
    NetworkStep(s, s');
  }

  lemma ClientSendSame(s: State, c: u32)
    requires c in s.clients && Connected(s, c) && s.clients[c].ring != []
    requires Moved(s, DoClientSend(s, c), s.clients[c].ring[0].tok, ClientRing)
    ensures OnlyConn(s, DoClientSend(s, c), s.clients[c].conn.value)
  {
    hide SameCallers, Moved;
    ClientSendSameCallers(s, c);
    MovedStays(s, DoClientSend(s, c), s.clients[c].ring[0].tok, ClientRing);
  }

  lemma ClientSendSameCallers(s: State, c: u32)
    requires c in s.clients && Connected(s, c) && s.clients[c].ring != []
    requires Moved(s, DoClientSend(s, c), s.clients[c].ring[0].tok, ClientRing)
    ensures SameCallers(s, DoClientSend(s, c))
  {
  }

  lemma ClientSendKeeps(s: State, c: u32)
    requires Inv(s) && c in s.clients && Connected(s, c) && s.clients[c].ring != []
    ensures Inv(DoClientSend(s, c))
  {
    hide CallsInv, RingsInv, ConnsInv, TableInv, FreshInv, WaitInv, StartInv, GivenInv, TakenInv, ConnOk, Moved,
      OnlyConn;
    ClientSendMoves(s, c);
    ClientSendSame(s, c);
    ClientSendRings(s, c);
    ClientSendConn(s, c);
    OneConnStep(s, DoClientSend(s, c), s.clients[c].conn.value);
  }

  // ---------------------------------------------------------------- the server takes a request

  /** The id the server stamps on a request is the one it carries. */
  lemma StampIsIdentity(s: State, c: u32)
    requires Inv(s) && Registered(s, c) && s.conns[s.table[c]].up != []
    ensures var p := s.conns[s.table[c]].up[0];
      p.msg.head.sysId == c && PacketOk(s, p, Upstream(s.table[c]), false)
  {
  }

  lemma ServerRecvMoves(s: State, c: u32)
    requires Inv(s) && Registered(s, c) && s.conns[s.table[c]].up != []
    ensures MovedIn(s, DoServerRecv(s, c), s.conns[s.table[c]].up[0].tok, Upstream(s.table[c]), s.recvRing, ServerRing)
  {
    hide CallsInv, ConnsInv, TableInv, FreshInv, WaitInv, StartInv, GivenInv, TakenInv;
    StampIsIdentity(s, c);
    assert QueueOk(s, s.recvRing, ServerRing, false);
  }

  lemma ServerRecvRings(s: State, c: u32)
    requires RingsInv(s) && Registered(s, c) && s.conns[s.table[c]].up != []
    requires MovedIn(s, DoServerRecv(s, c), s.conns[s.table[c]].up[0].tok, Upstream(s.table[c]), s.recvRing, ServerRing)
    requires s.conns[s.table[c]].up[0].msg.head.sysId == c
    requires PacketOk(s, s.conns[s.table[c]].up[0], Upstream(s.table[c]), false)
    ensures RingsInv(DoServerRecv(s, c))
  {
  }

  lemma ServerRecvConn(s: State, c: u32)
    requires ConnsInv(s) && Registered(s, c) && s.conns[s.table[c]].up != []
    requires MovedIn(s, DoServerRecv(s, c), s.conns[s.table[c]].up[0].tok, Upstream(s.table[c]), s.recvRing, ServerRing)
    ensures ConnOk(DoServerRecv(s, c), s.table[c])
  {
  }

  lemma ServerRecvSame(s: State, c: u32)
    requires Registered(s, c) && s.conns[s.table[c]].up != []
    requires MovedIn(s, DoServerRecv(s, c), s.conns[s.table[c]].up[0].tok, Upstream(s.table[c]), s.recvRing, ServerRing)
    ensures OnlyConn(s, DoServerRecv(s, c), s.table[c])
  {
    hide SameCallers, MovedIn;
    ServerRecvSameCallers(s, c);
    MovedInStays(s, DoServerRecv(s, c), s.conns[s.table[c]].up[0].tok, Upstream(s.table[c]), s.recvRing, ServerRing);
  }

  lemma ServerRecvSameCallers(s: State, c: u32)
    requires Registered(s, c) && s.conns[s.table[c]].up != []
    requires MovedIn(s, DoServerRecv(s, c), s.conns[s.table[c]].up[0].tok, Upstream(s.table[c]), s.recvRing, ServerRing)
    ensures SameCallers(s, DoServerRecv(s, c))
  {
  }

  lemma ServerRecvKeeps(s: State, c: u32)
    requires Inv(s) && Registered(s, c) && s.conns[s.table[c]].up != []
    ensures Inv(DoServerRecv(s, c))
  {
    hide CallsInv, RingsInv, ConnsInv, TableInv, FreshInv, WaitInv, StartInv, GivenInv, TakenInv, ConnOk, MovedIn,
      OnlyConn, PacketOk;
    StampIsIdentity(s, c);
    ServerRecvMoves(s, c);
    ServerRecvSame(s, c);
    ServerRecvRings(s, c);
    ServerRecvConn(s, c);
    OneConnStep(s, DoServerRecv(s, c), s.table[c]);
  }

  // ---------------------------------------------------------------- the service thread

  /** Only the server's own rings and service differ. */
  lemma InsideStep(s: State, s': State)
    requires Inv(s) && SameCallers(s, s') && SameLinks(s, s') && RingsInv(s')
    ensures Inv(s')
  {
    hide CallsInv, RingsInv, ConnsInv, TableInv, FreshInv, WaitInv, StartInv, GivenInv, TakenInv, SameCallers,
      SameLinks;
    SameLinksStay(s, s');
    NetworkStep(s, s');
  }

  lemma MovedSame(s: State, s': State, x: Token, at: Place)
    requires Moved(s, s', x, at) && s'.clients == s.clients && !at.Given? && at != Fresh && !s'.place[x].Given?
    ensures SameCallers(s, s')
  {
  }

  lemma MovedInside(s: State, s': State, x: Token, at: Place)
    requires Moved(s, s', x, at) && s'.clients == s.clients && s'.conns == s.conns && s'.table == s.table
    requires !at.Upstream? && !at.Downstream?
    ensures SameLinks(s, s')
  {
  }

  lemma ServeRings(s: State)
    requires RingsInv(s) && s.recvRing != [] && s.place.Keys == s.calls.Keys
    ensures Moved(s, DoServe(s), s.recvRing[0].tok, ServerRing) && RingsInv(DoServe(s))
  {
  }

  lemma ServeKeeps(s: State)
    requires Inv(s) && s.recvRing != []
    ensures Inv(DoServe(s))
  {
    hide RingsInv, ConnsInv, TableInv, FreshInv, WaitInv, StartInv, GivenInv, TakenInv, SameCallers, SameLinks;
    ServeRings(s);
    MovedSame(s, DoServe(s), s.recvRing[0].tok, ServerRing);
    MovedInside(s, DoServe(s), s.recvRing[0].tok, ServerRing);
    InsideStep(s, DoServe(s));
  }

  lemma StaySilentRings(s: State)
    requires RingsInv(s) && s.service.Some? && s.place.Keys == s.calls.Keys
    ensures Moved(s, DoStaySilent(s), s.service.value.tok, Service) && RingsInv(DoStaySilent(s))
  {
  }

  lemma StaySilentKeeps(s: State)
    requires Inv(s) && s.service.Some?
    ensures Inv(DoStaySilent(s))
  {
    hide RingsInv, ConnsInv, TableInv, FreshInv, WaitInv, StartInv, GivenInv, TakenInv, SameCallers, SameLinks;
    StaySilentRings(s);
    MovedSame(s, DoStaySilent(s), s.service.value.tok, Service);
    MovedInside(s, DoStaySilent(s), s.service.value.tok, Service);
    InsideStep(s, DoStaySilent(s));
  }

  lemma AnswerMoves(s: State, rspCode: u16, data: seq<u8>, dataLen: u32)
    requires RingsInv(s) && s.service.Some? && s.place.Keys == s.calls.Keys
    ensures MovedIn(s, DoAnswer(s, rspCode, data, dataLen), s.service.value.tok, Service, s.sendRing, ReplyRing)
  {
  }

  lemma AnswerRings(s: State, rspCode: u16, data: seq<u8>, dataLen: u32)
    requires RingsInv(s) && s.service.Some? && s.place.Keys == s.calls.Keys
    ensures RingsInv(DoAnswer(s, rspCode, data, dataLen))
  {
    hide QueueOk, MovedIn;
    var s', p := DoAnswer(s, rspCode, data, dataLen), s.service.value;
    AnswerMoves(s, rspCode, data, dataLen);
    MovedInStays(s, s', p.tok, Service, s.sendRing, ReplyRing);
    ClientRingsStay(s, s');
    QueueStays(s, s', s.recvRing, ServerRing, false);
    assert PacketOk(s, p, Service, false);
    RingPushed(s, s', s.sendRing, Packet(p.tok, GenerateRspMsg(p.msg, rspCode, data, dataLen)), ReplyRing, true);
  }

  lemma AnswerSame(s: State, rspCode: u16, data: seq<u8>, dataLen: u32)
    requires s.service.Some?
    requires MovedIn(s, DoAnswer(s, rspCode, data, dataLen), s.service.value.tok, Service, s.sendRing, ReplyRing)
    ensures SameCallers(s, DoAnswer(s, rspCode, data, dataLen)) && SameLinks(s, DoAnswer(s, rspCode, data, dataLen))
  {
  }

  lemma AnswerKeeps(s: State, rspCode: u16, data: seq<u8>, dataLen: u32)
    requires Inv(s) && s.service.Some?
    ensures Inv(DoAnswer(s, rspCode, data, dataLen))
  {
    hide RingsInv, ConnsInv, TableInv, FreshInv, WaitInv, StartInv, GivenInv, TakenInv, SameCallers, SameLinks, MovedIn;
    AnswerMoves(s, rspCode, data, dataLen);
    AnswerRings(s, rspCode, data, dataLen);
    AnswerSame(s, rspCode, data, dataLen);
    InsideStep(s, DoAnswer(s, rspCode, data, dataLen));
  }
}
