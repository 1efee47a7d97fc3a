/** The request/reply protocol as a step system: any number of client processes, each with any number
    of caller threads and a socket thread, and the service's socket and service threads. A step is one
    lock-protected region or one message passed; the steps interleave in any order. */
module Protocol {
  import opened Outcomes
  import opened PwrMessage
  import opened Sequences
  import MsgRing
  import WaitList
  import ClientTable

  /** A connection; ids grow in the order in which connections are made. */
  type ConnId = nat

  /** A call: the process that makes it and the number of its sequence-id draw. */
  datatype Token = Token(client: u32, ticket: nat)

  /** A message, with the call it belongs to. */
  datatype Packet = Packet(tok: Token, msg: PwrMsg)

  /** How far a caller thread is in SendMsgSyn. */
  datatype Phase =
    | Drawn                           // the request has its sequence id
    | Queued                          // its copy is in the send ring
    | Waiting                         // its node is in the wait list
    | TimedOut(start: Option<Token>)  // it timed out and has read the list head, but not yet taken the lock
    | Woken                           // it is past the wait, and past the removal if it timed out
    | Done                            // it has returned; the node's request pointer is null

  /** rsp is the node's reply pointer, result what the call returned. */
  datatype Call = Call(req: PwrMsg, phase: Phase, rsp: Option<Packet>, result: Option<Packet>)

  /** The socket thread between taking a node out of the wait list and handing it the reply. */
  datatype Match = Match(reply: Packet, to: Token)

  datatype Client = Client(
    alive: bool,
    drawn: nat,
    ring: seq<Packet>,
    waiting: seq<Token>,
    hand: Option<Match>,
    conn: Option<ConnId>)

  datatype Status = Pending | Open | Closed

  datatype Conn = Conn(owner: u32, status: Status, up: seq<Packet>, down: seq<Packet>)

  /** Where the request of a call, or the reply to it, is. (History: no step looks at it.) */
  datatype Place =
    | Fresh | ClientRing | Upstream(k: ConnId) | ServerRing | Service | ReplyRing | Downstream(k: ConnId)
    | Given(to: Token) | Gone

  datatype State = State(
    clients: map<u32, Client>,
    calls: map<Token, Call>,
    conns: map<ConnId, Conn>,
    table: map<int, ConnId>,
    recvRing: seq<Packet>,
    service: Option<Packet>,
    sendRing: seq<Packet>,
    place: map<Token, Place>)

  datatype Action =
    | Draw(c: u32, optType: u16, taskNo: u32, dataLen: u32, data: seq<u8>)
    | Refuse(t: Token)
    | Enqueue(t: Token)
    | Register(t: Token)
    | Wake(t: Token)
    | TimeOut(t: Token)
    | MoveOut(t: Token, reach: bool)
    | Return(t: Token)
    | ClientSend(c: u32)
    | ClientRecv(c: u32, pick: nat)
    | GiveReply(c: u32)
    | Disconnect(c: u32)
    | Connect(c: u32, k: ConnId)
    | Accept(k: ConnId)
    | ServerRecv(c: u32)
    | ServerClose(c: u32)
    | Serve
    | Answer(rspCode: u16, data: seq<u8>, dataLen: u32)
    | StaySilent
    | ServerSend
    | Crowd

  // ---------------------------------------------------------------- the steps

  /** The steps of the callers' threads, and the socket thread's of handing a reply over. */
  predicate ByCaller(a: Action) {
    || a.Draw? || a.Refuse? || a.Enqueue? || a.Register? || a.Wake? || a.TimeOut? || a.MoveOut? || a.Return?
    || a.GiveReply?
  }

  predicate InPhase(s: State, t: Token, p: Phase) {
    t in s.calls && s.calls[t].phase == p && t.client in s.clients && s.clients[t.client].alive
  }

  /** The socket thread is between two messages. */
  predicate SocketIdle(s: State, c: u32) {
    c in s.clients && s.clients[c].alive && s.clients[c].hand == None
  }

  predicate Connected(s: State, c: u32) {
    c in s.clients && s.clients[c].conn.Some? && s.clients[c].conn.value in s.conns
  }

  predicate Registered(s: State, c: u32) { c in s.table && s.table[c] in s.conns }

  /** A node still waits for a reply with this sequence id. */
  predicate Awaits(calls: map<Token, Call>, t: Token, seqId: u32) {
    t in calls && calls[t].phase != Done && calls[t].req.head.seqId == seqId
  }

  /** The position of the first such node, or |waiting|. */
  function FirstMatch(calls: map<Token, Call>, waiting: seq<Token>, seqId: u32): (k: nat)
    ensures k <= |waiting|
    ensures k < |waiting| ==> Awaits(calls, waiting[k], seqId)
    ensures forall j :: 0 <= j < k ==> !Awaits(calls, waiting[j], seqId)
  {
    if waiting == [] || Awaits(calls, waiting[0], seqId) then 0 else 1 + FirstMatch(calls, waiting[1..], seqId)
  }

  /** A call has returned while its node was in the list. Its links are null by then, so that a walk may
      end there; which nodes behind it are reached again is left open. */
  predicate Damaged(s: State, c: u32) {
    c in s.clients && exists t :: t in s.clients[c].waiting && t in s.calls && s.calls[t].phase == Done
  }

  /** The position that the search for a waiter may end with: the first match, or the length of the list
      if there is none. In a damaged list it may miss nodes. */
  predicate MayPick(s: State, c: u32, i: nat)
    requires c in s.clients && Connected(s, c) && s.conns[s.clients[c].conn.value].down != []
  {
    var waiting, seqId := s.clients[c].waiting, s.conns[s.clients[c].conn.value].down[0].msg.head.seqId;
    && i <= |waiting| && (i < |waiting| ==> Awaits(s.calls, waiting[i], seqId))
    && (i == FirstMatch(s.calls, waiting, seqId) || Damaged(s, c))
  }

  /** accept() takes the pending connection that was made first. */
  predicate OldestPending(s: State, k: ConnId) {
    k in s.conns && s.conns[k].status == Pending && forall j :: j in s.conns && s.conns[j].status == Pending ==> k <= j
  }

  predicate Enabled(s: State, a: Action) {
    match a
    case Draw(c, _, _, _, _) => c in s.clients && s.clients[c].alive
    case Refuse(t) => InPhase(s, t, Drawn) && s.clients[t.client].conn == None
    case Enqueue(t) => InPhase(s, t, Drawn)
    case Register(t) => InPhase(s, t, Queued)
    case Wake(t) => InPhase(s, t, Waiting)
    case TimeOut(t) => InPhase(s, t, Waiting)
    case MoveOut(t, reach) =>
      t in s.calls && s.calls[t].phase.TimedOut? && InPhase(s, t, s.calls[t].phase) && (reach || Damaged(s, t.client))
    case Return(t) => InPhase(s, t, Woken)
    case ClientSend(c) => SocketIdle(s, c) && Connected(s, c) && s.clients[c].ring != []
    case ClientRecv(c, pick) =>
      SocketIdle(s, c) && Connected(s, c) && s.conns[s.clients[c].conn.value].down != [] && MayPick(s, c, pick)
    case GiveReply(c) => c in s.clients && s.clients[c].alive && s.clients[c].hand.Some?
      && s.clients[c].hand.value.to in s.calls
    case Disconnect(c) => c in s.clients
    case Connect(c, k) => SocketIdle(s, c) && s.clients[c].conn == None && forall j :: j in s.conns ==> j < k
    case Accept(k) => OldestPending(s, k)
    case ServerRecv(c) => Registered(s, c) && s.conns[s.table[c]].up != []
    case ServerClose(c) => Registered(s, c)
    case Serve => s.service == None && s.recvRing != []
    case Answer(_, _, _) => s.service.Some?
    case StaySilent => s.service.Some?
    case ServerSend => s.sendRing != []
    case Crowd => s.sendRing != []
  }

  function SetPhase(s: State, t: Token, p: Phase): State
    requires t in s.calls
  {
    s.(calls := s.calls[t := s.calls[t].(phase := p)])
  }

  function SetClient(s: State, c: u32, client: Client): State { s.(clients := s.clients[c := client]) }

  function Move(place: map<Token, Place>, t: Token, p: Place): map<Token, Place> { place[t := p] }

  /** Adding to a ring: the displaced packet, if any, is gone. */
  function Displace(place: map<Token, Place>, ring: seq<Packet>): map<Token, Place> {
    if MsgRing.Displaced(ring).Some? then Move(place, ring[0].tok, Gone) else place
  }

  function DoDraw(s: State, c: u32, optType: u16, taskNo: u32, dataLen: u32, data: seq<u8>): State
    requires c in s.clients
  {
    var client := s.clients[c];
    var t := Token(c, client.drawn);
    var req := PwrMsg(RequestHead(SeqIdOf(c, client.drawn), c, optType, taskNo, dataLen), data);
    SetClient(s, c, client.(drawn := client.drawn + 1))
      .(calls := s.calls[t := Call(req, Drawn, None, None)], place := Move(s.place, t, Fresh))
  }

  function DoEnqueue(s: State, t: Token): State
    requires t in s.calls && t.client in s.clients
  {
    var client := s.clients[t.client];
    SetClient(SetPhase(s, t, Queued), t.client,
              client.(ring := MsgRing.Pushed(client.ring, Packet(t, s.calls[t].req))))
      .(place := Move(Displace(s.place, client.ring), t, ClientRing))
  }

  function DoRegister(s: State, t: Token): State
    requires t in s.calls && t.client in s.clients
  {
    var client := s.clients[t.client];
    SetClient(SetPhase(s, t, Waiting), t.client, client.(waiting := client.waiting + [t]))
  }

  function HeadOf(waiting: seq<Token>): Option<Token> { if waiting == [] then None else Some(waiting[0]) }

  /** Walks the wait list from the head read earlier. When that head was the caller's own node and has
      been taken out in between, the walk unlinks it a second time through null links: the process ends. */
  function DoMoveOut(s: State, t: Token, reach: bool): State
    requires t in s.calls && t.client in s.clients && s.calls[t].phase.TimedOut?
  {
    var client, start := s.clients[t.client], s.calls[t].phase.start;
    if start == Some(t) && t !in client.waiting then SetClient(s, t.client, client.(alive := false))
    else SetClient(SetPhase(s, t, Woken), t.client,
                   if reach then client.(waiting := WaitList.AfterMoveOut(client.waiting, start, t)) else client)
  }

  function DoReturn(s: State, t: Token): State
    requires t in s.calls
  {
    var call := s.calls[t];
    s.(calls := s.calls[t := call.(phase := Done, rsp := None, result := call.rsp)])
  }

  function DoClientSend(s: State, c: u32): State
    requires c in s.clients && Connected(s, c) && s.clients[c].ring != []
  {
    var client := s.clients[c];
    var k, p := client.conn.value, client.ring[0];
    SetClient(s, c, client.(ring := client.ring[1..]))
      .(conns := s.conns[k := s.conns[k].(up := s.conns[k].up + [p])], place := Move(s.place, p.tok, Upstream(k)))
  }

  /** RecvMsgFromSocket and the search of ProcessRspMsg: a reply nobody waits for is dropped. */
  function DoClientRecv(s: State, c: u32, i: nat): State
    requires c in s.clients && Connected(s, c) && s.conns[s.clients[c].conn.value].down != []
      && i <= |s.clients[c].waiting|
  {
    var client := s.clients[c];
    var k := client.conn.value;
    var p := s.conns[k].down[0];
    var s' := s.(conns := s.conns[k := s.conns[k].(down := s.conns[k].down[1..])]);
    if i == |client.waiting| then s'.(place := Move(s.place, p.tok, Gone))
    else
      SetClient(s', c, client.(waiting := RemoveAt(client.waiting, i), hand := Some(Match(p, client.waiting[i]))))
        .(place := Move(s.place, p.tok, Given(client.waiting[i])))
  }

  /** The reply pointer is set; after the call has returned nobody reads it any more. */
  function DoGiveReply(s: State, c: u32): State
    requires c in s.clients && s.clients[c].hand.Some? && s.clients[c].hand.value.to in s.calls
  {
    var m := s.clients[c].hand.value;
    var call := s.calls[m.to];
    SetClient(s, c, s.clients[c].(hand := None))
      .(calls := if call.phase == Done then s.calls else s.calls[m.to := call.(rsp := Some(m.reply))])
  }

  function DoDisconnect(s: State, c: u32): State
    requires c in s.clients
  {
    SetClient(s, c, s.clients[c].(conn := None))
  }

  function DoConnect(s: State, c: u32, k: ConnId): State
    requires c in s.clients
  {
    SetClient(s, c, s.clients[c].(conn := Some(k))).(conns := s.conns[k := Conn(c, Pending, [], [])])
  }

  function Close(conns: map<ConnId, Conn>, k: ConnId): map<ConnId, Conn> {
    if k in conns then conns[k := conns[k].(status := Closed)] else conns
  }

  /** AddToClientList; a connection that finds no room is closed, a replaced one too. */
  function DoAccept(s: State, k: ConnId): State
    requires k in s.conns
  {
    var c := s.conns[k].owner;
    if ClientTable.Accepts(s.table, c) then
      var closed := if c in s.table then Close(s.conns, s.table[c]) else s.conns;
      s.(table := ClientTable.Registered(s.table, c, k), conns := closed[k := s.conns[k].(status := Open)])
    else s.(conns := Close(s.conns, k))
  }

  function DoServerClose(s: State, c: u32): State
    requires Registered(s, c)
  {
    s.(table := s.table - {c}, conns := Close(s.conns, s.table[c]))
  }

  /** ProcessRecvMsgFromClient: the table's id for the connection is stamped on the request. */
  function DoServerRecv(s: State, c: u32): State
    requires Registered(s, c) && s.conns[s.table[c]].up != []
  {
    var k := s.table[c];
    var p := s.conns[k].up[0];
    var stamped := p.(msg := p.msg.(head := p.msg.head.(sysId := c)));
    s.(conns := s.conns[k := s.conns[k].(up := s.conns[k].up[1..])],
       recvRing := MsgRing.Pushed(s.recvRing, stamped),
       place := Move(Displace(s.place, s.recvRing), p.tok, ServerRing))
  }

  function DoServe(s: State): State
    requires s.recvRing != []
  {
    s.(recvRing := s.recvRing[1..], service := Some(s.recvRing[0]), place := Move(s.place, s.recvRing[0].tok, Service))
  }

  function DoAnswer(s: State, rspCode: u16, data: seq<u8>, dataLen: u32): State
    requires s.service.Some?
  {
    var p := s.service.value;
    s.(service := None,
       sendRing := MsgRing.Pushed(s.sendRing, Packet(p.tok, GenerateRspMsg(p.msg, rspCode, data, dataLen))),
       place := Move(Displace(s.place, s.sendRing), p.tok, ReplyRing))
  }

  /** A request type without a handler that replies. */
  function DoStaySilent(s: State): State
    requires s.service.Some?
  {
    s.(service := None, place := Move(s.place, s.service.value.tok, Gone))
  }

  /** The oldest reply leaves the send ring for good; collected data on its way to a client may displace it. */
  function DoCrowd(s: State): State
    requires s.sendRing != []
  {
    s.(sendRing := s.sendRing[1..], place := Move(s.place, s.sendRing[0].tok, Gone))
  }

  /** ProcessSendMsgToClient: the reply goes to the connection registered for its id, or is dropped. */
  function DoServerSend(s: State): State
    requires s.sendRing != []
  {
    var p := s.sendRing[0];
    var c := p.msg.head.sysId;
    if !Registered(s, c) then DoCrowd(s)
    else
      var k := s.table[c];
      s.(sendRing := s.sendRing[1..], conns := s.conns[k := s.conns[k].(down := s.conns[k].down + [p])],
         place := Move(s.place, p.tok, Downstream(k)))
  }

  function Next(s: State, a: Action): State {
    if !Enabled(s, a) then s else
      match a
      case Draw(c, optType, taskNo, dataLen, data) => DoDraw(s, c, optType, taskNo, dataLen, data)
      case Refuse(t) => SetPhase(s, t, Done)
      case Enqueue(t) => DoEnqueue(s, t)
      case Register(t) => DoRegister(s, t)
      case Wake(t) => SetPhase(s, t, Woken)
      case TimeOut(t) => SetPhase(s, t, TimedOut(HeadOf(s.clients[t.client].waiting)))
      case MoveOut(t, reach) => DoMoveOut(s, t, reach)
      case Return(t) => DoReturn(s, t)
      case ClientSend(c) => DoClientSend(s, c)
      case ClientRecv(c, pick) => DoClientRecv(s, c, pick)
      case GiveReply(c) => DoGiveReply(s, c)
      case Disconnect(c) => DoDisconnect(s, c)
      case Connect(c, k) => DoConnect(s, c, k)
      case Accept(k) => DoAccept(s, k)
      case ServerRecv(c) => DoServerRecv(s, c)
      case ServerClose(c) => DoServerClose(s, c)
      case Serve => DoServe(s)
      case Answer(rspCode, data, dataLen) => DoAnswer(s, rspCode, data, dataLen)
      case StaySilent => DoStaySilent(s)
      case ServerSend => DoServerSend(s)
      case Crowd => DoCrowd(s)
  }

  function Start(pids: set<u32>): State {
    State(map c | c in pids :: Client(true, 0, [], [], None, None), map[], map[], map[], [], None, [], map[])
  }

  function Run(pids: set<u32>, actions: seq<Action>): State {
    if actions == [] then Start(pids)
    else Next(Run(pids, actions[..|actions| - 1]), actions[|actions| - 1])
  }

  // ---------------------------------------------------------------- the invariant

  /** p is the request of its call, or (reply) an answer to it, and is where the history says. */
  ghost predicate PacketOk(s: State, p: Packet, at: Place, reply: bool) {
    && p.tok in s.calls && p.tok in s.place && s.place[p.tok] == at
    && (if reply then Answers(p.msg, s.calls[p.tok].req) else p.msg == s.calls[p.tok].req)
  }

  ghost predicate QueueOk(s: State, q: seq<Packet>, at: Place, reply: bool) {
    && (forall i :: 0 <= i < |q| ==> PacketOk(s, q[i], at, reply))
    && (forall i, j :: 0 <= i < j < |q| ==> q[i].tok != q[j].tok)
  }

  /** Every packet of q belongs to client c. */
  ghost predicate BelongTo(q: seq<Packet>, c: u32) { forall i :: 0 <= i < |q| ==> q[i].tok.client == c }

  ghost predicate CallsInv(s: State) {
    && s.place.Keys == s.calls.Keys
    && forall t :: t in s.calls ==>
      && t.client in s.clients && t.ticket < s.clients[t.client].drawn
      && s.calls[t].req.head.seqId == SeqIdOf(t.client, t.ticket)
      && s.calls[t].req.head.sysId == t.client && s.calls[t].req.head.msgType == MT_REQ
  }

  ghost predicate RingsInv(s: State) {
    && (forall c :: c in s.clients ==>
       QueueOk(s, s.clients[c].ring, ClientRing, false) && BelongTo(s.clients[c].ring, c))
    && QueueOk(s, s.recvRing, ServerRing, false)
    && QueueOk(s, s.sendRing, ReplyRing, true)
    && (s.service.Some? ==> PacketOk(s, s.service.value, Service, false))
  }

  ghost predicate ConnOk(s: State, k: ConnId)
    requires k in s.conns
  {
    && QueueOk(s, s.conns[k].up, Upstream(k), false) && BelongTo(s.conns[k].up, s.conns[k].owner)
    && QueueOk(s, s.conns[k].down, Downstream(k), true) && BelongTo(s.conns[k].down, s.conns[k].owner)
  }

  ghost predicate ConnsInv(s: State) {
    && (forall k :: k in s.conns ==> ConnOk(s, k))
    && (forall c :: c in s.clients && s.clients[c].conn.Some? ==>
      s.clients[c].conn.value in s.conns && s.conns[s.clients[c].conn.value].owner == c)
  }

  /** The client table is an injective map from ids to the connections the server has open. */
  ghost predicate TableInv(s: State) {
    && |s.table| <= ClientTable.MAX_CLIENT_NUM
    && (forall c :: c in s.table ==>
       s.table[c] in s.conns && s.conns[s.table[c]].owner == c && s.conns[s.table[c]].status == Open)
    && (forall k :: k in s.conns && s.conns[k].status == Open ==>
      s.conns[k].owner in s.table && s.table[s.conns[k].owner] == k)
  }

  /** A request that has not been sent is nowhere else. */
  ghost predicate FreshInv(s: State) {
    forall t :: t in s.calls && s.calls[t].phase == Drawn ==> t in s.place && s.place[t] == Fresh
  }

  /** Phases in which the caller's node is not yet in the wait list. */
  predicate Early(p: Phase) { p == Drawn || p == Queued }

  ghost predicate WaitInv(s: State) {
    forall c :: c in s.clients ==>
      && Distinct(s.clients[c].waiting)
      && forall t :: t in s.clients[c].waiting ==> t in s.calls && t.client == c && !Early(s.calls[t].phase)
  }

  /** A head read by a caller that has timed out is still the head, if it is still in the list at all;
      and a caller that found the list empty is not in it. */
  ghost predicate StartInv(s: State) {
    forall t :: t in s.calls && t.client in s.clients && s.calls[t].phase.TimedOut? ==>
      var waiting, start := s.clients[t.client].waiting, s.calls[t].phase.start;
      && (start == None ==> t !in waiting)
      && (start.Some? ==> start.value in s.calls && !Early(s.calls[start.value].phase))
      && (start.Some? && start.value in waiting ==> waiting[0] == start.value)
  }

  /** Replies given to waiters: by sequence id, one reply to one waiter, one waiter per reply. */
  ghost predicate GivenInv(s: State) {
    && (forall a :: a in s.place && s.place[a].Given? ==>
      var t := s.place[a].to;
      && t in s.calls && t.client == a.client && a in s.calls
      && s.calls[t].req.head.seqId == s.calls[a].req.head.seqId
      && !Early(s.calls[t].phase) && t.client in s.clients && t !in s.clients[t.client].waiting)
    && (forall a, b :: a in s.place && b in s.place && s.place[a].Given? && s.place[a] == s.place[b] ==> a == b)
  }

  ghost predicate TakenInv(s: State) {
    && (forall c :: c in s.clients && s.clients[c].hand.Some? ==>
      var m := s.clients[c].hand.value; m.to in s.calls && m.to.client == c && PacketOk(s, m.reply, Given(m.to), true))
    && (forall t :: t in s.calls && s.calls[t].rsp.Some? ==> PacketOk(s, s.calls[t].rsp.value, Given(t), true))
    && (forall t :: t in s.calls && s.calls[t].result.Some? ==> PacketOk(s, s.calls[t].result.value, Given(t), true))
  }

  ghost predicate Inv(s: State) {
    && CallsInv(s) && FreshInv(s) && RingsInv(s) && ConnsInv(s) && TableInv(s)
    && WaitInv(s) && StartInv(s) && GivenInv(s) && TakenInv(s)
  }
}
