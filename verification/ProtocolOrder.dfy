/** The service takes the requests of one client in the order in which its callers enqueued them, across
    disconnects and reconnects. */
module ProtocolOrder {
  import opened Outcomes
  import opened PwrMessage
  import opened Sequences
  import MsgRing
  import WaitList
  import opened Protocol
  import opened ProtocolHistory
  import ProtocolSteps

  // ---------------------------------------------------------------- order by enqueueing

  /** The call whose request a step puts into its client's send ring. */
  function EnqueuedBy(s: State, a: Action): seq<Token> {
    if a.Enqueue? && Enabled(s, a) then [a.t] else []
  }

  function Enqueued(pids: set<u32>, actions: seq<Action>): seq<Token> {
    if actions == [] then []
    else
      var before := actions[..|actions| - 1];
      Enqueued(pids, before) + EnqueuedBy(Run(pids, before), actions[|actions| - 1])
  }

  ghost predicate Older(enq: seq<Token>, a: Token, b: Token) {
    exists i, j :: 0 <= i < j < |enq| && enq[i] == a && enq[j] == b
  }

  /** Tokens of one client are in the order of their enqueueing. */
  ghost predicate Sorted(enq: seq<Token>, xs: seq<Token>) {
    forall i, j :: 0 <= i < j < |xs| && xs[i].client == xs[j].client ==> Older(enq, xs[i], xs[j])
  }

  /** Every token of a client in xs was enqueued before all of that client in ys. */
  ghost predicate AllOlder(enq: seq<Token>, xs: seq<Token>, ys: seq<Token>) {
    forall i, j :: 0 <= i < |xs| && 0 <= j < |ys| && xs[i].client == ys[j].client ==> Older(enq, xs[i], ys[j])
  }

  ghost predicate Within(enq: seq<Token>, xs: seq<Token>) { forall i :: 0 <= i < |xs| ==> xs[i] in enq }

  lemma OlderGrows(enq: seq<Token>, t: Token, a: Token, b: Token)
    requires Older(enq, a, b)
    ensures Older(enq + [t], a, b)
  {
    var i, j :| 0 <= i < j < |enq| && enq[i] == a && enq[j] == b;
    assert (enq + [t])[i] == a && (enq + [t])[j] == b;
  }

  lemma OlderThanNew(enq: seq<Token>, t: Token, a: Token)
    requires a in enq
    ensures Older(enq + [t], a, t)
  {
    var i :| 0 <= i < |enq| && enq[i] == a;
    assert (enq + [t])[i] == a && (enq + [t])[|enq|] == t;
  }

  // ---------------------------------------------------------------- the way of a request in segments

  /** Where requests stand in line, from the front to the back: taken by the service, in its ring, on a
      connection that the server still reads or will read, in their client's ring. */
  datatype Segment = Handled | Received | Sent(k: ConnId) | Kept(c: u32)

  predicate Ahead(a: Segment, b: Segment) {
    match a
    case Handled => b != Handled
    case Received => b.Sent? || b.Kept?
    case Sent(k) => b.Kept? || (b.Sent? && k < b.k)
    case Kept(_) => false
  }

  function Toks(q: seq<Packet>): (r: seq<Token>)
    ensures |r| == |q| && forall i :: 0 <= i < |q| ==> r[i] == q[i].tok
  {
    seq(|q|, i requires 0 <= i < |q| => q[i].tok)
  }

  predicate Live(s: State, k: ConnId) { k in s.conns && s.conns[k].status != Closed }

  function Content(s: State, served: seq<Token>, g: Segment): seq<Token> {
    match g
    case Handled => served
    case Received => Toks(s.recvRing)
    case Sent(k) => if Live(s, k) then Toks(s.conns[k].up) else []
    case Kept(c) => if c in s.clients then Toks(s.clients[c].ring) else []
  }

  ghost predicate InLine(enq: seq<Token>, s: State, served: seq<Token>) {
    && (forall g :: Sorted(enq, Content(s, served, g)) && Within(enq, Content(s, served, g)))
    && (forall g, h :: Ahead(g, h) ==> AllOlder(enq, Content(s, served, g), Content(s, served, h)))
  }

  // ---------------------------------------------------------------- what keeps the line

  /** now is was, perhaps without its front, or is empty. */
  ghost predicate Shrunk(was: seq<Token>, now: seq<Token>) {
    now == was || now == [] || (was != [] && now == was[1..])
  }

  lemma ShrunkKeeps(enq: seq<Token>, xs: seq<Token>, xs': seq<Token>)
    requires Shrunk(xs, xs')
    ensures Sorted(enq, xs) ==> Sorted(enq, xs')
    ensures Within(enq, xs) ==> Within(enq, xs')
  {
  }

  lemma ShrunkOlder(enq: seq<Token>, xs: seq<Token>, xs': seq<Token>, ys: seq<Token>, ys': seq<Token>)
    requires Shrunk(xs, xs') && Shrunk(ys, ys') && AllOlder(enq, xs, ys)
    ensures AllOlder(enq, xs', ys')
  {
  }

  /** Requests are only lost. */
  lemma LossKeepsLine(enq: seq<Token>, s: State, served: seq<Token>, s': State)
    requires InLine(enq, s, served)
    requires forall g :: Shrunk(Content(s, served, g), Content(s', served, g))
    ensures InLine(enq, s', served)
  {
    hide Sorted, Within, AllOlder, Content, Shrunk;
    forall g
      ensures Sorted(enq, Content(s', served, g)) && Within(enq, Content(s', served, g))
    {
      ShrunkKeeps(enq, Content(s, served, g), Content(s', served, g));
    }
    forall g, h | Ahead(g, h)
      ensures AllOlder(enq, Content(s', served, g), Content(s', served, h))
    {
      ShrunkOlder(enq, Content(s, served, g), Content(s', served, g), Content(s, served, h), Content(s', served, h));
    }
  }

  /** The front of one segment goes to the end of one ahead of it, and nothing of its client is passed by. */
  ghost predicate Advanced(s: State, served: seq<Token>, s': State, served': seq<Token>, from: Segment, to: Segment) {
    && Ahead(to, from) && Content(s, served, from) != []
    && var x := Content(s, served, from)[0];
    && Content(s', served', from) == Content(s, served, from)[1..]
    && Shrunk(Content(s, served, to) + [x], Content(s', served', to))
    && (forall g :: g != from && g != to ==> Content(s', served', g) == Content(s, served, g))
    && (forall g :: Ahead(to, g) && g != from && !Ahead(from, g) ==> NoneOf(Content(s, served, g), x.client))
  }

  ghost predicate NoneOf(xs: seq<Token>, c: u32) { forall i :: 0 <= i < |xs| ==> xs[i].client != c }

  lemma AppendSorted(enq: seq<Token>, ys: seq<Token>, xs: seq<Token>)
    requires xs != [] && Sorted(enq, ys) && Within(enq, ys) && Within(enq, xs) && AllOlder(enq, ys, xs)
    ensures Sorted(enq, ys + [xs[0]]) && Within(enq, ys + [xs[0]])
  {
  }

  lemma AppendOlderFront(enq: seq<Token>, ys: seq<Token>, xs: seq<Token>)
    requires xs != [] && Sorted(enq, xs) && AllOlder(enq, ys, xs)
    ensures AllOlder(enq, ys + [xs[0]], xs[1..])
  {
  }

  lemma AppendOlder(enq: seq<Token>, ys: seq<Token>, x: Token, zs: seq<Token>)
    requires AllOlder(enq, ys, zs) && AllOlder(enq, [x], zs)
    ensures AllOlder(enq, ys + [x], zs)
  {
    forall i, j | 0 <= i < |ys + [x]| && 0 <= j < |zs| && (ys + [x])[i].client == zs[j].client
      ensures Older(enq, (ys + [x])[i], zs[j])
    {
      if i == |ys| { assert [x][0].client == zs[j].client; }
    }
  }

  lemma OlderAppend(enq: seq<Token>, zs: seq<Token>, ys: seq<Token>, xs: seq<Token>)
    requires xs != [] && AllOlder(enq, zs, ys) && AllOlder(enq, zs, xs)
    ensures AllOlder(enq, zs, ys + [xs[0]])
  {
  }

  lemma FrontOlder(enq: seq<Token>, xs: seq<Token>, zs: seq<Token>)
    requires xs != [] && (AllOlder(enq, xs, zs) || NoneOf(zs, xs[0].client))
    ensures AllOlder(enq, [xs[0]], zs)
  {
  }

  lemma AheadIsTransitive(a: Segment, b: Segment, c: Segment)
    requires Ahead(a, b) && Ahead(b, c)
    ensures Ahead(a, c)
  {
  }

  lemma AheadIsStrict(a: Segment, b: Segment)
    requires Ahead(a, b)
    ensures a != b && !Ahead(b, a)
  {
  }

  lemma WholeIsShrunk(xs: seq<Token>)
    ensures Shrunk(xs, xs) && (xs != [] ==> Shrunk(xs, xs[1..]))
  {
  }

  lemma AdvanceSorts(enq: seq<Token>, s: State, served: seq<Token>, s': State, served': seq<Token>,
                     from: Segment, to: Segment, g: Segment)
    requires InLine(enq, s, served) && Advanced(s, served, s', served', from, to)
    ensures Sorted(enq, Content(s', served', g)) && Within(enq, Content(s', served', g))
  {
    hide Sorted, Within, AllOlder, Content, Shrunk, NoneOf;
    var xs, ys := Content(s, served, from), Content(s, served, to);
    if g == to {
      AppendSorted(enq, ys, xs);
      ShrunkKeeps(enq, ys + [xs[0]], Content(s', served', to));
    } else if g == from {
      WholeIsShrunk(xs);
      ShrunkKeeps(enq, xs, xs[1..]);
    }
  }

  lemma AdvanceOrdersTo(enq: seq<Token>, s: State, served: seq<Token>, s': State, served': seq<Token>,
                        from: Segment, to: Segment, g: Segment)
    requires InLine(enq, s, served) && Advanced(s, served, s', served', from, to) && Ahead(to, g)
    ensures AllOlder(enq, Content(s', served', to), Content(s', served', g))
  {
    hide Sorted, Within, AllOlder, Content, Shrunk, NoneOf;
    var xs, ys, zs := Content(s, served, from), Content(s, served, to), Content(s', served', g);
    AheadIsStrict(to, g);
    if g == from {
      AppendOlderFront(enq, ys, xs);
    } else {
      FrontOlder(enq, xs, zs);
      AppendOlder(enq, ys, xs[0], zs);
    }
    WholeIsShrunk(zs);
    ShrunkOlder(enq, ys + [xs[0]], Content(s', served', to), zs, zs);
  }

  lemma AdvanceOrders(enq: seq<Token>, s: State, served: seq<Token>, s': State, served': seq<Token>,
                      from: Segment, to: Segment, g: Segment, h: Segment)
    requires InLine(enq, s, served) && Advanced(s, served, s', served', from, to) && Ahead(g, h)
    ensures AllOlder(enq, Content(s', served', g), Content(s', served', h))
  {
    hide Sorted, Within, AllOlder, Content, Shrunk, NoneOf;
    var xs, ys := Content(s, served, from), Content(s, served, to);
    var gs, hs := Content(s, served, g), Content(s, served, h);
    AheadIsStrict(to, from);
    AheadIsStrict(g, h);
    WholeIsShrunk(gs);
    WholeIsShrunk(hs);
    if g == to {
      AdvanceOrdersTo(enq, s, served, s', served', from, to, h);
    } else if h == to {
      AheadIsTransitive(g, to, from);
      OlderAppend(enq, gs, ys, xs);
      ShrunkOlder(enq, gs, Content(s', served', g), ys + [xs[0]], Content(s', served', to));
    } else {
      ShrunkOlder(enq, gs, Content(s', served', g), hs, Content(s', served', h));
    }
  }

  lemma AdvanceKeepsLine(enq: seq<Token>, s: State, served: seq<Token>, s': State, served': seq<Token>,
                         from: Segment, to: Segment)
    requires InLine(enq, s, served) && Advanced(s, served, s', served', from, to)
    ensures InLine(enq, s', served')
  {
    hide Advanced, Content, Sorted, Within, AllOlder;
    forall g
      ensures Sorted(enq, Content(s', served', g)) && Within(enq, Content(s', served', g))
    {
      AdvanceSorts(enq, s, served, s', served', from, to, g);
    }
    forall g, h | Ahead(g, h)
      ensures AllOlder(enq, Content(s', served', g), Content(s', served', h))
    {
      AdvanceOrders(enq, s, served, s', served', from, to, g, h);
    }
  }

  // ---------------------------------------------------------------- a new request joins the line

  lemma SortedGrows(enq: seq<Token>, t: Token, xs: seq<Token>)
    ensures Sorted(enq, xs) ==> Sorted(enq + [t], xs)
    ensures Within(enq, xs) ==> Within(enq + [t], xs)
  {
    if Sorted(enq, xs) {
      forall i, j | 0 <= i < j < |xs| && xs[i].client == xs[j].client
        ensures Older(enq + [t], xs[i], xs[j])
      {
        OlderGrows(enq, t, xs[i], xs[j]);
      }
    }
  }

  lemma AllOlderGrows(enq: seq<Token>, t: Token, xs: seq<Token>, ys: seq<Token>)
    requires AllOlder(enq, xs, ys)
    ensures AllOlder(enq + [t], xs, ys)
  {
    forall i, j | 0 <= i < |xs| && 0 <= j < |ys| && xs[i].client == ys[j].client
      ensures Older(enq + [t], xs[i], ys[j])
    {
      OlderGrows(enq, t, xs[i], ys[j]);
    }
  }

  lemma NewestSorted(enq: seq<Token>, t: Token, xs: seq<Token>)
    requires Sorted(enq, xs) && Within(enq, xs)
    ensures Sorted(enq + [t], xs + [t]) && Within(enq + [t], xs + [t])
  {
    SortedGrows(enq, t, xs);
    forall i | 0 <= i < |xs|
      ensures Older(enq + [t], xs[i], t)
    {
      OlderThanNew(enq, t, xs[i]);
    }
    assert (enq + [t])[|enq|] == t;
  }

  lemma NewestOlder(enq: seq<Token>, t: Token, xs: seq<Token>, ys: seq<Token>)
    requires AllOlder(enq, xs, ys) && Within(enq, xs)
    ensures AllOlder(enq + [t], xs, ys + [t])
  {
    AllOlderGrows(enq, t, xs, ys);
    forall i | 0 <= i < |xs|
      ensures Older(enq + [t], xs[i], t)
    {
      OlderThanNew(enq, t, xs[i]);
    }
  }

  lemma JoinKeepsLine(enq: seq<Token>, s: State, served: seq<Token>, s': State, t: Token)
    requires InLine(enq, s, served)
    requires Shrunk(Content(s, served, Kept(t.client)) + [t], Content(s', served, Kept(t.client)))
    requires forall g :: g != Kept(t.client) ==> Content(s', served, g) == Content(s, served, g)
    ensures InLine(enq + [t], s', served)
  {
    hide Content, Sorted, Within, AllOlder, Shrunk;
    var back := Content(s, served, Kept(t.client));
    forall g
      ensures Sorted(enq + [t], Content(s', served, g)) && Within(enq + [t], Content(s', served, g))
    {
      if g == Kept(t.client) {
        NewestSorted(enq, t, back);
        ShrunkKeeps(enq + [t], back + [t], Content(s', served, g));
      } else {
        SortedGrows(enq, t, Content(s, served, g));
      }
    }
    forall g, h | Ahead(g, h)
      ensures AllOlder(enq + [t], Content(s', served, g), Content(s', served, h))
    {
      var gs := Content(s, served, g);
      WholeIsShrunk(gs);
      if h == Kept(t.client) {
        NewestOlder(enq, t, gs, back);
        ShrunkOlder(enq + [t], gs, gs, back + [t], Content(s', served, h));
      } else {
        AllOlderGrows(enq, t, gs, Content(s, served, h));
      }
    }
  }

  // ---------------------------------------------------------------- connections in order

  predicate Follows(open: Conn, pending: Conn) {
    open.owner == pending.owner && open.status == Open && pending.status == Pending
  }

  /** A client's current connection is its newest; what waits to be accepted is newer than what is open. */
  ghost predicate LinksInOrder(s: State) {
    && (forall c, j :: c in s.clients && s.clients[c].conn.Some? && j in s.conns && s.conns[j].owner == c ==>
          j <= s.clients[c].conn.value)
    && (forall j, k :: j in s.conns && k in s.conns && Follows(s.conns[k], s.conns[j]) ==> k < j)
  }

  /** Neither connections nor the clients' links to them change. */
  ghost predicate SameLinks(s: State, s': State) {
    && s'.conns.Keys == s.conns.Keys && s'.clients.Keys == s.clients.Keys
    && (forall k :: k in s.conns ==> s'.conns[k].owner == s.conns[k].owner && s'.conns[k].status == s.conns[k].status)
    && (forall c :: c in s.clients ==> s'.clients[c].conn == s.clients[c].conn)
  }

  lemma SameLinksInOrder(s: State, s': State)
    requires LinksInOrder(s) && SameLinks(s, s')
    ensures LinksInOrder(s')
  {
  }

  lemma ConnectInOrder(s: State, c: u32, k: ConnId)
    requires LinksInOrder(s) && Enabled(s, Connect(c, k)) && ConnsInv(s)
    ensures LinksInOrder(DoConnect(s, c, k))
  {
    hide QueueOk;
  }

  lemma DisconnectInOrder(s: State, c: u32)
    requires LinksInOrder(s) && c in s.clients
    ensures LinksInOrder(DoDisconnect(s, c))
  {
  }

  lemma AcceptInOrder(s: State, k: ConnId)
    requires LinksInOrder(s) && OldestPending(s, k)
    ensures LinksInOrder(DoAccept(s, k))
  {
  }

  lemma ServerCloseInOrder(s: State, c: u32)
    requires LinksInOrder(s) && Registered(s, c)
    ensures LinksInOrder(DoServerClose(s, c))
  {
  }

  // ---------------------------------------------------------------- the steps that move requests

  /** No segment changes. */
  ghost predicate SameSegments(s: State, s': State) {
    && s'.recvRing == s.recvRing && s'.clients.Keys == s.clients.Keys && s'.conns.Keys == s.conns.Keys
    && (forall c :: c in s.clients ==> s'.clients[c].ring == s.clients[c].ring)
    && (forall k :: k in s.conns ==> s'.conns[k].up == s.conns[k].up && s'.conns[k].status == s.conns[k].status)
  }

  lemma SameSegmentsInLine(enq: seq<Token>, s: State, served: seq<Token>, s': State)
    requires InLine(enq, s, served) && SameSegments(s, s')
    ensures InLine(enq, s', served)
  {
    hide Sorted, Within, AllOlder;
    assert forall g :: Content(s', served, g) == Content(s, served, g);
  }

  /** What the invariant says of who is in a segment. */
  lemma SegmentOwners(s: State, served: seq<Token>, g: Segment, c: u32)
    requires Inv(s)
    requires (g.Kept? && g.c != c) || (g.Sent? && g.k in s.conns && s.conns[g.k].owner != c)
    ensures NoneOf(Content(s, served, g), c)
  {
    hide CallsInv, FreshInv, TableInv, WaitInv, StartInv, GivenInv, TakenInv, QueueOk;
    if g.Sent? { assert ConnOk(s, g.k); }
  }

  lemma ToksTail(q: seq<Packet>)
    requires q != []
    ensures Toks(q[1..]) == Toks(q)[1..] && Toks(q)[0] == q[0].tok
  {
  }

  lemma ToksSnoc(q: seq<Packet>, p: Packet)
    ensures Toks(q + [p]) == Toks(q) + [p.tok]
  {
  }

  lemma ToksPushed(q: seq<Packet>, p: Packet)
    ensures Shrunk(Toks(q) + [p.tok], Toks(MsgRing.Pushed(q, p)))
  {
    ToksSnoc(q, p);
    if MsgRing.Displaced(q).Some? { assert q[1..] + [p] == (q + [p])[1..]; ToksTail(q + [p]); }
  }

  lemma EnqueueInLine(enq: seq<Token>, s: State, served: seq<Token>, t: Token)
    requires InLine(enq, s, served) && Enabled(s, Enqueue(t))
    ensures InLine(enq + [t], DoEnqueue(s, t), served)
  {
    hide InLine, Displace, Move;
    ToksPushed(s.clients[t.client].ring, Packet(t, s.calls[t].req));
    JoinKeepsLine(enq, s, served, DoEnqueue(s, t), t);
  }

  lemma ClientSendInLine(enq: seq<Token>, s: State, served: seq<Token>, c: u32)
    requires Inv(s) && LinksInOrder(s) && InLine(enq, s, served) && Enabled(s, ClientSend(c))
    ensures InLine(enq, DoClientSend(s, c), served)
  {
    hide Inv, InLine, NoneOf, Move;
    var s', k, ring := DoClientSend(s, c), s.clients[c].conn.value, s.clients[c].ring;
    ToksTail(ring);
    if Live(s, k) {
      ToksSnoc(s.conns[k].up, ring[0]);
      forall g | Ahead(Sent(k), g) && g != Kept(c) && !Ahead(Kept(c), g)
        ensures NoneOf(Content(s, served, g), ring[0].tok.client)
      {
        RingIsOwn(s, c);
        PassedByNone(s, served, g, c, k);
      }
      AdvanceKeepsLine(enq, s, served, s', served, Kept(c), Sent(k));
    } else {
      LossKeepsLine(enq, s, served, s');
    }
  }

  lemma RingIsOwn(s: State, c: u32)
    requires Inv(s) && c in s.clients && s.clients[c].ring != []
    ensures s.clients[c].ring[0].tok.client == c
  {
    hide CallsInv, FreshInv, ConnsInv, TableInv, WaitInv, StartInv, GivenInv, TakenInv, QueueOk;
  }

  /** No connection that comes after a client's current one is its own. */
  lemma PassedByNone(s: State, served: seq<Token>, g: Segment, c: u32, k: ConnId)
    requires Inv(s) && LinksInOrder(s) && c in s.clients && s.clients[c].conn == Some(k)
    requires Ahead(Sent(k), g) && g != Kept(c) && !Ahead(Kept(c), g)
    ensures NoneOf(Content(s, served, g), c)
  {
    hide Inv;
    if g.Kept? || g.k in s.conns { SegmentOwners(s, served, g, c); }
  }

  lemma ServerRecvInLine(enq: seq<Token>, s: State, served: seq<Token>, c: u32)
    requires Inv(s) && LinksInOrder(s) && InLine(enq, s, served) && Enabled(s, ServerRecv(c))
    ensures InLine(enq, DoServerRecv(s, c), served)
  {
    hide Inv, InLine, NoneOf, Move, Displace;
    var s', k := DoServerRecv(s, c), s.table[c];
    var up := s.conns[k].up;
    TableConn(s, c);
    ToksTail(up);
    ToksPushed(s.recvRing, up[0].(msg := up[0].msg.(head := up[0].msg.head.(sysId := c))));
    forall g | Ahead(Received, g) && g != Sent(k) && !Ahead(Sent(k), g)
      ensures NoneOf(Content(s, served, g), up[0].tok.client)
    {
      OvertakenByNone(s, served, g, c);
    }
    AdvanceKeepsLine(enq, s, served, s', served, Sent(k), Received);
  }

  lemma TableConn(s: State, c: u32)
    requires Inv(s) && Registered(s, c)
    ensures s.conns[s.table[c]].owner == c && s.conns[s.table[c]].status == Open
    ensures s.conns[s.table[c]].up != [] ==> s.conns[s.table[c]].up[0].tok.client == c
    ensures forall j :: j in s.conns && s.conns[j].status == Open && s.conns[j].owner == c ==> j == s.table[c]
  {
    hide CallsInv, FreshInv, RingsInv, WaitInv, StartInv, GivenInv, TakenInv, QueueOk;
    assert ConnOk(s, s.table[c]);
  }

  /** No other connection of a client is read before its open one. */
  lemma OvertakenByNone(s: State, served: seq<Token>, g: Segment, c: u32)
    requires Inv(s) && LinksInOrder(s) && Registered(s, c)
    requires Ahead(Received, g) && g != Sent(s.table[c]) && !Ahead(Sent(s.table[c]), g)
    ensures NoneOf(Content(s, served, g), c)
  {
    hide Inv;
    TableConn(s, c);
    if Live(s, g.k) { SegmentOwners(s, served, g, c); }
  }

  lemma ServeInLine(enq: seq<Token>, s: State, served: seq<Token>)
    requires InLine(enq, s, served) && Enabled(s, Serve)
    ensures InLine(enq, DoServe(s), served + [s.recvRing[0].tok])
  {
    hide InLine, NoneOf, Move;
    ToksTail(s.recvRing);
    AdvanceKeepsLine(enq, s, served, DoServe(s), served + [s.recvRing[0].tok], Received, Handled);
  }

  /** Rings stay; a connection that the server still reads or will read had its packets before, or is empty. */
  ghost predicate LinksOnly(s: State, s': State) {
    && s'.recvRing == s.recvRing && s'.clients.Keys == s.clients.Keys
    && (forall c :: c in s.clients ==> s'.clients[c].ring == s.clients[c].ring)
    && forall k :: Live(s', k) ==> s'.conns[k].up == [] || (Live(s, k) && s'.conns[k].up == s.conns[k].up)
  }

  lemma ClientLinksOnly(s: State, c: u32, k: ConnId)
    requires c in s.clients
    ensures LinksOnly(s, DoConnect(s, c, k)) && LinksOnly(s, DoDisconnect(s, c))
  {
  }

  lemma ServerLinksOnly(s: State, a: Action)
    requires Enabled(s, a) && (a.Accept? || a.ServerClose?)
    ensures LinksOnly(s, Next(s, a))
  {
  }

  lemma LinkingOnly(s: State, a: Action)
    requires Enabled(s, a) && (a.Connect? || a.Disconnect? || a.Accept? || a.ServerClose?)
    ensures LinksOnly(s, Next(s, a))
  {
    hide LinksOnly, DoConnect, DoDisconnect, DoAccept, DoServerClose;
    match a
    case Connect(c, k) => ClientLinksOnly(s, c, k);
    case Disconnect(c) => ClientLinksOnly(s, c, 0);
    case _ => ServerLinksOnly(s, a);
  }

  lemma LinkingInLine(enq: seq<Token>, s: State, served: seq<Token>, s': State)
    requires InLine(enq, s, served) && LinksOnly(s, s')
    ensures InLine(enq, s', served)
  {
    hide InLine;
    LossKeepsLine(enq, s, served, s');
  }

  // ---------------------------------------------------------------- every step and every run

  /** Clients keep their rings and connections, and the server its ring. */
  ghost predicate CallersOnly(s: State, s': State) {
    && s'.recvRing == s.recvRing && s'.conns == s.conns && s'.clients.Keys == s.clients.Keys
    && forall c :: c in s.clients ==> s'.clients[c].ring == s.clients[c].ring && s'.clients[c].conn == s.clients[c].conn
  }

  lemma CallersOnlyLeaveLine(s: State, s': State)
    requires CallersOnly(s, s')
    ensures SameSegments(s, s') && SameLinks(s, s')
  {
  }

  lemma PhasesLeaveLine(s: State, a: Action)
    requires Enabled(s, a) && (a.Refuse? || a.Wake? || a.TimeOut? || a.Return?)
    ensures CallersOnly(s, Next(s, a))
  {
    hide HeadOf;
  }

  lemma NodesLeaveLine(s: State, a: Action)
    requires Enabled(s, a) && (a.Draw? || a.Register? || a.MoveOut? || a.GiveReply?)
    ensures CallersOnly(s, Next(s, a))
  {
    hide SeqIdOf, Move, WaitList.AfterMoveOut;
  }

  lemma CallersLeaveLine(s: State, a: Action)
    requires Enabled(s, a)
    requires a.Draw? || a.Refuse? || a.Register? || a.Wake? || a.TimeOut? || a.MoveOut? || a.Return? || a.GiveReply?
    ensures SameSegments(s, Next(s, a)) && SameLinks(s, Next(s, a))
  {
    hide Next, CallersOnly;
    if a.Refuse? || a.Wake? || a.TimeOut? || a.Return? { PhasesLeaveLine(s, a); } else { NodesLeaveLine(s, a); }
    CallersOnlyLeaveLine(s, Next(s, a));
  }

  /** Clients keep their rings and connections, the server its ring, and connections all but their replies. */
  ghost predicate RepliesOnly(s: State, s': State) {
    && s'.recvRing == s.recvRing && s'.clients.Keys == s.clients.Keys && s'.conns.Keys == s.conns.Keys
    && (forall c :: c in s.clients ==>
          s'.clients[c].ring == s.clients[c].ring && s'.clients[c].conn == s.clients[c].conn)
    && forall k :: k in s.conns ==> s'.conns[k] == s.conns[k].(down := s'.conns[k].down)
  }

  lemma RepliesOnlyLeaveLine(s: State, s': State)
    requires RepliesOnly(s, s')
    ensures SameSegments(s, s') && SameLinks(s, s')
  {
  }

  lemma RecvLeavesLine(s: State, c: u32, i: nat)
    requires Enabled(s, ClientRecv(c, i))
    ensures RepliesOnly(s, DoClientRecv(s, c, i))
  {
    hide Move, RemoveAt;
  }

  lemma SendLeavesLine(s: State)
    requires s.sendRing != []
    ensures SameSegments(s, DoServerSend(s)) && SameLinks(s, DoServerSend(s))
    ensures SameSegments(s, DoCrowd(s)) && SameLinks(s, DoCrowd(s))
  {
    hide Move;
  }

  lemma AnswerLeavesLine(s: State, rspCode: u16, data: seq<u8>, dataLen: u32)
    requires s.service.Some?
    ensures SameSegments(s, DoAnswer(s, rspCode, data, dataLen)) && SameLinks(s, DoAnswer(s, rspCode, data, dataLen))
    ensures SameSegments(s, DoStaySilent(s)) && SameLinks(s, DoStaySilent(s))
  {
    hide Displace, Move, MsgRing.Pushed;
  }

  lemma RepliesLeaveLine(s: State, a: Action)
    requires Enabled(s, a)
    requires a.ClientRecv? || a.Answer? || a.StaySilent? || a.ServerSend? || a.Crowd?
    ensures SameSegments(s, Next(s, a)) && SameLinks(s, Next(s, a))
  {
    hide DoClientRecv, DoAnswer, DoStaySilent, DoServerSend, DoCrowd, RepliesOnly, SameSegments, SameLinks;
    match a
    case ClientRecv(c, i) =>
      RecvLeavesLine(s, c, i);
      RepliesOnlyLeaveLine(s, DoClientRecv(s, c, i));
    case Answer(rspCode, data, dataLen) => AnswerLeavesLine(s, rspCode, data, dataLen);
    case StaySilent => AnswerLeavesLine(s, 0, [], 0);
    case _ => SendLeavesLine(s);
  }

  lemma MoversLeaveLinks(s: State, a: Action)
    requires Enabled(s, a) && (a.Enqueue? || a.ClientSend? || a.ServerRecv? || a.Serve?)
    ensures SameLinks(s, Next(s, a))
  {
    hide Displace, Move, MsgRing.Pushed;
  }

  lemma OthersLeaveLinks(s: State, a: Action)
    requires !Enabled(s, a) || !(a.Connect? || a.Disconnect? || a.Accept? || a.ServerClose?)
    ensures SameLinks(s, Next(s, a))
  {
    hide Next, SameSegments;
    if !Enabled(s, a) { DisabledStays(s, a); }
    else if a.Enqueue? || a.ClientSend? || a.ServerRecv? || a.Serve? { MoversLeaveLinks(s, a); }
    else if a.ClientRecv? || a.Answer? || a.StaySilent? || a.ServerSend? || a.Crowd? { RepliesLeaveLine(s, a); }
    else { CallersLeaveLine(s, a); }
  }

  lemma StepKeepsLinks(s: State, a: Action)
    requires Inv(s) && LinksInOrder(s)
    ensures LinksInOrder(Next(s, a))
  {
    hide CallsInv, FreshInv, RingsInv, TableInv, WaitInv, StartInv, GivenInv, TakenInv, ConnsInv, LinksInOrder,
         SameLinks, DoConnect, DoDisconnect, DoAccept, DoServerClose;
    if Enabled(s, a) && (a.Connect? || a.Disconnect? || a.Accept? || a.ServerClose?) {
      match a
      case Connect(c, k) => ConnectInOrder(s, c, k);
      case Disconnect(c) => DisconnectInOrder(s, c);
      case Accept(k) => AcceptInOrder(s, k);
      case ServerClose(c) => ServerCloseInOrder(s, c);
    } else {
      hide Next;
      OthersLeaveLinks(s, a);
      SameLinksInOrder(s, Next(s, a));
    }
  }

  lemma OthersKeepLine(enq: seq<Token>, s: State, served: seq<Token>, a: Action)
    requires InLine(enq, s, served)
    requires !Enabled(s, a) || !(a.Enqueue? || a.ClientSend? || a.ServerRecv? || a.Serve?)
    ensures InLine(enq, Next(s, a), served)
  {
    hide Next, InLine, SameSegments, LinksOnly;
    if !Enabled(s, a) {
      DisabledStays(s, a);
    } else if a.Connect? || a.Disconnect? || a.Accept? || a.ServerClose? {
      LinkingOnly(s, a);
      LinkingInLine(enq, s, served, Next(s, a));
    } else {
      if a.ClientRecv? || a.Answer? || a.StaySilent? || a.ServerSend? || a.Crowd? { RepliesLeaveLine(s, a); }
      else { CallersLeaveLine(s, a); }
      SameSegmentsInLine(enq, s, served, Next(s, a));
    }
  }

  lemma StepKeepsLine(enq: seq<Token>, s: State, served: seq<Token>, a: Action)
    requires Inv(s) && LinksInOrder(s) && InLine(enq, s, served)
    ensures InLine(enq + EnqueuedBy(s, a), Next(s, a), served + ServedBy(s, a))
  {
    hide Inv, InLine, LinksInOrder, DoEnqueue, DoClientSend, DoServerRecv, DoServe;
    assert enq + [] == enq && served + [] == served;
    if Enabled(s, a) {
      match a
      case Enqueue(t) => EnqueueInLine(enq, s, served, t);
      case ClientSend(c) => ClientSendInLine(enq, s, served, c);
      case ServerRecv(c) => ServerRecvInLine(enq, s, served, c);
      case Serve => ServeInLine(enq, s, served);
      case _ => OthersKeepLine(enq, s, served, a);
    }
  }

  lemma {:induction false} EveryRunInLine(pids: set<u32>, actions: seq<Action>)
    ensures LinksInOrder(Run(pids, actions))
    ensures InLine(Enqueued(pids, actions), Run(pids, actions), Served(pids, actions))
  {
    hide Inv, InLine, LinksInOrder, Next, EnqueuedBy, ServedBy;
    if actions == [] {
      EmptyLine(pids);
    } else {
      var before, a := actions[..|actions| - 1], actions[|actions| - 1];
      EveryRunInLine(pids, before);
      ProtocolSteps.EveryRunKeeps(pids, before);
      StepKeepsLinks(Run(pids, before), a);
      StepKeepsLine(Enqueued(pids, before), Run(pids, before), Served(pids, before), a);
    }
  }

  lemma EmptyLine(pids: set<u32>)
    ensures LinksInOrder(Start(pids)) && InLine([], Start(pids), [])
  {
    assert forall g :: Content(Start(pids), [], g) == [];
  }

  /** In every run, disconnects and reconnects included, the service takes the requests of one client in the
      order in which its callers enqueued them, each at most once. */
  lemma ServedInOrder(pids: set<u32>, actions: seq<Action>, i: nat, j: nat)
    requires i < j < |Served(pids, actions)|
    requires Served(pids, actions)[i].client == Served(pids, actions)[j].client
    ensures Older(Enqueued(pids, actions), Served(pids, actions)[i], Served(pids, actions)[j])
    ensures Served(pids, actions)[i] != Served(pids, actions)[j]
  {
    hide Run, Enqueued, Served, Older;
    EveryRunInLine(pids, actions);
    ServedOnce(pids, actions);
    assert Content(Run(pids, actions), Served(pids, actions), Handled) == Served(pids, actions);
    assert Sorted(Enqueued(pids, actions), Served(pids, actions));
  }
}
