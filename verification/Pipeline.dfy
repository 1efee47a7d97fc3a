/** The way of requests from client threads to the service thread, byte by byte: each client's send
    ring, its socket thread's partial writes, the stream, the server's partial reads, the stamping of
    the sender's id, the shared receive ring. Any number of clients, any interleaving, connections up. */
module Pipeline {
  import opened PwrMessage
  import MsgRing
  import opened Sequences
  import opened Framing

  /** One client's part. enqueued, gone, flight and delivered are history: what was put into the ring,
      what left it, which messages are between the rings, which have reached the server's ring. */
  datatype Lane = Lane(
    enqueued: seq<PwrMsg>,
    ring: seq<PwrMsg>,
    gone: seq<MsgRing.Departure<PwrMsg>>,
    flight: seq<Outgoing>,
    outbox: seq<u8>,
    channel: seq<u8>,
    inbox: seq<u8>,
    delivered: seq<PwrMsg>)

  datatype State = State(
    lanes: map<u32, Lane>,
    arrived: seq<PwrMsg>,
    ring: seq<PwrMsg>,
    gone: seq<MsgRing.Departure<PwrMsg>>,
    ended: bool)                             // the server process is no more

  datatype Action =
    | Enqueue(c: u32, m: PwrMsg)             // a caller adds a request to its client's send ring
    | StartSend(c: u32, pointer: seq<u8>)    // the socket thread pops a message and begins to write it
    | Send(c: u32, n: nat)                   // one send() takes n bytes
    | Receive(c: u32, n: nat)                // one recv() of the server returns n bytes
    | Deliver(c: u32)                        // the server has a whole message, stamps it, queues it
    | Serve                                  // the service thread takes the oldest request

  /** What the server can receive: a request, of a length that is still one when it is passed on as an int. */
  predicate Servable(m: PwrMsg) { m.head.msgType == MT_REQ && Readable(m) }

  /** How many bytes ReadMsg still asks for, given what it has of the current message. */
  function Wanted(inbox: seq<u8>): int {
    if |inbox| < SIZEOF_PWRMSG then SIZEOF_PWRMSG - |inbox|
    else SIZEOF_PWRMSG + DecodeHead(inbox[..SIZEOF_PWRMSG]).dataLen - |inbox|
  }

  /** The server has read a whole header, and it is not that of a message it can receive. */
  predicate BadHeader(inbox: seq<u8>) {
    |inbox| >= SIZEOF_PWRMSG && !Servable(PwrMsg(DecodeHead(inbox[..SIZEOF_PWRMSG]), []))
  }

  /** The sender's id is overwritten by the one registered for the connection. */
  function Stamp(m: PwrMsg, c: u32): (r: PwrMsg)
    ensures r.data == m.data && r.head.sysId == c
    ensures r.head.majorVer == m.head.majorVer && r.head.minorVer == m.head.minorVer
    ensures r.head.optType == m.head.optType && r.head.dataFormat == m.head.dataFormat
    ensures r.head.msgType == m.head.msgType && r.head.rspCode == m.head.rspCode && r.head.seqId == m.head.seqId
    ensures r.head.taskNo == m.head.taskNo && r.head.crcMagic == m.head.crcMagic
    ensures r.head.dataLen == m.head.dataLen && r.head.reserved == m.head.reserved
  {
    m.(head := m.head.(sysId := c))
  }

  predicate Enabled(s: State, a: Action) {
    match a
    case Enqueue(c, m) => c in s.lanes && WellFormed(m)
    case StartSend(c, pointer) => c in s.lanes && s.lanes[c].outbox == [] && s.lanes[c].ring != [] && |pointer| == 8
    case Send(c, n) => c in s.lanes && 1 <= n <= |s.lanes[c].outbox|
    case Receive(c, n) => !s.ended && c in s.lanes && 1 <= n <= |s.lanes[c].channel| && n <= Wanted(s.lanes[c].inbox)
    case Deliver(c) => !s.ended && c in s.lanes && Wanted(s.lanes[c].inbox) == 0
    case Serve => !s.ended && s.ring != []
  }

  function Evict<T>(ring: seq<T>, gone: seq<MsgRing.Departure<T>>): seq<MsgRing.Departure<T>> {
    if MsgRing.Displaced(ring).Some? then gone + [MsgRing.Evicted(ring[0])] else gone
  }

  function DoEnqueue(l: Lane, m: PwrMsg): Lane {
    l.(enqueued := l.enqueued + [m], ring := MsgRing.Pushed(l.ring, m), gone := Evict(l.ring, l.gone))
  }

  function DoStartSend(l: Lane, pointer: seq<u8>): Lane
    requires l.ring != [] && |pointer| == 8
  {
    var o := Outgoing(l.ring[0], pointer);
    l.(ring := l.ring[1..], gone := l.gone + [MsgRing.Popped(l.ring[0])], flight := l.flight + [o],
       outbox := EncodeHead(o.msg.head, pointer) + o.msg.data)
  }

  function DoSend(l: Lane, n: nat): Lane
    requires n <= |l.outbox|
  {
    l.(channel := l.channel + l.outbox[..n], outbox := l.outbox[n..])
  }

  function DoReceive(l: Lane, n: nat): Lane
    requires n <= |l.channel|
  {
    l.(inbox := l.inbox + l.channel[..n], channel := l.channel[n..])
  }

  /** The message the server has assembled. */
  function Assembled(inbox: seq<u8>): PwrMsg
    requires |inbox| >= SIZEOF_PWRMSG
  {
    PwrMsg(DecodeHead(inbox[..SIZEOF_PWRMSG]), inbox[SIZEOF_PWRMSG..])
  }

  function DoDeliver(l: Lane): Lane
    requires |l.inbox| >= SIZEOF_PWRMSG
  {
    l.(inbox := [],
       flight := if l.flight == [] then [] else l.flight[1..],
       delivered := l.delivered + [Assembled(l.inbox)])
  }

  /** When a header is not a request's, the message is released at once, which nulls its pointer, and then
      read through that pointer (server.c:181-185). When its length is negative as an int, that many bytes of
      memory, as a size_t, are cleared (server.c:142-149). Either way the server ends. */
  function DoServerReceive(s: State, c: u32, n: nat): State
    requires c in s.lanes && n <= |s.lanes[c].channel|
  {
    var l := DoReceive(s.lanes[c], n);
    s.(lanes := s.lanes[c := l], ended := BadHeader(l.inbox))
  }

  /** One step of some thread; an action that is not enabled changes nothing. */
  function Next(s: State, a: Action): State {
    if !Enabled(s, a) then s else
      match a
      case Enqueue(c, m) => s.(lanes := s.lanes[c := DoEnqueue(s.lanes[c], m)])
      case StartSend(c, pointer) => s.(lanes := s.lanes[c := DoStartSend(s.lanes[c], pointer)])
      case Send(c, n) => s.(lanes := s.lanes[c := DoSend(s.lanes[c], n)])
      case Receive(c, n) => DoServerReceive(s, c, n)
      case Deliver(c) =>
        var m := Assembled(s.lanes[c].inbox);
        State(
          s.lanes[c := DoDeliver(s.lanes[c])],
          s.arrived + [Stamp(m, c)],
          MsgRing.Pushed(s.ring, Stamp(m, c)),
          Evict(s.ring, s.gone),
          s.ended)
      case Serve => s.(ring := s.ring[1..], gone := s.gone + [MsgRing.Popped(s.ring[0])])
  }

  function Start(clients: set<u32>): State {
    State(map c | c in clients :: Lane([], [], [], [], [], [], [], []), [], [], [], false)
  }

  /** The state after a run. */
  function Run(clients: set<u32>, actions: seq<Action>): State {
    if actions == [] then Start(clients)
    else Next(Run(clients, actions[..|actions| - 1]), actions[|actions| - 1])
  }

  /** The requests the service thread has taken, in order. */
  function Handled(s: State): seq<PwrMsg> { MsgRing.PoppedOf(s.gone) }

  /** Those of one client. */
  function From(c: u32, ms: seq<PwrMsg>): seq<PwrMsg> {
    if ms == [] then [] else
      From(c, ms[..|ms| - 1]) + (if ms[|ms| - 1].head.sysId == c then [ms[|ms| - 1]] else [])
  }

  function StampAll(c: u32, ms: seq<PwrMsg>): (r: seq<PwrMsg>)
    ensures |r| == |ms|
  {
    seq(|ms|, i requires 0 <= i < |ms| => Stamp(ms[i], c))
  }

  // ---------------------------------------------------------------- what every step keeps

  ghost predicate LaneInv(l: Lane) {
    && MsgRing.Messages(l.gone) + l.ring == l.enqueued && |l.ring| < MsgRing.PWR_BUFFER_SIZE
    && MsgRing.PoppedOf(l.gone) == l.delivered + Messages(l.flight)
    && (forall i :: 0 <= i < |l.enqueued| ==> WellFormed(l.enqueued[i]))
    && (forall i :: 0 <= i < |l.delivered| ==> Servable(l.delivered[i]))
    && AllSendable(l.flight)
    && (forall i :: 0 <= i < |l.flight| ==> l.flight[i].msg in l.enqueued)
    && l.inbox + l.channel + l.outbox == WireAll(l.flight)
    && (if l.flight == [] then l.inbox == [] else |l.inbox| <= |Wire(l.flight[0])|)
  }

  ghost predicate Inv(s: State) {
    && (forall c :: c in s.lanes ==> LaneInv(s.lanes[c]))
    && (forall c :: c in s.lanes ==> From(c, s.arrived) == StampAll(c, s.lanes[c].delivered))
    && MsgRing.Messages(s.gone) + s.ring == s.arrived && |s.ring| < MsgRing.PWR_BUFFER_SIZE
  }

  /** The server has ended exactly when it has read the header of a message that it cannot receive. */
  ghost predicate EndedInv(s: State) {
    s.ended <==> exists c :: c in s.lanes && BadHeader(s.lanes[c].inbox)
  }

  lemma RingTakesOne<T>(ring: seq<T>, gone: seq<MsgRing.Departure<T>>, added: seq<T>, m: T)
    requires MsgRing.Messages(gone) + ring == added && |ring| < MsgRing.PWR_BUFFER_SIZE
    ensures MsgRing.Messages(Evict(ring, gone)) + MsgRing.Pushed(ring, m) == added + [m]
    ensures |MsgRing.Pushed(ring, m)| < MsgRing.PWR_BUFFER_SIZE
    ensures MsgRing.PoppedOf(Evict(ring, gone)) == MsgRing.PoppedOf(gone)
  {
  }

  lemma RingGivesOne<T>(ring: seq<T>, gone: seq<MsgRing.Departure<T>>, added: seq<T>)
    requires MsgRing.Messages(gone) + ring == added && ring != []
    ensures MsgRing.Messages(gone + [MsgRing.Popped(ring[0])]) + ring[1..] == added
    ensures MsgRing.PoppedOf(gone + [MsgRing.Popped(ring[0])]) == MsgRing.PoppedOf(gone) + [ring[0]]
  {
  }

  lemma EnqueueKeeps(l: Lane, m: PwrMsg)
    requires LaneInv(l) && WellFormed(m)
    ensures LaneInv(DoEnqueue(l, m))
  {
  }

  /** One more message on its way. */
  lemma FlightSnoc(flight: seq<Outgoing>, o: Outgoing)
    requires AllSendable(flight) && Sendable(o)
    ensures WireAll(flight + [o]) == WireAll(flight) + Wire(o)
    ensures Messages(flight + [o]) == Messages(flight) + [o.msg]
  {
    assert (flight + [o])[..|flight|] == flight && (flight + [o])[..|flight| + 1] == flight + [o];
    WireAllSnoc(flight + [o], |flight|);
  }

  lemma RingFront(l: Lane)
    requires LaneInv(l) && l.ring != []
    ensures l.ring[0] in l.enqueued && WellFormed(l.ring[0])
  {
    assert l.ring[0] == l.enqueued[|MsgRing.Messages(l.gone)|];
  }

  lemma StartSendKeeps(l: Lane, pointer: seq<u8>)
    requires LaneInv(l) && l.ring != [] && l.outbox == [] && |pointer| == 8
    ensures LaneInv(DoStartSend(l, pointer))
  {
    hide EncodeHead, WireAll, Messages, MsgRing.Messages, MsgRing.PoppedOf;
    var o := Outgoing(l.ring[0], pointer);
    RingFront(l);
    RingGivesOne(l.ring, l.gone, l.enqueued);
    FlightSnoc(l.flight, o);
    if l.flight == [] { NothingOnItsWay(l); }
  }

  lemma NothingOnItsWay(l: Lane)
    requires LaneInv(l) && l.flight == []
    ensures l.inbox == [] == l.channel
  {
  }

  lemma SendKeeps(l: Lane, n: nat)
    requires LaneInv(l) && n <= |l.outbox|
    ensures LaneInv(DoSend(l, n))
  {
  }

  /** Receiving never reads past the end of the message it is in. */
  lemma ReceiveKeeps(l: Lane, n: nat)
    requires LaneInv(l) && 1 <= n <= |l.channel| && n <= Wanted(l.inbox)
    ensures LaneInv(DoReceive(l, n))
  {
    hide EncodeHead, DecodeHead;
    var inbox := l.inbox + l.channel[..n];
    assert l.channel == l.channel[..n] + l.channel[n..];
    assert inbox + l.channel[n..] + l.outbox == WireAll(l.flight);
    if l.flight != [] {
      PrefixOfFirst(l.inbox, l.channel + l.outbox, l.flight);
    }
  }

  /** What the bytes read so far are, and how many more the header asks for. */
  lemma PrefixOfFirst(inbox: seq<u8>, rest: seq<u8>, flight: seq<Outgoing>)
    requires flight != [] && AllSendable(flight) && inbox + rest == WireAll(flight)
    requires |inbox| <= |Wire(flight[0])|
    ensures inbox <= Wire(flight[0])
    ensures |inbox| < SIZEOF_PWRMSG || Wanted(inbox) == |Wire(flight[0])| - |inbox|
  {
    hide EncodeHead, DecodeHead;
    var w := Wire(flight[0]);
    assert WireAll(flight) == w + WireAll(flight[1..]);
    assert inbox == (inbox + rest)[..|inbox|] == w[..|inbox|];
    if |inbox| >= SIZEOF_PWRMSG {
      assert inbox[..SIZEOF_PWRMSG] == EncodeHead(flight[0].msg.head, flight[0].pointer);
      DecodeEncodedHead(flight[0].msg.head, flight[0].pointer);
    }
  }

  /** A message is delivered as it was sent. */
  lemma AssembledIsFirst(l: Lane)
    requires LaneInv(l) && Wanted(l.inbox) == 0
    ensures l.flight != [] && |l.inbox| >= SIZEOF_PWRMSG && l.inbox == Wire(l.flight[0])
      && Assembled(l.inbox) == l.flight[0].msg
  {
    hide EncodeHead, DecodeHead;
    assert l.inbox + (l.channel + l.outbox) == l.inbox + l.channel + l.outbox;
    PrefixOfFirst(l.inbox, l.channel + l.outbox, l.flight);
    DecodeEncodedHead(l.flight[0].msg.head, l.flight[0].pointer);
    assert l.inbox[..SIZEOF_PWRMSG] == EncodeHead(l.flight[0].msg.head, l.flight[0].pointer);
  }

  /** The bytes of the messages behind the first. */
  lemma AfterFirst(first: seq<u8>, rest: seq<u8>, flight: seq<Outgoing>)
    requires flight != [] && AllSendable(flight) && first == Wire(flight[0]) && first + rest == WireAll(flight)
    ensures rest == WireAll(flight[1..])
  {
    hide Wire;
    assert (first + WireAll(flight[1..]))[|first|..] == WireAll(flight[1..]);
    assert (first + rest)[|first|..] == rest;
  }

  lemma FirstIsDelivered(popped: seq<PwrMsg>, delivered: seq<PwrMsg>, flight: seq<Outgoing>)
    requires flight != [] && popped == delivered + Messages(flight)
    ensures popped == delivered + [flight[0].msg] + Messages(flight[1..])
  {
    var ms := Messages(flight);
    assert ms[1..] == Messages(flight[1..]);
    FrontMoves(delivered, ms);
  }

  lemma FrontMoves<T>(a: seq<T>, b: seq<T>)
    requires b != []
    ensures a + b == a + [b[0]] + b[1..]
  {
  }

  lemma DeliverKeeps(l: Lane)
    requires LaneInv(l) && Wanted(l.inbox) == 0 && !BadHeader(l.inbox)
    ensures |l.inbox| >= SIZEOF_PWRMSG && LaneInv(DoDeliver(l))
  {
    hide Wire, WireAll, Messages, EncodeHead, DecodeHead, MsgRing.PoppedOf, MsgRing.Messages;
    AssembledIsFirst(l);
    assert l.inbox + (l.channel + l.outbox) == l.inbox + l.channel + l.outbox;
    AfterFirst(l.inbox, l.channel + l.outbox, l.flight);
    FirstIsDelivered(MsgRing.PoppedOf(l.gone), l.delivered, l.flight);
    assert [] + l.channel + l.outbox == l.channel + l.outbox;
  }

  lemma FromNothing(c: u32)
    ensures From(c, []) == []
  {
  }

  lemma FromSnoc(c: u32, ms: seq<PwrMsg>, m: PwrMsg)
    ensures From(c, ms + [m]) == if m.head.sysId == c then From(c, ms) + [m] else From(c, ms)
  {
  }

  lemma ArrivalKeeps(s: State, c: u32)
    requires Inv(s) && EndedInv(s) && Enabled(s, Deliver(c))
    ensures Inv(Next(s, Deliver(c)))
  {
    hide LaneInv, Wanted, Assembled, BadHeader, From, Evict, MsgRing.Pushed, MsgRing.Messages;
    var l := s.lanes[c];
    DeliverKeeps(l);
    var m := Assembled(l.inbox);
    RingTakesOne(s.ring, s.gone, s.arrived, Stamp(m, c));
    forall d | d in s.lanes
      ensures From(d, s.arrived + [Stamp(m, c)]) == StampAll(d, Next(s, Deliver(c)).lanes[d].delivered)
    {
      FromSnoc(d, s.arrived, Stamp(m, c));
      if d == c {
        assert StampAll(c, l.delivered + [m]) == StampAll(c, l.delivered) + [Stamp(m, c)];
      }
    }
  }

  /** A step of one client's part that delivers nothing. */
  lemma LaneStep(s: State, c: u32, l: Lane, ended: bool)
    requires Inv(s) && c in s.lanes && LaneInv(l) && l.delivered == s.lanes[c].delivered
    ensures Inv(s.(lanes := s.lanes[c := l], ended := ended))
  {
    hide LaneInv, From, StampAll, MsgRing.Messages;
  }

  lemma StepKeeps(s: State, a: Action)
    requires Inv(s) && EndedInv(s)
    ensures Inv(Next(s, a))
  {
    hide LaneInv, EndedInv, BadHeader, Wanted, From, StampAll;
    if Enabled(s, a) {
      match a
      case Enqueue(c, m) =>
        EnqueueKeeps(s.lanes[c], m);
        LaneStep(s, c, DoEnqueue(s.lanes[c], m), s.ended);
      case StartSend(c, pointer) =>
        StartSendKeeps(s.lanes[c], pointer);
        LaneStep(s, c, DoStartSend(s.lanes[c], pointer), s.ended);
      case Send(c, n) =>
        SendKeeps(s.lanes[c], n);
        LaneStep(s, c, DoSend(s.lanes[c], n), s.ended);
      case Receive(c, n) =>
        ReceiveKeeps(s.lanes[c], n);
        LaneStep(s, c, DoReceive(s.lanes[c], n), BadHeader(DoReceive(s.lanes[c], n).inbox));
      case Deliver(c) => ArrivalKeeps(s, c);
      case Serve => RingGivesOne(s.ring, s.gone, s.arrived);
    }
  }

  lemma StepKeepsEnded(s: State, a: Action)
    requires EndedInv(s)
    ensures EndedInv(Next(s, a))
  {
    hide Wanted, Assembled, Evict, MsgRing.Pushed, Stamp, EncodeHead, DecodeHead;
    var s' := Next(s, a);
    if Enabled(s, a) && a.Receive? {
      assert BadHeader(s'.lanes[a.c].inbox) == s'.ended;
    } else if Enabled(s, a) && a.Deliver? {
      assert !BadHeader(s'.lanes[a.c].inbox);
    } else {
      assert forall c :: c in s.lanes ==> c in s'.lanes && s'.lanes[c].inbox == s.lanes[c].inbox;
      assert s'.lanes.Keys == s.lanes.Keys;
    }
  }

  /** In every reachable state the invariant holds; in particular only requests whose lengths are ints are
      delivered. */
  lemma {:induction false} EveryRunKeeps(clients: set<u32>, actions: seq<Action>)
    ensures Inv(Run(clients, actions)) && EndedInv(Run(clients, actions))
  {
    hide Next;
    if actions == [] {
      assert Messages([]) == [];
    } else {
      EveryRunKeeps(clients, actions[..|actions| - 1]);
      StepKeeps(Run(clients, actions[..|actions| - 1]), actions[|actions| - 1]);
      StepKeepsEnded(Run(clients, actions[..|actions| - 1]), actions[|actions| - 1]);
    }
  }

  // ---------------------------------------------------------------- what ends the server

  /** The header read is that of the oldest message on its way. */
  lemma BadHeaderIsFirst(l: Lane)
    requires LaneInv(l)
    ensures BadHeader(l.inbox) <==> l.flight != [] && |l.inbox| >= SIZEOF_PWRMSG && !Servable(l.flight[0].msg)
  {
    hide EncodeHead, DecodeHead;
    if l.flight != [] && |l.inbox| >= SIZEOF_PWRMSG {
      assert l.inbox + (l.channel + l.outbox) == l.inbox + l.channel + l.outbox;
      PrefixOfFirst(l.inbox, l.channel + l.outbox, l.flight);
      assert l.inbox[..SIZEOF_PWRMSG] == Wire(l.flight[0])[..SIZEOF_PWRMSG];
      assert Wire(l.flight[0])[..SIZEOF_PWRMSG] == EncodeHead(l.flight[0].msg.head, l.flight[0].pointer);
      DecodeEncodedHead(l.flight[0].msg.head, l.flight[0].pointer);
    }
  }

  /** In every run the server has ended exactly when it has read the whole header of some client's message
      that is not a request, or whose length is no int. */
  lemma ServerEndsIff(clients: set<u32>, actions: seq<Action>)
    ensures var s := Run(clients, actions);
      s.ended <==> exists c :: c in s.lanes && s.lanes[c].flight != []
                               && |s.lanes[c].inbox| >= SIZEOF_PWRMSG && !Servable(s.lanes[c].flight[0].msg)
  {
    hide Run, LaneInv, BadHeader, Servable;
    EveryRunKeeps(clients, actions);
    var s := Run(clients, actions);
    forall c | c in s.lanes
      ensures BadHeader(s.lanes[c].inbox) <==>
        s.lanes[c].flight != [] && |s.lanes[c].inbox| >= SIZEOF_PWRMSG && !Servable(s.lanes[c].flight[0].msg)
    {
      BadHeaderIsFirst(s.lanes[c]);
    }
  }

  /** So it goes on as long as callers put only such messages into their send rings that it can receive. */
  lemma ServableKeepServer(clients: set<u32>, actions: seq<Action>)
    requires forall n, c, m :: 0 <= n < |actions| && actions[n] == Enqueue(c, m) ==> Servable(m)
    ensures !Run(clients, actions).ended
  {
    hide Run, LaneInv, Servable;
    ServerEndsIff(clients, actions);
    EveryRunKeeps(clients, actions);
    var s := Run(clients, actions);
    forall c | c in s.lanes && s.lanes[c].flight != []
      ensures Servable(s.lanes[c].flight[0].msg)
    {
      FlightIsEnqueued(s.lanes[c]);
      EnqueuedByAction(clients, actions, c, s.lanes[c].flight[0].msg);
    }
  }

  lemma FlightIsEnqueued(l: Lane)
    requires LaneInv(l) && l.flight != []
    ensures l.flight[0].msg in l.enqueued
  {
  }

  lemma {:induction false} EnqueuedByAction(clients: set<u32>, actions: seq<Action>, c: u32, m: PwrMsg)
    requires c in Run(clients, actions).lanes && m in Run(clients, actions).lanes[c].enqueued
    ensures Enqueue(c, m) in actions
  {
    if actions != [] {
      var before := actions[..|actions| - 1];
      assert actions == before + [actions[|actions| - 1]];
      LanesStay(clients, before);
      LanesStay(clients, actions);
      if m in Run(clients, before).lanes[c].enqueued { EnqueuedByAction(clients, before, c, m); }
    }
  }

  lemma RunStep(clients: set<u32>, before: seq<Action>, a: Action)
    ensures Run(clients, before + [a]) == Next(Run(clients, before), a)
  {
    assert (before + [a])[..|before|] == before;
  }

  lemma MessageIsRead(s: State, c: u32, m: PwrMsg, pointer: seq<u8>)
    requires !s.ended && c in s.lanes && s.lanes[c] == Lane([], [], [], [], [], [], [], [])
    requires WellFormed(m) && !Servable(m) && |pointer| == 8
    ensures var s2 := Next(Next(s, Enqueue(c, m)), StartSend(c, pointer));
      Next(Next(s2, Send(c, SIZEOF_PWRMSG)), Receive(c, SIZEOF_PWRMSG)).ended
  {
    hide EncodeHead, DecodeHead;
    var header := EncodeHead(m.head, pointer);
    var s2 := Next(Next(s, Enqueue(c, m)), StartSend(c, pointer));
    assert s2.lanes[c].outbox == header + m.data && s2.lanes[c].channel == [] == s2.lanes[c].inbox;
    assert (header + m.data)[..SIZEOF_PWRMSG] == header;
    var s3 := Next(s2, Send(c, SIZEOF_PWRMSG));
    assert s3.lanes[c].channel == header && s3.lanes[c].inbox == [];
    DecodeEncodedHead(m.head, pointer);
    assert [] + header[..SIZEOF_PWRMSG] == header == header[..SIZEOF_PWRMSG];
  }

  /** One message of another type or of such a length, sent by itself, ends the server. */
  lemma OtherMessageEndsServer(clients: set<u32>, c: u32, m: PwrMsg, pointer: seq<u8>)
    requires c in clients && WellFormed(m) && !Servable(m) && |pointer| == 8
    ensures Run(clients,
      [Enqueue(c, m), StartSend(c, pointer), Send(c, SIZEOF_PWRMSG), Receive(c, SIZEOF_PWRMSG)]).ended
  {
    hide Run, Next;
    var a1 := [Enqueue(c, m)];
    var a2 := a1 + [StartSend(c, pointer)];
    var a3 := a2 + [Send(c, SIZEOF_PWRMSG)];
    assert [] + a1 == a1;
    assert a3 + [Receive(c, SIZEOF_PWRMSG)]
        == [Enqueue(c, m), StartSend(c, pointer), Send(c, SIZEOF_PWRMSG), Receive(c, SIZEOF_PWRMSG)];
    RunStep(clients, [], Enqueue(c, m));
    RunStep(clients, a1, StartSend(c, pointer));
    RunStep(clients, a2, Send(c, SIZEOF_PWRMSG));
    RunStep(clients, a3, Receive(c, SIZEOF_PWRMSG));
    EmptyRun(clients, c);
    MessageIsRead(Run(clients, []), c, m, pointer);
  }

  /** A request of 0x8000_0000 zero bytes does. */
  lemma LongRequestEndsServer(clients: set<u32>, c: u32, pointer: seq<u8>)
    requires c in clients && |pointer| == 8
    ensures var m := LongRequest();
      && m.head.msgType == MT_REQ && WellFormed(m)
      && Run(clients,
           [Enqueue(c, m), StartSend(c, pointer), Send(c, SIZEOF_PWRMSG), Receive(c, SIZEOF_PWRMSG)]).ended
  {
    hide Run, Zeros;
    LongIsSendable(Outgoing(LongRequest(), pointer));
    OtherMessageEndsServer(clients, c, LongRequest(), pointer);
  }

  lemma EmptyRun(clients: set<u32>, c: u32)
    requires c in clients
    ensures var s := Run(clients, []); !s.ended && c in s.lanes && s.lanes[c] == Lane([], [], [], [], [], [], [], [])
  {
  }

  // ---------------------------------------------------------------- order and conservation, end to end

  lemma {:induction false} FromConcat(c: u32, a: seq<PwrMsg>, b: seq<PwrMsg>)
    ensures From(c, a + b) == From(c, a) + From(c, b)
    decreases |b|
  {
    hide From;
    if b == [] {
      assert a + b == a;
      FromNothing(c);
    } else {
      var b', m := b[..|b| - 1], b[|b| - 1];
      FromConcat(c, a, b');
      assert a + b == a + b' + [m] && b == b' + [m];
      FromSnoc(c, a + b', m);
      FromSnoc(c, b', m);
    }
  }

  lemma StampAllConcat(c: u32, a: seq<PwrMsg>, b: seq<PwrMsg>)
    ensures StampAll(c, a + b) == StampAll(c, a) + StampAll(c, b)
  {
  }

  lemma {:induction false} SubsequenceOfFrom(c: u32, a: seq<PwrMsg>, b: seq<PwrMsg>)
    requires Subsequence(a, b)
    ensures Subsequence(From(c, a), From(c, b))
    decreases |b|
  {
    hide From;
    if a == [] {
      FromNothing(c);
    } else {
      var a', b', x, y := a[..|a| - 1], b[..|b| - 1], a[|a| - 1], b[|b| - 1];
      assert a == a' + [x] && b == b' + [y];
      FromSnoc(c, b', y);
      if x == y && Subsequence(a', b') {
        SubsequenceOfFrom(c, a', b');
        FromSnoc(c, a', x);
        if x.head.sysId == c { SubsequenceTake(From(c, a'), From(c, b'), x); }
      } else {
        SubsequenceOfFrom(c, a, b');
        if y.head.sysId == c { SubsequenceSkip(From(c, a), From(c, b'), y); }
      }
    }
  }

  lemma {:induction false} SubsequenceOfStamped(c: u32, a: seq<PwrMsg>, b: seq<PwrMsg>)
    requires Subsequence(a, b)
    ensures Subsequence(StampAll(c, a), StampAll(c, b))
    decreases |b|
  {
    if a != [] {
      var a', b', x, y := a[..|a| - 1], b[..|b| - 1], a[|a| - 1], b[|b| - 1];
      assert StampAll(c, b) == StampAll(c, b') + [Stamp(y, c)];
      if x == y && Subsequence(a', b') {
        SubsequenceOfStamped(c, a', b');
        assert StampAll(c, a) == StampAll(c, a') + [Stamp(x, c)];
        SubsequenceTake(StampAll(c, a'), StampAll(c, b'), Stamp(x, c));
      } else {
        SubsequenceOfStamped(c, a, b');
        SubsequenceSkip(StampAll(c, a), StampAll(c, b'), Stamp(y, c));
      }
    }
  }

  lemma {:induction false} SplitOfFrom(c: u32, gone: seq<MsgRing.Departure<PwrMsg>>)
    ensures multiset(From(c, MsgRing.Messages(gone)))
      == multiset(From(c, MsgRing.PoppedOf(gone))) + multiset(From(c, MsgRing.EvictedOf(gone)))
  {
    hide From;
    if gone == [] {
      FromNothing(c);
    } else {
      var before, d := gone[..|gone| - 1], gone[|gone| - 1];
      SplitOfFrom(c, before);
      assert gone == before + [d];
      MsgRing.MessagesSnoc(before, d);
      SplitOfFromStep(c, MsgRing.Messages(before), MsgRing.PoppedOf(before), MsgRing.EvictedOf(before), d.m);
    }
  }

  lemma SplitOfFromStep(c: u32, all: seq<PwrMsg>, p: seq<PwrMsg>, e: seq<PwrMsg>, m: PwrMsg)
    requires multiset(From(c, all)) == multiset(From(c, p)) + multiset(From(c, e))
    ensures multiset(From(c, all + [m])) == multiset(From(c, p + [m])) + multiset(From(c, e))
    ensures multiset(From(c, all + [m])) == multiset(From(c, p)) + multiset(From(c, e + [m]))
  {
    hide From;
    FromSnoc(c, all, m);
    FromSnoc(c, p, m);
    FromSnoc(c, e, m);
    MsgRing.PartsSnoc(From(c, p), From(c, e), From(c, all), m);
  }

  lemma {:induction false} SplitOfStamped(c: u32, gone: seq<MsgRing.Departure<PwrMsg>>)
    ensures multiset(StampAll(c, MsgRing.Messages(gone)))
      == multiset(StampAll(c, MsgRing.PoppedOf(gone))) + multiset(StampAll(c, MsgRing.EvictedOf(gone)))
  {
    if gone != [] {
      var before, d := gone[..|gone| - 1], gone[|gone| - 1];
      SplitOfStamped(c, before);
      assert gone == before + [d];
      MsgRing.MessagesSnoc(before, d);
      SplitOfStampedStep(c, MsgRing.Messages(before), MsgRing.PoppedOf(before), MsgRing.EvictedOf(before), d.m);
    }
  }

  lemma SplitOfStampedStep(c: u32, all: seq<PwrMsg>, p: seq<PwrMsg>, e: seq<PwrMsg>, m: PwrMsg)
    requires multiset(StampAll(c, all)) == multiset(StampAll(c, p)) + multiset(StampAll(c, e))
    ensures multiset(StampAll(c, all + [m])) == multiset(StampAll(c, p + [m])) + multiset(StampAll(c, e))
    ensures multiset(StampAll(c, all + [m])) == multiset(StampAll(c, p)) + multiset(StampAll(c, e + [m]))
  {
    hide StampAll;
    StampAllSnoc(c, all, m);
    StampAllSnoc(c, p, m);
    StampAllSnoc(c, e, m);
    MsgRing.PartsSnoc(StampAll(c, p), StampAll(c, e), StampAll(c, all), Stamp(m, c));
  }

  lemma StampAllSnoc(c: u32, ms: seq<PwrMsg>, m: PwrMsg)
    ensures StampAll(c, ms + [m]) == StampAll(c, ms) + [Stamp(m, c)]
  {
  }

  /** The requests handled for a client are, in the same order and but for the stamped id with the
      same contents, a subsequence of those its callers enqueued. */
  lemma HandledInOrder(clients: set<u32>, actions: seq<Action>, c: u32)
    requires c in clients
    ensures var s := Run(clients, actions);
      c in s.lanes && Subsequence(From(c, Handled(s)), StampAll(c, s.lanes[c].enqueued))
  {
    EveryRunKeeps(clients, actions);
    LanesStay(clients, actions);
    var s := Run(clients, actions);
    var l := s.lanes[c];
    var popped := MsgRing.PoppedOf(l.gone);
    MsgRing.PoppedAreSubsequence(s.gone);
    SubsequenceExtend(Handled(s), MsgRing.Messages(s.gone), s.ring);
    SubsequenceOfFrom(c, Handled(s), s.arrived);
    MsgRing.PoppedAreSubsequence(l.gone);
    SubsequenceExtend(popped, MsgRing.Messages(l.gone), l.ring);
    SubsequenceOfStamped(c, popped, l.enqueued);
    SubsequenceReflexive(StampAll(c, l.delivered));
    SubsequenceExtend(StampAll(c, l.delivered), StampAll(c, l.delivered), StampAll(c, Messages(l.flight)));
    StampAllConcat(c, l.delivered, Messages(l.flight));
    SubsequenceTransitive(StampAll(c, l.delivered), StampAll(c, popped), StampAll(c, l.enqueued));
    SubsequenceTransitive(From(c, Handled(s)), From(c, s.arrived), StampAll(c, l.enqueued));
  }

  /** What each step of a run adds to the messages handled and to those evicted: the service's step the oldest one of
      its ring to the former, and a message that enters a ring of 63 the oldest one of that to the latter. */
  lemma HandledAndEvicted(clients: set<u32>, actions: seq<Action>, a: Action)
    requires Enabled(Run(clients, actions), a)
    ensures var s, s' := Run(clients, actions), Next(Run(clients, actions), a);
      && Handled(s') == Handled(s) + (if a == Serve then [s.ring[0]] else [])
      && MsgRing.EvictedOf(s'.gone)
         == MsgRing.EvictedOf(s.gone) + (if a.Deliver? && |s.ring| == 63 then [s.ring[0]] else [])
      && s'.ring == (if a == Serve then s.ring[1..]
                     else if !a.Deliver? then s.ring
                     else (if |s.ring| == 63 then s.ring[1..] else s.ring)
                          + [Stamp(Assembled(s.lanes[a.c].inbox), a.c)])
      && forall c :: c in s.lanes ==>
           && c in s'.lanes
           && MsgRing.EvictedOf(s'.lanes[c].gone)
              == MsgRing.EvictedOf(s.lanes[c].gone)
               + (if a.Enqueue? && a.c == c && |s.lanes[c].ring| == 63 then [s.lanes[c].ring[0]] else [])
  {
    hide Run, Wanted, Assembled, BadHeader, Stamp, EncodeHead;
    var s := Run(clients, actions);
    GoneSnoc(s.gone);
    if a.Enqueue? || a.StartSend? { GoneSnoc(s.lanes[a.c].gone); }
  }

  lemma GoneSnoc(gone: seq<MsgRing.Departure<PwrMsg>>)
    ensures forall m :: MsgRing.PoppedOf(gone + [MsgRing.Popped(m)]) == MsgRing.PoppedOf(gone) + [m]
    ensures forall m :: MsgRing.EvictedOf(gone + [MsgRing.Popped(m)]) == MsgRing.EvictedOf(gone)
    ensures forall m :: MsgRing.EvictedOf(gone + [MsgRing.Evicted(m)]) == MsgRing.EvictedOf(gone) + [m]
    ensures forall m :: MsgRing.PoppedOf(gone + [MsgRing.Evicted(m)]) == MsgRing.PoppedOf(gone)
  {
  }

  /** In every run in which the server goes on, what is on its way can move: some of its bytes can be sent or
      received, or the message can be delivered; and what waits in a ring can be taken. */
  lemma NobodyIsStuck(clients: set<u32>, actions: seq<Action>, c: u32, pointer: seq<u8>)
    requires c in clients && |pointer| == 8 && !Run(clients, actions).ended
    ensures var s := Run(clients, actions);
      && c in s.lanes
      && (s.lanes[c].flight != [] ==>
            Enabled(s, Send(c, 1)) || Enabled(s, Receive(c, 1)) || Enabled(s, Deliver(c)))
      && (s.lanes[c].ring != [] ==> Enabled(s, StartSend(c, pointer)) || Enabled(s, Send(c, 1)))
      && (s.ring != [] ==> Enabled(s, Serve))
      && forall m :: WellFormed(m) ==> Enabled(s, Enqueue(c, m))
  {
    hide Run, LaneInv, EndedInv, BadHeader, Wanted;
    EveryRunKeeps(clients, actions);
    LanesStay(clients, actions);
    var l := Run(clients, actions).lanes[c];
    if l.flight != [] && l.outbox == [] { InboxWantsOrHasAll(l); }
  }

  lemma InboxWantsOrHasAll(l: Lane)
    requires LaneInv(l) && l.flight != [] && l.outbox == []
    ensures Wanted(l.inbox) == 0 || (Wanted(l.inbox) > 0 && l.channel != [])
  {
    hide EncodeHead, DecodeHead;
    assert l.inbox + (l.channel + l.outbox) == l.inbox + l.channel + l.outbox;
    PrefixOfFirst(l.inbox, l.channel + l.outbox, l.flight);
    assert WireAll(l.flight) == Wire(l.flight[0]) + WireAll(l.flight[1..]);
  }

  lemma {:induction false} LanesStay(clients: set<u32>, actions: seq<Action>)
    ensures Run(clients, actions).lanes.Keys == clients
  {
    if actions != [] { LanesStay(clients, actions[..|actions| - 1]); }
  }

  /** Conservation: every request a client's callers enqueued is exactly one of handled, evicted from
      the server's ring, waiting there, evicted from the client's ring, on its way, or waiting there. */
  lemma EveryRequestIsAccountedFor(clients: set<u32>, actions: seq<Action>, c: u32)
    requires c in clients
    ensures var s := Run(clients, actions);
      c in s.lanes && var l := s.lanes[c];
      multiset(StampAll(c, l.enqueued))
      == multiset(From(c, Handled(s))) + multiset(From(c, MsgRing.EvictedOf(s.gone))) + multiset(From(c, s.ring))
       + multiset(StampAll(c, MsgRing.EvictedOf(l.gone)))
       + multiset(StampAll(c, Messages(l.flight))) + multiset(StampAll(c, l.ring))
  {
    EveryRunKeeps(clients, actions);
    LanesStay(clients, actions);
    var s := Run(clients, actions);
    var l := s.lanes[c];
    StampAllConcat(c, MsgRing.Messages(l.gone), l.ring);
    SplitOfStamped(c, l.gone);
    StampAllConcat(c, l.delivered, Messages(l.flight));
    FromConcat(c, MsgRing.Messages(s.gone), s.ring);
    SplitOfFrom(c, s.gone);
  }
}
