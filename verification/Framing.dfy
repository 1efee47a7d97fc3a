/** Messages as bytes on the stream socket: the send loops of pwrapic/src/sockclient.c and pwrapis/src/server.c
    and the receive loop of the former. A send may take any part of what it is given, or fail; a receive may
    return any part of what has arrived. */
module Framing {
  import opened Outcomes
  import opened PwrMessage
  import opened MsgRing

  const MAX_DATA_SIZE := 4096
  const MAX_PROC_NUM_IN_ONE_LOOP := 5

  /** A message to send, with the bytes of its data pointer, which travel along. */
  datatype Outgoing = Outgoing(msg: PwrMsg, pointer: seq<u8>)

  predicate Sendable(o: Outgoing) { WellFormed(o.msg) && |o.pointer| == 8 }

  predicate AllSendable(os: seq<Outgoing>) { forall i :: 0 <= i < |os| ==> Sendable(os[i]) }

  // ---------------------------------------------------------------- the byte format

  function Wire(o: Outgoing): (r: seq<u8>)
    requires Sendable(o)
    ensures |r| == SIZEOF_PWRMSG + |o.msg.data|
  {
    EncodeHead(o.msg.head, o.pointer) + o.msg.data
  }

  function WireAll(os: seq<Outgoing>): seq<u8>
    requires AllSendable(os)
  {
    if os == [] then [] else Wire(os[0]) + WireAll(os[1..])
  }

  /** How much data is read after a header: the length is an int, and none is read when that is negative. */
  function DataRead(dataLen: u32): nat { if Signed(dataLen) < 0 then 0 else dataLen }

  /** What is received first of a byte stream, and the bytes after it; None when the stream ends before.
      Of a message whose length is no int the header alone is received. */
  function ParseOne(b: seq<u8>): (r: Option<(PwrMsg, seq<u8>)>)
    ensures r.Some? ==> |r.value.1| < |b|
  {
    if |b| < SIZEOF_PWRMSG then None else
      var head, rest := DecodeHead(b[..SIZEOF_PWRMSG]), b[SIZEOF_PWRMSG..];
      var n := DataRead(head.dataLen);
      if |rest| < n then None else Some((PwrMsg(head, rest[..n]), rest[n..]))
  }

  function ParseAll(b: seq<u8>): seq<PwrMsg>
    decreases |b|
  {
    match ParseOne(b)
    case None => []
    case Some((m, rest)) => [m] + ParseAll(rest)
  }

  function Messages(os: seq<Outgoing>): (r: seq<PwrMsg>)
    ensures |r| == |os|
    ensures forall i :: 0 <= i < |os| ==> r[i] == os[i].msg
  {
    seq(|os|, i requires 0 <= i < |os| => os[i].msg)
  }

  /** Of a message sent, all is received, or the header alone, its data being taken for what comes next. */
  lemma ParseWire(o: Outgoing, tail: seq<u8>)
    requires Sendable(o)
    ensures ParseOne(Wire(o) + tail)
      == Some(if Readable(o.msg) then (o.msg, tail) else (PwrMsg(o.msg.head, []), o.msg.data + tail))
  {
    hide EncodeHead, DecodeHead;
    var b := Wire(o) + tail;
    assert b[..SIZEOF_PWRMSG] == EncodeHead(o.msg.head, o.pointer);
    assert b[SIZEOF_PWRMSG..] == o.msg.data + tail;
    DecodeEncodedHead(o.msg.head, o.pointer);
  }

  /** How many messages lie completely within the first k bytes. */
  function WholeFrames(os: seq<Outgoing>, k: nat): (n: nat)
    requires AllSendable(os)
    ensures n <= |os|
  {
    if os == [] || k < |Wire(os[0])| then 0 else 1 + WholeFrames(os[1..], k - |Wire(os[0])|)
  }

  /** How many headers do. */
  function WholeHeads(os: seq<Outgoing>, k: nat): (n: nat)
    requires AllSendable(os)
    ensures n <= |os|
  {
    if os == [] || k < SIZEOF_PWRMSG then 0
    else if k < |Wire(os[0])| then 1
    else 1 + WholeHeads(os[1..], k - |Wire(os[0])|)
  }

  lemma ParseCutWire(o: Outgoing, b: seq<u8>)
    requires Sendable(o) && b < Wire(o)
    ensures ParseOne(b) == None <==> Readable(o.msg) || |b| < SIZEOF_PWRMSG
  {
    hide EncodeHead, DecodeHead;
    if |b| >= SIZEOF_PWRMSG {
      assert b[..SIZEOF_PWRMSG] == EncodeHead(o.msg.head, o.pointer);
      DecodeEncodedHead(o.msg.head, o.pointer);
    }
  }

  /** The first n messages have lengths that are ints. */
  ghost predicate ReadableTo(os: seq<Outgoing>, n: nat)
    requires n <= |os|
  {
    forall i :: 0 <= i < n ==> Readable(os[i].msg)
  }

  /** Of a connection that ends anywhere, exactly the messages are received that had arrived whole, never a
      shortened, merged or altered one, exactly when the lengths in all headers that arrived are ints. */
  lemma {:induction false} CutStream(os: seq<Outgoing>, k: nat)
    requires AllSendable(os)
    requires k <= |WireAll(os)|
    ensures ParseAll(WireAll(os)[..k]) == Messages(os)[..WholeFrames(os, k)] <==> ReadableTo(os, WholeHeads(os, k))
  {
    hide Wire, ParseOne, Sendable, Readable;
    if os == [] {
    } else if k < |Wire(os[0])| {
      assert WireAll(os)[..k] == Wire(os[0])[..k];
      ParseCutWire(os[0], WireAll(os)[..k]);
      assert |Messages(os)[..WholeFrames(os, k)]| == 0;
    } else {
      var j := k - |Wire(os[0])|;
      var first, rest := os[0].msg, Messages(os[1..])[..WholeFrames(os[1..], j)];
      assert WireAll(os)[..k] == Wire(os[0]) + WireAll(os[1..])[..j];
      ParseWire(os[0], WireAll(os[1..])[..j]);
      assert Messages(os)[..WholeFrames(os, k)] == [first] + rest;
      HeadOrRest(os, k);
      if Readable(first) {
        CutStream(os[1..], j);
        SameFront(first, ParseAll(WireAll(os[1..])[..j]), rest);
      } else {
        HeaderIsNotAll(os[0]);
        assert ParseAll(WireAll(os)[..k])[0] != first;
      }
    }
  }

  lemma HeadOrRest(os: seq<Outgoing>, k: nat)
    requires AllSendable(os) && os != [] && |Wire(os[0])| <= k
    ensures ReadableTo(os, WholeHeads(os, k)) <==>
      Readable(os[0].msg) && ReadableTo(os[1..], WholeHeads(os[1..], k - |Wire(os[0])|))
  {
    hide Readable;
    var n := WholeHeads(os, k);
    assert forall i :: 0 <= i < n - 1 ==> os[1..][i] == os[i + 1];
    if Readable(os[0].msg) && ReadableTo(os[1..], n - 1) {
      forall i | 0 <= i < n
        ensures Readable(os[i].msg)
      {
        if i > 0 { assert Readable(os[1..][i - 1].msg); }
      }
    }
  }

  lemma SameFront(m: PwrMsg, a: seq<PwrMsg>, b: seq<PwrMsg>)
    ensures [m] + a == [m] + b <==> a == b
  {
    assert ([m] + a)[1..] == a && ([m] + b)[1..] == b;
  }

  lemma HeaderIsNotAll(o: Outgoing)
    requires Sendable(o) && !Readable(o.msg)
    ensures PwrMsg(o.msg.head, []) != o.msg
  {
  }

  lemma {:induction false} AllWithin(os: seq<Outgoing>)
    requires AllSendable(os)
    ensures WholeFrames(os, |WireAll(os)|) == |os| == WholeHeads(os, |WireAll(os)|)
  {
    hide Sendable;
    if os != [] { AllWithin(os[1..]); }
  }

  /** What is received of any list of messages is that list exactly when all their lengths are ints. */
  lemma RoundTrip(os: seq<Outgoing>)
    requires AllSendable(os)
    ensures ParseAll(WireAll(os)) == Messages(os) <==> ReadableTo(os, |os|)
  {
    hide Wire, ParseAll, Sendable;
    AllWithin(os);
    CutStream(os, |WireAll(os)|);
    assert WireAll(os)[..|WireAll(os)|] == WireAll(os);
    assert Messages(os)[..|os|] == Messages(os);
  }

  // ---------------------------------------------------------------- a length that is no int

  function Zeros(n: nat): seq<u8> { seq(n, _ => 0) }

  const LONG_LENGTH: u32 := 0x8000_0000

  /** A request with as much data as an int cannot say, all of it zero. */
  function LongRequest(): PwrMsg {
    PwrMsg(ZeroHead().(msgType := MT_REQ, dataLen := LONG_LENGTH), Zeros(LONG_LENGTH))
  }

  lemma ZeroHeader()
    ensures DecodeHead(Zeros(SIZEOF_PWRMSG)) == ZeroHead()
  {
  }

  /** Zeros are received as messages without data. */
  lemma {:induction false} ZerosAreMessages(n: nat)
    ensures |ParseAll(Zeros(n))| == n / SIZEOF_PWRMSG
  {
    hide DecodeHead;
    if n >= SIZEOF_PWRMSG {
      assert Zeros(n)[..SIZEOF_PWRMSG] == Zeros(SIZEOF_PWRMSG);
      assert Zeros(n)[SIZEOF_PWRMSG..] == Zeros(n - SIZEOF_PWRMSG);
      ZeroHeader();
      ZerosAreMessages(n - SIZEOF_PWRMSG);
    }
  }

  /** One message is received as 53687092. */
  lemma OneIsReceivedAsMany(pointer: seq<u8>)
    requires |pointer| == 8
    ensures var o := Outgoing(LongRequest(), pointer);
      Sendable(o) && |ParseAll(Wire(o))| == 1 + LONG_LENGTH / SIZEOF_PWRMSG
  {
    hide Wire, ParseOne, Zeros;
    var o := Outgoing(LongRequest(), pointer);
    LongIsSendable(o);
    ParseWire(o, []);
    assert Wire(o) + [] == Wire(o) && o.msg.data + [] == o.msg.data;
    ZerosAreMessages(LONG_LENGTH);
  }

  lemma LongIsSendable(o: Outgoing)
    requires o.msg == LongRequest() && |o.pointer| == 8
    ensures Sendable(o) && !Readable(o.msg) && o.msg.data == Zeros(LONG_LENGTH)
  {
  }

  lemma {:induction false} WireAllConcat(a: seq<Outgoing>, b: seq<Outgoing>)
    requires AllSendable(a)
    requires AllSendable(b)
    ensures WireAll(a + b) == WireAll(a) + WireAll(b)
  {
    hide Wire, Sendable;
    if a == [] {
      assert a + b == b;
    } else {
      assert (a + b)[1..] == a[1..] + b;
      WireAllConcat(a[1..], b);
    }
  }

  function Flatten(chunks: seq<seq<u8>>): seq<u8> {
    if chunks == [] then [] else Flatten(chunks[..|chunks| - 1]) + chunks[|chunks| - 1]
  }

  // ---------------------------------------------------------------- sending

  method Memcpy(dst: array<u8>, at: nat, src: seq<u8>)
    requires at + |src| <= dst.Length
    modifies dst
    ensures dst[at..at + |src|] == src && dst[..at] == old(dst[..at])
  {
    forall i | 0 <= i < |src| {
      dst[at + i] := src[i];
    }
  }

  /** after is before and then bytes, but for one byte more for each send that failed; with none, exactly that. */
  ghost predicate Wrote(before: seq<u8>, faultsBefore: nat, after: seq<u8>, faultsAfter: nat, bytes: seq<u8>) {
    && faultsAfter <= faultsBefore && before <= after
    && |after| == |before| + |bytes| + (faultsBefore - faultsAfter)
    && (faultsAfter == faultsBefore ==> after == before + bytes)
  }

  lemma WroteNothing(s: seq<u8>, f: nat)
    ensures Wrote(s, f, s, f, [])
  {
  }

  lemma WroteBoth(s: seq<u8>, f: nat, s1: seq<u8>, f1: nat, s2: seq<u8>, f2: nat, a: seq<u8>, b: seq<u8>)
    requires Wrote(s, f, s1, f1, a) && Wrote(s1, f1, s2, f2, b)
    ensures Wrote(s, f, s2, f2, a + b)
  {
    assert s + (a + b) == s + a + b;
  }

  /** So exactly the bytes were sent exactly when no send failed. */
  lemma WroteExactlyIff(s: seq<u8>, f: nat, s': seq<u8>, f': nat, bytes: seq<u8>)
    requires Wrote(s, f, s', f', bytes)
    ensures s' == s + bytes <==> f' == f
  {
    assert |s + bytes| == |s| + |bytes|;
  }

  /** The sending end of a connection. */
  class Sender {
    /** The bytes handed to the stream so far, and the buffers WriteMsg was called with. */
    var sent: seq<u8>
    ghost var writes: seq<seq<u8>>
    const data: array<u8>
    /** How many sends will still fail, and what is in memory in front of data. */
    var faults: nat
    const below: nat -> u8

    constructor (faults: nat, below: nat -> u8)
      ensures sent == [] && writes == [] && data.Length == MAX_DATA_SIZE && fresh(data)
      ensures this.faults == faults && this.below == below
    {
      sent, writes := [], [];
      data := new u8[MAX_DATA_SIZE](_ => 0);
      this.faults, this.below := faults, below;
    }

    /** n bytes of memory, from data + at on. */
    function Memory(at: int, n: nat): (r: seq<u8>)
      reads data
      requires at + n <= data.Length
      ensures |r| == n && (0 <= at ==> r == data[at..at + n])
    {
      seq(n, i requires 0 <= i < n && at + n <= data.Length reads data =>
        if at + i < 0 then below(-1 - (at + i)) else data[at + i])
    }

    /** send(): takes some of the bytes, at least one, or fails with -1. */
    method Send(bytes: seq<u8>) returns (n: int)
      requires bytes != []
      modifies this`sent, this`faults
      ensures n == -1 || 1 <= n <= |bytes|
      ensures n == -1 ==> old(faults) == faults + 1 && sent == old(sent)
      ensures n != -1 ==> old(faults) == faults && sent == old(sent) + bytes[..n]
    {
      if faults > 0 {
        var fails: bool := *;
        if fails {
          faults := faults - 1;
          return -1;
        }
      }
      n :| 1 <= n <= |bytes|;
      sent := sent + bytes[..n];
    }

    /** Sends again what a partial send left over, until all is sent. A send that fails is taken for one of
        2^64 - 1 bytes, which is one step back: exactly the bytes are sent exactly when no send fails. */
    method WriteMsg(len: nat)
      requires len <= data.Length
      modifies this`sent, this`faults, this`writes
      ensures Wrote(old(sent), old(faults), sent, faults, data[..len])
      ensures sent == old(sent) + data[..len] <==> faults == old(faults)
      ensures writes == old(writes) + [data[..len]]
    {
      writes := writes + [data[..len]];
      var leftLen: int, wrLen: int := len, 0;
      while leftLen > 0
        invariant 0 <= leftLen && leftLen + wrLen == len && faults <= old(faults) && old(sent) <= sent
        invariant |sent| == |old(sent)| + wrLen + (old(faults) - faults)
        invariant faults == old(faults) ==> 0 <= wrLen && sent == old(sent) + data[..wrLen]
        invariant writes == old(writes) + [data[..len]]
        decreases faults, leftLen
      {
        var sendLen := Send(Memory(wrLen, leftLen));
        if faults == old(faults) { Advance(wrLen, leftLen, sendLen); }
        leftLen := leftLen - sendLen;
        wrLen := wrLen + sendLen;
      }
      WroteExactlyIff(old(sent), old(faults), sent, faults, data[..len]);
    }

    lemma Advance(wrLen: nat, leftLen: nat, n: nat)
      requires n <= leftLen && wrLen + leftLen <= data.Length
      ensures data[..wrLen] + Memory(wrLen, leftLen)[..n] == data[..wrLen + n]
    {
    }

    /** The writes from the w-th on are full buffers, the last possibly shorter, that make up bytes. */
    ghost predicate Written(w: nat, bytes: seq<u8>)
      reads this
    {
      && w < |writes| && Flatten(writes[w..]) == bytes
      && (forall i :: w <= i < |writes| - 1 ==> |writes[i]| == MAX_DATA_SIZE)
      && 1 <= |writes[|writes| - 1]| <= MAX_DATA_SIZE
    }

    /** One message: header and data in one buffer when they fit, otherwise a full buffer with the
        header first, full buffers of data, and the rest. */
    method SendOne(o: Outgoing)
      requires Sendable(o) && data.Length == MAX_DATA_SIZE
      modifies this`sent, this`faults, this`writes, data
      ensures Wrote(old(sent), old(faults), sent, faults, Wire(o))
      ensures sent == old(sent) + Wire(o) <==> faults == old(faults)
      ensures old(writes) <= writes && Written(|old(writes)|, Wire(o))
    {
      hide EncodeHead, Wrote;
      var len := SIZEOF_PWRMSG + o.msg.head.dataLen;
      Memcpy(data, 0, EncodeHead(o.msg.head, o.pointer));
      if len <= MAX_DATA_SIZE {
        SendFirst(o, len);
        assert Wire(o)[..len] == Wire(o);
      } else {
        SendFirst(o, MAX_DATA_SIZE);
        ghost var sent1, faults1 := sent, faults;
        SendRest(o, |writes| - 1);
        ghost var first, rest := Wire(o)[..MAX_DATA_SIZE], Wire(o)[MAX_DATA_SIZE..];
        WroteBoth(old(sent), old(faults), sent1, faults1, sent, faults, first, rest);
        assert first + rest == Wire(o);
      }
      WroteExactlyIff(old(sent), old(faults), sent, faults, Wire(o));
    }

    /** The first buffer: the header is in place, the data follows. */
    method SendFirst(o: Outgoing, n: nat)
      requires Sendable(o) && data.Length == MAX_DATA_SIZE
      requires SIZEOF_PWRMSG <= n <= |Wire(o)| && n <= MAX_DATA_SIZE
      requires data[..SIZEOF_PWRMSG] == EncodeHead(o.msg.head, o.pointer)
      modifies this`sent, this`faults, this`writes, data
      ensures Wrote(old(sent), old(faults), sent, faults, Wire(o)[..n])
      ensures writes == old(writes) + [Wire(o)[..n]] && Flatten(writes[|old(writes)|..]) == Wire(o)[..n]
    {
      Memcpy(data, SIZEOF_PWRMSG, o.msg.data[..n - SIZEOF_PWRMSG]);
      assert data[..n] == Wire(o)[..n];
      ghost var chunk := Wire(o)[..n];
      WriteMsg(n);
      assert writes[|old(writes)|..] == [chunk];
      assert Flatten([chunk]) == chunk;
    }

    /** The buffers after the first. */
    method SendRest(o: Outgoing, ghost w: nat)
      requires Sendable(o) && data.Length == MAX_DATA_SIZE && MAX_DATA_SIZE < |Wire(o)|
      requires w < |writes| && Flatten(writes[w..]) == Wire(o)[..MAX_DATA_SIZE]
      requires forall i :: w <= i < |writes| ==> |writes[i]| == MAX_DATA_SIZE
      modifies this`sent, this`faults, this`writes, data
      ensures Wrote(old(sent), old(faults), sent, faults, Wire(o)[MAX_DATA_SIZE..])
      ensures old(writes) <= writes && Written(w, Wire(o))
    {
      hide Wire, Flatten, Wrote;
      var datasent := MAX_DATA_SIZE - SIZEOF_PWRMSG;
      var leftLen := SIZEOF_PWRMSG + o.msg.head.dataLen - MAX_DATA_SIZE;
      WroteNothing(sent, faults);
      assert Wire(o)[MAX_DATA_SIZE..MAX_DATA_SIZE] == [];
      while leftLen > MAX_DATA_SIZE
        invariant 0 < leftLen && datasent >= MAX_DATA_SIZE - SIZEOF_PWRMSG && datasent + leftLen == |o.msg.data|
        invariant old(writes) <= writes
        invariant Wrote(old(sent), old(faults), sent, faults, Wire(o)[MAX_DATA_SIZE..SIZEOF_PWRMSG + datasent])
        invariant Flatten(writes[w..]) == Wire(o)[..SIZEOF_PWRMSG + datasent]
        invariant forall i :: w <= i < |writes| ==> |writes[i]| == MAX_DATA_SIZE
      {
        SendPart(o, datasent, MAX_DATA_SIZE, w, old(sent), old(faults));
        datasent := datasent + MAX_DATA_SIZE;
        leftLen := leftLen - MAX_DATA_SIZE;
      }
      SendPart(o, datasent, leftLen, w, old(sent), old(faults));
      assert Wire(o)[..SIZEOF_PWRMSG + datasent + leftLen] == Wire(o);
    }

    /** The next n bytes of the message's data, when the bytes from MAX_DATA_SIZE on have been sent since before. */
    method SendPart(o: Outgoing, datasent: nat, n: nat, ghost w: nat, ghost before: seq<u8>, ghost faultsBefore: nat)
      requires Sendable(o) && data.Length == MAX_DATA_SIZE && MAX_DATA_SIZE - SIZEOF_PWRMSG <= datasent
      requires datasent + n <= |o.msg.data| && n <= MAX_DATA_SIZE && w <= |writes|
      requires Flatten(writes[w..]) == Wire(o)[..SIZEOF_PWRMSG + datasent]
      requires Wrote(before, faultsBefore, sent, faults, Wire(o)[MAX_DATA_SIZE..SIZEOF_PWRMSG + datasent])
      modifies this`sent, this`faults, this`writes, data
      ensures Wrote(before, faultsBefore, sent, faults, Wire(o)[MAX_DATA_SIZE..SIZEOF_PWRMSG + datasent + n])
      ensures SIZEOF_PWRMSG + datasent + n == |Wire(o)| ==>
        Wrote(before, faultsBefore, sent, faults, Wire(o)[MAX_DATA_SIZE..])
      ensures |writes| == |old(writes)| + 1 && old(writes) <= writes && |writes[|old(writes)|]| == n
      ensures Flatten(writes[w..]) == Wire(o)[..SIZEOF_PWRMSG + datasent + n]
    {
      hide Wire, Flatten, Wrote;
      ghost var i, j := MAX_DATA_SIZE as nat, SIZEOF_PWRMSG + datasent;
      WritePart(o, datasent, n, w);
      WroteBoth(before, faultsBefore, old(sent), old(faults), sent, faults, Wire(o)[i..j], Wire(o)[j..j + n]);
      Joined(Wire(o), i, j, n);
    }

    static lemma Joined(s: seq<u8>, i: nat, j: nat, n: nat)
      requires i <= j <= j + n <= |s|
      ensures s[i..j] + s[j..j + n] == s[i..j + n]
      ensures j + n == |s| ==> s[i..j] + s[j..j + n] == s[i..]
    {
    }

    /** The next n bytes of the message's data. */
    method WritePart(o: Outgoing, datasent: nat, n: nat, ghost w: nat)
      requires Sendable(o) && data.Length == MAX_DATA_SIZE
      requires datasent + n <= |o.msg.data| && n <= MAX_DATA_SIZE && w <= |writes|
      requires Flatten(writes[w..]) == Wire(o)[..SIZEOF_PWRMSG + datasent]
      modifies this`sent, this`faults, this`writes, data
      ensures Wrote(old(sent), old(faults), sent, faults,
                Wire(o)[SIZEOF_PWRMSG + datasent..SIZEOF_PWRMSG + datasent + n])
      ensures |writes| == |old(writes)| + 1 && old(writes) <= writes && |writes[|old(writes)|]| == n
      ensures Flatten(writes[w..]) == Wire(o)[..SIZEOF_PWRMSG + datasent + n]
    {
      var part := o.msg.data[datasent..datasent + n];
      assert part == Wire(o)[SIZEOF_PWRMSG + datasent..SIZEOF_PWRMSG + datasent + n];
      Memcpy(data, 0, part);
      assert data[..n] == part;
      ghost var before := writes[w..];
      WriteMsg(n);
      assert writes[w..] == before + [part];
      assert (before + [part])[..|before|] == before;
      assert Wire(o)[..SIZEOF_PWRMSG + datasent] + part == Wire(o)[..SIZEOF_PWRMSG + datasent + n];
    }

    /** Takes the oldest message from the queue and sends it. */
    method SendNext(queue: PwrMsgBuffer<Outgoing>)
      requires queue.Valid() && data.Length == MAX_DATA_SIZE && queue.msgList as object != data
      requires AllSendable(queue.Contents()) && queue.Contents() != []
      modifies this`sent, this`faults, this`writes, data, queue, queue.msgList
      ensures queue.Valid() && queue.Contents() == old(queue.Contents())[1..]
      ensures Wrote(old(sent), old(faults), sent, faults, Wire(old(queue.Contents())[0]))
    {
      var msg := queue.PopFromBufferHead();
      SendOne(msg.value);
    }

    /** SendMsgToSocket: sends up to five queued messages, oldest first. */
    method SendMsgToSocket(queue: PwrMsgBuffer<Outgoing>)
      requires queue.Valid() && data.Length == MAX_DATA_SIZE && queue.msgList as object != data
      requires AllSendable(queue.Contents())
      modifies this`sent, this`faults, this`writes, data, queue, queue.msgList
      ensures queue.Valid()
      ensures var c := old(queue.Contents());
        var n := if |c| < MAX_PROC_NUM_IN_ONE_LOOP then |c| else MAX_PROC_NUM_IN_ONE_LOOP;
        && queue.Contents() == c[n..] && Wrote(old(sent), old(faults), sent, faults, WireAll(c[..n]))
        && (sent == old(sent) + WireAll(c[..n]) <==> faults == old(faults))
    {
      hide Wire, WireAll, Sendable, Wrote;
      ghost var c := queue.Contents();
      var count := 0;
      var empty := queue.IsEmptyBuffer();
      WroteNothing(sent, faults);
      WireAllOfNone(c[..0]);
      while !empty && count < MAX_PROC_NUM_IN_ONE_LOOP
        invariant queue.Valid() && 0 <= count <= |c| && count <= MAX_PROC_NUM_IN_ONE_LOOP
        invariant queue.Contents() == c[count..] && (empty <==> count == |c|)
        invariant Wrote(old(sent), old(faults), sent, faults, WireAll(c[..count]))
        decreases |c| - count
      {
        ghost var sent1, faults1 := sent, faults;
        SendNext(queue);
        WireAllSnoc(c, count);
        WroteBoth(old(sent), old(faults), sent1, faults1, sent, faults, WireAll(c[..count]), Wire(c[count]));
        assert c[count..][1..] == c[count + 1..];
        count := count + 1;
        empty := queue.IsEmptyBuffer();
      }
      WroteExactlyIff(old(sent), old(faults), sent, faults, WireAll(c[..count]));
    }
  }

  lemma WireAllOfNone(c: seq<Outgoing>)
    requires c == []
    ensures WireAll(c) == []
  {
  }

  lemma WireAllSnoc(c: seq<Outgoing>, n: nat)
    requires AllSendable(c) && n < |c|
    ensures WireAll(c[..n + 1]) == WireAll(c[..n]) + Wire(c[n])
  {
    WireAllConcat(c[..n], [c[n]]);
    assert c[..n] + [c[n]] == c[..n + 1];
    assert WireAll([c[n]]) == Wire(c[n]);
  }

  // ---------------------------------------------------------------- receiving

  datatype ReadStatus = ReadOk | Disconnected

  /** The receiving end of a connection: the bytes that will still arrive before the peer closes. */
  class Receiver {
    var pending: seq<u8>

    constructor (bytes: seq<u8>)
      ensures pending == bytes
    {
      pending := bytes;
    }

    /** recv(): some of the next len bytes, at least one; nothing when the connection has ended. */
    method Recv(len: nat) returns (got: seq<u8>)
      requires len > 0
      modifies this
      ensures got + pending == old(pending) && |got| <= len
      ensures got == [] <==> old(pending) == []
    {
      if pending == [] { return []; }
      var n: nat :| 1 <= n <= len && n <= |pending|;
      got := pending[..n];
      pending := pending[n..];
    }

    /** Receives again until len bytes are there or the connection has ended; nothing for a negative len. */
    method ReadMsg(len: int) returns (status: ReadStatus, got: seq<u8>)
      requires -0x8000_0000 <= len < 0x8000_0000
      modifies this
      ensures var n := if len < 0 then 0 else len;
        && (|old(pending)| >= n ==> status == ReadOk && got == old(pending)[..n] && pending == old(pending)[n..])
        && (|old(pending)| < n ==> status == Disconnected && pending == [])
    {
      got := [];
      var leftLen := len;
      while leftLen > 0
        invariant |got| + leftLen == len && got + pending == old(pending)
        invariant if len < 0 then got == [] else 0 <= leftLen
      {
        var part := Recv(leftLen);
        if part == [] {
          return Disconnected, got;
        }
        assert got + part + pending == got + (part + pending);
        got := got + part;
        leftLen := leftLen - |part|;
      }
      status := ReadOk;
    }

    /** RecvMsgFromSocket: the header, then as many bytes as it announces, its length read as an int. */
    method RecvMsg() returns (r: Option<PwrMsg>)
      modifies this
      ensures match ParseOne(old(pending))
        case Some((m, rest)) => r == Some(m) && pending == rest
        case None => r == None && pending == []
    {
      var status, bytes := ReadMsg(SIZEOF_PWRMSG);
      if status != ReadOk { return None; }
      var head := DecodeHead(bytes);
      var content := [];
      if head.dataLen != 0 {
        status, content := ReadMsg(Signed(head.dataLen));
        if status != ReadOk { return None; }
      }
      r := Some(PwrMsg(head, content));
    }

    /** Receives until the connection ends. */
    method RecvAll() returns (msgs: seq<PwrMsg>)
      modifies this
      ensures msgs == ParseAll(old(pending)) && pending == []
    {
      hide ParseOne, ParseAll;
      msgs := [];
      var open := true;
      while open
        invariant msgs + ParseAll(pending) == ParseAll(old(pending)) && (!open ==> pending == [])
        decreases open, |pending|
      {
        ghost var before, done := pending, msgs;
        var r := RecvMsg();
        if r.Some? {
          msgs := msgs + [r.value];
          ReceivedOne(done, before, r.value, pending);
        } else {
          ReceivedNone(before);
          ReceivedNone(pending);
          open := false;
        }
      }
      ReceivedNone(pending);
    }
  }

  lemma ReceivedOne(done: seq<PwrMsg>, before: seq<u8>, m: PwrMsg, rest: seq<u8>)
    requires ParseOne(before) == Some((m, rest))
    ensures done + ParseAll(before) == done + [m] + ParseAll(rest)
  {
    hide ParseOne;
    assert ParseAll(before) == [m] + ParseAll(rest);
  }

  lemma ReceivedNone(before: seq<u8>)
    requires ParseOne(before) == None || before == []
    ensures ParseAll(before) == []
  {
  }
}
