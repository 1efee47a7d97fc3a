/** Messages of common/inc/pwrmsg.h and common/src/pwrmsg.c: header layout, sequence ids, requests and replies. */
module PwrMessage {

  type u8 = x: int | 0 <= x < 0x100
  type u16 = x: int | 0 <= x < 0x1_0000
  type u32 = x: int | 0 <= x < 0x1_0000_0000

  /** The signed 32-bit number with the same bits. */
  function Signed(x: u32): int { if x < 0x8000_0000 then x else x - 0x1_0000_0000 }

  const MAJOR_VERSION: u8 := 1
  const MINOR_VERSION: u8 := 0
  const FMT_BIN: u8 := 0
  const MT_REQ: u8 := 1
  const MT_RSP: u8 := 2

  datatype MsgHead = MsgHead(
    majorVer: u8,
    minorVer: u8,
    optType: u16,
    dataFormat: u8,
    msgType: u8,
    rspCode: u16,
    seqId: u32,
    taskNo: u32,
    crcMagic: u32,
    dataLen: u32,
    sysId: u32,
    reserved: u32)

  /** A message; data is [] for a null pointer. */
  datatype PwrMsg = PwrMsg(head: MsgHead, data: seq<u8>)

  /** The length field tells the truth about the data. */
  predicate WellFormed(m: PwrMsg) { m.head.dataLen == |m.data| }

  /** The length is still one when it is passed on as an int. */
  predicate Readable(m: PwrMsg) { Signed(m.head.dataLen) >= 0 }

  // ---------------------------------------------------------------- sequence ids

  const SEED_RANGE := 0x1_0000

  /** The k-th sequence id drawn by process pid: its low half is a 16-bit counter. */
  function SeqIdOf(pid: u32, k: nat): u32 {
    (pid % SEED_RANGE) * SEED_RANGE + k % SEED_RANGE
  }

  /** Two draws of one process get the same id exactly when they are a multiple of 65536 draws apart. */
  lemma SeqIdsCollide(pid: u32, j: nat, k: nat)
    ensures SeqIdOf(pid, j) == SeqIdOf(pid, k) <==> (j - k) % SEED_RANGE == 0
  {
  }

  /** Fewer than 65536 draws apart, an id identifies its draw. */
  lemma SeqIdIdentifiesDraw(pid: u32, j: nat, k: nat)
    requires SeqIdOf(pid, j) == SeqIdOf(pid, k) && -SEED_RANGE < j - k < SEED_RANGE
    ensures j == k
  {
  }

  function ZeroHead(): MsgHead { MsgHead(0, 0, 0, 0, 0, 0, 0, 0, 0, 0, 0, 0) }

  function RequestHead(seqId: u32, sysId: u32, optType: u16, taskNo: u32, dataLen: u32): MsgHead {
    ZeroHead().(majorVer := MAJOR_VERSION, minorVer := MINOR_VERSION, optType := optType, dataFormat := FMT_BIN,
                msgType := MT_REQ, seqId := seqId, taskNo := taskNo, dataLen := dataLen, sysId := sysId)
  }

  /** The message factory of one process: its id and the wrapping seed. */
  class MsgFactory {
    const pid: u32
    var seed: u16
    /** How many ids have been drawn. */
    ghost var drawn: nat

    ghost predicate Valid()
      reads this
    {
      seed == drawn % SEED_RANGE
    }

    constructor (pid: u32)
      ensures Valid() && this.pid == pid && drawn == 0
    {
      this.pid := pid;
      seed := 0;
      drawn := 0;
    }

    /** Shifts the process id into the high half and adds the 16-bit seed, which then wraps. */
    method GenerateSeqId() returns (seqId: u32)
      requires Valid()
      modifies this
      ensures Valid() && drawn == old(drawn) + 1
      ensures seqId == SeqIdOf(pid, old(drawn))
    {
      var high := (pid * 0x1_0000) % 0x1_0000_0000;
      ShiftedPid(pid);
      seqId := (high + seed) % 0x1_0000_0000;
      seed := (seed + 1) % 0x1_0000;
      drawn := drawn + 1;
    }

    method CreateReqMsg(optType: u16, taskNo: u32, dataLen: u32, data: seq<u8>) returns (req: PwrMsg)
      requires Valid()
      modifies this
      ensures Valid() && drawn == old(drawn) + 1
      ensures req == PwrMsg(RequestHead(SeqIdOf(pid, old(drawn)), pid, optType, taskNo, dataLen), data)
      ensures req.head.optType == optType && req.head.taskNo == taskNo && req.head.dataLen == dataLen
      ensures req.head.sysId == pid && req.head.seqId == (pid % 0x1_0000) * 0x1_0000 + old(drawn) % 0x1_0000
      ensures req.head.majorVer == 1 && req.head.minorVer == 0 && req.head.msgType == 1 && req.head.dataFormat == 0
      ensures req.head.rspCode == 0 && req.head.crcMagic == 0 && req.head.reserved == 0 && req.data == data
    {
      var seqId := GenerateSeqId();
      var head := ZeroHead();
      head := head.(majorVer := MAJOR_VERSION, minorVer := MINOR_VERSION);
      head := head.(optType := optType, dataFormat := FMT_BIN, msgType := MT_REQ, rspCode := 0);
      head := head.(seqId := seqId, taskNo := taskNo, crcMagic := 0, dataLen := dataLen, sysId := pid);
      req := PwrMsg(head, data);
    }
  }

  lemma ShiftedPid(pid: u32)
    ensures (pid * 0x1_0000) % 0x1_0000_0000 == (pid % 0x1_0000) * 0x1_0000
  {
  }

  // ---------------------------------------------------------------- replies

  /** The reply to req: it keeps the request's versions, operation, sequence id, task and client. */
  function GenerateRspMsg(req: PwrMsg, rspCode: u16, data: seq<u8>, dataLen: u32): PwrMsg {
    PwrMsg(
      ZeroHead().(majorVer := req.head.majorVer, minorVer := req.head.minorVer, optType := req.head.optType,
                  dataFormat := FMT_BIN, msgType := MT_RSP, rspCode := rspCode, seqId := req.head.seqId,
                  taskNo := req.head.taskNo, dataLen := dataLen, sysId := req.head.sysId),
      data)
  }

  /** rsp is a reply that some handler could have made for req. */
  predicate Answers(rsp: PwrMsg, req: PwrMsg) {
    rsp == GenerateRspMsg(req, rsp.head.rspCode, rsp.data, rsp.head.dataLen)
  }

  // ---------------------------------------------------------------- the bytes of a header

  /** sizeof(PwrMsg): the 32-byte header and the 8 bytes of the data pointer. */
  const SIZEOF_PWRMSG := 40

  function Bytes2(x: u16): (r: seq<u8>)
    ensures |r| == 2
  {
    [x % 0x100, x / 0x100]
  }

  function Bytes4(x: u32): (r: seq<u8>)
    ensures |r| == 4
  {
    [x % 0x100, x / 0x100 % 0x100, x / 0x1_0000 % 0x100, x / 0x100_0000]
  }

  function Word2(b: seq<u8>): u16
    requires |b| == 2
  {
    (b[0] as int) + 0x100 * (b[1] as int)
  }

  function Word4(b: seq<u8>): u32
    requires |b| == 4
  {
    (b[0] as int) + 0x100 * (b[1] as int) + 0x1_0000 * (b[2] as int) + 0x100_0000 * (b[3] as int)
  }

  lemma BytesOfWords(x: u16, y: u32)
    ensures Word2(Bytes2(x)) == x && Word4(Bytes4(y)) == y
  {
    assert y == y % 0x100 + 0x100 * (y / 0x100);
    assert y / 0x100 == y / 0x100 % 0x100 + 0x100 * (y / 0x1_0000);
    assert y / 0x1_0000 == y / 0x1_0000 % 0x100 + 0x100 * (y / 0x100_0000);
  }

  lemma WordsOfBytes(b: seq<u8>, c: seq<u8>)
    requires |b| == 2 && |c| == 4
    ensures Bytes2(Word2(b)) == b && Bytes4(Word4(c)) == c
  {
    var y := Word4(c);
    assert y / 0x100 == (c[1] as int) + 0x100 * (c[2] as int) + 0x1_0000 * (c[3] as int);
    assert y / 0x1_0000 == (c[2] as int) + 0x100 * (c[3] as int);
    assert y / 0x100_0000 == c[3];
  }

  /** The structure as it lies in memory; pointer holds the meaningless bytes of the data pointer. */
  function EncodeHead(h: MsgHead, pointer: seq<u8>): (r: seq<u8>)
    requires |pointer| == 8
    ensures |r| == SIZEOF_PWRMSG
  {
    [h.majorVer, h.minorVer] + Bytes2(h.optType) + [h.dataFormat, h.msgType] + Bytes2(h.rspCode)
    + Bytes4(h.seqId) + Bytes4(h.taskNo) + Bytes4(h.crcMagic) + Bytes4(h.dataLen) + Bytes4(h.sysId)
    + Bytes4(h.reserved) + pointer
  }

  function DecodeHead(b: seq<u8>): MsgHead
    requires |b| == SIZEOF_PWRMSG
  {
    MsgHead(b[0], b[1], Word2(b[2..4]), b[4], b[5], Word2(b[6..8]), Word4(b[8..12]), Word4(b[12..16]),
            Word4(b[16..20]), Word4(b[20..24]), Word4(b[24..28]), Word4(b[28..32]))
  }

  lemma HeadParts(h: MsgHead, pointer: seq<u8>)
    requires |pointer| == 8
    ensures var b := EncodeHead(h, pointer);
      && b[0] == h.majorVer && b[1] == h.minorVer && b[2..4] == Bytes2(h.optType)
      && b[4] == h.dataFormat && b[5] == h.msgType && b[6..8] == Bytes2(h.rspCode)
      && b[8..12] == Bytes4(h.seqId) && b[12..16] == Bytes4(h.taskNo) && b[16..20] == Bytes4(h.crcMagic)
      && b[20..24] == Bytes4(h.dataLen) && b[24..28] == Bytes4(h.sysId) && b[28..32] == Bytes4(h.reserved)
      && b[32..40] == pointer
  {
    hide Bytes2, Bytes4;
  }

  /** The word of two or four bytes from i on, least significant first. */
  predicate HalfAt(b: seq<u8>, i: nat, n: u16) {
    i + 2 <= |b| && (b[i] as int) + 0x100 * (b[i + 1] as int) == n
  }

  predicate WordAt(b: seq<u8>, i: nat, n: u32) {
    && i + 4 <= |b|
    && (b[i] as int) + 0x100 * (b[i + 1] as int) + 0x1_0000 * (b[i + 2] as int) + 0x100_0000 * (b[i + 3] as int) == n
  }

  lemma WordsLie(b: seq<u8>, i: nat, x: u16, y: u32)
    ensures i + 2 <= |b| && b[i..i + 2] == Bytes2(x) ==> HalfAt(b, i, x)
    ensures i + 4 <= |b| && b[i..i + 4] == Bytes4(y) ==> WordAt(b, i, y)
  {
    BytesOfWords(x, y);
    if i + 2 <= |b| { assert b[i..i + 2][0] == b[i] && b[i..i + 2][1] == b[i + 1]; }
    if i + 4 <= |b| {
      var w := b[i..i + 4];
      assert w[0] == b[i] && w[1] == b[i + 1] && w[2] == b[i + 2] && w[3] == b[i + 3];
    }
  }

  /** Where each field lies, as a little-endian machine lays out the structure. */
  lemma HeadLayout(h: MsgHead, pointer: seq<u8>)
    requires |pointer| == 8
    ensures var b := EncodeHead(h, pointer);
      && b[0] == h.majorVer && b[1] == h.minorVer && HalfAt(b, 2, h.optType) && b[4] == h.dataFormat
      && b[5] == h.msgType && HalfAt(b, 6, h.rspCode) && WordAt(b, 8, h.seqId) && WordAt(b, 12, h.taskNo)
      && WordAt(b, 16, h.crcMagic) && WordAt(b, 20, h.dataLen) && WordAt(b, 24, h.sysId)
      && WordAt(b, 28, h.reserved) && b[32..40] == pointer
  {
    hide EncodeHead, HalfAt, WordAt, Bytes2, Bytes4;
    var b := EncodeHead(h, pointer);
    HeadParts(h, pointer);
    WordsLie(b, 2, h.optType, 0);
    WordsLie(b, 6, h.rspCode, 0);
    WordsLie(b, 8, 0, h.seqId);
    WordsLie(b, 12, 0, h.taskNo);
    WordsLie(b, 16, 0, h.crcMagic);
    WordsLie(b, 20, 0, h.dataLen);
    WordsLie(b, 24, 0, h.sysId);
    WordsLie(b, 28, 0, h.reserved);
  }

  /** Decoding undoes encoding, whatever the pointer bytes are. */
  lemma DecodeEncodedHead(h: MsgHead, pointer: seq<u8>)
    requires |pointer| == 8
    ensures DecodeHead(EncodeHead(h, pointer)) == h
  {
    hide EncodeHead, Bytes2, Bytes4, Word2, Word4;
    HeadParts(h, pointer);
    BytesOfWords(h.optType, h.seqId);
    BytesOfWords(h.rspCode, h.taskNo);
    BytesOfWords(0, h.crcMagic);
    BytesOfWords(0, h.dataLen);
    BytesOfWords(0, h.sysId);
    BytesOfWords(0, h.reserved);
  }

  /** Every 40 bytes are the encoding of the header they decode to. */
  lemma EncodeDecodedHead(b: seq<u8>)
    requires |b| == SIZEOF_PWRMSG
    ensures EncodeHead(DecodeHead(b), b[32..]) == b
  {
    WordsOfBytes(b[2..4], b[8..12]);
    WordsOfBytes(b[6..8], b[12..16]);
    WordsOfBytes(b[2..4], b[16..20]);
    WordsOfBytes(b[2..4], b[20..24]);
    WordsOfBytes(b[2..4], b[24..28]);
    WordsOfBytes(b[2..4], b[28..32]);
  }
}
