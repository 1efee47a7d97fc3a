/** CRC-32 of pwrapis/src/utils.c: the table-driven loop, checked against bit-at-a-time reflected
    division by 0xEDB88320 (the CRC of section 8 of RFC 1952). */
module Crc32 {
  import opened Outcomes

  const CRC_FACTOR: bv32 := 0xFFFF_FFFF
  const CRC_FILE_BUF_LEN := 102400
  const POLYNOMIAL: bv32 := 0xEDB8_8320

  // ---------------------------------------------------------------- the reference: one bit at a time

  /** One shift of the division register. */
  function Shift(x: bv32): bv32 {
    if x & 1 == 1 then (x >> 1) ^ 0xEDB8_8320 else x >> 1
  }

  /** Addition of registers, as polynomials over the two-element field. */
  function Add(x: bv32, y: bv32): bv32 { x ^ y }

  function Bit(b: bool): bv32 { if b then 1 else 0 }

  /** Divides a message, given as bits in transmission order, starting from register value s. */
  function DivideBits(s: bv32, bits: seq<bool>): bv32
    decreases |bits|
  {
    if bits == [] then s else DivideBits(Shift(Add(s, Bit(bits[0]))), bits[1..])
  }

  /** The n lowest bits of w, least significant first. */
  function LowBits(w: bv32, n: nat): (r: seq<bool>)
    ensures |r| == n
    decreases n
  {
    if n == 0 then [] else [w & 1 == 1] + LowBits(w >> 1, n - 1)
  }

  /** The bits of a byte in transmission order. */
  function ByteBits(b: bv8): (r: seq<bool>)
    ensures |r| == 8
  {
    LowBits(b as bv32, 8)
  }

  function BufferBits(buf: seq<bv8>): (r: seq<bool>)
    ensures |r| == 8 * |buf|
  {
    if buf == [] then [] else ByteBits(buf[0]) + BufferBits(buf[1..])
  }

  /** The register after dividing a whole buffer bit by bit. */
  function BitwiseCrc(crc: bv32, buf: seq<bv8>): bv32 { DivideBits(crc, BufferBits(buf)) }

  // ---------------------------------------------------------------- the table

  /** The sixteen table entries 16*k .. 16*k+15. */
  function TableRow(k: nat): (r: seq<bv32>)
    requires k < 16
    ensures |r| == 16
  {
    match k
    case 0 => [
      0x00000000, 0x77073096, 0xEE0E612C, 0x990951BA, 0x076DC419, 0x706AF48F, 0xE963A535, 0x9E6495A3,
      0x0EDB8832, 0x79DCB8A4, 0xE0D5E91E, 0x97D2D988, 0x09B64C2B, 0x7EB17CBD, 0xE7B82D07, 0x90BF1D91]
    case 1 => [
      0x1DB71064, 0x6AB020F2, 0xF3B97148, 0x84BE41DE, 0x1ADAD47D, 0x6DDDE4EB, 0xF4D4B551, 0x83D385C7,
      0x136C9856, 0x646BA8C0, 0xFD62F97A, 0x8A65C9EC, 0x14015C4F, 0x63066CD9, 0xFA0F3D63, 0x8D080DF5]
    case 2 => [
      0x3B6E20C8, 0x4C69105E, 0xD56041E4, 0xA2677172, 0x3C03E4D1, 0x4B04D447, 0xD20D85FD, 0xA50AB56B,
      0x35B5A8FA, 0x42B2986C, 0xDBBBC9D6, 0xACBCF940, 0x32D86CE3, 0x45DF5C75, 0xDCD60DCF, 0xABD13D59]
    case 3 => [
      0x26D930AC, 0x51DE003A, 0xC8D75180, 0xBFD06116, 0x21B4F4B5, 0x56B3C423, 0xCFBA9599, 0xB8BDA50F,
      0x2802B89E, 0x5F058808, 0xC60CD9B2, 0xB10BE924, 0x2F6F7C87, 0x58684C11, 0xC1611DAB, 0xB6662D3D]
    case 4 => [
      0x76DC4190, 0x01DB7106, 0x98D220BC, 0xEFD5102A, 0x71B18589, 0x06B6B51F, 0x9FBFE4A5, 0xE8B8D433,
      0x7807C9A2, 0x0F00F934, 0x9609A88E, 0xE10E9818, 0x7F6A0DBB, 0x086D3D2D, 0x91646C97, 0xE6635C01]
    case 5 => [
      0x6B6B51F4, 0x1C6C6162, 0x856530D8, 0xF262004E, 0x6C0695ED, 0x1B01A57B, 0x8208F4C1, 0xF50FC457,
      0x65B0D9C6, 0x12B7E950, 0x8BBEB8EA, 0xFCB9887C, 0x62DD1DDF, 0x15DA2D49, 0x8CD37CF3, 0xFBD44C65]
    case 6 => [
      0x4DB26158, 0x3AB551CE, 0xA3BC0074, 0xD4BB30E2, 0x4ADFA541, 0x3DD895D7, 0xA4D1C46D, 0xD3D6F4FB,
      0x4369E96A, 0x346ED9FC, 0xAD678846, 0xDA60B8D0, 0x44042D73, 0x33031DE5, 0xAA0A4C5F, 0xDD0D7CC9]
    case 7 => [
      0x5005713C, 0x270241AA, 0xBE0B1010, 0xC90C2086, 0x5768B525, 0x206F85B3, 0xB966D409, 0xCE61E49F,
      0x5EDEF90E, 0x29D9C998, 0xB0D09822, 0xC7D7A8B4, 0x59B33D17, 0x2EB40D81, 0xB7BD5C3B, 0xC0BA6CAD]
    case 8 => [
      0xEDB88320, 0x9ABFB3B6, 0x03B6E20C, 0x74B1D29A, 0xEAD54739, 0x9DD277AF, 0x04DB2615, 0x73DC1683,
      0xE3630B12, 0x94643B84, 0x0D6D6A3E, 0x7A6A5AA8, 0xE40ECF0B, 0x9309FF9D, 0x0A00AE27, 0x7D079EB1]
    case 9 => [
      0xF00F9344, 0x8708A3D2, 0x1E01F268, 0x6906C2FE, 0xF762575D, 0x806567CB, 0x196C3671, 0x6E6B06E7,
      0xFED41B76, 0x89D32BE0, 0x10DA7A5A, 0x67DD4ACC, 0xF9B9DF6F, 0x8EBEEFF9, 0x17B7BE43, 0x60B08ED5]
    case 10 => [
      0xD6D6A3E8, 0xA1D1937E, 0x38D8C2C4, 0x4FDFF252, 0xD1BB67F1, 0xA6BC5767, 0x3FB506DD, 0x48B2364B,
      0xD80D2BDA, 0xAF0A1B4C, 0x36034AF6, 0x41047A60, 0xDF60EFC3, 0xA867DF55, 0x316E8EEF, 0x4669BE79]
    case 11 => [
      0xCB61B38C, 0xBC66831A, 0x256FD2A0, 0x5268E236, 0xCC0C7795, 0xBB0B4703, 0x220216B9, 0x5505262F,
      0xC5BA3BBE, 0xB2BD0B28, 0x2BB45A92, 0x5CB36A04, 0xC2D7FFA7, 0xB5D0CF31, 0x2CD99E8B, 0x5BDEAE1D]
    case 12 => [
      0x9B64C2B0, 0xEC63F226, 0x756AA39C, 0x026D930A, 0x9C0906A9, 0xEB0E363F, 0x72076785, 0x05005713,
      0x95BF4A82, 0xE2B87A14, 0x7BB12BAE, 0x0CB61B38, 0x92D28E9B, 0xE5D5BE0D, 0x7CDCEFB7, 0x0BDBDF21]
    case 13 => [
      0x86D3D2D4, 0xF1D4E242, 0x68DDB3F8, 0x1FDA836E, 0x81BE16CD, 0xF6B9265B, 0x6FB077E1, 0x18B74777,
      0x88085AE6, 0xFF0F6A70, 0x66063BCA, 0x11010B5C, 0x8F659EFF, 0xF862AE69, 0x616BFFD3, 0x166CCF45]
    case 14 => [
      0xA00AE278, 0xD70DD2EE, 0x4E048354, 0x3903B3C2, 0xA7672661, 0xD06016F7, 0x4969474D, 0x3E6E77DB,
      0xAED16A4A, 0xD9D65ADC, 0x40DF0B66, 0x37D83BF0, 0xA9BCAE53, 0xDEBB9EC5, 0x47B2CF7F, 0x30B5FFE9]
    case _ => [
      0xBDBDF21C, 0xCABAC28A, 0x53B39330, 0x24B4A3A6, 0xBAD03605, 0xCDD70693, 0x54DE5729, 0x23D967BF,
      0xB3667A2E, 0xC4614AB8, 0x5D681B02, 0x2A6F2B94, 0xB40BBE37, 0xC30C8EA1, 0x5A05DF1B, 0x2D02EF8D]
  }

  /** Entry i of the table: row i / 16, column i % 16. */
  function CrcTable(i: bv32): bv32
    requires i & 0xff == i
  {
    RowIndex(i);
    TableRow((i >> 4) as nat)[(i & 0xf) as nat]
  }

  lemma RowIndex(i: bv32)
    requires i & 0xff == i
    ensures (i >> 4) as nat < 16 && (i & 0xf) as nat < 16
  {
  }

  /** The register after n shifts. */
  function Shifts(x: bv32, n: nat): bv32
    decreases n
  {
    if n == 0 then x else Shifts(Shift(x), n - 1)
  }

  lemma NibbleCases(x: bv32)
    requires x < 16
    ensures x == 0 || x == 1 || x == 2 || x == 3 || x == 4 || x == 5 || x == 6 || x == 7
      || x == 8 || x == 9 || x == 10 || x == 11 || x == 12 || x == 13 || x == 14 || x == 15
  {
  }

  lemma Rows0And1(k: nat, l: bv32)
    requires k < 2 && l < 16
    ensures l as nat < 16 && TableRow(k)[l as nat] == Add(TableRow(k)[0], TableRow(0)[l as nat])
  {
  }

  lemma Rows2And3(k: nat, l: bv32)
    requires 2 <= k < 4 && l < 16
    ensures l as nat < 16 && TableRow(k)[l as nat] == Add(TableRow(k)[0], TableRow(0)[l as nat])
  {
    NibbleCases(l);
  }

  lemma Rows4And5(k: nat, l: bv32)
    requires 4 <= k < 6 && l < 16
    ensures l as nat < 16 && TableRow(k)[l as nat] == Add(TableRow(k)[0], TableRow(0)[l as nat])
  {
    NibbleCases(l);
  }

  lemma Rows6And7(k: nat, l: bv32)
    requires 6 <= k < 8 && l < 16
    ensures l as nat < 16 && TableRow(k)[l as nat] == Add(TableRow(k)[0], TableRow(0)[l as nat])
  {
  }

  lemma Rows8And9(k: nat, l: bv32)
    requires 8 <= k < 10 && l < 16
    ensures l as nat < 16 && TableRow(k)[l as nat] == Add(TableRow(k)[0], TableRow(0)[l as nat])
  {
  }

  lemma Rows10And11(k: nat, l: bv32)
    requires 10 <= k < 12 && l < 16
    ensures l as nat < 16 && TableRow(k)[l as nat] == Add(TableRow(k)[0], TableRow(0)[l as nat])
  {
  }

  lemma Rows12And13(k: nat, l: bv32)
    requires 12 <= k < 14 && l < 16
    ensures l as nat < 16 && TableRow(k)[l as nat] == Add(TableRow(k)[0], TableRow(0)[l as nat])
  {
  }

  lemma Rows14And15(k: nat, l: bv32)
    requires 14 <= k < 16 && l < 16
    ensures l as nat < 16 && TableRow(k)[l as nat] == Add(TableRow(k)[0], TableRow(0)[l as nat])
  {
  }

  /** Every table entry is the sum of its row's and its column's first entry. */
  lemma EntryIsRowPlusColumn(k: nat, l: bv32)
    requires k < 16 && l < 16
    ensures l as nat < 16 && TableRow(k)[l as nat] == Add(TableRow(k)[0], TableRow(0)[l as nat])
  {
    hide TableRow, Add;
    if
    case k < 2 => Rows0And1(k, l);
    case 2 <= k < 4 => Rows2And3(k, l);
    case 4 <= k < 6 => Rows4And5(k, l);
    case 6 <= k < 8 => Rows6And7(k, l);
    case 8 <= k < 10 => Rows8And9(k, l);
    case 10 <= k < 12 => Rows10And11(k, l);
    case 12 <= k < 14 => Rows12And13(k, l);
    case 14 <= k < 16 => Rows14And15(k, l);
  }

  // ---------------------------------------------------------------- shifting is linear and injective

  lemma ShiftXor(x: bv32, y: bv32)
    ensures (x ^ y) >> 1 == (x >> 1) ^ (y >> 1)
    ensures (x ^ y) & 1 == (x & 1) ^ (y & 1)
    ensures x & 1 == 0 || x & 1 == 1
    ensures y & 1 == 0 || y & 1 == 1
  {
  }

  lemma XorRegroup(a: bv32, b: bv32, p: bv32)
    ensures (a ^ p) ^ b == (a ^ b) ^ p
    ensures a ^ (b ^ p) == (a ^ b) ^ p
    ensures (a ^ p) ^ (b ^ p) == a ^ b
  {
  }

  lemma ShiftLinear(x: bv32, y: bv32)
    ensures Shift(Add(x, y)) == Add(Shift(x), Shift(y))
  {
    ShiftXor(x, y);
    XorRegroup(x >> 1, y >> 1, POLYNOMIAL);
  }

  lemma {:induction false} ShiftsLinear(x: bv32, y: bv32, n: nat)
    ensures Shifts(Add(x, y), n) == Add(Shifts(x, n), Shifts(y, n))
    decreases n
  {
    hide Shift, Add;
    if n > 0 {
      ShiftLinear(x, y);
      ShiftsLinear(Shift(x), Shift(y), n - 1);
    }
  }

  // ---------------------------------------------------------------- the table holds eight shifts of each index

  lemma FirstColumn(h: bv32)
    requires h < 16
    ensures h as nat < 16 && TableRow(h as nat)[0] == Shifts(h << 4, 8)
  {
  }

  lemma FirstRow(l: bv32)
    requires l < 16
    ensures l as nat < 16 && TableRow(0)[l as nat] == Shifts(l, 8)
  {
  }

  lemma IndexParts(i: bv32)
    requires i & 0xff == i
    ensures i >> 4 < 16 && i & 0xf < 16 && i == Add((i >> 4) << 4, i & 0xf)
  {
  }

  /** Each of the 256 table entries is eight shifts of its index. */
  lemma TableIsShifts(i: bv32)
    requires i & 0xff == i
    ensures CrcTable(i) == Shifts(i, 8)
  {
    IndexParts(i);
    TableIsShiftsOf(i, i >> 4, i & 0xf, (i >> 4) << 4);
  }

  lemma TableIsShiftsOf(i: bv32, h: bv32, l: bv32, g: bv32)
    requires i & 0xff == i && h < 16 && l < 16
    requires h == i >> 4 && l == i & 0xf && g == h << 4 && i == Add(g, l)
    ensures CrcTable(i) == Shifts(i, 8)
  {
    hide Shift, Shifts, TableRow, Add;
    FirstColumn(h);
    FirstRow(l);
    EntryIsRowPlusColumn(h as nat, l);
    ShiftsLinear(g, l, 8);
  }

  /** n right shifts by one place. */
  function ShiftRight(y: bv32, n: nat): bv32
    decreases n
  {
    if n == 0 then y else ShiftRight(y >> 1, n - 1)
  }

  lemma ShiftRightStep(y: bv32, z: bv32, n: nat)
    requires z == y >> 1
    ensures ShiftRight(y, n + 1) == ShiftRight(z, n)
  {
  }

  lemma ShiftRight4(y: bv32, y1: bv32, y2: bv32, y3: bv32, y4: bv32, n: nat)
    requires y1 == y >> 1 && y2 == y1 >> 1 && y3 == y2 >> 1 && y4 == y3 >> 1
    ensures ShiftRight(y, 4 + n) == ShiftRight(y4, n)
  {
    hide ShiftRight;
    ShiftBy4(y, y1, y2, y3, y4);
    ShiftRightStep(y, y1, n + 3);
    ShiftRightStep(y1, y2, n + 2);
    ShiftRightStep(y2, y3, n + 1);
    ShiftRightStep(y3, y4, n);
  }

  lemma ShiftBy4(y: bv32, y1: bv32, y2: bv32, y3: bv32, y4: bv32)
    requires y1 == y >> 1 && y2 == y1 >> 1 && y3 == y2 >> 1 && y4 == y3 >> 1
    ensures y4 == y >> 4
    ensures y & 0xf == 0 ==> y & 1 == y1 & 1 == y2 & 1 == y3 & 1 == 0
  {
  }

  lemma ShiftRightZero(y: bv32)
    ensures ShiftRight(y, 0) == y
  {
  }

  /** Eight shifts of a register whose low byte is zero only move its bits. */
  lemma ShiftsOfHighPart(y: bv32)
    requires y & 0xff == 0
    ensures Shifts(y, 8) == y >> 8
  {
  }

  /** The table index of the loop body. */
  function TableIndex(crc: bv32, b: bv8): (i: bv32)
    ensures i & 0xff == i
  {
    (crc ^ (b as bv32)) & 0xff
  }

  lemma LowAndHighPart(x: bv32)
    ensures x == Add(x & 0xff, x & 0xFFFF_FF00)
    ensures (x & 0xff) & 0xff == x & 0xff && (x & 0xFFFF_FF00) & 0xff == 0
    ensures (x & 0xFFFF_FF00) >> 8 == x >> 8
  {
  }

  lemma ByteLeavesHighPart(crc: bv32, b: bv8)
    ensures Add(crc, b as bv32) >> 8 == crc >> 8
    ensures Add(crc, b as bv32) & 0xff == TableIndex(crc, b)
  {
  }

  /** One table step is eight shifts of the register with the byte added to it. */
  lemma TableStepIsShifts(crc: bv32, b: bv8)
    ensures Add(CrcTable(TableIndex(crc, b)), crc >> 8) == Shifts(Add(crc, b as bv32), 8)
  {
    hide Shifts, CrcTable, Add, TableIndex;
    var x := Add(crc, b as bv32);
    ByteLeavesHighPart(crc, b);
    LowAndHighPart(x);
    TableStepOf(crc, x, x & 0xff, x & 0xFFFF_FF00);
  }

  lemma TableStepOf(crc: bv32, x: bv32, lo: bv32, hi: bv32)
    requires lo & 0xff == lo && hi & 0xff == 0 && hi >> 8 == crc >> 8 && x == Add(lo, hi)
    ensures Add(CrcTable(lo), crc >> 8) == Shifts(x, 8)
  {
    hide Shift, Shifts, CrcTable, Add;
    ShiftsLinear(lo, hi, 8);
    ShiftsOfHighPart(hi);
    TableIsShifts(lo);
  }

  // ---------------------------------------------------------------- the loop agrees with the bits

  lemma {:induction false} DivideConcat(s: bv32, a: seq<bool>, b: seq<bool>)
    ensures DivideBits(s, a + b) == DivideBits(DivideBits(s, a), b)
    decreases |a|
  {
    hide Shift, Add, Bit;
    if a == [] {
      assert a + b == b;
    } else {
      assert (a + b)[1..] == a[1..] + b;
      DivideConcat(Shift(Add(s, Bit(a[0]))), a[1..], b);
    }
  }

  lemma {:induction false} BufferBitsConcat(a: seq<bv8>, b: seq<bv8>)
    ensures BufferBits(a + b) == BufferBits(a) + BufferBits(b)
  {
    if a == [] {
      assert a + b == b;
    } else {
      assert (a + b)[1..] == a[1..] + b;
      BufferBitsConcat(a[1..], b);
    }
  }

  lemma LowBitParts(w: bv32)
    ensures w == Add(Bit(w & 1 == 1), w & 0xFFFF_FFFE)
    ensures (w & 0xFFFF_FFFE) & 1 == 0 && (w & 0xFFFF_FFFE) >> 1 == w >> 1
  {
  }

  lemma AddAssociative(a: bv32, b: bv32, c: bv32)
    ensures Add(a, Add(b, c)) == Add(Add(a, b), c)
  {
  }

  lemma ShiftOfEven(y: bv32)
    requires y & 1 == 0
    ensures Shift(y) == y >> 1
  {
  }

  /** Adding a word and shifting is adding its low bit, shifting, and adding the rest. */
  lemma ShiftFeedsLowBit(s: bv32, w: bv32)
    ensures Shift(Add(s, w)) == Add(Shift(Add(s, Bit(w & 1 == 1))), w >> 1)
  {
    hide Shift, Add, Bit;
    var b, h := Bit(w & 1 == 1), w & 0xFFFF_FFFE;
    LowBitParts(w);
    AddAssociative(s, b, h);
    ShiftLinear(Add(s, b), h);
    ShiftOfEven(h);
  }

  /** Dividing by the n bits of a word that has no more is adding the word and shifting n times. */
  lemma {:induction false} DivideWord(s: bv32, w: bv32, n: nat)
    requires ShiftRight(w, n) == 0
    ensures DivideBits(s, LowBits(w, n)) == Shifts(Add(s, w), n)
    decreases n
  {
    hide Shift, Bit;
    if n == 0 {
    } else {
      hide Add;
      var bits := LowBits(w, n);
      assert bits[1..] == LowBits(w >> 1, n - 1);
      ShiftFeedsLowBit(s, w);
      DivideWord(Shift(Add(s, Bit(bits[0]))), w >> 1, n - 1);
    }
  }

  lemma AddIsXor(a: bv32, b: bv32)
    ensures Add(a, b) == a ^ b
  {
  }

  lemma ByteIsShort(b: bv8)
    ensures ShiftRight(b as bv32, 8) == 0
  {
  }

  /** One byte of the message: eight bit-by-bit divisions are one table step. */
  lemma DivideByteIsTableStep(s: bv32, b: bv8)
    ensures DivideBits(s, ByteBits(b)) == Add(CrcTable(TableIndex(s, b)), s >> 8)
  {
    hide DivideBits, CrcTable, Shifts, TableIndex, Add;
    ByteIsShort(b);
    DivideWord(s, b as bv32, 8);
    TableStepIsShifts(s, b);
  }

  lemma DivideFirstByte(crc: bv32, buf: seq<bv8>)
    requires buf != []
    ensures BitwiseCrc(crc, buf) == BitwiseCrc(Add(CrcTable(TableIndex(crc, buf[0])), crc >> 8), buf[1..])
  {
    hide DivideBits, CrcTable, TableIndex, ByteBits, Add;
    DivideConcat(crc, ByteBits(buf[0]), BufferBits(buf[1..]));
    DivideByteIsTableStep(crc, buf[0]);
  }

  /** Crc32: the table-driven loop computes the bit-at-a-time division, for every seed and buffer. */
  method Crc32(crc0: bv32, buffer: seq<bv8>) returns (crc: bv32)
    ensures crc == BitwiseCrc(crc0, buffer)
  {
    hide *;
    crc := crc0;
    var i := 0;
    while i < |buffer|
      invariant 0 <= i <= |buffer|
      invariant BitwiseCrc(crc0, buffer) == BitwiseCrc(crc, buffer[i..])
    {
      assert buffer[i..][1..] == buffer[i + 1..];
      DivideFirstByte(crc, buffer[i..]);
      AddIsXor(CrcTable(TableIndex(crc, buffer[i])), crc >> 8);
      crc := CrcTable(TableIndex(crc, buffer[i])) ^ (crc >> 8);
      i := i + 1;
    }
    BitwiseCrcOfNothing(crc, buffer[i..]);
  }

  lemma BitwiseCrcOfNothing(crc: bv32, buf: seq<bv8>)
    requires |buf| == 0
    ensures BitwiseCrc(crc, buf) == crc
  {
  }

  /** The checksum of a buffer, as GetCrc32Val defines it. */
  function Checksum(buffer: seq<bv8>): bv32 { Add(BitwiseCrc(CRC_FACTOR, buffer), CRC_FACTOR) }

  method GetCrc32Val(buffer: seq<bv8>) returns (r: bv32)
    ensures r == Checksum(buffer)
  {
    var crc := CRC_FACTOR;
    crc := Crc32(crc, buffer);
    r := crc ^ CRC_FACTOR;
  }

  /** Eight shifts of a register, one byte added first. */
  function ByteStep(s: bv32, b: bv8): bv32 { Shifts(Add(s, b as bv32), 8) }

  lemma FirstByteIsStep(crc: bv32, buf: seq<bv8>)
    requires buf != []
    ensures BitwiseCrc(crc, buf) == BitwiseCrc(ByteStep(crc, buf[0]), buf[1..])
  {
    hide DivideBits, CrcTable, Shifts, TableIndex, Add, ByteBits;
    DivideFirstByte(crc, buf);
    TableStepIsShifts(crc, buf[0]);
  }

  lemma CheckSteps1()
    ensures ByteStep(0xFFFF_FFFF, 0x31) == 0x7C23_1048
    ensures ByteStep(0x7C23_1048, 0x32) == 0xB0AC_BB32
    ensures ByteStep(0xB0AC_BB32, 0x33) == 0x77B7_9C2D
  {
  }

  lemma CheckSteps2()
    ensures ByteStep(0x77B7_9C2D, 0x34) == 0x641C_1F5C
    ensures ByteStep(0x641C_1F5C, 0x35) == 0x340A_C5E3
    ensures ByteStep(0x340A_C5E3, 0x36) == 0xF68D_2C9E
  {
  }

  lemma CheckSteps3()
    ensures ByteStep(0xF68D_2C9E, 0x37) == 0xAFFC_9660
    ensures ByteStep(0xAFFC_9660, 0x38) == 0x651F_2550
    ensures ByteStep(0x651F_2550, 0x39) == 0x340B_C6D9
  {
  }

  lemma ThreeSteps(s: bv32, b0: bv8, b1: bv8, b2: bv8, rest: seq<bv8>, s1: bv32, s2: bv32, s3: bv32)
    requires s1 == ByteStep(s, b0) && s2 == ByteStep(s1, b1) && s3 == ByteStep(s2, b2)
    ensures BitwiseCrc(s, [b0, b1, b2] + rest) == BitwiseCrc(s3, rest)
  {
    hide BitwiseCrc, ByteStep;
    var buf := [b0, b1, b2] + rest;
    FirstByteIsStep(s, buf);
    assert buf[1..] == [b1, b2] + rest;
    FirstByteIsStep(s1, buf[1..]);
    assert buf[1..][1..] == [b2] + rest;
    FirstByteIsStep(s2, buf[1..][1..]);
    assert buf[1..][1..][1..] == rest;
  }

  /** The check value of this CRC: the checksum of the digits 1 to 9. */
  lemma CheckValue()
    ensures Checksum([0x31, 0x32, 0x33, 0x34, 0x35, 0x36, 0x37, 0x38, 0x39]) == 0xCBF4_3926
  {
    hide BitwiseCrc, ByteStep;
    CheckSteps1();
    CheckSteps2();
    CheckSteps3();
    var last: seq<bv8> := [0x37, 0x38, 0x39];
    var middle: seq<bv8> := [0x34, 0x35, 0x36] + last;
    assert last + [] == last;
    assert [0x31, 0x32, 0x33] + middle == [0x31, 0x32, 0x33, 0x34, 0x35, 0x36, 0x37, 0x38, 0x39];
    ThreeSteps(0xFFFF_FFFF, 0x31, 0x32, 0x33, middle, 0x7C23_1048, 0xB0AC_BB32, 0x77B7_9C2D);
    ThreeSteps(0x77B7_9C2D, 0x34, 0x35, 0x36, last, 0x641C_1F5C, 0x340A_C5E3, 0xF68D_2C9E);
    ThreeSteps(0xF68D_2C9E, 0x37, 0x38, 0x39, [], 0xAFFC_9660, 0x651F_2550, 0x340B_C6D9);
    BitwiseCrcOfNothing(0x340B_C6D9, []);
  }

  /** Feeding a buffer in two pieces, the second seeded by the first, is feeding it whole. */
  lemma Chunking(crc: bv32, a: seq<bv8>, b: seq<bv8>)
    ensures BitwiseCrc(crc, a + b) == BitwiseCrc(BitwiseCrc(crc, a), b)
  {
    hide DivideBits, BufferBits;
    BufferBitsConcat(a, b);
    DivideConcat(crc, BufferBits(a), BufferBits(b));
  }

  // ---------------------------------------------------------------- GetFileCrc32Val

  /** One read(): an error, end of file, or any positive number of bytes up to the buffer size. */
  method Read(left: nat) returns (nread: int)
    ensures -1 <= nread <= CRC_FILE_BUF_LEN && nread <= left
    ensures nread == 0 ==> left == 0
  {
    assert -1 <= -1 <= CRC_FILE_BUF_LEN && -1 <= left;
    nread :| -1 <= nread <= CRC_FILE_BUF_LEN && nread <= left && (nread == 0 ==> left == 0);
  }

  /** GetFileCrc32Val on a file with the given content (None: it cannot be opened). However the reads
      cut the file up, success gives the division of the whole content from the caller's seed. */
  method GetFileCrc32Val(file: Option<seq<bv8>>, fileCrc0: bv32) returns (ok: bool, fileCrc: bv32)
    ensures ok ==> file.Some? && fileCrc == Add(BitwiseCrc(fileCrc0, file.value), CRC_FACTOR)
    ensures !ok ==> fileCrc == fileCrc0
  {
    hide BitwiseCrc;
    if file.None? { return false, fileCrc0; }
    var content := file.value;
    var crc, pos := fileCrc0, 0;
    BitwiseCrcOfNothing(crc, content[..0]);
    var nread := Read(|content|);
    while nread > 0
      invariant 0 <= pos <= |content|
      invariant crc == BitwiseCrc(fileCrc0, content[..pos])
      invariant -1 <= nread <= |content| - pos
      invariant nread == 0 ==> pos == |content|
      decreases |content| - pos, nread
    {
      Chunking(fileCrc0, content[..pos], content[pos..pos + nread]);
      assert content[..pos] + content[pos..pos + nread] == content[..pos + nread];
      crc := Crc32(crc, content[pos..pos + nread]);
      pos := pos + nread;
      nread := Read(|content| - pos);
    }
    if nread < 0 { return false, fileCrc0; }
    assert content[..pos] == content;
    return true, crc ^ CRC_FACTOR;
  }

  lemma XorFactorInjective(x: bv32, y: bv32)
    requires Add(x, CRC_FACTOR) == Add(y, CRC_FACTOR)
    ensures x == y
  {
  }

  /** A file's checksum is that of a buffer with the same content exactly when the caller seeds the
      call with 0xFFFFFFFF; GetFileCrc32Val, unlike GetCrc32Val, does not do so itself. */
  lemma FileAgreesWithBuffer(seed: bv32, content: seq<bv8>)
    ensures Add(BitwiseCrc(seed, content), CRC_FACTOR) == Checksum(content) <==> seed == 0xFFFF_FFFF
  {
    hide DivideBits, Add;
    if Add(BitwiseCrc(seed, content), CRC_FACTOR) == Checksum(content) {
      XorFactorInjective(BitwiseCrc(seed, content), BitwiseCrc(CRC_FACTOR, content));
      DivideInjective(seed, CRC_FACTOR, BufferBits(content));
    }
  }

  // ---------------------------------------------------------------- burst errors

  lemma ShiftInjective(x: bv32, y: bv32)
    requires Shift(x) == Shift(y)
    ensures x == y
  {
  }

  lemma AddSame(x: bv32, y: bv32, b: bv32)
    ensures Add(x, b) == Add(y, b) ==> x == y
  {
  }

  /** Dividing by the same bits keeps different registers different. */
  lemma {:induction false} DivideInjective(s: bv32, t: bv32, bits: seq<bool>)
    requires DivideBits(s, bits) == DivideBits(t, bits)
    ensures s == t
    decreases |bits|
  {
    hide Shift, Bit, Add;
    if bits != [] {
      var b := Bit(bits[0]);
      DivideInjective(Shift(Add(s, b)), Shift(Add(t, b)), bits[1..]);
      ShiftInjective(Add(s, b), Add(t, b));
      AddSame(s, t, b);
    }
  }

  function By4(z: bv32): bv32 { z >> 4 }

  lemma ShiftRightBy4(y: bv32, n: nat)
    ensures ShiftRight(y, 4 + n) == ShiftRight(By4(y), n)
  {
    hide ShiftRight;
    var y1 := y >> 1;
    var y2 := y1 >> 1;
    var y3 := y2 >> 1;
    ShiftBy4(y, y1, y2, y3, y3 >> 1);
    ShiftRight4(y, y1, y2, y3, y3 >> 1, n);
  }

  lemma {:induction false} ShiftRightMore(y: bv32, n: nat, m: nat)
    requires ShiftRight(y, n) == 0 && n <= m
    ensures ShiftRight(y, m) == 0
    decreases m
  {
    if n > 0 {
      ShiftRightMore(y >> 1, n - 1, m - 1);
    } else if m > 0 {
      assert y >> 1 == 0;
      ShiftRightMore(y >> 1, 0, m - 1);
    }
  }

  lemma TopBitOfShort(z: bv32)
    requires ShiftRight(By4(By4(By4(By4(By4(By4(By4(z))))))), 3) == 0
    ensures z & 0x8000_0000 == 0
  {
  }

  /** A word of at most 31 bits has a clear top bit. */
  lemma ShortHasNoTopBit(z: bv32, n: nat)
    requires ShiftRight(z, n) == 0 && n <= 31
    ensures z & 0x8000_0000 == 0
  {
    hide ShiftRight, By4;
    ShiftRightMore(z, n, 31);
    var a := By4(z);
    var b := By4(a);
    var c := By4(b);
    var d := By4(c);
    var e := By4(d);
    var f := By4(e);
    ShiftRightBy4(z, 27);
    ShiftRightBy4(a, 23);
    ShiftRightBy4(b, 19);
    ShiftRightBy4(c, 15);
    ShiftRightBy4(d, 11);
    ShiftRightBy4(e, 7);
    ShiftRightBy4(f, 3);
    TopBitOfShort(z);
  }

  lemma ShiftOfOdd(y: bv32)
    requires Shift(y) & 0x8000_0000 == 0
    ensures y & 1 == 0 && Shift(y) == y >> 1
  {
  }

  /** If a shifted register fits in n < 32 bits, the register was even and fits in n + 1 bits. */
  lemma UnshiftShort(y: bv32, n: nat)
    requires ShiftRight(Shift(y), n) == 0 && n <= 31
    ensures y & 1 == 0 && ShiftRight(y, n + 1) == 0
  {
    hide Shift, ShiftRight;
    ShortHasNoTopBit(Shift(y), n);
    ShiftOfOdd(y);
    ShiftRightStep(y, y >> 1, n);
  }

  lemma AddCommutative(a: bv32, b: bv32)
    ensures Add(a, b) == Add(b, a)
  {
  }

  lemma AddExchange(s: bv32, b: bv32, t: bv32, c: bv32)
    ensures Add(Add(s, b), Add(t, c)) == Add(Add(s, t), Add(b, c))
  {
    hide Add;
    AddAssociative(Add(s, b), t, c);
    AddAssociative(s, b, t);
    AddCommutative(b, t);
    AddAssociative(s, t, b);
    AddAssociative(Add(s, t), b, c);
  }

  lemma LowBitOfSum(x: bv32, b: bool, c: bool)
    ensures Add(x, Add(Bit(b), Bit(c))) >> 1 == x >> 1
    ensures x == 0 && Add(x, Add(Bit(b), Bit(c))) & 1 == 0 ==> b == c
  {
  }

  lemma SumOfBitsFits(x: bv32, y: bv32, b: bool, c: bool, n: nat)
    requires y == Add(x, Add(Bit(b), Bit(c))) && y & 1 == 0 && ShiftRight(y, n + 1) == 0
    ensures ShiftRight(x, n + 1) == 0
    ensures x == 0 ==> b == c
  {
    hide Bit, ShiftRight, Add;
    LowBitOfSum(x, b, c);
    ShiftRightStep(y, y >> 1, n);
    ShiftRightStep(x, x >> 1, n);
  }

  lemma ConvergeStep(s: bv32, t: bv32, b: bool, c: bool, n: nat)
    requires n <= 31 && ShiftRight(Add(Shift(Add(s, Bit(b))), Shift(Add(t, Bit(c)))), n) == 0
    ensures ShiftRight(Add(s, t), n + 1) == 0
    ensures s == t ==> b == c
  {
    hide Shift, Bit, ShiftRight, Add;
    var p, q := Add(s, Bit(b)), Add(t, Bit(c));
    ShiftLinear(p, q);
    UnshiftShort(Add(p, q), n);
    AddExchange(s, Bit(b), t, Bit(c));
    SumOfBitsFits(Add(s, t), Add(p, q), b, c, n);
    AddToItself(s);
  }

  /** Two registers that at most 32 bits can bring together differ only in that many low bits. */
  lemma {:induction false} Converge(s: bv32, t: bv32, u: seq<bool>, v: seq<bool>)
    requires |u| == |v| <= 32 && DivideBits(s, u) == DivideBits(t, v)
    ensures ShiftRight(Add(s, t), |u|) == 0
    ensures s == t && u != [] ==> u[0] == v[0]
    decreases |u|
  {
    hide Shift, Bit, ShiftRight, Add;
    if u == [] {
      AddToItself(s);
      ShiftRightZero(0);
    } else {
      Converge(Shift(Add(s, Bit(u[0]))), Shift(Add(t, Bit(v[0]))), u[1..], v[1..]);
      ConvergeStep(s, t, u[0], v[0], |u| - 1);
    }
  }

  lemma AddToItself(s: bv32)
    ensures Add(s, s) == 0
  {
  }

  /** From one register, two different windows of at most 32 bits lead to different registers. */
  lemma {:induction false} WindowsDiverge(s: bv32, u: seq<bool>, v: seq<bool>)
    requires |u| == |v| <= 32 && u != v
    ensures DivideBits(s, u) != DivideBits(s, v)
    decreases |u|
  {
    hide Shift, Bit, Add;
    if DivideBits(s, u) == DivideBits(s, v) {
      Converge(s, s, u, v);
      assert u[0] == v[0];
      assert u == [u[0]] + u[1..] && v == [v[0]] + v[1..];
      WindowsDiverge(Shift(Add(s, Bit(u[0]))), u[1..], v[1..]);
    }
  }

  lemma {:induction false} LowBitsInjective(x: bv32, y: bv32, n: nat)
    requires ShiftRight(x, n) == 0 && ShiftRight(y, n) == 0 && LowBits(x, n) == LowBits(y, n)
    ensures x == y
    decreases n
  {
    if n > 0 {
      assert LowBits(x, n)[0] == LowBits(y, n)[0];
      assert LowBits(x, n)[1..] == LowBits(y, n)[1..];
      LowBitsInjective(x >> 1, y >> 1, n - 1);
      SameParts(x, y);
    }
  }

  lemma SameParts(x: bv32, y: bv32)
    requires x >> 1 == y >> 1 && (x & 1 == 1) == (y & 1 == 1)
    ensures x == y
  {
  }

  lemma WidenInjective(a: bv8, b: bv8)
    requires a as bv32 == b as bv32
    ensures a == b
  {
  }

  lemma ByteBitsInjective(a: bv8, b: bv8)
    requires ByteBits(a) == ByteBits(b)
    ensures a == b
  {
    ByteIsShort(a);
    ByteIsShort(b);
    LowBitsInjective(a as bv32, b as bv32, 8);
    WidenInjective(a, b);
  }

  lemma BufferBitsParts(a: seq<bv8>)
    requires a != []
    ensures BufferBits(a)[..8] == ByteBits(a[0]) && BufferBits(a)[8..] == BufferBits(a[1..])
  {
  }

  lemma {:induction false} BufferBitsInjective(a: seq<bv8>, b: seq<bv8>)
    requires |a| == |b| && BufferBits(a) == BufferBits(b)
    ensures a == b
  {
    hide BufferBits, ByteBits;
    if a != [] {
      BufferBitsParts(a);
      BufferBitsParts(b);
      ByteBitsInjective(a[0], b[0]);
      BufferBitsInjective(a[1..], b[1..]);
      assert a == [a[0]] + a[1..] && b == [b[0]] + b[1..];
    }
  }

  /** The two buffers agree on every transmitted bit outside bits i .. i + k - 1. */
  ghost predicate DifferOnlyWithin(a: seq<bv8>, b: seq<bv8>, i: nat, k: nat)
  {
    && |a| == |b| && i + k <= 8 * |a|
    && BufferBits(a)[..i] == BufferBits(b)[..i]
    && BufferBits(a)[i + k..] == BufferBits(b)[i + k..]
  }

  /** Any error burst of at most 32 bits, wherever it starts, changes the CRC. */
  lemma BurstDetected(crc: bv32, a: seq<bv8>, b: seq<bv8>, i: nat, k: nat)
    requires DifferOnlyWithin(a, b, i, k) && k <= 32 && a != b
    ensures BitwiseCrc(crc, a) != BitwiseCrc(crc, b)
  {
    hide DivideBits, BufferBits;
    var x, y := BufferBits(a), BufferBits(b);
    if x == y { BufferBitsInjective(a, b); }
    var p, u, v, q := x[..i], x[i..i + k], y[i..i + k], x[i + k..];
    assert x == p + (u + q) && y == p + (v + q);
    var s := DivideBits(crc, p);
    DivideConcat(crc, p, u + q);
    DivideConcat(crc, p, v + q);
    DivideConcat(s, u, q);
    DivideConcat(s, v, q);
    WindowsDiverge(s, u, v);
    if DivideBits(DivideBits(s, u), q) == DivideBits(DivideBits(s, v), q) {
      DivideInjective(DivideBits(s, u), DivideBits(s, v), q);
    }
  }

  /** In bytes: buffers that differ only within four consecutive bytes have different checksums. */
  lemma ByteBurstDetected(a: seq<bv8>, b: seq<bv8>, i: nat, k: nat)
    requires |a| == |b| && i + k <= |a| && k <= 4 && a != b
    requires a[..i] == b[..i] && a[i + k..] == b[i + k..]
    ensures Checksum(a) != Checksum(b)
  {
    hide DivideBits, BufferBits;
    assert a == a[..i] + (a[i..i + k] + a[i + k..]) && b == b[..i] + (b[i..i + k] + b[i + k..]);
    BufferBitsConcat(a[..i], a[i..i + k] + a[i + k..]);
    BufferBitsConcat(a[i..i + k], a[i + k..]);
    BufferBitsConcat(b[..i], b[i..i + k] + b[i + k..]);
    BufferBitsConcat(b[i..i + k], b[i + k..]);
    assert BufferBits(a)[..8 * i] == BufferBits(a[..i]);
    assert BufferBits(b)[..8 * i] == BufferBits(b[..i]);
    assert BufferBits(a)[8 * i + 8 * k..] == BufferBits(a[i + k..]);
    assert BufferBits(b)[8 * i + 8 * k..] == BufferBits(b[i + k..]);
    BurstDetected(CRC_FACTOR, a, b, 8 * i, 8 * k);
    if Checksum(a) == Checksum(b) {
      XorFactorInjective(BitwiseCrc(CRC_FACTOR, a), BitwiseCrc(CRC_FACTOR, b));
    }
  }

  lemma WordFits(w: bv32)
    ensures ShiftRight(w, 32) == 0
  {
    hide ShiftRight, By4;
    var a := By4(w);
    var b := By4(a);
    var c := By4(b);
    var d := By4(c);
    var e := By4(d);
    var f := By4(e);
    var g := By4(f);
    ShiftRightBy4(w, 28);
    ShiftRightBy4(a, 24);
    ShiftRightBy4(b, 20);
    ShiftRightBy4(c, 16);
    ShiftRightBy4(d, 12);
    ShiftRightBy4(e, 8);
    ShiftRightBy4(f, 4);
    ShiftRightBy4(g, 0);
    By4EightTimes(w);
    ShiftRightZero(0);
  }

  lemma By4EightTimes(w: bv32)
    ensures By4(By4(By4(By4(By4(By4(By4(By4(w)))))))) == 0
  {
  }

  lemma ShiftOfOne()
    ensures Shift(1) == POLYNOMIAL
  {
  }

  lemma GeneratorCancels(s: bv32)
    ensures Add(Shift(Add(s, 1)), POLYNOMIAL) == Shift(Add(s, 0))
    ensures Add(Shift(Add(s, 0)), 0) == Shift(Add(s, 0))
  {
    hide Shift, Add;
    ShiftLinear(s, 1);
    ShiftOfOne();
    AddZero(s);
    AddZero(Shift(s));
    AddAssociative(Shift(s), POLYNOMIAL, POLYNOMIAL);
    AddToItself(POLYNOMIAL);
  }

  lemma AddZero(x: bv32)
    ensures Add(x, 0) == x
  {
  }

  /** The bound of 32 bits is exact: these two windows of 33 bits (the second is the generator itself)
      lead from every register to the same register. */
  lemma BurstLimitIsTight(s: bv32)
    ensures [false] + LowBits(0, 32) != [true] + LowBits(POLYNOMIAL, 32)
    ensures DivideBits(s, [false] + LowBits(0, 32)) == DivideBits(s, [true] + LowBits(POLYNOMIAL, 32))
  {
    hide Shift, ShiftRight, LowBits, Add, Shifts;
    var zero, generator := LowBits(0, 32), LowBits(POLYNOMIAL, 32);
    assert ([false] + zero)[0] != ([true] + generator)[0];
    assert ([false] + zero)[1..] == zero && ([true] + generator)[1..] == generator;
    WordFits(0);
    WordFits(POLYNOMIAL);
    GeneratorCancels(s);
    DivideWord(Shift(Add(s, 0)), 0, 32);
    DivideWord(Shift(Add(s, 1)), POLYNOMIAL, 32);
  }
}
