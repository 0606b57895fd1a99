/**
  The checksum that guards every entry of the block-checkpoint log.

  `Crc32` is the table-driven loop.  Its reference is `Divide`: one bit of the message at a
  time, least significant bit first, shifted into a register that is reduced by the reflected
  polynomial 0xEDB88320.  There is no inversion before or after, and any starting value is allowed.
*/
module Checksum {

  const POLYNOMIAL: bv32 := 0xEDB88320

  // ----- Reference: bit-serial reflected division -----

  /** Shifts one message bit into the register. */
  function FeedBit(crc: bv32, bit: bool): bv32 {
    if (crc & 1 == 1) != bit then (crc >> 1) ^ POLYNOMIAL else crc >> 1
  }

  function Divide(bits: seq<bool>, crc: bv32): bv32 {
    if bits == [] then crc else Divide(bits[1..], FeedBit(crc, bits[0]))
  }

  /** The `n` low bits of `v`, least significant first. */
  function LowBits(v: bv32, n: nat): (bits: seq<bool>)
    ensures |bits| == n
    decreases n
  {
    if n == 0 then [] else [v & 1 == 1] + LowBits(v >> 1, n - 1)
  }

  /** The bits of a buffer in the order in which the checksum consumes them. */
  function BitsOf(data: seq<bv8>): (bits: seq<bool>)
    ensures |bits| == 8 * |data|
  {
    if data == [] then [] else LowBits(data[0] as bv32, 8) + BitsOf(data[1..])
  }

  // ----- The table -----

  const ROW_0: seq<bv32> := [
    0x00000000, 0x77073096, 0xEE0E612C, 0x990951BA, 0x076DC419, 0x706AF48F, 0xE963A535, 0x9E6495A3,
    0x0EDB8832, 0x79DCB8A4, 0xE0D5E91E, 0x97D2D988, 0x09B64C2B, 0x7EB17CBD, 0xE7B82D07, 0x90BF1D91
  ]
  const ROW_1: seq<bv32> := [
    0x1DB71064, 0x6AB020F2, 0xF3B97148, 0x84BE41DE, 0x1ADAD47D, 0x6DDDE4EB, 0xF4D4B551, 0x83D385C7,
    0x136C9856, 0x646BA8C0, 0xFD62F97A, 0x8A65C9EC, 0x14015C4F, 0x63066CD9, 0xFA0F3D63, 0x8D080DF5
  ]
  const ROW_2: seq<bv32> := [
    0x3B6E20C8, 0x4C69105E, 0xD56041E4, 0xA2677172, 0x3C03E4D1, 0x4B04D447, 0xD20D85FD, 0xA50AB56B,
    0x35B5A8FA, 0x42B2986C, 0xDBBBC9D6, 0xACBCF940, 0x32D86CE3, 0x45DF5C75, 0xDCD60DCF, 0xABD13D59
  ]
  const ROW_3: seq<bv32> := [
    0x26D930AC, 0x51DE003A, 0xC8D75180, 0xBFD06116, 0x21B4F4B5, 0x56B3C423, 0xCFBA9599, 0xB8BDA50F,
    0x2802B89E, 0x5F058808, 0xC60CD9B2, 0xB10BE924, 0x2F6F7C87, 0x58684C11, 0xC1611DAB, 0xB6662D3D
  ]
  const ROW_4: seq<bv32> := [
    0x76DC4190, 0x01DB7106, 0x98D220BC, 0xEFD5102A, 0x71B18589, 0x06B6B51F, 0x9FBFE4A5, 0xE8B8D433,
    0x7807C9A2, 0x0F00F934, 0x9609A88E, 0xE10E9818, 0x7F6A0DBB, 0x086D3D2D, 0x91646C97, 0xE6635C01
  ]
  const ROW_5: seq<bv32> := [
    0x6B6B51F4, 0x1C6C6162, 0x856530D8, 0xF262004E, 0x6C0695ED, 0x1B01A57B, 0x8208F4C1, 0xF50FC457,
    0x65B0D9C6, 0x12B7E950, 0x8BBEB8EA, 0xFCB9887C, 0x62DD1DDF, 0x15DA2D49, 0x8CD37CF3, 0xFBD44C65
  ]
  const ROW_6: seq<bv32> := [
    0x4DB26158, 0x3AB551CE, 0xA3BC0074, 0xD4BB30E2, 0x4ADFA541, 0x3DD895D7, 0xA4D1C46D, 0xD3D6F4FB,
    0x4369E96A, 0x346ED9FC, 0xAD678846, 0xDA60B8D0, 0x44042D73, 0x33031DE5, 0xAA0A4C5F, 0xDD0D7CC9
  ]
  const ROW_7: seq<bv32> := [
    0x5005713C, 0x270241AA, 0xBE0B1010, 0xC90C2086, 0x5768B525, 0x206F85B3, 0xB966D409, 0xCE61E49F,
    0x5EDEF90E, 0x29D9C998, 0xB0D09822, 0xC7D7A8B4, 0x59B33D17, 0x2EB40D81, 0xB7BD5C3B, 0xC0BA6CAD
  ]
  const ROW_8: seq<bv32> := [
    0xEDB88320, 0x9ABFB3B6, 0x03B6E20C, 0x74B1D29A, 0xEAD54739, 0x9DD277AF, 0x04DB2615, 0x73DC1683,
    0xE3630B12, 0x94643B84, 0x0D6D6A3E, 0x7A6A5AA8, 0xE40ECF0B, 0x9309FF9D, 0x0A00AE27, 0x7D079EB1
  ]
  const ROW_9: seq<bv32> := [
    0xF00F9344, 0x8708A3D2, 0x1E01F268, 0x6906C2FE, 0xF762575D, 0x806567CB, 0x196C3671, 0x6E6B06E7,
    0xFED41B76, 0x89D32BE0, 0x10DA7A5A, 0x67DD4ACC, 0xF9B9DF6F, 0x8EBEEFF9, 0x17B7BE43, 0x60B08ED5
  ]
  const ROW_A: seq<bv32> := [
    0xD6D6A3E8, 0xA1D1937E, 0x38D8C2C4, 0x4FDFF252, 0xD1BB67F1, 0xA6BC5767, 0x3FB506DD, 0x48B2364B,
    0xD80D2BDA, 0xAF0A1B4C, 0x36034AF6, 0x41047A60, 0xDF60EFC3, 0xA867DF55, 0x316E8EEF, 0x4669BE79
  ]
  const ROW_B: seq<bv32> := [
    0xCB61B38C, 0xBC66831A, 0x256FD2A0, 0x5268E236, 0xCC0C7795, 0xBB0B4703, 0x220216B9, 0x5505262F,
    0xC5BA3BBE, 0xB2BD0B28, 0x2BB45A92, 0x5CB36A04, 0xC2D7FFA7, 0xB5D0CF31, 0x2CD99E8B, 0x5BDEAE1D
  ]
  const ROW_C: seq<bv32> := [
    0x9B64C2B0, 0xEC63F226, 0x756AA39C, 0x026D930A, 0x9C0906A9, 0xEB0E363F, 0x72076785, 0x05005713,
    0x95BF4A82, 0xE2B87A14, 0x7BB12BAE, 0x0CB61B38, 0x92D28E9B, 0xE5D5BE0D, 0x7CDCEFB7, 0x0BDBDF21
  ]
  const ROW_D: seq<bv32> := [
    0x86D3D2D4, 0xF1D4E242, 0x68DDB3F8, 0x1FDA836E, 0x81BE16CD, 0xF6B9265B, 0x6FB077E1, 0x18B74777,
    0x88085AE6, 0xFF0F6A70, 0x66063BCA, 0x11010B5C, 0x8F659EFF, 0xF862AE69, 0x616BFFD3, 0x166CCF45
  ]
  const ROW_E: seq<bv32> := [
    0xA00AE278, 0xD70DD2EE, 0x4E048354, 0x3903B3C2, 0xA7672661, 0xD06016F7, 0x4969474D, 0x3E6E77DB,
    0xAED16A4A, 0xD9D65ADC, 0x40DF0B66, 0x37D83BF0, 0xA9BCAE53, 0xDEBB9EC5, 0x47B2CF7F, 0x30B5FFE9
  ]
  const ROW_F: seq<bv32> := [
    0xBDBDF21C, 0xCABAC28A, 0x53B39330, 0x24B4A3A6, 0xBAD03605, 0xCDD70693, 0x54DE5729, 0x23D967BF,
    0xB3667A2E, 0xC4614AB8, 0x5D681B02, 0x2A6F2B94, 0xB40BBE37, 0xC30C8EA1, 0x5A05DF1B, 0x2D02EF8D
  ]

  function Row(h: bv8): seq<bv32> {
    match h
    case 0 => ROW_0
    case 1 => ROW_1
    case 2 => ROW_2
    case 3 => ROW_3
    case 4 => ROW_4
    case 5 => ROW_5
    case 6 => ROW_6
    case 7 => ROW_7
    case 8 => ROW_8
    case 9 => ROW_9
    case 10 => ROW_A
    case 11 => ROW_B
    case 12 => ROW_C
    case 13 => ROW_D
    case 14 => ROW_E
    case _ => ROW_F
  }

  /** The table entry for byte `i`. */
  function Table(i: bv8): bv32 {
    RowsAreFull(i >> 4);
    Nibble(i & 15);
    Row(i >> 4)[(i & 15) as int]
  }

  lemma RowsAreFull(h: bv8)
    ensures |Row(h)| == 16
  {
  }

  lemma Nibble(n: bv8)
    requires n < 16
    ensures 0 <= n as int < 16
  {
    match n
    case 0 => case 1 => case 2 => case 3 => case 4 => case 5 => case 6 => case 7 =>
    case 8 => case 9 => case 10 => case 11 => case 12 => case 13 => case 14 => case _ =>
  }

  // ----- The loop -----

  function Reduce(x: bv32): bv32 {
    Table((x & 0xFF) as bv8) ^ (x >> 8)
  }

  /** What one byte does to the running checksum. */
  function FeedByte(crc: bv32, b: bv8): bv32 {
    Reduce(crc ^ (b as bv32))
  }

  function Crc(data: seq<bv8>, crc: bv32): bv32 {
    if data == [] then crc else Crc(data[1..], FeedByte(crc, data[0]))
  }

  /** The loop of the checksum routine: a running value updated byte by byte. */
  method Crc32(data: seq<bv8>, start: bv32) returns (crc: bv32)
    ensures crc == Divide(BitsOf(data), start)
    ensures crc == Crc(data, start)
  {
    hide Reduce;
    crc := start;
    for i := 0 to |data|
      invariant Crc(data[i..], crc) == Crc(data, start)
    {
      crc := crc ^ (data[i] as bv32);
      crc := Reduce(crc);
      assert data[i..][1..] == data[i + 1..];
    }
    TableDrivenIsBitSerial(data, start);
  }

  // ----- One reduction step, with no message bit -----

  function Shift(c: bv32): bv32 {
    if c & 1 == 1 then (c >> 1) ^ POLYNOMIAL else c >> 1
  }

  function Shifts(c: bv32, n: nat): bv32
    decreases n
  {
    if n == 0 then c else Shifts(Shift(c), n - 1)
  }

  function ShiftRight(c: bv32, n: nat): bv32
    decreases n
  {
    if n == 0 then c else ShiftRight(c >> 1, n - 1)
  }

  /** Exclusive or under a name, so that proofs can reason about it without looking at bits. */
  ghost function Xor(a: bv32, b: bv32): bv32 {
    a ^ b
  }

  lemma XorOfBits(a: bv32, b: bv32)
    ensures (a ^ b) >> 1 == (a >> 1) ^ (b >> 1)
    ensures (a ^ b) & 1 == (a & 1) ^ (b & 1)
    ensures a & 1 == 0 || a & 1 == 1
    ensures b & 1 == 0 || b & 1 == 1
  {
  }

  lemma XorAlgebra(a: bv32, b: bv32, p: bv32)
    ensures (a ^ p) ^ b == (a ^ b) ^ p
    ensures a ^ (b ^ p) == (a ^ b) ^ p
    ensures (a ^ p) ^ (b ^ p) == a ^ b
  {
  }

  lemma ShiftOfXor(a: bv32, b: bv32)
    ensures Shift(a ^ b) == Shift(a) ^ Shift(b)
  {
    XorOfBits(a, b);
    XorAlgebra(a >> 1, b >> 1, POLYNOMIAL);
    if a & 1 == 1 && b & 1 == 1 {
      assert (a ^ b) & 1 == 0;
    } else if a & 1 == 0 && b & 1 == 0 {
      assert (a ^ b) & 1 == 0;
    } else {
      assert (a ^ b) & 1 == 1;
    }
  }

  lemma ShiftIsLinear(a: bv32, b: bv32)
    ensures Shift(Xor(a, b)) == Xor(Shift(a), Shift(b))
  {
    hide Shift;
    ShiftOfXor(a, b);
  }

  lemma {:induction false} ShiftsAreLinear(a: bv32, b: bv32, n: nat)
    ensures Shifts(Xor(a, b), n) == Xor(Shifts(a, n), Shifts(b, n))
    decreases n
  {
    hide Xor, Shift;
    if n > 0 {
      ShiftIsLinear(a, b);
      ShiftsAreLinear(Shift(a), Shift(b), n - 1);
    }
  }

  lemma Unroll(c: bv32)
    ensures Shifts(c, 8) == Shift(Shift(Shift(Shift(Shift(Shift(Shift(Shift(c))))))))
    ensures ShiftRight(c, 8) == c >> 8
  {
    var d := Shift(Shift(Shift(Shift(c))));
    assert Shifts(c, 8) == Shifts(Shift(Shift(c)), 6) == Shifts(d, 4);
    assert Shifts(d, 4) == Shifts(Shift(Shift(d)), 2);
    assert ShiftRight(c, 8) == ShiftRight(c >> 1 >> 1, 6) == ShiftRight(c >> 1 >> 1 >> 1 >> 1, 4);
    assert c >> 1 >> 1 >> 1 >> 1 == c >> 4;
    assert ShiftRight(c >> 4, 4) == ShiftRight(c >> 4 >> 1 >> 1, 2);
    assert c >> 4 >> 1 >> 1 >> 1 >> 1 == c >> 8;
  }

  // ----- Every table entry is eight reduction steps -----

  lemma LowRow(n: bv8)
    requires n < 16
    ensures 0 <= n as int < 16
    ensures ROW_0[n as int] == Shifts(n as bv32, 8)
  {
    hide Shifts;
    if n < 8 { LowRowStart(n); } else { LowRowEnd(n); }
  }

  lemma LowRowStart(n: bv8)
    requires n < 8
    ensures 0 <= n as int < 8
    ensures ROW_0[n as int] == Shifts(n as bv32, 8)
  {
    Unroll(n as bv32);
    match n
    case 0 => case 1 => case 2 => case 3 => case 4 => case 5 => case 6 => case _ =>
  }

  lemma LowRowEnd(n: bv8)
    requires 8 <= n < 16
    ensures 8 <= n as int < 16
    ensures ROW_0[n as int] == Shifts(n as bv32, 8)
  {
    Unroll(n as bv32);
    match n
    case 8 => case 9 => case 10 => case 11 => case 12 => case 13 => case 14 => case _ =>
  }

  /** `row` is the first row offset by its own first entry. */
  ghost predicate Offset(row: seq<bv32>, first: bv32) {
    && |row| == 16
    && row[0] == first
    && forall n :: 0 <= n < 16 ==> row[n] == Xor(ROW_0[n], first)
  }

  lemma Rows0()
    ensures Offset(ROW_0, 0x00000000)
    ensures Offset(ROW_1, 0x1DB71064)
    ensures Offset(ROW_2, 0x3B6E20C8)
    ensures Offset(ROW_3, 0x26D930AC)
  {
    forall n | 0 <= n < 16
      ensures ROW_0[n] == Xor(ROW_0[n], 0x00000000)
      ensures ROW_1[n] == Xor(ROW_0[n], 0x1DB71064)
      ensures ROW_2[n] == Xor(ROW_0[n], 0x3B6E20C8)
      ensures ROW_3[n] == Xor(ROW_0[n], 0x26D930AC)
    {
      assert n == 0 || n == 1 || n == 2 || n == 3 || n == 4 || n == 5 || n == 6 || n == 7
          || n == 8 || n == 9 || n == 10 || n == 11 || n == 12 || n == 13 || n == 14 || n == 15;
    }
  }

  lemma Rows1()
    ensures Offset(ROW_4, 0x76DC4190)
    ensures Offset(ROW_5, 0x6B6B51F4)
    ensures Offset(ROW_6, 0x4DB26158)
    ensures Offset(ROW_7, 0x5005713C)
  {
    forall n | 0 <= n < 16
      ensures ROW_4[n] == Xor(ROW_0[n], 0x76DC4190)
      ensures ROW_5[n] == Xor(ROW_0[n], 0x6B6B51F4)
      ensures ROW_6[n] == Xor(ROW_0[n], 0x4DB26158)
      ensures ROW_7[n] == Xor(ROW_0[n], 0x5005713C)
    {
      assert n == 0 || n == 1 || n == 2 || n == 3 || n == 4 || n == 5 || n == 6 || n == 7
          || n == 8 || n == 9 || n == 10 || n == 11 || n == 12 || n == 13 || n == 14 || n == 15;
    }
  }

  lemma Rows2()
    ensures Offset(ROW_8, 0xEDB88320)
    ensures Offset(ROW_9, 0xF00F9344)
    ensures Offset(ROW_A, 0xD6D6A3E8)
    ensures Offset(ROW_B, 0xCB61B38C)
  {
    forall n | 0 <= n < 16
      ensures ROW_8[n] == Xor(ROW_0[n], 0xEDB88320)
      ensures ROW_9[n] == Xor(ROW_0[n], 0xF00F9344)
      ensures ROW_A[n] == Xor(ROW_0[n], 0xD6D6A3E8)
      ensures ROW_B[n] == Xor(ROW_0[n], 0xCB61B38C)
    {
      assert n == 0 || n == 1 || n == 2 || n == 3 || n == 4 || n == 5 || n == 6 || n == 7
          || n == 8 || n == 9 || n == 10 || n == 11 || n == 12 || n == 13 || n == 14 || n == 15;
    }
  }

  lemma Rows3()
    ensures Offset(ROW_C, 0x9B64C2B0)
    ensures Offset(ROW_D, 0x86D3D2D4)
    ensures Offset(ROW_E, 0xA00AE278)
    ensures Offset(ROW_F, 0xBDBDF21C)
  {
    forall n | 0 <= n < 16
      ensures ROW_C[n] == Xor(ROW_0[n], 0x9B64C2B0)
      ensures ROW_D[n] == Xor(ROW_0[n], 0x86D3D2D4)
      ensures ROW_E[n] == Xor(ROW_0[n], 0xA00AE278)
      ensures ROW_F[n] == Xor(ROW_0[n], 0xBDBDF21C)
    {
      assert n == 0 || n == 1 || n == 2 || n == 3 || n == 4 || n == 5 || n == 6 || n == 7
          || n == 8 || n == 9 || n == 10 || n == 11 || n == 12 || n == 13 || n == 14 || n == 15;
    }
  }

  lemma RowsAreOffset(h: bv8)
    requires h < 16
    ensures Offset(Row(h), Shifts((h as bv32) << 4, 8))
  {
    Unroll((h as bv32) << 4);
    match h
    case 0 => Rows0();
    case 1 => Rows0();
    case 2 => Rows0();
    case 3 => Rows0();
    case 4 => Rows1();
    case 5 => Rows1();
    case 6 => Rows1();
    case 7 => Rows1();
    case 8 => Rows2();
    case 9 => Rows2();
    case 10 => Rows2();
    case 11 => Rows2();
    case 12 => Rows3();
    case 13 => Rows3();
    case 14 => Rows3();
    case _ => Rows3();
  }

  lemma Halves(i: bv8)
    ensures i & 15 < 16 && i >> 4 < 16
    ensures i as bv32 == Xor((i & 15) as bv32, ((i >> 4) as bv32) << 4)
  {
  }

  lemma TableEntry(i: bv8)
    ensures Table(i) == Shifts(i as bv32, 8)
  {
    hide Xor, Shift, Shifts, Row;
    Halves(i);
    RowsAreOffset(i >> 4);
    LowRow(i & 15);
    ShiftsAreLinear((i & 15) as bv32, ((i >> 4) as bv32) << 4, 8);
  }

  // ----- The table-driven step against the reference -----

  ghost predicate LowBitsClear(h: bv32, n: nat)
    decreases n
  {
    n == 0 || (h & 1 == 0 && LowBitsClear(h >> 1, n - 1))
  }

  lemma {:induction false} ShiftsOfClearBits(h: bv32, n: nat)
    requires LowBitsClear(h, n)
    ensures Shifts(h, n) == ShiftRight(h, n)
    decreases n
  {
    if n > 0 {
      assert h & 1 != 1;
      ShiftsOfClearBits(h >> 1, n - 1);
    }
  }

  lemma HighBytesAreClear(h: bv32)
    requires h & 0xFF == 0
    ensures LowBitsClear(h, 8)
  {
    assert h & 1 == 0 && (h >> 1) & 1 == 0 && (h >> 1 >> 1) & 1 == 0 && (h >> 1 >> 1 >> 1) & 1 == 0;
    var g := h >> 1 >> 1 >> 1 >> 1;
    assert g & 1 == 0 && (g >> 1) & 1 == 0 && (g >> 1 >> 1) & 1 == 0 && (g >> 1 >> 1 >> 1) & 1 == 0;
    assert LowBitsClear(g, 4);
  }

  lemma LowByte(x: bv32)
    ensures ((x & 0xFF) as bv8) as bv32 == x & 0xFF
    ensures (x & 0xFFFF_FF00) & 0xFF == 0
    ensures (x & 0xFFFF_FF00) >> 8 == x >> 8
  {
  }

  lemma Bytes(x: bv32)
    ensures Xor(x & 0xFF, x & 0xFFFF_FF00) == x
  {
  }

  lemma ReduceAsXor(x: bv32)
    ensures Reduce(x) == Xor(Table((x & 0xFF) as bv8), x >> 8)
  {
    hide Table;
  }

  lemma ReduceIsEightShifts(x: bv32)
    ensures Reduce(x) == Shifts(x, 8)
  {
    hide Xor, Shift, Shifts, Table, ShiftRight, LowBitsClear, Reduce;
    ReduceAsXor(x);
    var low, high := x & 0xFF, x & 0xFFFF_FF00;
    LowByte(x);
    Bytes(x);
    HighBytesAreClear(high);
    Unroll(high);
    ShiftsAreLinear(low, high, 8);
    TableEntry((x & 0xFF) as bv8);
    ShiftsOfClearBits(high, 8);
  }

  lemma FeedByteIsEightShifts(crc: bv32, b: bv8)
    ensures FeedByte(crc, b) == Shifts(Xor(crc, b as bv32), 8)
  {
    hide Shifts, Reduce;
    ReduceIsEightShifts(crc ^ (b as bv32));
  }

  lemma FeedBitOfXor(crc: bv32, v: bv32)
    ensures FeedBit(crc, v & 1 == 1) ^ (v >> 1) == Shift(crc ^ v)
  {
    XorOfBits(crc, v);
    XorAlgebra(crc >> 1, v >> 1, POLYNOMIAL);
    if crc & 1 == 1 && v & 1 == 1 {
      assert (crc ^ v) & 1 == 0;
    } else if crc & 1 == 0 && v & 1 == 0 {
      assert (crc ^ v) & 1 == 0;
    } else {
      assert (crc ^ v) & 1 == 1;
    }
  }

  lemma FeedBitIsShift(crc: bv32, v: bv32)
    ensures Xor(FeedBit(crc, v & 1 == 1), v >> 1) == Shift(Xor(crc, v))
  {
    hide Shift, FeedBit;
    FeedBitOfXor(crc, v);
  }

  lemma {:induction false} DivideLowBits(v: bv32, n: nat, crc: bv32)
    ensures Xor(Divide(LowBits(v, n), crc), ShiftRight(v, n)) == Shifts(Xor(crc, v), n)
    decreases n
  {
    hide Xor, Shift, FeedBit;
    if n > 0 {
      var bit, rest := v & 1 == 1, v >> 1;
      FeedBitIsShift(crc, v);
      DivideLowBits(rest, n - 1, FeedBit(crc, bit));
      assert LowBits(v, n)[1..] == LowBits(rest, n - 1);
    }
  }

  lemma DivideByte(b: bv8, crc: bv32)
    ensures Divide(LowBits(b as bv32, 8), crc) == FeedByte(crc, b)
  {
    hide Divide, LowBits, Shifts, FeedByte, ShiftRight;
    DivideLowBits(b as bv32, 8, crc);
    Unroll(b as bv32);
    FeedByteIsEightShifts(crc, b);
    assert (b as bv32) >> 8 == 0;
    var d := Divide(LowBits(b as bv32, 8), crc);
    assert d ^ 0 == d;
  }

  lemma {:induction false} DivideConcat(x: seq<bool>, y: seq<bool>, crc: bv32)
    ensures Divide(x + y, crc) == Divide(y, Divide(x, crc))
  {
    if x == [] {
      assert x + y == y;
    } else {
      assert (x + y)[1..] == x[1..] + y;
      DivideConcat(x[1..], y, FeedBit(crc, x[0]));
    }
  }

  /** The table-driven checksum is bit-serial division of the whole message, from any start. */
  lemma {:induction false} TableDrivenIsBitSerial(data: seq<bv8>, crc: bv32)
    ensures Crc(data, crc) == Divide(BitsOf(data), crc)
  {
    if data != [] {
      DivideByte(data[0], crc);
      DivideConcat(LowBits(data[0] as bv32, 8), BitsOf(data[1..]), crc);
      TableDrivenIsBitSerial(data[1..], FeedByte(crc, data[0]));
    }
  }

  /** Running block by block is running over the concatenation. */
  lemma {:induction false} CrcConcat(x: seq<bv8>, y: seq<bv8>, crc: bv32)
    ensures Crc(x + y, crc) == Crc(y, Crc(x, crc))
  {
    if x == [] {
      assert x + y == y;
    } else {
      assert (x + y)[1..] == x[1..] + y;
      CrcConcat(x[1..], y, FeedByte(crc, x[0]));
    }
  }

  // ----- A change confined to one byte is always noticed -----

  lemma ShiftIsInjective(c: bv32, d: bv32)
    requires Shift(c) == Shift(d)
    ensures c == d
  {
  }

  lemma {:induction false} ShiftsAreInjective(c: bv32, d: bv32, n: nat)
    requires Shifts(c, n) == Shifts(d, n)
    ensures c == d
    decreases n
  {
    if n > 0 {
      ShiftsAreInjective(Shift(c), Shift(d), n - 1);
      ShiftIsInjective(c, d);
    }
  }

  lemma FeedByteIsInjective(c: bv32, a: bv8, d: bv32, b: bv8)
    requires FeedByte(c, a) == FeedByte(d, b)
    ensures c ^ (a as bv32) == d ^ (b as bv32)
  {
    hide FeedByte, Shifts;
    FeedByteIsEightShifts(c, a);
    FeedByteIsEightShifts(d, b);
    ShiftsAreInjective(c ^ (a as bv32), d ^ (b as bv32), 8);
  }

  lemma {:induction false} CrcIsInjectiveInStart(data: seq<bv8>, c: bv32, d: bv32)
    requires Crc(data, c) == Crc(data, d)
    ensures c == d
  {
    if data != [] {
      CrcIsInjectiveInStart(data[1..], FeedByte(c, data[0]), FeedByte(d, data[0]));
      FeedByteIsInjective(c, data[0], d, data[0]);
      var v := data[0] as bv32;
      assert (c ^ v) ^ v == c && (d ^ v) ^ v == d;
    }
  }

  lemma OneByteChangeIsDetected(data: seq<bv8>, i: nat, b: bv8, start: bv32)
    requires i < |data| && b != data[i]
    ensures Crc(data[i := b], start) != Crc(data, start)
  {
    hide FeedByte;
    var mid, rest, was := Crc(data[..i], start), data[i + 1..], data[i];
    assert data == data[..i] + ([was] + rest);
    assert data[i := b] == data[..i] + ([b] + rest);
    CrcConcat(data[..i], [was] + rest, start);
    CrcConcat(data[..i], [b] + rest, start);
    assert ([was] + rest)[1..] == rest && ([b] + rest)[1..] == rest;
    if Crc(data[i := b], start) == Crc(data, start) {
      CrcIsInjectiveInStart(rest, FeedByte(mid, was), FeedByte(mid, b));
      FeedByteIsInjective(mid, was, mid, b);
      XorCancels(mid, was, b);
      assert false;
    }
  }

  lemma XorCancels(c: bv32, a: bv8, b: bv8)
    requires c ^ (a as bv32) == c ^ (b as bv32)
    ensures a == b
  {
    assert c ^ (c ^ (a as bv32)) == a as bv32 && c ^ (c ^ (b as bv32)) == b as bv32;
    assert (a as bv32) as bv8 == a && (b as bv32) as bv8 == b;
  }
}
