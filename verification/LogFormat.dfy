/** The on-disk layout of a log block: a packed header followed by packed entries, little endian. */
module LogFormat {
  import opened Wrappers
  import opened BlockDevice
  import opened Bytes

  const MAGIC := 0x00574f42          // "BOW"
  const PARTIAL_MAGIC := 0x00424f57  // "WOB": a restore has begun
  const HEADER_BYTES := 28
  const ENTRY_BYTES := 24
  const UINT32_MAX := 0xFFFF_FFFF

  /** One block of the device, as sectors. */
  type Buffer = b: seq<Sector> | |b| > 0 witness [BLANK]

  function ByteAt(b: seq<Sector>, offset: nat): bv8 {
    if offset / 512 < |b| then b[offset / 512][offset % 512] else 0
  }

  function U16(b: seq<Sector>, offset: nat): (n: nat)
    ensures n < 0x1_0000
  {
    FromByte(ByteAt(b, offset)) + 0x100 * FromByte(ByteAt(b, offset + 1))
  }

  function U32(b: seq<Sector>, offset: nat): (n: nat)
    ensures n <= UINT32_MAX
  {
    U16(b, offset) + 0x1_0000 * U16(b, offset + 2)
  }

  function U64(b: seq<Sector>, offset: nat): nat {
    U32(b, offset) + 0x1_0000_0000 * U32(b, offset + 4)
  }

  function Bits32(b: seq<Sector>, offset: nat): bv32 {
    (ByteAt(b, offset) as bv32) | ((ByteAt(b, offset + 1) as bv32) << 8)
    | ((ByteAt(b, offset + 2) as bv32) << 16) | ((ByteAt(b, offset + 3) as bv32) << 24)
  }

  datatype Header = Header(magic: nat, headerSize: nat, blockSize: nat, count: nat, sequence: nat, sector0: nat)

  function HeaderOf(b: seq<Sector>): Header {
    Header(U32(b, 0), U16(b, 6), U32(b, 8), U32(b, 12), U32(b, 16), U64(b, 20))
  }

  datatype Entry = Entry(source: nat, dest: nat, size: nat, checksum: bv32)

  function EntryOf(b: seq<Sector>, i: nat): Entry {
    var at := HeaderOf(b).headerSize + ENTRY_BYTES * i;
    Entry(U64(b, at), U64(b, at + 8), U32(b, at + 16), Bits32(b, at + 20))
  }

  /** The signed reading of an unsigned 32-bit number. */
  function AsInt32(n: nat): int {
    if n < 0x8000_0000 then n else n - 0x1_0000_0000
  }

  /** How many sectors an entry moves. */
  function Sectors(e: Entry): nat {
    if e.size == 0 then 0 else (e.size - 1) / SECTOR_SIZE + 1
  }

  // ----- Rewriting the header in memory -----

  function WithU32(b: Buffer, offset: nat, n: nat): (r: Buffer)
    requires offset + 4 <= 512
    ensures |r| == |b|
  {
    var s := b[0];
    b[0 := s[offset := ToByte(n)][offset + 1 := ToByte(n / 0x100)]
            [offset + 2 := ToByte(n / 0x1_0000)][offset + 3 := ToByte(n / 0x100_0000)]]
  }

  function Partial(b: Buffer): (r: Buffer)
    ensures |r| == |b|
  {
    WithU32(b, 0, PARTIAL_MAGIC)
  }

  /** The buffer as it is saved at a restart point: `count` entries left, marked as begun. */
  function Restart(b: Buffer, count: nat): (r: Buffer)
    ensures |r| == |b|
  {
    Partial(WithU32(b, 12, count))
  }

  lemma WithU32Bytes(b: Buffer, offset: nat, n: nat, at: nat)
    requires offset + 4 <= 512
    ensures !(offset <= at < offset + 4) ==> ByteAt(WithU32(b, offset, n), at) == ByteAt(b, at)
  {
    var s := b[0];
    var t := WithU32(b, offset, n)[0];
    if at < 512 {
      assert at / 512 == 0 && at % 512 == at;
      if !(offset <= at < offset + 4) {
        assert t[at] == s[at];
      }
    } else {
      assert at / 512 > 0;
    }
  }

  lemma WithU32Wrote(b: Buffer, offset: nat, n: nat)
    requires offset + 4 <= 512
    ensures var r := WithU32(b, offset, n);
      && ByteAt(r, offset) == ToByte(n) && ByteAt(r, offset + 1) == ToByte(n / 0x100)
      && ByteAt(r, offset + 2) == ToByte(n / 0x1_0000) && ByteAt(r, offset + 3) == ToByte(n / 0x100_0000)
  {
    hide ToByte;
  }

  lemma WithU32Reads(b: Buffer, offset: nat, n: nat)
    requires offset + 4 <= 512 && n <= UINT32_MAX
    ensures U32(WithU32(b, offset, n), offset) == n
  {
    hide FromByte, ToByte, WithU32, ByteAt;
    WithU32Wrote(b, offset, n);
    ByteRoundTrip(n);
    ByteRoundTrip(n / 0x100);
    ByteRoundTrip(n / 0x1_0000);
    ByteRoundTrip(n / 0x100_0000);
    BytesOf(n);
  }

  /** Writing a field leaves every field beside it as it was. */
  lemma WithU32KeepsU16(b: Buffer, offset: nat, n: nat, at: nat)
    requires offset + 4 <= 512 && (at + 2 <= offset || offset + 4 <= at)
    ensures U16(WithU32(b, offset, n), at) == U16(b, at)
  {
    hide ByteAt, WithU32, FromByte;
    WithU32Bytes(b, offset, n, at);
    WithU32Bytes(b, offset, n, at + 1);
  }

  lemma WithU32KeepsU32(b: Buffer, offset: nat, n: nat, at: nat)
    requires offset + 4 <= 512 && (at + 4 <= offset || offset + 4 <= at)
    ensures U32(WithU32(b, offset, n), at) == U32(b, at)
  {
    hide WithU32, U16;
    WithU32KeepsU16(b, offset, n, at);
    WithU32KeepsU16(b, offset, n, at + 2);
  }

  lemma WithU32KeepsU64(b: Buffer, offset: nat, n: nat, at: nat)
    requires offset + 4 <= 512 && (at + 8 <= offset || offset + 4 <= at)
    ensures U64(WithU32(b, offset, n), at) == U64(b, at)
  {
    hide WithU32, U32;
    WithU32KeepsU32(b, offset, n, at);
    WithU32KeepsU32(b, offset, n, at + 4);
  }

  lemma WithU32KeepsBits(b: Buffer, offset: nat, n: nat, at: nat)
    requires offset + 4 <= at && offset + 4 <= 512
    ensures Bits32(WithU32(b, offset, n), at) == Bits32(b, at)
  {
    hide WithU32, ByteAt;
    WithU32Bytes(b, offset, n, at);
    WithU32Bytes(b, offset, n, at + 1);
    WithU32Bytes(b, offset, n, at + 2);
    WithU32Bytes(b, offset, n, at + 3);
  }

  lemma WithU32Header(b: Buffer, n: nat)
    requires n <= UINT32_MAX
    ensures HeaderOf(WithU32(b, 0, n)) == HeaderOf(b).(magic := n)
    ensures HeaderOf(WithU32(b, 12, n)) == HeaderOf(b).(count := n)
  {
    hide WithU32, U16, U32, U64;
    WithU32Reads(b, 0, n);
    WithU32KeepsU16(b, 0, n, 6);
    WithU32KeepsU32(b, 0, n, 8);
    WithU32KeepsU32(b, 0, n, 12);
    WithU32KeepsU32(b, 0, n, 16);
    WithU32KeepsU64(b, 0, n, 20);
    WithU32Reads(b, 12, n);
    WithU32KeepsU32(b, 12, n, 0);
    WithU32KeepsU16(b, 12, n, 6);
    WithU32KeepsU32(b, 12, n, 8);
    WithU32KeepsU32(b, 12, n, 16);
    WithU32KeepsU64(b, 12, n, 20);
  }

  lemma WithU32Entry(b: Buffer, offset: nat, n: nat, i: nat)
    requires offset == 0 || offset == 12
    requires HeaderOf(b).headerSize >= HEADER_BYTES && n <= UINT32_MAX
    ensures EntryOf(WithU32(b, offset, n), i) == EntryOf(b, i)
  {
    hide WithU32, U16, U32, U64, Bits32, HeaderOf;
    WithU32Header(b, n);
    var at := HeaderOf(b).headerSize + ENTRY_BYTES * i;
    WithU32KeepsU64(b, offset, n, at);
    WithU32KeepsU64(b, offset, n, at + 8);
    WithU32KeepsU32(b, offset, n, at + 16);
    WithU32KeepsBits(b, offset, n, at + 20);
  }

  lemma PartialHeader(b: Buffer)
    ensures HeaderOf(Partial(b)) == HeaderOf(b).(magic := PARTIAL_MAGIC)
  {
    hide HeaderOf, WithU32;
    WithU32Header(b, PARTIAL_MAGIC);
  }

  lemma RestartHeader(b: Buffer, count: nat)
    requires count <= UINT32_MAX
    ensures HeaderOf(Restart(b, count)) == HeaderOf(b).(magic := PARTIAL_MAGIC, count := count)
  {
    hide HeaderOf, WithU32, Partial;
    WithU32Header(b, count);
    PartialHeader(WithU32(b, 12, count));
  }

  lemma PartialEntry(b: Buffer, i: nat)
    requires HeaderOf(b).headerSize >= HEADER_BYTES
    ensures EntryOf(Partial(b), i) == EntryOf(b, i)
  {
    hide HeaderOf, EntryOf, WithU32;
    WithU32Entry(b, 0, PARTIAL_MAGIC, i);
  }

  lemma RestartEntry(b: Buffer, count: nat, i: nat)
    requires HeaderOf(b).headerSize >= HEADER_BYTES && count <= UINT32_MAX
    ensures EntryOf(Restart(b, count), i) == EntryOf(b, i)
  {
    hide HeaderOf, EntryOf, WithU32, Partial;
    WithU32Header(b, count);
    WithU32Entry(b, 12, count, i);
    PartialEntry(WithU32(b, 12, count), i);
  }

  /** Restart points overwrite each other. */
  lemma RestartAgain(b: Buffer, m: nat, n: nat)
    ensures Restart(Restart(b, m), n) == Restart(b, n)
  {
    assert Restart(Restart(b, m), n)[0] == Restart(b, n)[0];
  }

  /** The header is in the first sector of the block, and the block at the start of the disk. */
  lemma HeaderOfPrefix(d: seq<Sector>, block: nat)
    requires 0 < block <= |d|
    ensures HeaderOf(d[..block]) == HeaderOf(d)
  {
    hide U16, U32, U64;
    forall at: nat | at < 64
      ensures U16(d[..block], at) == U16(d, at)
      ensures U32(d[..block], at) == U32(d, at)
      ensures U64(d[..block], at) == U64(d, at)
    {
      FieldsOfPrefix(d, block, at);
    }
  }

  lemma FieldsOfPrefix(d: seq<Sector>, block: nat, at: nat)
    requires 0 < block <= |d| && at < 64
    ensures U16(d[..block], at) == U16(d, at)
    ensures U32(d[..block], at) == U32(d, at)
    ensures U64(d[..block], at) == U64(d, at)
  {
    hide FromByte;
    assert forall i: nat :: i < 512 ==> ByteAt(d[..block], i) == ByteAt(d, i);
  }
}
