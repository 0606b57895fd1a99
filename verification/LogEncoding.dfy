/**
  What the restore code makes of a log block, in terms of its bytes: `LogBytes` lays a log block out
  field after field as the packed structures are declared, and is read back by `HeaderOf` and `EntryOf`;
  which headers and which entries are accepted is said by literal bounds and by bit-serial division.
*/
module LogEncoding {
  import opened Arithmetic
  import opened Wrappers
  import opened BlockDevice
  import opened Bytes
  import opened LogFormat
  import opened Checksum
  import opened Replay
  import opened Relocations
  import opened Validation
  import opened Corruption

  // ----- Writing numbers -----

  /** The `width` lowest bytes, least significant first. */
  function LittleEndian(n: nat, width: nat): (bytes: seq<bv8>)
    ensures |bytes| == width
    decreases width
  {
    if width == 0 then [] else [ToByte(n)] + LittleEndian(n / 0x100, width - 1)
  }

  /** The bytes of a buffer from `at` on. */
  predicate Holds(b: seq<Sector>, at: nat, bytes: seq<bv8>) {
    at + |bytes| <= |Flatten(b)| && Flatten(b)[at..at + |bytes|] == bytes
  }

  lemma {:induction false} FlattenAt(b: seq<Sector>, at: nat)
    ensures at < |Flatten(b)| <==> at < 512 * |b|
    ensures at < |Flatten(b)| ==> Flatten(b)[at] == ByteAt(b, at)
  {
    FlattenLength(b);
    if at < 512 * |b| {
      FlattenOneByte(b, at / 512, at % 512, 0);
    }
  }

  lemma HeldByte(b: seq<Sector>, at: nat, bytes: seq<bv8>, k: nat)
    requires Holds(b, at, bytes) && k < |bytes|
    ensures ByteAt(b, at + k) == bytes[k]
  {
    hide ByteAt, Flatten;
    FlattenAt(b, at + k);
    assert Flatten(b)[at..at + |bytes|][k] == bytes[k];
  }

  lemma HeldParts(b: seq<Sector>, at: nat, x: seq<bv8>, y: seq<bv8>)
    requires Holds(b, at, x + y)
    ensures Holds(b, at, x) && Holds(b, at + |x|, y)
  {
    hide Flatten;
    var all := Flatten(b)[at..at + |x + y|];
    assert all[..|x|] == x && all[|x|..] == y;
  }

  // ----- Reading them back -----

  lemma ReadsU16(b: seq<Sector>, at: nat, n: nat)
    requires Holds(b, at, LittleEndian(n, 2))
    ensures U16(b, at) == n % 0x1_0000
  {
    hide ByteAt, Flatten, ToByte, FromByte, Holds;
    var bytes := LittleEndian(n, 2);
    assert bytes[0] == ToByte(n) && bytes[1] == ToByte(n / 0x100) by {
      assert LittleEndian(n / 0x100, 1) == [ToByte(n / 0x100)];
    }
    HeldByte(b, at, bytes, 0);
    HeldByte(b, at, bytes, 1);
    ByteRoundTrip(n);
    ByteRoundTrip(n / 0x100);
    TwoBytes(n);
  }

  lemma TwoBytes(n: nat)
    ensures n % 0x1_0000 == n % 0x100 + 0x100 * (n / 0x100 % 0x100)
  {
    var high := n / 0x100;
    assert n == 0x1_0000 * (high / 0x100) + (0x100 * (high % 0x100) + n % 0x100);
    Quotient(high / 0x100, 0x100 * (high % 0x100) + n % 0x100, 0x1_0000);
  }

  /** What is left of a number after `k` bytes. */
  function Above(n: nat, k: nat): nat
    decreases k
  {
    if k == 0 then n else Above(n / 0x100, k - 1)
  }

  lemma {:induction false} LittleEndianInTwo(n: nat, low: nat, high: nat)
    ensures LittleEndian(n, low + high) == LittleEndian(n, low) + LittleEndian(Above(n, low), high)
    decreases low
  {
    hide ToByte;
    if low > 0 {
      LittleEndianInTwo(n / 0x100, low - 1, high);
    }
  }

  lemma AboveIs(n: nat)
    ensures Above(n, 2) == n / 0x1_0000 && Above(n, 4) == n / 0x1_0000_0000
  {
    assert Above(n, 2) == Above(n / 0x100, 1) == n / 0x100 / 0x100;
    assert Above(n, 4) == Above(n / 0x100 / 0x100, 2) == n / 0x100 / 0x100 / 0x100 / 0x100;
  }

  lemma ReadsU32(b: seq<Sector>, at: nat, n: nat)
    requires Holds(b, at, LittleEndian(n, 4))
    ensures U32(b, at) == n % 0x1_0000_0000
  {
    hide U16, Flatten, ToByte, Holds, LittleEndian, Above;
    LittleEndianInTwo(n, 2, 2);
    AboveIs(n);
    HeldParts(b, at, LittleEndian(n, 2), LittleEndian(n / 0x1_0000, 2));
    ReadsU16(b, at, n);
    ReadsU16(b, at + 2, n / 0x1_0000);
  }

  lemma ReadsU64(b: seq<Sector>, at: nat, n: nat)
    requires Holds(b, at, LittleEndian(n, 8)) && n < 0x1_0000_0000_0000_0000
    ensures U64(b, at) == n
  {
    hide U32, Flatten, ToByte, Holds, LittleEndian, Above;
    LittleEndianInTwo(n, 4, 4);
    AboveIs(n);
    HeldParts(b, at, LittleEndian(n, 4), LittleEndian(n / 0x1_0000_0000, 4));
    ReadsU32(b, at, n);
    ReadsU32(b, at + 4, n / 0x1_0000_0000);
  }

  /** The four bytes of a checksum, least significant first. */
  function ChecksumBytes(c: bv32): (bytes: seq<bv8>)
    ensures |bytes| == 4
  {
    [(c & 0xFF) as bv8, ((c >> 8) & 0xFF) as bv8, ((c >> 16) & 0xFF) as bv8, ((c >> 24) & 0xFF) as bv8]
  }

  lemma FourBytes(c: bv32)
    ensures var b := ChecksumBytes(c);
      (b[0] as bv32) | ((b[1] as bv32) << 8) | ((b[2] as bv32) << 16) | ((b[3] as bv32) << 24) == c
  {
  }

  lemma ReadsChecksum(b: seq<Sector>, at: nat, c: bv32)
    requires Holds(b, at, ChecksumBytes(c))
    ensures Bits32(b, at) == c
  {
    hide ByteAt, Flatten, Holds, ChecksumBytes;
    var bytes := ChecksumBytes(c);
    HeldByte(b, at, bytes, 0);
    HeldByte(b, at, bytes, 1);
    HeldByte(b, at, bytes, 2);
    HeldByte(b, at, bytes, 3);
    FourBytes(c);
  }

  // ----- The layout of a log block -----

  /** The numbers of a header fit the fields they are written to. */
  predicate HeaderFits(h: Header) {
    && h.magic < 0x1_0000_0000 && h.headerSize < 0x1_0000 && h.blockSize < 0x1_0000_0000
    && h.count < 0x1_0000_0000 && h.sequence < 0x1_0000_0000 && h.sector0 < 0x1_0000_0000_0000_0000
  }

  predicate EntryFits(e: Entry) {
    e.source < 0x1_0000_0000_0000_0000 && e.dest < 0x1_0000_0000_0000_0000 && e.size < 0x1_0000_0000
  }

  /** Where each field of the header is read. */
  lemma HeaderIsRead(b: seq<Sector>, h: Header)
    requires HeaderFits(h)
    requires Holds(b, 0, LittleEndian(h.magic, 4)) && Holds(b, 6, LittleEndian(h.headerSize, 2))
    requires Holds(b, 8, LittleEndian(h.blockSize, 4)) && Holds(b, 12, LittleEndian(h.count, 4))
    requires Holds(b, 16, LittleEndian(h.sequence, 4)) && Holds(b, 20, LittleEndian(h.sector0, 8))
    ensures HeaderOf(b) == h
  {
    hide U16, U32, U64, Holds, LittleEndian;
    ReadsU32(b, 0, h.magic);
    ReadsU16(b, 6, h.headerSize);
    ReadsU32(b, 8, h.blockSize);
    ReadsU32(b, 12, h.count);
    ReadsU32(b, 16, h.sequence);
    ReadsU64(b, 20, h.sector0);
  }

  /** Where each field of entry `i` is read. */
  lemma EntryIsRead(b: seq<Sector>, i: nat, e: Entry)
    requires EntryFits(e)
    requires var at := HeaderOf(b).headerSize + 24 * i;
      && Holds(b, at, LittleEndian(e.source, 8)) && Holds(b, at + 8, LittleEndian(e.dest, 8))
      && Holds(b, at + 16, LittleEndian(e.size, 4)) && Holds(b, at + 20, ChecksumBytes(e.checksum))
    ensures EntryOf(b, i) == e
  {
    hide U16, U32, U64, Bits32, Holds, LittleEndian, ChecksumBytes, HeaderOf;
    var at := HeaderOf(b).headerSize + 24 * i;
    ReadsU64(b, at, e.source);
    ReadsU64(b, at + 8, e.dest);
    ReadsU32(b, at + 16, e.size);
    ReadsChecksum(b, at + 20, e.checksum);
  }

  function HeaderBytes(h: Header, version: nat): (bytes: seq<bv8>)
    ensures |bytes| == 28
  {
    LittleEndian(h.magic, 4) + LittleEndian(version, 2) + LittleEndian(h.headerSize, 2)
    + LittleEndian(h.blockSize, 4) + LittleEndian(h.count, 4) + LittleEndian(h.sequence, 4)
    + LittleEndian(h.sector0, 8)
  }

  function EntryBytes(e: Entry): (bytes: seq<bv8>)
    ensures |bytes| == 24
  {
    LittleEndian(e.source, 8) + LittleEndian(e.dest, 8) + LittleEndian(e.size, 4) + ChecksumBytes(e.checksum)
  }

  function AllEntryBytes(es: seq<Entry>): (bytes: seq<bv8>)
    ensures |bytes| == 24 * |es|
  {
    if es == [] then [] else AllEntryBytes(es[..|es| - 1]) + EntryBytes(es[|es| - 1])
  }

  function Zeros(n: nat): (bytes: seq<bv8>)
    ensures |bytes| == n
  {
    seq(n, i => 0)
  }

  function InSectors(bytes: seq<bv8>, n: nat): (b: seq<Sector>)
    requires |bytes| == 512 * n
    ensures |b| == n
    decreases n
  {
    if n == 0 then [] else [bytes[..512]] + InSectors(bytes[512..], n - 1)
  }

  lemma {:induction false} InSectorsHolds(bytes: seq<bv8>, n: nat)
    requires |bytes| == 512 * n
    ensures Flatten(InSectors(bytes, n)) == bytes
    decreases n
  {
    if n > 0 {
      InSectorsHolds(bytes[512..], n - 1);
      var b := InSectors(bytes, n);
      assert b[0] == bytes[..512] && b[1..] == InSectors(bytes[512..], n - 1);
      assert bytes[..512] + bytes[512..] == bytes;
    }
  }

  /** A log block of `n` sectors: the header, its padding, the entries, and nothing after them. */
  function LogBytes(h: Header, version: nat, es: seq<Entry>, n: nat): (bytes: seq<bv8>)
    requires 28 <= h.headerSize && h.headerSize + 24 * |es| <= 512 * n
    ensures |bytes| == 512 * n
  {
    HeaderBytes(h, version) + Zeros(h.headerSize - 28) + AllEntryBytes(es)
    + Zeros(512 * n - h.headerSize - 24 * |es|)
  }

  function LogBlock(h: Header, version: nat, es: seq<Entry>, n: nat): (b: Buffer)
    requires 28 <= h.headerSize && h.headerSize + 24 * |es| <= 512 * n
    ensures |b| == n
  {
    InSectors(LogBytes(h, version, es, n), n)
  }

  lemma HoldsIn(b: seq<Sector>, before: seq<bv8>, bytes: seq<bv8>, after: seq<bv8>)
    requires Flatten(b) == before + bytes + after
    ensures Holds(b, |before|, bytes)
  {
  }

  lemma {:induction false} EntryIsAmong(es: seq<Entry>, i: nat)
    requires i < |es|
    ensures AllEntryBytes(es)[24 * i..24 * i + 24] == EntryBytes(es[i])
    decreases |es|
  {
    hide EntryBytes;
    var short := es[..|es| - 1];
    if i < |es| - 1 {
      EntryIsAmong(short, i);
    }
  }

  /** A log block that is written is read back, header and entries. */
  lemma HeaderReadsBack(h: Header, version: nat, es: seq<Entry>, n: nat)
    requires HeaderFits(h) && 28 <= h.headerSize && h.headerSize + 24 * |es| <= 512 * n
    ensures HeaderOf(LogBlock(h, version, es, n)) == h
  {
    hide Flatten, HeaderOf, HeaderBytes, AllEntryBytes, InSectors, Zeros, HeaderFits, Holds;
    var b, bytes := LogBlock(h, version, es, n), LogBytes(h, version, es, n);
    InSectorsHolds(bytes, n);
    var rest := Zeros(h.headerSize - 28) + AllEntryBytes(es) + Zeros(512 * n - h.headerSize - 24 * |es|);
    assert bytes == [] + HeaderBytes(h, version) + rest;
    HoldsIn(b, [], HeaderBytes(h, version), rest);
    HeaderFields(b, h, version);
    HeaderIsRead(b, h);
  }

  lemma HeaderFields(b: seq<Sector>, h: Header, version: nat)
    requires Holds(b, 0, HeaderBytes(h, version))
    ensures Holds(b, 0, LittleEndian(h.magic, 4)) && Holds(b, 6, LittleEndian(h.headerSize, 2))
    ensures Holds(b, 8, LittleEndian(h.blockSize, 4)) && Holds(b, 12, LittleEndian(h.count, 4))
    ensures Holds(b, 16, LittleEndian(h.sequence, 4)) && Holds(b, 20, LittleEndian(h.sector0, 8))
  {
    hide Holds, LittleEndian;
    var a1 := LittleEndian(h.magic, 4);
    var a2 := a1 + LittleEndian(version, 2);
    var a3 := a2 + LittleEndian(h.headerSize, 2);
    var a4 := a3 + LittleEndian(h.blockSize, 4);
    var a5 := a4 + LittleEndian(h.count, 4);
    var a6 := a5 + LittleEndian(h.sequence, 4);
    HeldParts(b, 0, a6, LittleEndian(h.sector0, 8));
    HeldParts(b, 0, a5, LittleEndian(h.sequence, 4));
    HeldParts(b, 0, a4, LittleEndian(h.count, 4));
    HeldParts(b, 0, a3, LittleEndian(h.blockSize, 4));
    HeldParts(b, 0, a2, LittleEndian(h.headerSize, 2));
    HeldParts(b, 0, a1, LittleEndian(version, 2));
  }

  lemma EntryFields(b: seq<Sector>, at: nat, e: Entry)
    requires Holds(b, at, EntryBytes(e))
    ensures Holds(b, at, LittleEndian(e.source, 8)) && Holds(b, at + 8, LittleEndian(e.dest, 8))
    ensures Holds(b, at + 16, LittleEndian(e.size, 4)) && Holds(b, at + 20, ChecksumBytes(e.checksum))
  {
    hide Holds, LittleEndian, ChecksumBytes;
    var a1 := LittleEndian(e.source, 8);
    var a2 := a1 + LittleEndian(e.dest, 8);
    var a3 := a2 + LittleEndian(e.size, 4);
    HeldParts(b, at, a3, ChecksumBytes(e.checksum));
    HeldParts(b, at, a2, LittleEndian(e.size, 4));
    HeldParts(b, at, a1, LittleEndian(e.dest, 8));
  }

  lemma EntryReadsBack(h: Header, version: nat, es: seq<Entry>, n: nat, i: nat)
    requires HeaderFits(h) && 28 <= h.headerSize && h.headerSize + 24 * |es| <= 512 * n
    requires i < |es| && EntryFits(es[i])
    ensures EntryOf(LogBlock(h, version, es, n), i) == es[i]
  {
    hide Flatten, HeaderOf, EntryOf, HeaderBytes, EntryBytes, AllEntryBytes, InSectors, Zeros, HeaderFits, EntryFits;
    hide Holds;
    var b, bytes := LogBlock(h, version, es, n), LogBytes(h, version, es, n);
    HeaderReadsBack(h, version, es, n);
    InSectorsHolds(bytes, n);
    EntryIsAmong(es, i);
    var head, all := HeaderBytes(h, version) + Zeros(h.headerSize - 28), AllEntryBytes(es);
    var tail := Zeros(512 * n - h.headerSize - 24 * |es|);
    var before, after := head + all[..24 * i], all[24 * i + 24..] + tail;
    assert all == all[..24 * i] + EntryBytes(es[i]) + all[24 * i + 24..];
    assert bytes == before + EntryBytes(es[i]) + after;
    HoldsIn(b, before, EntryBytes(es[i]), after);
    EntryFields(b, h.headerSize + 24 * i, es[i]);
    EntryIsRead(b, i, es[i]);
  }

  // ----- Which headers and entries are accepted -----

  /** The header checks, with every bound written out; `24 * count` bytes of entries lie inside the block. */
  lemma HeaderAcceptedIff(b: Buffer, block: nat, q: int, validating: bool)
    ensures var h := HeaderOf(b);
      HeaderOk(h, block, q, validating) <==>
        && (h.magic == 0x00574f42 || (h.magic == 0x00424f57 && !validating))
        && h.blockSize == 512 * block
        && -0x8000_0000 <= q < 0x8000_0000 && (q - h.sequence) % 0x1_0000_0000 == 0
        && 28 <= h.headerSize && 1 <= h.count && h.headerSize + 24 * h.count <= h.blockSize
  {
    hide U16, U32, U64;
  }

  /** What is read for an entry of `size` bytes from sector `at` of a disk. */
  function SavedBytes(d: Disk, at: nat, size: nat): (data: seq<Sector>)
    requires at + (size + 511) / 512 <= |d|
  {
    d[at..at + (size + 511) / 512]
  }

  /** A checksum of 0 is none; any other is what dividing the bits of the contents leaves, from the block number on. */
  predicate ChecksumFits(checksum: bv32, number: int, data: seq<Sector>) {
    checksum == 0 || checksum == Divide(BitsOf(Flatten(data)), (number % 0x1_0000_0000) as bv32)
  }

  /**
    An entry is accepted exactly if it is at least a block and not too large, its saved contents are on
    the device, and its checksum is 0 or what dividing the bits of these contents leaves, started from
    the number of the block to restore.
  */
  lemma EntryAcceptedIff(d: Disk, block: nat, ls: Buffer, i: nat, e: Entry)
    requires block > 0 && e == EntryOf(ls, i)
    ensures Saved(d, block, ls, i)
      == if && 512 * block <= e.size && 512 * block + e.size <= 0xFFFF_FFFF
            && e.dest + (e.size + 511) / 512 <= |d|
            && ChecksumFits(e.checksum, e.source / block, SavedBytes(d, e.dest, e.size))
         then Some(SavedBytes(d, e.dest, e.size)) else None
  {
    hide EntryOf, Sectors, ContentsOk, SavedBytes, ChecksumFits;
    SectorsOf(e);
    if SizeOk(e, block) && e.dest + Sectors(e) <= |d| {
      SavedIs(d, e.dest, e.size);
      ContentsOkIff(e, block, SavedBytes(d, e.dest, e.size));
    }
  }

  lemma ContentsOkIff(e: Entry, block: nat, data: seq<Sector>)
    requires block > 0
    ensures ContentsOk(e, block, data) <==> ChecksumFits(e.checksum, e.source / block, data)
  {
    hide Flatten, Divide, BitsOf, Crc;
    TableDrivenIsBitSerial(Flatten(data), SeedOf(e, block));
  }

  lemma SectorsOf(e: Entry)
    ensures Sectors(e) == (e.size + 511) / 512
  {
  }

  lemma SavedIs(d: Disk, at: nat, size: nat)
    requires at + (size + 511) / 512 <= |d|
    ensures Get(d, at, (size + 511) / 512) == Some(SavedBytes(d, at, size))
  {
  }

  /** The same in the dry run, for the disk that the relocations present. */
  lemma EntryAcceptedInDryRunIff(base: Disk, m: Relocs, d: Disk, block: nat, ls: Buffer, i: nat, e: Entry)
    requires block > 0 && 0 in m && Presents(base, m, d, block)
    requires e == EntryOf(ls, i) && WfEntry(e, i, block, |d|)
    ensures VirtualSaved(base, m, block, ls, i)
      == if && 512 * block <= e.size && 512 * block + e.size <= 0xFFFF_FFFF
            && e.dest + (e.size + 511) / 512 <= |d|
            && ChecksumFits(e.checksum, e.source / block, SavedBytes(d, e.dest, e.size))
         then Some(SavedBytes(d, e.dest, e.size)) else None
  {
    hide EntryOf, Presents, WfEntry, Saved, VirtualSaved, ChecksumFits, SavedBytes;
    SavedAlike(base, m, d, block, ls, i);
    EntryAcceptedIff(d, block, ls, i, e);
  }
}
