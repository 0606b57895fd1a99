/** Runs of in-place encryption that report success and are not what they should be. */
module InPlaceExamples {
  import opened InPlaceRuns
  import opened InPlaceExactlyOnce
  import opened InPlaceBitmaps
  import opened InPlaceGroups
  import opened InPlaceEncryption

  // ----- Bitmaps -----

  const BLOCK_SIZE := 4096

  const BLOCKS_PER_GROUP := 32768

  /** A bitmap block that begins with this byte and has no other bit set. */
  function Bits(b: bv8): Block {
    [b] + seq(BLOCK_SIZE - 1, _ => 0)
  }

  lemma HighBits(b: bv8, i: nat)
    requires i >= 8
    ensures !Bit(Bits(b), i)
  {
  }

  lemma BitsOf0(i: nat)
    ensures !Bit(Bits(0), i)
  {
    if i >= 8 { HighBits(0, i); }
  }

  lemma BitsOf4(i: nat)
    ensures Bit(Bits(4), i) <==> i == 2
  {
    if i >= 8 { HighBits(4, i); }
  }

  lemma BitsOf5(i: nat)
    ensures Bit(Bits(5), i) <==> i == 0 || i == 2
  {
    if i >= 8 { HighBits(5, i); }
  }

  lemma BitsOf21(i: nat)
    ensures Bit(Bits(21), i) <==> i == 0 || i == 2 || i == 4
  {
    if i >= 8 { HighBits(21, i); }
  }

  // ----- Offering blocks -----

  lemma OfferStarts(e: Env, p: Pass, b: nat)
    requires p.pending == 0
    ensures Offered(e, BLOCK_SIZE, p, b) == Outcome(p.(first := b, pending := 1), true)
  {
    hide RoundUp;
  }

  lemma OfferFails(e: Env, p: Pass, b: nat)
    requires p.pending > 0 && b != p.first + p.pending && !e.works(p.transfers)
    ensures Offered(e, BLOCK_SIZE, p, b) == Outcome(p.(transfers := p.transfers + 1), false)
  {
    hide RoundUp;
  }

  /** The storage with one block encrypted. */
  function Encrypted(e: Env, blocks: seq<Block>, b: nat): (r: seq<Block>)
    requires b < |blocks|
    ensures |r| == |blocks|
  {
    blocks[b := e.cipher(b, blocks[b])]
  }

  lemma OneBlock(e: Env, p: Pass)
    requires p.pending == 1 && p.first < |p.blocks| && e.works(p.transfers) && e.works(p.transfers + 1)
    ensures Flushed(e, p) == Outcome(Pass(Encrypted(e, p.blocks, p.first), p.transfers + 2, p.first, 0, p.done + 1),
        true)
  {
    var plain := p.blocks[p.first..p.first + 1];
    assert plain == [p.blocks[p.first]];
    assert WithEncrypted(p.blocks, e.cipher, p.first, plain) == Encrypted(e, p.blocks, p.first);
  }

  /** A batch of one block is flushed and another one begun. */
  lemma OfferFlushes(e: Env, p: Pass, b: nat)
    requires p.pending == 1 && p.first < |p.blocks| && b != p.first + 1 && e.works(p.transfers)
    requires e.works(p.transfers + 1)
    ensures Offered(e, BLOCK_SIZE, p, b) == Outcome(Pass(Encrypted(e, p.blocks, p.first), p.transfers + 2, b, 1,
        p.done + 1), true)
  {
    hide RoundUp;
    OneBlock(e, p);
  }

  // ----- Walking over a group -----

  /** Blocks `m`, ..., n-1 of the group are not used. */
  lemma {:induction false} SkipUnused(e: Env, l: Layout, g: nat, bitmap: Block, p: Pass, m: nat, n: nat)
    requires l.blockSize == BLOCK_SIZE && g < |l.groups| && m <= n && forall i :: m <= i < n ==>
        !IsUsed(l, g, bitmap, i)
    ensures OfferedIn(e, l, g, bitmap, p, n) == OfferedIn(e, l, g, bitmap, p, m)
    ensures UsedIn(l, g, bitmap, n) == UsedIn(l, g, bitmap, m)
    decreases n
  {
    hide Offered, IsUsed;
    if m < n { SkipUnused(e, l, g, bitmap, p, m, n - 1); }
  }

  lemma NextIsUsed(e: Env, l: Layout, g: nat, bitmap: Block, p: Pass, n: nat, q: Pass)
    requires l.blockSize == BLOCK_SIZE && g < |l.groups| && IsUsed(l, g, bitmap, n)
    requires OfferedIn(e, l, g, bitmap, p, n) == q
    ensures OfferedIn(e, l, g, bitmap, p, n + 1) == Offered(e, BLOCK_SIZE, q, FirstBlockInGroup(l, g) + n).pass
    ensures UsedIn(l, g, bitmap, n + 1) == UsedIn(l, g, bitmap, n) + [FirstBlockInGroup(l, g) + n]
  {
    hide Offered, IsUsed;
  }

  lemma NothingOffered(e: Env, l: Layout, g: nat, bitmap: Block, p: Pass)
    requires l.blockSize == BLOCK_SIZE && g < |l.groups|
    ensures OfferedIn(e, l, g, bitmap, p, 0) == p && UsedIn(l, g, bitmap, 0) == []
  {
  }

  /** One more group, whose bitmap can be read. */
  lemma NextGroup(e: Env, l: Layout, p: Pass, g: nat, q: Pass)
    requires l.blockSize == BLOCK_SIZE && g < |l.groups| && forall i :: 0 <= i <= g ==>
        FirstBlockInGroup(l, i) <= l.lenBlocks
    requires OfferedGroups(e, l, p, g) == Outcome(q, true) && e.works(q.transfers)
    requires l.groups[g].bitmapBlock < |q.blocks|
    ensures OfferedGroups(e, l, p, g + 1) ==
      Outcome(OfferedIn(e, l, g, q.blocks[l.groups[g].bitmapBlock], q.(transfers := q.transfers + 1), BlockCount(l,
          g)), true)
  {
    hide OfferedIn, BlockCount;
  }

  lemma NoGroups(e: Env, l: Layout, p: Pass)
    requires l.blockSize == BLOCK_SIZE
    ensures OfferedGroups(e, l, p, 0) == Outcome(p, true)
  {
  }

  lemma RunEnds(e: Env, l: Layout, disk: seq<Block>, q: Pass)
    requires WfLayout(l) && OfferedGroups(e, l, Started(disk, 0), |l.groups|) == Outcome(q, true)
    ensures RunOf(e, Ext4(l), disk, 0, 0) == Flushed(e, q)
  {
    hide OfferedGroups, Flushed;
  }

  // ----- A failed transfer whose result is dropped -----

  /** A filesystem of three blocks; block 2 is its bitmap, and blocks 0 and 2 are used. */
  const ONE_GROUP: Layout := Layout(BLOCK_SIZE, BLOCKS_PER_GROUP, 0, 3, 0, [Group(2, false, true)])

  predicate IsOneGroup(disk: seq<Block>) {
    |disk| == 3 && disk[2] == Bits(5)
  }

  predicate Starts(l: Layout, g: nat, first: nat, count: nat) {
    g < |l.groups| && FirstBlockInGroup(l, g) == first <= l.lenBlocks && BlockCount(l, g) == count
  }

  lemma OneGroupFacts()
    ensures WfLayout(ONE_GROUP) && Starts(ONE_GROUP, 0, 0, 3)
  {
  }

  lemma OneGroupWalk(e: Env, disk: seq<Block>)
    requires IsOneGroup(disk) && !e.works(1)
    ensures OfferedIn(e, ONE_GROUP, 0, Bits(5), Pass(disk, 1, 0, 0, 0), 3) == Pass(disk, 2, 0, 1, 0)
    ensures UsedIn(ONE_GROUP, 0, Bits(5), 3) == [0, 2]
  {
    hide Bit, Offered, OfferedIn, UsedIn, Bits, FirstBlockInGroup, BlockCount, WfLayout;
    var l, bitmap, read := ONE_GROUP, Bits(5), Pass(disk, 1, 0, 0, 0);
    OneGroupFacts();
    forall i { BitsOf5(i); }
    NothingOffered(e, l, 0, bitmap, read);
    NextIsUsed(e, l, 0, bitmap, read, 0, read);
    OfferStarts(e, read, 0);
    var one := read.(pending := 1);
    SkipUnused(e, l, 0, bitmap, read, 1, 2);
    NextIsUsed(e, l, 0, bitmap, read, 2, one);
    OfferFails(e, one, 2);
  }

  lemma BlockTwoIsDropped(e: Env, disk: seq<Block>)
    requires IsOneGroup(disk) && e.works(0) && !e.works(1) && e.works(2) && e.works(3)
    ensures WfLayout(ONE_GROUP)
    ensures RunOf(e, Ext4(ONE_GROUP), disk, 0, 0) == Outcome(Pass(Encrypted(e, disk, 0), 4, 0, 0, 1), true)
    ensures UsedKnown(Ext4(ONE_GROUP), disk) && UsedBlocks(Ext4(ONE_GROUP), disk, 0) == [0, 2]
  {
    hide OfferedIn, OfferedGroups, Flushed, RunOf, UsedIn, FirstBlockInGroup, BlockCount, WfLayout, Bits;
    var l, start := ONE_GROUP, Started(disk, 0);
    OneGroupFacts();
    OneGroupWalk(e, disk);
    NoGroups(e, l, start);
    NextGroup(e, l, start, 0, start);
    var two := Pass(disk, 2, 0, 1, 0);
    RunEnds(e, l, disk, two);
    OneBlock(e, two);
    assert UsedInGroup(l, disk, 0) == [0, 2];
    assert UsedBefore(l, disk, 0) == [] && UsedBefore(l, disk, 1) == [] + UsedInGroup(l, disk, 0);
  }

  /**
    Why the results must not be dropped: the read that flushes the first batch fails, the block that
    caused the flush is forgotten, and the run still ends in success.
  */
  method DroppedResultSkipsABlock(disk: seq<Block>, cipher: (nat, Block) -> Block, garbage: (nat, nat) -> Block)
    returns (success: bool, left: seq<Block>)
    requires IsOneGroup(disk)
    ensures success && left == [cipher(0, disk[0]), disk[1], disk[2]]
    ensures UsedKnown(Ext4(ONE_GROUP), disk) && UsedBlocks(Ext4(ONE_GROUP), disk, 0) == [0, 2]
  {
    hide RunOf, WfLayout, UsedKnown, UsedBlocks, NamedBlocks, AllBitmapsHold, Clean, ExactlyOnce, Bits;
    var e := Env(cipher, n => n != 1, garbage);
    var storage := new Storage(disk, e);
    var encrypter := new InPlaceEncrypter(storage);
    BlockTwoIsDropped(e, disk);
    success := encrypter.EncryptInPlace(Ext4(ONE_GROUP), 0, true);
    left := encrypter.Now().blocks;
  }

  // ----- A bitmap that is encrypted before it is read -----

  /**
    Two groups, the second of three blocks.  The bitmaps lie in blocks 4 and 2, in the first group,
    where blocks 0, 2 and 4 are used; the second group is not used.
  */
  const TWO_GROUPS: Layout :=
    Layout(BLOCK_SIZE, BLOCKS_PER_GROUP, 0, BLOCKS_PER_GROUP + 3, 0, [Group(4, false, true), Group(2, false, false)])

  predicate IsTwoGroups(disk: seq<Block>) {
    |disk| == BLOCKS_PER_GROUP + 3 && disk[4] == Bits(21) && disk[2] == Bits(0)
  }

  lemma TwoGroupsFacts()
    ensures WfLayout(TWO_GROUPS) && Starts(TWO_GROUPS, 0, 0, BLOCKS_PER_GROUP)
    ensures Starts(TWO_GROUPS, 1, BLOCKS_PER_GROUP, 3)
  {
  }

  /** The first group is walked as it should be; blocks 0 and 2 are encrypted on the way. */
  lemma FirstGroup(e: Env, disk: seq<Block>)
    requires IsTwoGroups(disk) && forall n :: e.works(n)
    ensures OfferedIn(e, TWO_GROUPS, 0, Bits(21), Pass(disk, 1, 0, 0, 0), BLOCKS_PER_GROUP)
         == Pass(Encrypted(e, Encrypted(e, disk, 0), 2), 5, 4, 1, 2)
    ensures UsedIn(TWO_GROUPS, 0, Bits(21), BLOCKS_PER_GROUP) == [0, 2, 4]
  {
    hide Bit, Offered, OfferedIn, UsedIn, Bits, Encrypted, FirstBlockInGroup, BlockCount, WfLayout;
    var l, bitmap, read := TWO_GROUPS, Bits(21), Pass(disk, 1, 0, 0, 0);
    TwoGroupsFacts();
    forall i { BitsOf21(i); }
    NothingOffered(e, l, 0, bitmap, read);
    NextIsUsed(e, l, 0, bitmap, read, 0, read);
    OfferStarts(e, read, 0);
    var one := read.(pending := 1);
    SkipUnused(e, l, 0, bitmap, read, 1, 2);
    NextIsUsed(e, l, 0, bitmap, read, 2, one);
    OfferFlushes(e, one, 2);
    var two := Pass(Encrypted(e, disk, 0), 3, 2, 1, 1);
    SkipUnused(e, l, 0, bitmap, read, 3, 4);
    NextIsUsed(e, l, 0, bitmap, read, 4, two);
    OfferFlushes(e, two, 4);
    SkipUnused(e, l, 0, bitmap, read, 5, BLOCKS_PER_GROUP);
  }

  /** The second group is walked by the encrypted bitmap. */
  lemma SecondGroup(e: Env, p: Pass)
    requires (forall n :: e.works(n)) && p.pending == 1 && p.first == 4 && |p.blocks| > 4
    ensures OfferedIn(e, TWO_GROUPS, 1, Bits(4), p, 3)
         == Pass(Encrypted(e, p.blocks, 4), p.transfers + 2, BLOCKS_PER_GROUP + 2, 1, p.done + 1)
  {
    hide Bit, Offered, OfferedIn, UsedIn, Bits, Encrypted, FirstBlockInGroup, BlockCount, WfLayout;
    var l, bitmap := TWO_GROUPS, Bits(4);
    TwoGroupsFacts();
    forall i { BitsOf4(i); }
    NothingOffered(e, l, 1, bitmap, p);
    SkipUnused(e, l, 1, bitmap, p, 0, 2);
    NextIsUsed(e, l, 1, bitmap, p, 2, p);
    OfferFlushes(e, p, BLOCKS_PER_GROUP + 2);
  }

  /**
    A bitmap that is encrypted before it is read: the cipher turns the bitmap in block 2, which says
    that the second group is unused, into one that says its third block is used.  No transfer fails,
    the run succeeds, and that block is encrypted although it is not used.
  */
  lemma AnUnusedBlockIsEncrypted(e: Env, disk: seq<Block>)
    requires IsTwoGroups(disk) && (forall n :: e.works(n)) && e.cipher(2, Bits(0)) == Bits(4)
    ensures WfLayout(TWO_GROUPS)
    ensures RunOf(e, Ext4(TWO_GROUPS), disk, 0, 0) ==
      Outcome(Pass(Encrypted(e, Encrypted(e, Encrypted(e, Encrypted(e, disk, 0), 2), 4), BLOCKS_PER_GROUP + 2), 10,
          BLOCKS_PER_GROUP + 2, 0, 4), true)
  {
    hide OfferedIn, OfferedGroups, Flushed, RunOf, FirstBlockInGroup, BlockCount, WfLayout, Bits;
    var l, start := TWO_GROUPS, Started(disk, 0);
    TwoGroupsFacts();
    FirstGroup(e, disk);
    NoGroups(e, l, start);
    NextGroup(e, l, start, 0, start);
    var one := Pass(Encrypted(e, Encrypted(e, disk, 0), 2), 5, 4, 1, 2);
    var read := one.(transfers := 6);
    assert one.blocks[2] == Bits(4);
    SecondGroup(e, read);
    NextGroup(e, l, start, 1, one);
    var two := Pass(Encrypted(e, one.blocks, 4), 8, BLOCKS_PER_GROUP + 2, 1, 3);
    RunEnds(e, l, disk, two);
    OneBlock(e, two);
  }

  /** In that layout only blocks 0, 2 and 4 are used, and the bitmap in block 2 does not hold. */
  lemma OnlyTheFirstGroupIsUsed(e: Env, disk: seq<Block>)
    requires IsTwoGroups(disk) && (forall n :: e.works(n)) && e.cipher(2, Bits(0)) == Bits(4)
    ensures UsedKnown(Ext4(TWO_GROUPS), disk) && UsedBlocks(Ext4(TWO_GROUPS), disk, 0) == [0, 2, 4]
    ensures !AllBitmapsHold(e.cipher, Ext4(TWO_GROUPS), disk)
  {
    hide OfferedIn, Bit, Bits, FlushedOf, UsedIn, RunOf, WfLayout, FirstBlockInGroup, BlockCount;
    var l := TWO_GROUPS;
    TwoGroupsFacts();
    FirstGroup(e, disk);
    UsedOfTwoGroups(e, disk);
    assert UsedInGroup(l, disk, 0) == [0, 2, 4] && UsedInGroup(l, disk, 1) == [];
    assert UsedBefore(l, disk, 0) == [];
    assert UsedBefore(l, disk, 1) == [] + UsedInGroup(l, disk, 0) == [0, 2, 4];
    assert UsedBefore(l, disk, 2) == UsedBefore(l, disk, 1) + UsedInGroup(l, disk, 1);
    FlushedByThen();
    assert !BitmapHolds(e.cipher, l, disk, 1);
  }

  lemma UsedOfTwoGroups(e: Env, disk: seq<Block>)
    requires IsTwoGroups(disk)
    ensures UsedIn(TWO_GROUPS, 1, Bits(0), 3) == [] && UsedIn(TWO_GROUPS, 1, Bits(4), 3) != []
  {
    hide Bit, Bits, FirstBlockInGroup;
    forall i { BitsOf0(i); }
    forall i { BitsOf4(i); }
    NothingOffered(e, TWO_GROUPS, 1, Bits(0), Started(disk, 0));
    SkipUnused(e, TWO_GROUPS, 1, Bits(0), Started(disk, 0), 0, 3);
    NextIsUsed(e, TWO_GROUPS, 1, Bits(4), Started(disk, 0), 2, OfferedIn(e, TWO_GROUPS, 1, Bits(4), Started(disk, 0),
               2));
  }

  lemma FlushedByThen()
    ensures 2 in FlushedOf(BLOCK_SIZE, [0, 2, 4])
  {
    hide RoundUp;
    assert [0, 2, 4][..2] == [0, 2] && [0, 2][..1] == [0] && [0][..0] == [];
    assert BatchOf(BLOCK_SIZE, [0]).done == 0 && BatchOf(BLOCK_SIZE, [0]).pending == 1;
    assert BatchOf(BLOCK_SIZE, [0, 2]).done == 1;
    assert BatchOf(BLOCK_SIZE, [0, 2, 4]).done == 2;
  }

  // ----- An uninitialised group -----

  /**
    Blocks of 1024 bytes, counted from 1.  The first group is initialised, the second is not but begins with
    backups of the superblock and of one block of descriptors, the third has neither.
  */
  const THREE_GROUPS: Layout :=
    Layout(1024, 8192, 1, 17000, 1, [Group(3, false, true), Group(8195, true, true), Group(8196, true, false)])

  function FirstBitmap(): Block {
    [0x07, 0x02] + seq(1022, _ => 0)
  }

  /** Blocks 1, 2, 3 and 10 of the first group are used; the other bitmaps may say anything. */
  predicate IsThreeGroups(disk: seq<Block>) {
    |disk| == 17000 && disk[3] == FirstBitmap()
  }

  lemma FirstBits(i: nat)
    ensures IsSet(FirstBitmap(), i) <==> i in {0, 1, 2, 9}
  {
    hide IsSet;
    BitIsSet(FirstBitmap(), i);
    if i >= 16 { LaterBits(i); }
  }

  lemma LaterBits(i: nat)
    requires i >= 16
    ensures !Bit(FirstBitmap(), i)
  {
  }

  lemma GroupStarts(l: Layout, g: nat)
    requires l.blocksPerGroup == 8192 && l.firstDataBlock == 1 && l.lenBlocks == 17000 && g < |l.groups| && g <= 2
    ensures
      Starts(l, g, 1 + g * 8192,
             if l.groups[g].uninit then if l.groups[g].hasSuperBlock then 1 + l.bgDescBlocks else 0
             else if g < 2 then 8192 else 615)
  {
  }

  lemma ThreeGroupsFacts(disk: seq<Block>)
    requires IsThreeGroups(disk)
    ensures WfLayout(THREE_GROUPS) && UsedKnown(Ext4(THREE_GROUPS), disk) && |disk| == 17000
  {
    hide FirstBitmap;
  }

  lemma UsedOfThreeGroups(disk: seq<Block>, b: nat)
    requires IsThreeGroups(disk)
    ensures UsedKnown(Ext4(THREE_GROUPS), disk)
    ensures b in UsedBlocks(Ext4(THREE_GROUPS), disk, 0) <==> b in {1, 2, 3, 10, 8193, 8194}
  {
    hide UsedBlocks, UsedKnown, WfLayout, IsSet, FirstBitmap;
    ThreeGroupsFacts(disk);
    UsedByNumber(THREE_GROUPS, disk, 0, b);
    if 1 <= b { FirstBits((b - 1) % 8192); }
  }

  /** Nothing beyond the second group's backups is named, and no bitmap lies in a used block of an earlier group. */
  lemma ThreeGroupsRun(e: Env, disk: seq<Block>)
    requires IsThreeGroups(disk)
    ensures WfLayout(THREE_GROUPS) && UsedKnown(Ext4(THREE_GROUPS), disk) && |disk| == 17000
    ensures forall b :: b in NamedBlocks(e, Ext4(THREE_GROUPS), disk, 0, 0) ==> b < 8195
    ensures AllBitmapsHold(e.cipher, Ext4(THREE_GROUPS), disk)
  {
    hide UsedIn, OfferedGroups, FlushedOf, FirstBlockInGroup, BlockCount, UsedInGroup;
    hide WfLayout, UsedBefore, FirstBitmap;
    var l := THREE_GROUPS;
    GroupStarts(l, 0);
    GroupStarts(l, 1);
    GroupStarts(l, 2);
    ThreeGroupsFacts(disk);
    NothingBefore(e, l, disk);
    NamedNext(e, l, disk, 0, 0);
    NamedNext(e, l, disk, 0, 1);
    NamedNext(e, l, disk, 0, 2);
  }

  lemma NothingBefore(e: Env, l: Layout, disk: seq<Block>)
    requires WfLayout(l)
    ensures NamedBefore(e, l, disk, 0, 0) == [] && UsedBefore(l, disk, 0) == [] && FlushedOf(l.blockSize, []) == []
  {
  }

  /** Of the uninitialised groups exactly the backups are encrypted, of the first group exactly the used blocks. */
  method BackupsAreEncrypted(disk: seq<Block>, cipher: (nat, Block) -> Block, garbage: (nat, nat) -> Block)
    returns (success: bool, left: seq<Block>)
    requires IsThreeGroups(disk)
    ensures success && |left| == 17000
    ensures forall b :: 0 <= b < 17000 ==>
      left[b] == if b in {1, 2, 3, 10, 8193, 8194} then cipher(b, disk[b]) else disk[b]
  {
    hide RunOf, WfLayout, UsedKnown, UsedBlocks, NamedBlocks, AllBitmapsHold, IsThreeGroups;
    var e := Env(cipher, _ => true, garbage);
    var storage := new Storage(disk, e);
    var encrypter := new InPlaceEncrypter(storage);
    ThreeGroupsRun(e, disk);
    success := encrypter.EncryptInPlace(Ext4(THREE_GROUPS), 0, true);
    left := encrypter.Now().blocks;
    forall b: nat { UsedOfThreeGroups(disk, b); }
  }
}
