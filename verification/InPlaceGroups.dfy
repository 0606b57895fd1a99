/** Which blocks the groups of an ext4 filesystem are made of, and which of them are used, by number. */
module InPlaceGroups {
  import opened Arithmetic
  import opened InPlaceRuns

  /** The group that block `b` lies in, and its place there. */
  lemma PlaceInGroup(l: Layout, b: nat, g: nat, i: nat)
    requires l.blocksPerGroup > 0 && l.firstDataBlock <= b
    ensures l.firstDataBlock + g * l.blocksPerGroup + i == b && i < l.blocksPerGroup <==>
      g == (b - l.firstDataBlock) / l.blocksPerGroup && i == (b - l.firstDataBlock) % l.blocksPerGroup
  {
    var n := b - l.firstDataBlock;
    if g * l.blocksPerGroup + i == n && i < l.blocksPerGroup { Quotient(g, i, l.blocksPerGroup); }
    assert n == n / l.blocksPerGroup * l.blocksPerGroup + n % l.blocksPerGroup;
  }

  /** Blocks 0, ..., NumBlocksInGroup - 1 of group `g` are the blocks of the filesystem that lie in it. */
  lemma InGroup(l: Layout, b: nat, g: nat, i: nat)
    requires WfLayout(l) && g < |l.groups|
    ensures FirstBlockInGroup(l, g) <= l.lenBlocks
    ensures i < NumBlocksInGroup(l, g) && b == FirstBlockInGroup(l, g) + i <==>
      && l.firstDataBlock <= b < l.lenBlocks
      && g == (b - l.firstDataBlock) / l.blocksPerGroup && i == (b - l.firstDataBlock) % l.blocksPerGroup
  {
    if l.firstDataBlock <= b { PlaceInGroup(l, b, g, i); }
  }

  /** The groups reach to the end of the filesystem. */
  predicate Covers(l: Layout) {
    l.firstDataBlock + |l.groups| * l.blocksPerGroup >= l.lenBlocks
  }

  /** Is block `b` block `i` of group `g`? */
  predicate LiesIn(l: Layout, b: nat, g: nat, i: nat) {
    g < |l.groups| && FirstBlockInGroup(l, g) <= l.lenBlocks && i < NumBlocksInGroup(l, g)
    && b == FirstBlockInGroup(l, g) + i
  }

  /**
    Groups that reach to the end of the filesystem tile it: each block from the first data block to the last
    lies in exactly one group, at exactly one place, and no other block lies in any.
  */
  lemma GroupsTile(l: Layout, b: nat)
    requires WfLayout(l) && Covers(l)
    ensures l.firstDataBlock <= b < l.lenBlocks <==> exists g, i :: LiesIn(l, b, g, i)
    ensures forall g, i, h, j :: LiesIn(l, b, g, i) && LiesIn(l, b, h, j) ==> g == h && i == j
  {
    if l.firstDataBlock <= b < l.lenBlocks {
      var n := b - l.firstDataBlock;
      var g, i := n / l.blocksPerGroup, n % l.blocksPerGroup;
      InLastGroup(n, |l.groups|, l.blocksPerGroup);
      InGroup(l, b, g, i);
      assert LiesIn(l, b, g, i);
    }
    forall g, i | LiesIn(l, b, g, i)
      ensures l.firstDataBlock <= b < l.lenBlocks
      ensures g == (b - l.firstDataBlock) / l.blocksPerGroup && i == (b - l.firstDataBlock) % l.blocksPerGroup
    {
      InGroup(l, b, g, i);
    }
  }

  lemma InLastGroup(n: nat, groups: nat, size: nat)
    requires size > 0 && n < groups * size
    ensures n / size < groups
  {
    assert (groups - n / size) * size == groups * size - n / size * size > 0;
  }

  // ----- The used blocks, by number -----

  const MASKS: seq<bv8> := [0x01, 0x02, 0x04, 0x08, 0x10, 0x20, 0x40, 0x80]

  /** Bits are numbered from the lowest bit of the first byte on. */
  predicate IsSet(bitmap: Block, i: nat) {
    i / 8 < |bitmap| && bitmap[i / 8] & MASKS[i % 8] != 0
  }

  lemma BitIsSet(bitmap: Block, i: nat)
    ensures Bit(bitmap, i) <==> IsSet(bitmap, i)
  {
    var k := i % 8;
    assert k == 0 || k == 1 || k == 2 || k == 3 || k == 4 || k == 5 || k == 6 || k == 7;
    var mask: bv8 := 1 << k;
    assert mask == MASKS[k];
  }

  lemma {:induction false} UsedInByNumber(l: Layout, g: nat, bitmap: Block, n: nat, b: nat)
    requires g < |l.groups|
    ensures b in UsedIn(l, g, bitmap, n) <==>
      && FirstBlockInGroup(l, g) <= b < FirstBlockInGroup(l, g) + n
      && IsUsed(l, g, bitmap, b - FirstBlockInGroup(l, g))
  {
    hide IsUsed, FirstBlockInGroup;
    if n > 0 { UsedInByNumber(l, g, bitmap, n - 1, b); }
  }

  /**
    Block `b`, which lies in group `g` at place `i`, is used: in an uninitialised group with a superblock the first
    1 + bgDescBlocks blocks and without one none, in any other group as bit `i` of the group's bitmap says.
  */
  predicate UsedAt(l: Layout, disk: seq<Block>, b: nat, g: nat, i: nat) {
    && g < |l.groups| && l.groups[g].bitmapBlock < |disk|
    && if l.groups[g].uninit then l.groups[g].hasSuperBlock && i < 1 + l.bgDescBlocks
       else b < l.lenBlocks && IsSet(disk[l.groups[g].bitmapBlock], i)
  }

  lemma UsedInGroupByNumber(l: Layout, disk: seq<Block>, g: nat, b: nat)
    requires WfLayout(l) && g < |l.groups| && l.groups[g].bitmapBlock < |disk|
    ensures b in UsedInGroup(l, disk, g) <==>
      && l.firstDataBlock <= b && g == (b - l.firstDataBlock) / l.blocksPerGroup
      && UsedAt(l, disk, b, g, (b - l.firstDataBlock) % l.blocksPerGroup)
  {
    hide UsedIn, Bit, IsSet;
    CountFits(l, g);
    UsedInByNumber(l, g, disk[l.groups[g].bitmapBlock], BlockCount(l, g), b);
    if l.firstDataBlock <= b {
      var at, i := b - FirstBlockInGroup(l, g), (b - l.firstDataBlock) % l.blocksPerGroup;
      if at >= 0 { PlaceInGroup(l, b, g, at); }
      PlaceInGroup(l, b, (b - l.firstDataBlock) / l.blocksPerGroup, i);
      BitIsSet(disk[l.groups[g].bitmapBlock], i);
    }
  }

  lemma {:induction false} UsedBeforeByNumber(l: Layout, disk: seq<Block>, n: nat, b: nat)
    requires WfLayout(l) && n <= |l.groups| && BitmapsReadable(l, disk, n)
    ensures b in UsedBefore(l, disk, n) <==>
      && l.firstDataBlock <= b && (b - l.firstDataBlock) / l.blocksPerGroup < n
      && UsedAt(l, disk, b, (b - l.firstDataBlock) / l.blocksPerGroup, (b - l.firstDataBlock) % l.blocksPerGroup)
  {
    hide UsedInGroup, UsedAt, FirstBlockInGroup;
    if l.firstDataBlock <= b { assert (b - l.firstDataBlock) / l.blocksPerGroup >= 0; }
    if n > 0 {
      UsedBeforeByNumber(l, disk, n - 1, b);
      UsedInGroupByNumber(l, disk, n - 1, b);
    }
  }

  /** The blocks to encrypt, by number. */
  lemma UsedByNumber(l: Layout, disk: seq<Block>, sectors: nat, b: nat)
    requires UsedKnown(Ext4(l), disk)
    ensures b in UsedBlocks(Ext4(l), disk, sectors) <==>
      && l.firstDataBlock <= b
      && UsedAt(l, disk, b, (b - l.firstDataBlock) / l.blocksPerGroup, (b - l.firstDataBlock) % l.blocksPerGroup)
  {
    hide UsedBefore;
    UsedBeforeByNumber(l, disk, |l.groups|, b);
  }
}
