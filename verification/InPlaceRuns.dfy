/**
  What a run of in-place encryption does, as a function of the storage it finds and of the transfers
  that fail.

  Used blocks are read as plaintext and written back as ciphertext over the same storage, in batches.
  A run is followed transfer by transfer, so that it can be said exactly when it succeeds and what it
  leaves.
*/
module InPlaceRuns {

  type Block = seq<bv8>

  const IO_BUFFER_SIZE := 32768

  function RoundUp(val: nat, amount: nat): (r: nat)
    requires amount > 0
  {
    if val % amount != 0 then val + (amount - val % amount) else val
  }

  // ----- The storage and its transfers -----

  /**
    Block `i` holding plaintext `x` is stored as `cipher(i, x)`; transfer `n` succeeds if `works(n)`,
    and a failed write leaves `garbage(n, i)` in each block `i` of its range.
  */
  datatype Env = Env(cipher: (nat, Block) -> Block, works: nat -> bool, garbage: (nat, nat) -> Block)

  /** `blocks` with [first, first + |plain|) replaced by the encryption of `plain`. */
  function WithEncrypted(blocks: seq<Block>, cipher: (nat, Block) -> Block, first: nat,
                         plain: seq<Block>): (r: seq<Block>)
    ensures |r| == |blocks|
  {
    seq(|blocks|, i requires 0 <= i < |blocks| =>
      if first <= i < first + |plain| then cipher(i, plain[i - first]) else blocks[i])
  }

  /** What transfer `n`, a failed write of `count` blocks, leaves. */
  function WithGarbage(blocks: seq<Block>, garbage: (nat, nat) -> Block, n: nat, first: nat,
                       count: nat): (r: seq<Block>)
    ensures |r| == |blocks|
  {
    seq(|blocks|, i requires 0 <= i < |blocks| => if first <= i < first + count then garbage(n, i) else blocks[i])
  }

  // ----- Batches -----

  /** The storage, the transfers made, the batch [first, first + pending) and the blocks done. */
  datatype Pass = Pass(blocks: seq<Block>, transfers: nat, first: nat, pending: nat, done: nat)

  datatype Outcome = Outcome(pass: Pass, ok: bool)

  function Fits(p: Pass): bool {
    p.first + p.pending <= |p.blocks|
  }

  /** Reads the batch, writes it encrypted, and forgets it. */
  function Flushed(e: Env, p: Pass): Outcome {
    var n := p.transfers;
    if p.pending == 0 then Outcome(p, true)
    else if !e.works(n) || !Fits(p) then Outcome(p.(transfers := n + 1), false)
    else if !e.works(n + 1) then
      Outcome(p.(blocks := WithGarbage(p.blocks, e.garbage, n + 1, p.first, p.pending), transfers := n + 2), false)
    else
      var plain := p.blocks[p.first..p.first + p.pending];
      Outcome(p.(blocks := WithEncrypted(p.blocks, e.cipher, p.first, plain), transfers := n + 2,
                 pending := 0, done := p.done + p.pending), true)
  }

  /** Is the batch full, or is there a gap before block `b`, or is `b` at a buffer boundary? */
  predicate Ends(p: Pass, blockSize: nat, b: nat)
    requires blockSize > 0
  {
    var buffer := RoundUp(IO_BUFFER_SIZE, blockSize);
    || p.pending * blockSize == buffer
    || b != p.first + p.pending
    || (b * blockSize) % buffer == 0
  }

  /** Adds a used block to the batch, after a flush if the batch ends; if that fails the block is not added. */
  function Offered(e: Env, blockSize: nat, p: Pass, b: nat): Outcome
    requires blockSize > 0
  {
    if !Ends(p, blockSize, b) then Outcome(p.(pending := p.pending + 1), true)
    else
      var flushed := Flushed(e, p);
      if flushed.ok then Outcome(flushed.pass.(first := b, pending := 1), true) else flushed
  }

  function Started(blocks: seq<Block>, transfers: nat): Pass {
    Pass(blocks, transfers, 0, 0, 0)
  }

  // ----- Walking over the used blocks -----

  datatype Group = Group(bitmapBlock: nat, uninit: bool, hasSuperBlock: bool)

  /** What the ext4 superblock and group descriptors say. */
  datatype Layout = Layout(blockSize: nat, blocksPerGroup: nat, firstDataBlock: nat, lenBlocks: nat,
                           bgDescBlocks: nat, groups: seq<Group>)

  function FirstBlockInGroup(l: Layout, g: nat): nat {
    l.firstDataBlock + g * l.blocksPerGroup
  }

  function NumBlocksInGroup(l: Layout, g: nat): nat
    requires FirstBlockInGroup(l, g) <= l.lenBlocks
  {
    var remaining := l.lenBlocks - FirstBlockInGroup(l, g);
    if l.blocksPerGroup < remaining then l.blocksPerGroup else remaining
  }

  function NumBaseMetaBlocksInGroup(l: Layout, g: nat): nat
    requires g < |l.groups|
  {
    if l.groups[g].hasSuperBlock then 1 + l.bgDescBlocks else 0
  }

  /** No group is empty, and the base metadata of a group fits in it. */
  ghost predicate WfLayout(l: Layout) {
    && l.blockSize > 0 && 0 < l.blocksPerGroup && 1 + l.bgDescBlocks <= l.blocksPerGroup
    && forall g :: 0 <= g < |l.groups| ==> FirstBlockInGroup(l, g) < l.lenBlocks
  }

  function BlockCount(l: Layout, g: nat): nat
    requires g < |l.groups| && FirstBlockInGroup(l, g) <= l.lenBlocks
  {
    if l.groups[g].uninit then NumBaseMetaBlocksInGroup(l, g) else NumBlocksInGroup(l, g)
  }

  predicate Bit(bitmap: Block, i: nat) {
    var mask: bv8 := 1 << (i % 8);
    i / 8 < |bitmap| && bitmap[i / 8] & mask != 0
  }

  /** Is block `i` of group `g` used, if this is the group's bitmap? */
  predicate IsUsed(l: Layout, g: nat, bitmap: Block, i: nat)
    requires g < |l.groups|
  {
    l.groups[g].uninit || Bit(bitmap, i)
  }

  /** Offers the used blocks among the first `n` of group `g`; what `Offered` reports is ignored. */
  function OfferedIn(e: Env, l: Layout, g: nat, bitmap: Block, p: Pass, n: nat): Pass
    requires l.blockSize > 0 && g < |l.groups|
  {
    if n == 0 then p
    else
      var before := OfferedIn(e, l, g, bitmap, p, n - 1);
      if IsUsed(l, g, bitmap, n - 1) then Offered(e, l.blockSize, before, FirstBlockInGroup(l, g) + n - 1).pass
          else before
  }

  /** Groups 0, ..., g-1, each with its bitmap as it is read just then; stops if one cannot be read. */
  function OfferedGroups(e: Env, l: Layout, p: Pass, g: nat): Outcome
    requires l.blockSize > 0 && g <= |l.groups|
    requires forall i :: 0 <= i < g ==> FirstBlockInGroup(l, i) <= l.lenBlocks
  {
    if g == 0 then Outcome(p, true)
    else
      var before := OfferedGroups(e, l, p, g - 1);
      if !before.ok then before
      else
        var q := before.pass;
        var read := q.(transfers := q.transfers + 1);
        var at := l.groups[g - 1].bitmapBlock;
        if !e.works(q.transfers) || at >= |q.blocks| then Outcome(read, false)
        else Outcome(OfferedIn(e, l, g - 1, q.blocks[at], read, BlockCount(l, g - 1)), true)
  }

  /** Sectors 0, ..., n-1, stopping at the first failure. */
  function OfferedSectors(e: Env, p: Pass, n: nat): Outcome {
    if n == 0 then Outcome(p, true)
    else
      var before := OfferedSectors(e, p, n - 1);
      if before.ok then Offered(e, 512, before.pass, n - 1) else before
  }

  datatype FileSystem = Ext4(layout: Layout) | Unknown

  /** The whole run. */
  function RunOf(e: Env, fs: FileSystem, blocks: seq<Block>, transfers: nat, sectors: nat): Outcome
    requires fs.Ext4? ==> fs.layout.blockSize > 0 && forall i :: 0 <= i < |fs.layout.groups| ==>
        FirstBlockInGroup(fs.layout, i) <= fs.layout.lenBlocks
  {
    var walked := match fs
      case Ext4(l) => OfferedGroups(e, l, Started(blocks, transfers), |l.groups|)
      case Unknown => OfferedSectors(e, Started(blocks, transfers), sectors);
    if walked.ok then Flushed(e, walked.pass) else walked
  }

  // ----- The blocks to encrypt -----

  /** The used blocks among the first `n` of group `g`, in order. */
  function UsedIn(l: Layout, g: nat, bitmap: Block, n: nat): (used: seq<nat>)
    requires g < |l.groups|
    ensures forall b :: b in used ==> FirstBlockInGroup(l, g) <= b < FirstBlockInGroup(l, g) + n
  {
    if n == 0 then []
    else UsedIn(l, g, bitmap, n - 1) + if IsUsed(l, g, bitmap, n - 1) then [FirstBlockInGroup(l, g) + n - 1] else []
  }

  /** Can the bitmaps of the first `n` groups be read from the device? */
  predicate BitmapsReadable(l: Layout, disk: seq<Block>, n: nat)
    requires n <= |l.groups|
  {
    forall g :: 0 <= g < n ==> l.groups[g].bitmapBlock < |disk|
  }

  /** The used blocks of group `g` as its bitmap on `disk` has them. */
  ghost function UsedInGroup(l: Layout, disk: seq<Block>, g: nat): (used: seq<nat>)
    requires WfLayout(l) && g < |l.groups| && l.groups[g].bitmapBlock < |disk|
    ensures forall b :: b in used ==> FirstBlockInGroup(l, g) <= b < FirstBlockInGroup(l, g + 1)
  {
    CountFits(l, g);
    UsedIn(l, g, disk[l.groups[g].bitmapBlock], BlockCount(l, g))
  }

  /** The used blocks of groups 0, ..., g-1 as the bitmaps on `disk` have them. */
  ghost function UsedBefore(l: Layout, disk: seq<Block>, g: nat): (used: seq<nat>)
    requires WfLayout(l) && g <= |l.groups| && BitmapsReadable(l, disk, g)
    ensures forall b :: b in used ==> g > 0 && b < FirstBlockInGroup(l, g)
  {
    if g == 0 then []
    else
      CountFits(l, g - 1);
      UsedBefore(l, disk, g - 1) + UsedInGroup(l, disk, g - 1)
  }

  lemma CountFits(l: Layout, g: nat)
    requires WfLayout(l) && g < |l.groups|
    ensures FirstBlockInGroup(l, g) <= l.lenBlocks
    ensures BlockCount(l, g) <= l.blocksPerGroup
    ensures FirstBlockInGroup(l, g + 1) == FirstBlockInGroup(l, g) + l.blocksPerGroup
  {
  }

  /** The bitmap of an initialised group is not among the used blocks of earlier groups. */
  ghost predicate BitmapsKept(l: Layout, disk: seq<Block>, n: nat)
    requires WfLayout(l) && n <= |l.groups| && BitmapsReadable(l, disk, n)
  {
    forall g :: 0 <= g < n && !l.groups[g].uninit ==> l.groups[g].bitmapBlock !in UsedBefore(l, disk, g)
  }

  /** An uninitialised group is used as a whole, whatever its bitmap says. */
  lemma {:induction false} UninitialisedIsAllUsed(l: Layout, g: nat, a: Block, b: Block, n: nat)
    requires g < |l.groups| && l.groups[g].uninit
    ensures UsedIn(l, g, a, n) == UsedIn(l, g, b, n)
  {
    if n > 0 { UninitialisedIsAllUsed(l, g, a, b, n - 1); }
  }

  ghost predicate Increasing(s: seq<nat>) {
    forall i, j :: 0 <= i < j < |s| ==> s[i] < s[j]
  }

  lemma {:induction false} UsedInIsIncreasing(l: Layout, g: nat, bitmap: Block, n: nat)
    requires g < |l.groups|
    ensures Increasing(UsedIn(l, g, bitmap, n))
  {
    if n > 0 {
      UsedInIsIncreasing(l, g, bitmap, n - 1);
      IncreasingConcat(UsedIn(l, g, bitmap, n - 1), [FirstBlockInGroup(l, g) + n - 1], FirstBlockInGroup(l, g) + n - 1);
    }
  }

  lemma IncreasingConcat(a: seq<nat>, b: seq<nat>, m: nat)
    requires Increasing(a) && Increasing(b)
    requires (forall x :: x in a ==> x < m) && (forall x :: x in b ==> m <= x)
    ensures Increasing(a + b) && a + [] == a
  {
    var c := a + b;
    forall i, j | 0 <= i < j < |c| ensures c[i] < c[j] {
      if i < |a| <= j {
        assert a[i] in a && b[j - |a|] in b;
      }
    }
  }

  /** The walk meets every used block once, in increasing order, and exactly those the bitmaps name. */
  lemma {:induction false} UsedBlocksAreIncreasing(l: Layout, disk: seq<Block>, g: nat)
    requires WfLayout(l) && g <= |l.groups| && BitmapsReadable(l, disk, g)
    ensures Increasing(UsedBefore(l, disk, g))
  {
    if g > 0 {
      hide UsedIn, Increasing, Bit, BlockCount, FirstBlockInGroup;
      CountFits(l, g - 1);
      UsedBlocksAreIncreasing(l, disk, g - 1);
      var bitmap := disk[l.groups[g - 1].bitmapBlock];
      UsedInIsIncreasing(l, g - 1, bitmap, BlockCount(l, g - 1));
      IncreasingConcat(UsedBefore(l, disk, g - 1), UsedIn(l, g - 1, bitmap, BlockCount(l, g - 1)), FirstBlockInGroup(l,
                       g - 1));
    }
  }

  // ----- The blocks a run is told of -----

  /** The used blocks of group `g` as the run reads its bitmap. */
  ghost function NamedIn(e: Env, l: Layout, disk: seq<Block>, from: nat, g: nat): (named: seq<nat>)
    requires WfLayout(l) && g < |l.groups|
    ensures forall b :: b in named ==> FirstBlockInGroup(l, g) <= b < FirstBlockInGroup(l, g + 1)
  {
    CountFits(l, g);
    var blocks, at := OfferedGroups(e, l, Started(disk, from), g).pass.blocks, l.groups[g].bitmapBlock;
    if at < |blocks| then UsedIn(l, g, blocks[at], BlockCount(l, g)) else []
  }

  /** The used blocks of groups 0, ..., g-1 as the run reads their bitmaps. */
  ghost function NamedBefore(e: Env, l: Layout, disk: seq<Block>, from: nat, g: nat): (named: seq<nat>)
    requires WfLayout(l) && g <= |l.groups|
    ensures forall b :: b in named ==> g > 0 && b < FirstBlockInGroup(l, g)
  {
    if g == 0 then []
    else
      CountFits(l, g - 1);
      NamedBefore(e, l, disk, from, g - 1) + NamedIn(e, l, disk, from, g - 1)
  }

  lemma NamedNext(e: Env, l: Layout, disk: seq<Block>, from: nat, g: nat)
    requires WfLayout(l) && g < |l.groups|
    ensures NamedBefore(e, l, disk, from, g + 1) == NamedBefore(e, l, disk, from, g) + NamedIn(e, l, disk, from, g)
  {
    hide UsedIn, BlockCount, FirstBlockInGroup, OfferedGroups, NamedIn;
  }

  lemma NamedBounds(e: Env, l: Layout, disk: seq<Block>, from: nat, g: nat)
    requires WfLayout(l) && g < |l.groups|
    ensures forall x :: x in NamedBefore(e, l, disk, from, g) ==> x < FirstBlockInGroup(l, g)
    ensures forall x :: x in NamedIn(e, l, disk, from, g) ==> FirstBlockInGroup(l, g) <= x
  {
    hide FirstBlockInGroup, NamedIn, NamedBefore, WfLayout;
  }

  lemma {:induction false} NamedIsIncreasing(e: Env, l: Layout, disk: seq<Block>, from: nat, g: nat)
    requires WfLayout(l) && g <= |l.groups|
    ensures Increasing(NamedBefore(e, l, disk, from, g))
  {
    hide FirstBlockInGroup, NamedIn, WfLayout;
    if g > 0 {
      hide NamedBefore, Increasing;
      NamedIsIncreasing(e, l, disk, from, g - 1);
      NamedInIsIncreasing(e, l, disk, from, g - 1);
      NamedBounds(e, l, disk, from, g - 1);
      NamedNext(e, l, disk, from, g - 1);
      IncreasingConcat(NamedBefore(e, l, disk, from, g - 1), NamedIn(e, l, disk, from, g - 1), FirstBlockInGroup(l,
                       g - 1));
    }
  }

  lemma NamedInIsIncreasing(e: Env, l: Layout, disk: seq<Block>, from: nat, g: nat)
    requires WfLayout(l) && g < |l.groups|
    ensures Increasing(NamedIn(e, l, disk, from, g))
  {
    hide UsedIn, OfferedGroups, BlockCount;
    CountFits(l, g);
    var blocks, at := OfferedGroups(e, l, Started(disk, from), g).pass.blocks, l.groups[g].bitmapBlock;
    if at < |blocks| { UsedInIsIncreasing(l, g, blocks[at], BlockCount(l, g)); }
  }

  lemma {:induction false} UsedInIsExact(l: Layout, g: nat, bitmap: Block, n: nat, i: nat)
    requires g < |l.groups| && i < n
    ensures FirstBlockInGroup(l, g) + i in UsedIn(l, g, bitmap, n) <==> l.groups[g].uninit || Bit(bitmap, i)
  {
    if i < n - 1 { UsedInIsExact(l, g, bitmap, n - 1, i); }
  }

  function Counting(n: nat): (s: seq<nat>)
    ensures |s| == n
    ensures forall i :: 0 <= i < n ==> s[i] == i
  {
    if n == 0 then [] else Counting(n - 1) + [n - 1]
  }

  /** Every bitmap is on the device. */
  ghost predicate UsedKnown(fs: FileSystem, disk: seq<Block>) {
    fs.Ext4? ==> WfLayout(fs.layout) && BitmapsReadable(fs.layout, disk, |fs.layout.groups|)
  }

  /** The blocks to encrypt: those the filesystem uses, or all of the given size. */
  ghost function UsedBlocks(fs: FileSystem, disk: seq<Block>, sectors: nat): seq<nat>
    requires UsedKnown(fs, disk)
  {
    match fs
    case Ext4(l) => UsedBefore(l, disk, |l.groups|)
    case Unknown => Counting(sectors)
  }

  /** The blocks a run is told to encrypt, by the bitmaps as it reads them. */
  ghost function NamedBlocks(e: Env, fs: FileSystem, disk: seq<Block>, from: nat, sectors: nat): seq<nat>
    requires fs.Ext4? ==> WfLayout(fs.layout)
  {
    match fs
    case Ext4(l) => NamedBefore(e, l, disk, from, |l.groups|)
    case Unknown => Counting(sectors)
  }

  // ----- Which blocks are flushed by then -----

  /** The batch after offering the blocks in order while every transfer works; the storage does not matter. */
  ghost function BatchOf(blockSize: nat, offered: seq<nat>): (p: Pass)
    requires blockSize > 0
    ensures p.done + p.pending == |offered|
    decreases |offered|
  {
    if offered == [] then Pass([], 0, 0, 0, 0)
    else
      var p, b := BatchOf(blockSize, offered[..|offered| - 1]), offered[|offered| - 1];
      if Ends(p, blockSize, b) then p.(first := b, pending := 1, done := p.done + p.pending)
          else p.(pending := p.pending + 1)
  }

  /** The blocks among them that have been flushed. */
  ghost function FlushedOf(blockSize: nat, offered: seq<nat>): seq<nat>
    requires blockSize > 0
  {
    offered[..BatchOf(blockSize, offered).done]
  }

  /**
    If the bitmap of an initialised group lies in a used block of an earlier group that is flushed before
    it is read, its encryption names the same blocks.
  */
  ghost predicate BitmapHolds(cipher: (nat, Block) -> Block, l: Layout, disk: seq<Block>, g: nat)
    requires WfLayout(l) && g < |l.groups| && BitmapsReadable(l, disk, g + 1)
  {
    CountFits(l, g);
    var at := l.groups[g].bitmapBlock;
    !l.groups[g].uninit && at in FlushedOf(l.blockSize, UsedBefore(l, disk, g)) ==>
      UsedIn(l, g, cipher(at, disk[at]), BlockCount(l, g)) == UsedInGroup(l, disk, g)
  }

  ghost predicate BitmapsHold(cipher: (nat, Block) -> Block, l: Layout, disk: seq<Block>, n: nat)
    requires WfLayout(l) && n <= |l.groups| && BitmapsReadable(l, disk, n)
  {
    forall g :: 0 <= g < n ==> BitmapHolds(cipher, l, disk, g)
  }
}
