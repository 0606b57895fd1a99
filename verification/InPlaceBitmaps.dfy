/**
  Which blocks a run of in-place encryption is told of.

  The bitmaps are read as the walk goes, from storage that is being encrypted, so a bitmap may be read
  after its own block was encrypted.  Here is exactly when the blocks named by the bitmaps as they are
  read are the used blocks.
*/
module InPlaceBitmaps {
  import opened InPlaceRuns
  import opened InPlaceExactlyOnce

  // ----- A batch that reaches beyond the device -----

  lemma {:induction false} StuckStaysIn(e: Env, l: Layout, g: nat, bitmap: Block, p: Pass, n: nat)
    requires l.blockSize > 0 && g < |l.groups| && Stuck(p)
    ensures Stuck(OfferedIn(e, l, g, bitmap, p, n))
  {
    hide Offered, Bit, Stuck;
    if n > 0 {
      StuckStaysIn(e, l, g, bitmap, p, n - 1);
      OfferFailures(e, l.blockSize, OfferedIn(e, l, g, bitmap, p, n - 1), FirstBlockInGroup(l, g) + n - 1);
    }
  }

  /** So far every transfer has worked, and the batch can be flushed. */
  ghost predicate Fine(e: Env, disk: seq<Block>, from: nat, l: Layout, g: nat)
    requires WfLayout(l) && g <= |l.groups|
  {
    var o := OfferedGroups(e, l, Started(disk, from), g);
    o.ok && Clean(e, from, o.pass.transfers) && !Stuck(o.pass)
  }

  /** Everything was fine if it is in the end. */
  lemma FineBefore(e: Env, disk: seq<Block>, from: nat, l: Layout, g: nat)
    requires WfLayout(l) && 0 < g <= |l.groups| && Fine(e, disk, from, l, g)
    ensures Fine(e, disk, from, l, g - 1)
  {
    hide OfferedIn, Bit, BlockCount;
    CountFits(l, g - 1);
    WalkGroups(e, disk, from, l, g - 1);
    var before := OfferedGroups(e, l, Started(disk, from), g - 1);
    var q, at := before.pass, l.groups[g - 1].bitmapBlock;
    var read := q.(transfers := q.transfers + 1);
    GroupTransfers(e, l, g - 1, q.blocks[at], read, BlockCount(l, g - 1));
    if Stuck(q) {
      assert Stuck(read);
      StuckStaysIn(e, l, g - 1, q.blocks[at], read, BlockCount(l, g - 1));
    }
  }

  // ----- Reading a bitmap -----

  lemma WalkedBlock(e: Env, blockSize: nat, disk: seq<Block>, from: nat, p: Pass, named: seq<nat>, at: nat)
    requires blockSize > 0 && WalkedTo(e, blockSize, disk, from, p, named) && Clean(e, from, p.transfers) && !Stuck(p)
    requires at < |disk|
    ensures |p.blocks| == |disk|
    ensures p.blocks[at] == if at in FlushedOf(blockSize, named) then e.cipher(at, disk[at]) else disk[at]
  {
    hide Increasing, Batched, Clean, Stuck, BatchOf;
    var accepted :| Walked(e, blockSize, disk, from, p, named, accepted);
    assert accepted == named;
  }

  /** In a run that is fine so far, every block is encrypted if it was flushed, and otherwise as it was. */
  lemma BlockAsRead(e: Env, disk: seq<Block>, from: nat, l: Layout, g: nat, at: nat)
    requires WfLayout(l) && g <= |l.groups| && Fine(e, disk, from, l, g) && at < |disk|
    ensures var blocks := OfferedGroups(e, l, Started(disk, from), g).pass.blocks;
      && |blocks| == |disk|
      && var flushed := at in FlushedOf(l.blockSize, NamedBefore(e, l, disk, from, g));
         blocks[at] == if flushed then e.cipher(at, disk[at]) else disk[at]
  {
    hide OfferedGroups, WalkedTo, Clean, Stuck, FlushedOf, NamedBefore;
    WalkGroups(e, disk, from, l, g);
    var p, named := OfferedGroups(e, l, Started(disk, from), g).pass, NamedBefore(e, l, disk, from, g);
    WalkedBlock(e, l.blockSize, disk, from, p, named, at);
  }

  /** The bitmap of group `g` names the used blocks if and only if it holds. */
  lemma BitmapNames(e: Env, disk: seq<Block>, from: nat, l: Layout, g: nat)
    requires WfLayout(l) && g < |l.groups| && BitmapsReadable(l, disk, g + 1) && Fine(e, disk, from, l, g)
    requires NamedBefore(e, l, disk, from, g) == UsedBefore(l, disk, g)
    ensures NamedIn(e, l, disk, from, g) == UsedInGroup(l, disk, g) <==> BitmapHolds(e.cipher, l, disk, g)
  {
    hide OfferedGroups, FlushedOf, UsedIn, UsedBefore, BlockCount, Fine;
    CountFits(l, g);
    var at := l.groups[g].bitmapBlock;
    BlockAsRead(e, disk, from, l, g, at);
    if l.groups[g].uninit {
      var bitmap := OfferedGroups(e, l, Started(disk, from), g).pass.blocks[at];
      UninitialisedIsAllUsed(l, g, bitmap, disk[at], BlockCount(l, g));
    }
  }

  lemma CutAt(a: seq<nat>, b: seq<nat>, m: nat, k: nat)
    requires (forall x :: x in a ==> x < m) && (forall x :: x in b ==> m <= x) && k < |a + b|
    ensures (a + b)[k] < m <==> k < |a|
  {
    if k < |a| { assert a[k] in a; } else { assert b[k - |a|] in b; }
  }

  /** Two lists, each cut at the same bound, are equal exactly if their parts are. */
  lemma CutAlike(a: seq<nat>, b: seq<nat>, c: seq<nat>, d: seq<nat>, m: nat)
    requires (forall x :: x in a ==> x < m) && (forall x :: x in b ==> m <= x)
    requires (forall x :: x in c ==> x < m) && (forall x :: x in d ==> m <= x)
    ensures a + b == c + d <==> a == c && b == d
  {
    if a + b == c + d {
      assert |a| == |c| by { if |a| != |c| { SameCut(a, b, c, d, m, if |a| < |c| then |a| else |c|); } }
      assert (a + b)[..|a|] == a && (c + d)[..|c|] == c && (a + b)[|a|..] == b && (c + d)[|c|..] == d;
    }
  }

  lemma SameCut(a: seq<nat>, b: seq<nat>, c: seq<nat>, d: seq<nat>, m: nat, k: nat)
    requires (forall x :: x in a ==> x < m) && (forall x :: x in b ==> m <= x)
    requires (forall x :: x in c ==> x < m) && (forall x :: x in d ==> m <= x)
    requires a + b == c + d && k < |a + b|
    ensures k < |a| <==> k < |c|
  {
    CutAt(a, b, m, k);
    CutAt(c, d, m, k);
  }

  lemma {:induction false} NamesIffBitmapsHold(e: Env, disk: seq<Block>, from: nat, l: Layout, g: nat)
    requires WfLayout(l) && g <= |l.groups| && BitmapsReadable(l, disk, g) && Fine(e, disk, from, l, g)
    ensures NamedBefore(e, l, disk, from, g) == UsedBefore(l, disk, g) <==> BitmapsHold(e.cipher, l, disk, g)
  {
    hide Fine, BitmapHolds, NamedIn, UsedInGroup, BlockCount, WfLayout, OfferedGroups;
    if g > 0 {
      CountFits(l, g - 1);
      FineBefore(e, disk, from, l, g);
      NamesIffBitmapsHold(e, disk, from, l, g - 1);
      CutAlike(NamedBefore(e, l, disk, from, g - 1), NamedIn(e, l, disk, from, g - 1),
               UsedBefore(l, disk, g - 1), UsedInGroup(l, disk, g - 1), FirstBlockInGroup(l, g - 1));
      if NamedBefore(e, l, disk, from, g - 1) == UsedBefore(l, disk, g - 1) { BitmapNames(e, disk, from, l, g - 1); }
    }
  }

  // ----- When a run is exact -----

  lemma {:induction false} SameElements(a: seq<nat>, b: seq<nat>)
    requires Increasing(a) && Increasing(b) && Elements(a) == Elements(b)
    ensures a == b
    decreases |a|
  {
    hide Increasing, Elements;
    DistinctCount(a);
    DistinctCount(b);
    if a != [] {
      var x, y, init, init' := a[|a| - 1], b[|b| - 1], a[..|a| - 1], b[..|b| - 1];
      assert x == y by { LastIsMost(a, b); LastIsMost(b, a); }
      LastIsGreatest(a);
      LastIsGreatest(b);
      assert a == init + [x] && b == init' + [x];
      WithoutLast(init, x);
      WithoutLast(init', x);
      SameElements(init, init');
    }
  }

  lemma WithoutLast(init: seq<nat>, last: nat)
    requires last !in init
    ensures Elements(init) == Elements(init + [last]) - {last}
  {
    ElementsOf(init, last);
    assert last !in Elements(init);
  }

  lemma LastIsMost(a: seq<nat>, b: seq<nat>)
    requires a != [] && b != [] && Increasing(a) && Elements(b) <= Elements(a)
    ensures b[|b| - 1] <= a[|a| - 1]
  {
    assert b[|b| - 1] in Elements(b);
    var i :| 0 <= i < |a| && a[i] == b[|b| - 1];
    assert i == |a| - 1 || a[i] < a[|a| - 1];
  }

  /** A block that is in one of the lists only is the same encrypted. */
  ghost predicate Alike(disk: seq<Block>, cipher: (nat, Block) -> Block, a: seq<nat>, b: seq<nat>) {
    forall i :: 0 <= i < |disk| && (i in a) != (i in b) ==> cipher(i, disk[i]) == disk[i]
  }

  lemma ExactForBoth(blocks: seq<Block>, disk: seq<Block>, cipher: (nat, Block) -> Block, a: seq<nat>, b: seq<nat>)
    requires ExactlyOnce(blocks, disk, cipher, a)
    ensures ExactlyOnce(blocks, disk, cipher, b) <==> (forall x :: x in b ==> x < |disk|) && Alike(disk, cipher, a, b)
  {
    if ExactlyOnce(blocks, disk, cipher, b) {
      forall i | 0 <= i < |disk| && (i in a) != (i in b) ensures cipher(i, disk[i]) == disk[i] {
        assert blocks[i] == Expected(disk, cipher, a, i) && blocks[i] == Expected(disk, cipher, b, i);
      }
    }
  }

  /** If no block of the disk is the same encrypted, the storage tells which blocks were encrypted. */
  lemma SameBlocks(blocks: seq<Block>, disk: seq<Block>, cipher: (nat, Block) -> Block, a: seq<nat>, b: seq<nat>)
    requires Increasing(a) && Increasing(b) && Changes(cipher, disk) && ExactlyOnce(blocks, disk, cipher, a)
    ensures ExactlyOnce(blocks, disk, cipher, b) <==> a == b
  {
    ExactForBoth(blocks, disk, cipher, a, b);
    if ExactlyOnce(blocks, disk, cipher, b) {
      assert forall i :: 0 <= i < |disk| ==> (i in a <==> i in b);
      assert Elements(a) == Elements(b);
      hide ExactlyOnce;
      SameElements(a, b);
    }
  }

  /** Every bitmap that is read after its block was encrypted names the same blocks. */
  ghost predicate AllBitmapsHold(cipher: (nat, Block) -> Block, fs: FileSystem, disk: seq<Block>)
    requires UsedKnown(fs, disk)
  {
    fs.Ext4? ==> BitmapsHold(cipher, fs.layout, disk, |fs.layout.groups|)
  }

  /**
    A run in which no transfer fails is told of exactly the used blocks if and only if every bitmap
    that is encrypted before it is read names the same blocks as before.
  */
  lemma NamedAreUsedIff(e: Env, fs: FileSystem, disk: seq<Block>, from: nat, sectors: nat)
    requires (fs.Ext4? ==> WfLayout(fs.layout)) && RunOf(e, fs, disk, from, sectors).ok
    requires Clean(e, from, RunOf(e, fs, disk, from, sectors).pass.transfers)
    ensures UsedKnown(fs, disk)
    ensures NamedBlocks(e, fs, disk, from, sectors) == UsedBlocks(fs, disk, sectors) <==>
        AllBitmapsHold(e.cipher, fs, disk)
  {
    hide OfferedGroups, OfferedSectors, Flushed, NamedBefore, UsedBefore, BitmapsHold, Stuck;
    RunWalks(e, fs, disk, from, sectors);
    if fs.Ext4? {
      var l := fs.layout;
      var walked := OfferedGroups(e, l, Started(disk, from), |l.groups|);
      FlushFailures(e, walked.pass);
      WalkGroups(e, disk, from, l, |l.groups|);
      CleanAlong(e, from, walked.pass.transfers, Flushed(e, walked.pass).pass.transfers);
      assert Fine(e, disk, from, l, |l.groups|);
      NamesIffBitmapsHold(e, disk, from, l, |l.groups|);
    }
  }

  /**
    When in-place encryption is exact: in a run in which no transfer fails, on a disk of which no block
    is the same encrypted, each used block is encrypted exactly once and no other is touched if and
    only if every bitmap that is encrypted before it is read names the same blocks as before.
  */
  lemma ExactIffBitmapsHold(e: Env, fs: FileSystem, disk: seq<Block>, from: nat, sectors: nat)
    requires (fs.Ext4? ==> WfLayout(fs.layout)) && RunOf(e, fs, disk, from, sectors).ok
    requires Clean(e, from, RunOf(e, fs, disk, from, sectors).pass.transfers) && Changes(e.cipher, disk)
    ensures UsedKnown(fs, disk)
    ensures ExactlyOnce(RunOf(e, fs, disk, from, sectors).pass.blocks, disk, e.cipher, UsedBlocks(fs, disk, sectors))
      <==> AllBitmapsHold(e.cipher, fs, disk)
  {
    hide RunOf, NamedBlocks, UsedBlocks, AllBitmapsHold, Clean, ExactlyOnce, Increasing;
    NamedAreUsedIff(e, fs, disk, from, sectors);
    RunIsExactIffClean(e, fs, disk, from, sectors);
    RunWalks(e, fs, disk, from, sectors);
    UsedIsIncreasing(fs, disk, sectors);
    SameBlocks(RunOf(e, fs, disk, from, sectors).pass.blocks, disk, e.cipher,
               NamedBlocks(e, fs, disk, from, sectors), UsedBlocks(fs, disk, sectors));
  }

  /**
    The same for every cipher and disk: the run is exact if and only if every used block is on the
    device and each block that the bitmaps name though it is not used, or miss though it is, is the same
    encrypted.
  */
  lemma ExactIffAlike(e: Env, fs: FileSystem, disk: seq<Block>, from: nat, sectors: nat)
    requires (fs.Ext4? ==> WfLayout(fs.layout)) && RunOf(e, fs, disk, from, sectors).ok
    requires Clean(e, from, RunOf(e, fs, disk, from, sectors).pass.transfers)
    ensures UsedKnown(fs, disk)
    ensures
      var used := UsedBlocks(fs, disk, sectors);
      ExactlyOnce(RunOf(e, fs, disk, from, sectors).pass.blocks, disk, e.cipher, used) <==>
        (forall b :: b in used ==> b < |disk|) && Alike(disk, e.cipher, NamedBlocks(e, fs, disk, from, sectors), used)
  {
    hide RunOf, NamedBlocks, UsedBlocks, Clean, ExactlyOnce, Alike;
    RunIsExactIffClean(e, fs, disk, from, sectors);
    ExactForBoth(RunOf(e, fs, disk, from, sectors).pass.blocks, disk, e.cipher,
                 NamedBlocks(e, fs, disk, from, sectors), UsedBlocks(fs, disk, sectors));
  }

  lemma UsedIsIncreasing(fs: FileSystem, disk: seq<Block>, sectors: nat)
    requires UsedKnown(fs, disk)
    ensures Increasing(UsedBlocks(fs, disk, sectors))
  {
    match fs
    case Ext4(l) => UsedBlocksAreIncreasing(l, disk, |l.groups|);
    case Unknown => CountingIsIncreasing(sectors);
  }

  // ----- Bitmaps outside the used blocks of earlier groups -----

  /** If no bitmap lies in a used block of an earlier group, a run is told of the used blocks, whatever fails. */
  lemma {:induction false} KeptAreNamed(e: Env, disk: seq<Block>, from: nat, l: Layout, g: nat)
    requires WfLayout(l) && g <= |l.groups| && OfferedGroups(e, l, Started(disk, from), g).ok
    requires BitmapsReadable(l, disk, g) && BitmapsKept(l, disk, g)
    ensures NamedBefore(e, l, disk, from, g) == UsedBefore(l, disk, g)
  {
    hide OfferedIn, BlockCount, UsedIn, BitmapsKept, NamedIn;
    if g > 0 {
      KeptBefore(l, disk, g);
      KeptAreNamed(e, disk, from, l, g - 1);
      KeptIsNamed(e, disk, from, l, g - 1);
    }
  }

  lemma KeptBefore(l: Layout, disk: seq<Block>, g: nat)
    requires WfLayout(l) && 0 < g <= |l.groups| && BitmapsReadable(l, disk, g) && BitmapsKept(l, disk, g)
    ensures BitmapsReadable(l, disk, g - 1) && BitmapsKept(l, disk, g - 1)
    ensures !l.groups[g - 1].uninit ==> l.groups[g - 1].bitmapBlock !in UsedBefore(l, disk, g - 1)
  {
    hide UsedBefore;
  }

  lemma KeptIsNamed(e: Env, disk: seq<Block>, from: nat, l: Layout, g: nat)
    requires WfLayout(l) && g < |l.groups| && OfferedGroups(e, l, Started(disk, from), g).ok
    requires BitmapsReadable(l, disk, g + 1)
    requires NamedBefore(e, l, disk, from, g) == UsedBefore(l, disk, g)
    requires !l.groups[g].uninit ==> l.groups[g].bitmapBlock !in UsedBefore(l, disk, g)
    ensures NamedIn(e, l, disk, from, g) == UsedInGroup(l, disk, g)
  {
    hide OfferedGroups, UsedIn, Increasing, Batched, ExactlyOnce, UsedBefore, BlockCount;
    CountFits(l, g);
    WalkGroups(e, disk, from, l, g);
    var p, at := OfferedGroups(e, l, Started(disk, from), g).pass, l.groups[g].bitmapBlock;
    var accepted :| Walked(e, l.blockSize, disk, from, p, UsedBefore(l, disk, g), accepted);
    if l.groups[g].uninit {
      UninitialisedIsAllUsed(l, g, p.blocks[at], disk[at], BlockCount(l, g));
    } else {
      assert at !in accepted && p.blocks[at] == disk[at];
    }
  }
}
