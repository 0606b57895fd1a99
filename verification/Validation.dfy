/** The dry run sees exactly the disk that really undoing the log would produce. */
module Validation {
  import opened Wrappers
  import opened BlockDevice
  import opened LogFormat
  import opened Relocations
  import opened Arithmetic
  import opened OrderedMap
  import opened Replay

  /** Reading `base` through `m` is reading `d`; beyond the device nothing is redirected. */
  ghost predicate Presents(base: Disk, m: Relocs, d: Disk, block: nat)
    requires block > 0
  {
    && |base| == |d| && 0 in m && Aligned(m, block)
    && (forall x: nat :: x < |d| ==> Lookup(m, x) < |base| && d[x] == base[Lookup(m, x)])
    && (forall x: nat :: |d| <= x ==> Lookup(m, x) == x)
  }

  lemma IdentityPresents(d: Disk, block: nat)
    requires block > 0
    ensures Presents(d, map[0 := 0], d, block)
  {
    forall x: nat ensures Lookup(map[0 := 0], x) == x {
      FloorIs(map[0 := 0], x, 0);
    }
    Quotient(0, 0, block);
  }

  lemma BlockReadsAlike(base: Disk, m: Relocs, d: Disk, block: nat, x: nat)
    requires block > 0 && 0 in m && Presents(base, m, d, block) && x % block == 0
    ensures Get(base, Lookup(m, x), block) == Get(d, x, block)
  {
    hide Lookup, Aligned;
    if x + block <= |d| {
      BlockIsContiguous(m, block, x, block - 1);
      var at := Lookup(m, x);
      assert at + block <= |base|;
      var got, want := base[at..at + block], d[x..x + block];
      forall j | 0 <= j < block ensures got[j] == want[j] {
        BlockIsContiguous(m, block, x, j);
      }
      assert got == want;
    } else {
      var y := if x < |d| then |d| else x;
      BlockIsContiguous(m, block, x, y - x);
      assert x + (y - x) == y && Lookup(m, y) == y;
    }
  }

  /** A long read is a short one and the rest. */
  lemma GetInTwo(d: Disk, x: nat, block: nat, rest: nat)
    ensures var first, second := Get(d, x, block), Get(d, x + block, rest);
      Get(d, x, block + rest) == if first.Some? && second.Some? then Some(first.value + second.value) else None
  {
    if x + block + rest <= |d| {
      assert d[x..x + (block + rest)] == d[x..x + block] + d[x + block..x + block + rest];
    }
  }

  predicate IsMultiple(x: nat, block: nat)
    requires block > 0
  {
    x % block == 0
  }

  function Times(n: nat, block: nat): nat {
    n * block
  }

  lemma OneMore(x: nat, n: nat, block: nat)
    requires block > 0 && n > 0 && IsMultiple(x, block)
    ensures Times(n, block) == block + Times(n - 1, block) && IsMultiple(x + block, block)
  {
    assert n * block == block + (n - 1) * block;
    Quotient(1, 0, block);
    MultiplesAdd(x, block, block);
  }

  /** One more block of a validating read. */
  lemma VirtualReadOneMore(d: Disk, m: Relocs, block: nat, x: nat, n: nat)
    requires block > 0 && 0 in m && n > 0
    ensures var first, rest := Get(d, Lookup(m, x), block), VirtualRead(d, m, block, x + block, n - 1);
      VirtualRead(d, m, block, x, n) == if first.Some? && rest.Some? then Some(first.value + rest.value) else None
  {
    hide Lookup, Get;
  }

  lemma {:induction false} BlocksReadAlike(base: Disk, m: Relocs, d: Disk, block: nat, x: nat, n: nat)
    requires block > 0 && 0 in m && Presents(base, m, d, block) && IsMultiple(x, block)
    requires n == 0 ==> x <= |d|
    ensures VirtualRead(base, m, block, x, n) == Get(d, x, Times(n, block))
    decreases n
  {
    hide Lookup, Presents, Get, VirtualRead, IsMultiple, Times;
    if n == 0 {
      NoBlocksReadAlike(base, m, d, block, x);
    } else {
      FirstBlockReadsAlike(base, m, d, block, x);
      VirtualReadOneMore(base, m, block, x, n);
      OneMore(x, n, block);
      GetInTwo(d, x, block, Times(n - 1, block));
      if Get(d, x, block).Some? {
        ReadIsInside(d, x, block);
        BlocksReadAlike(base, m, d, block, x + block, n - 1);
      }
    }
  }

  lemma NoBlocksReadAlike(base: Disk, m: Relocs, d: Disk, block: nat, x: nat)
    requires block > 0 && 0 in m && x <= |d|
    ensures VirtualRead(base, m, block, x, 0) == Get(d, x, Times(0, block))
  {
    assert Get(d, x, 0) == Some([]);
  }

  lemma FirstBlockReadsAlike(base: Disk, m: Relocs, d: Disk, block: nat, x: nat)
    requires block > 0 && 0 in m && Presents(base, m, d, block) && IsMultiple(x, block)
    ensures Get(base, Lookup(m, x), block) == Get(d, x, block)
  {
    hide Lookup, Presents, Get;
    BlockReadsAlike(base, m, d, block, x);
  }

  /** A validating read on the untouched disk is a plain read of the disk it presents. */
  lemma VirtualReadIsRead(base: Disk, m: Relocs, d: Disk, block: nat, x: nat, n: nat)
    requires block > 0 && 0 in m && Presents(base, m, d, block) && x % block == 0
    requires n == 0 ==> x <= |d|
    ensures VirtualRead(base, m, block, x, n) == Get(d, x, n * block)
  {
    hide Lookup, Presents, Get, VirtualRead;
    BlocksReadAlike(base, m, d, block, x, n);
  }

  lemma ReadIsInside(d: Disk, x: nat, count: nat)
    requires Get(d, x, count).Some?
    ensures x + count <= |d|
  {
  }

  /** Redirecting an entry's target is really copying its saved contents there. */
  lemma CopyIsPresented(base: Disk, m: Relocs, d: Disk, block: nat, source: nat, dest: nat, count: nat)
    requires block > 0 && 0 in m && Presents(base, m, d, block)
    requires source % block == 0 && dest % block == 0 && count % block == 0
    requires source + count <= |d| && dest + count <= |d|
    ensures Presents(base, Relocated(m, source, dest, count), Put(d, source, d[dest..dest + count]), block)
  {
    hide Lookup, Aligned, Relocated;
    var r, c := Relocated(m, source, dest, count), Put(d, source, d[dest..dest + count]);
    RelocatedStaysAligned(m, block, source, dest, count);
    forall x: nat
      ensures x < |d| ==> Lookup(r, x) < |base| && c[x] == base[Lookup(r, x)]
      ensures |d| <= x ==> Lookup(r, x) == x
    {
      RelocatedIsPointwise(m, source, dest, count, x);
      if source <= x < source + count {
        assert d[dest..dest + count][x - source] == d[x - source + dest];
      }
    }
  }

  lemma SavedAlike(base: Disk, m: Relocs, d: Disk, block: nat, ls: Buffer, i: nat)
    requires block > 0 && 0 in m && Presents(base, m, d, block)
    requires WfEntry(EntryOf(ls, i), i, block, |d|)
    ensures VirtualSaved(base, m, block, ls, i) == Saved(d, block, ls, i)
  {
    hide Lookup, EntryOf, Presents, VirtualRead, ContentsOk;
    var e := EntryOf(ls, i);
    if SizeOk(e, block) {
      var n := Sectors(e) / block;
      assert n * block == Sectors(e);
      assert n > 0 by { assert Sectors(e) > 0; }
      VirtualReadIsRead(base, m, d, block, e.dest, n);
    }
  }

  lemma {:induction false} VirtualUndoIsUndo(base: Disk, m: Relocs, d: Disk, block: nat, ls: Buffer, k: nat)
    requires block > 0 && 0 in m && Presents(base, m, d, block)
    requires WfBlock(ls, k, block, |d|)
    ensures VirtualUndo(base, m, block, ls, k).Some? == Undo(d, block, ls, k).Some?
    ensures Undo(d, block, ls, k).Some? ==>
      && 0 in VirtualUndo(base, m, block, ls, k).value
      && Presents(base, VirtualUndo(base, m, block, ls, k).value, Undo(d, block, ls, k).value, block)
    decreases k
  {
    hide Lookup, EntryOf, Presents, Saved, VirtualSaved, Relocated, WfEntry, Sectors;
    if k > 0 {
      var e := EntryOf(ls, k - 1);
      assert WfEntry(e, k - 1, block, |d|);
      SavedAlike(base, m, d, block, ls, k - 1);
      if Saved(d, block, ls, k - 1).Some? {
        SavedReads(d, block, ls, k - 1);
        WfMoves(d, block, ls, k - 1);
        CopyIsPresented(base, m, d, block, e.source, e.dest, Sectors(e));
        VirtualUndoIsUndo(base, Relocated(m, e.source, e.dest, Sectors(e)),
          Put(d, e.source, Saved(d, block, ls, k - 1).value), block, ls, k - 1);
      }
    }
  }

  lemma WfMoves(d: Disk, block: nat, ls: Buffer, i: nat)
    requires block > 0 && Saved(d, block, ls, i).Some?
    requires WfEntry(EntryOf(ls, i), i, block, |d|)
    ensures var e := EntryOf(ls, i);
      && e.source % block == 0 && e.dest % block == 0 && Sectors(e) % block == 0
      && e.source + Sectors(e) <= |d| && e.dest + Sectors(e) <= |d|
  {
    hide EntryOf, ContentsOk, Sectors;
  }

  lemma SavedReads(d: Disk, block: nat, ls: Buffer, i: nat)
    requires block > 0 && Saved(d, block, ls, i).Some?
    ensures var e := EntryOf(ls, i);
      && SizeOk(e, block) && e.dest + Sectors(e) <= |d|
      && Saved(d, block, ls, i).value == d[e.dest..e.dest + Sectors(e)]
  {
    hide EntryOf, ContentsOk;
  }

  /** Validation accepts exactly the logs that can be undone, reading as it goes the disks undoing goes through. */
  lemma {:induction false} ValidatesIffUndoable(base: Disk, m: Relocs, d: Disk, block: nat, q: int)
    requires block > 0 && 0 in m && Presents(base, m, d, block) && WfLog(d, block, q)
    ensures Validates(base, m, block, q) <==> UndoAll(d, block, q).Some?
    decreases q + 1
  {
    hide Lookup, EntryOf, Presents, HeaderOf, VirtualUndo, Undo, WfBlock;
    if q >= 0 && |d| >= block {
      Quotient(0, 0, block);
      VirtualReadIsRead(base, m, d, block, 0, 1);
      var ls := Get(d, 0, block).value;
      if HeaderOk(HeaderOf(ls), block, q, true) {
        VirtualUndoIsUndo(base, m, d, block, ls, HeaderOf(ls).count);
        if Undo(d, block, ls, HeaderOf(ls).count).Some? {
          ValidatesIffUndoable(base, VirtualUndo(base, m, block, ls, HeaderOf(ls).count).value,
            Undo(d, block, ls, HeaderOf(ls).count).value, block, q - 1);
        }
      }
    } else if q >= 0 {
      Quotient(0, 0, block);
      VirtualReadIsRead(base, m, d, block, 0, 1);
    }
  }
}
