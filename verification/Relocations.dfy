/**
  How validation reads a disk as though earlier entries had already been copied.

  A relocation map sends each sector to the sector that currently holds its contents.  Only the
  starting points of runs are stored; between two keys the offset is constant.
*/
module Relocations {
  import opened OrderedMap
  import opened Arithmetic

  type Relocs = map<nat, nat>

  /** Where the contents of sector `x` are. */
  function Lookup(m: Relocs, x: nat): nat
    requires 0 in m
  {
    m[Floor(m, x)] + (x - Floor(m, x))
  }

  /** Does a run start at `k` once the source range has been moved to the destination? */
  predicate StartsMovedRun(m: Relocs, dest: nat, source: nat, k: nat) {
    k == dest || (dest < k && k - dest + source in m)
  }

  /** The part of the map that starts inside the source range, moved to the destination. */
  function Slice(m: Relocs, dest: nat, source: nat, count: nat): Relocs
    requires 0 in m
  {
    map k: nat | dest <= k < dest + count && StartsMovedRun(m, dest, source, k) ::
      if k == dest then Lookup(m, source) else m[k - dest + source]
  }

  /** The map after [dest, dest + count) has been redirected to what [source, source + count) denotes. */
  function Relocated(m: Relocs, dest: nat, source: nat, count: nat): (r: Relocs)
    requires 0 in m
    ensures 0 in r
  {
    var outside := map k | k in m && !(dest <= k < dest + count) :: m[k];
    outside[dest + count := Lookup(m, dest + count)] + Slice(m, dest, source, count)
  }

  lemma InsideIsMoved(m: Relocs, dest: nat, source: nat, count: nat, x: nat)
    requires 0 in m && dest <= x < dest + count
    ensures Lookup(Relocated(m, dest, source, count), x) == Lookup(m, x - dest + source)
  {
    hide Floor;
    var r, f := Relocated(m, dest, source, count), Floor(m, x - dest + source);
    var k := if f <= source then dest else f - source + dest;
    assert StartsMovedRun(m, dest, source, k);
    forall j | k < j <= x ensures j !in r {
      assert j - dest + source !in m;
      assert !StartsMovedRun(m, dest, source, j);
    }
    FloorIs(r, x, k);
    if f <= source { FloorIs(m, source, f); }
  }

  lemma OutsideIsKept(m: Relocs, dest: nat, source: nat, count: nat, x: nat)
    requires 0 in m && !(dest <= x < dest + count)
    ensures Lookup(Relocated(m, dest, source, count), x) == Lookup(m, x)
  {
    hide Floor;
    var r, f := Relocated(m, dest, source, count), Floor(m, x);
    if dest + count <= x && f < dest + count {
      FloorIs(r, x, dest + count);
      FloorIs(m, dest + count, f);
    } else {
      FloorIs(r, x, f);
    }
  }

  /** `Relocated` redirects exactly the sectors of the destination range, whatever the overlap. */
  lemma RelocatedIsPointwise(m: Relocs, dest: nat, source: nat, count: nat, x: nat)
    requires 0 in m
    ensures Lookup(Relocated(m, dest, source, count), x)
         == if dest <= x < dest + count then Lookup(m, x - dest + source) else Lookup(m, x)
  {
    if dest <= x < dest + count {
      InsideIsMoved(m, dest, source, count, x);
    } else {
      OutsideIsKept(m, dest, source, count, x);
    }
  }

  /** Moving past the next run of the source range adds that run to the slice, and nothing else. */
  lemma SliceExtends(m: Relocs, dest: nat, source: nat, i: nat, k: nat)
    requires 0 in m && i > 0
    requires i <= k && forall j :: source + i <= j < source + k ==> j !in m
    ensures Slice(m, dest, source, k) == Slice(m, dest, source, i)
    ensures source + k in m ==>
      Slice(m, dest, source, k + 1) == Slice(m, dest, source, i)[dest + k := m[source + k]]
  {
    hide Floor;
    var was := Slice(m, dest, source, i);
    forall j: nat | dest + i <= j < dest + k ensures !StartsMovedRun(m, dest, source, j) {
      assert source + i <= j - dest + source < source + k;
    }
    assert Slice(m, dest, source, k) == was;
  }

  /** `now` reads at [dest, dest + count) what `was` reads at `source` onwards, and `was` elsewhere. */
  ghost predicate Redirects(was: Relocs, now: Relocs, dest: nat, source: nat, count: nat)
    requires 0 in was && 0 in now
  {
    forall x: nat :: (
      Lookup(now, x) == if dest <= x < dest + count then Lookup(was, x - dest + source) else Lookup(was, x))
  }

  lemma RelocatedRedirects(m: Relocs, dest: nat, source: nat, count: nat)
    requires 0 in m
    ensures Redirects(m, Relocated(m, dest, source, count), dest, source, count)
  {
    forall x: nat {
      RelocatedIsPointwise(m, dest, source, count, x);
    }
  }

  lemma SplicedIsRelocated(m: Relocs, dest: nat, source: nat, count: nat, slice: Relocs, r: Relocs)
    requires 0 in m
    requires slice == Slice(m, dest, source, if count == 0 then 1 else count)
    requires var split := m[dest + count := Lookup(m, dest + count)];
             r == slice + map k | k in split && !(dest <= k < dest + count) :: split[k]
    ensures r == Relocated(m, dest, source, count)
  {
    hide Floor;
  }

  class RelocationMap {
    var entries: Relocs

    ghost predicate Valid()
      reads this
    {
      0 in entries
    }

    constructor ()
      ensures Valid() && entries == map[0 := 0]
      ensures forall x: nat :: Lookup(entries, x) == x
    {
      entries := map[0 := 0];
      new;
      forall x: nat ensures Lookup(entries, x) == x {
        FloorIs(entries, x, 0);
      }
    }

    /** The slice of the map that starts at `source`, moved to `dest`; one run at a time, in order. */
    method TakeSlice(dest: nat, source: nat, count: nat) returns (slice: Relocs)
      requires Valid()
      ensures slice == Slice(entries, dest, source, if count == 0 then 1 else count)
    {
      slice := map[dest := Lookup(entries, source)];
      var s := source;
      assert slice == Slice(entries, dest, source, 1);
      while exists k :: k in entries && s < k < source + count
        invariant source <= s
        invariant s == source || s < source + count
        invariant slice == Slice(entries, dest, source, s - source + 1)
        decreases source + count - s
      {
        ghost var some: nat :| some in entries && s < some < source + count;
        ghost var next := NextExists(entries, s, some);
        var k: nat :| k in entries && IsNext(entries, s, k);
        assert IsNext(entries, s, k) && k <= some;
        SliceExtends(entries, dest, source, s - source + 1, k - source);
        slice := slice[k - source + dest := entries[k]];
        s := k;
      }
      if count > 0 {
        SliceExtends(entries, dest, source, s - source + 1, count);
      }
    }

    /** Edits the map in place; afterwards `dest` onwards reads what `source` onwards read before. */
    method Relocate(dest: nat, source: nat, count: nat)
      requires Valid()
      modifies this
      ensures Valid()
      ensures entries == Relocated(old(entries), dest, source, count)
      ensures Redirects(old(entries), entries, dest, source, count)
    {
      hide Redirects;
      var slice := TakeSlice(dest, source, count);
      // Split the run that covers the end of the destination.
      entries := entries[dest + count := Lookup(entries, dest + count)];
      // Remove every entry in the destination range; add the slice where nothing is in its way.
      entries := map k | k in entries && !(dest <= k < dest + count) :: entries[k];
      entries := slice + entries;
      SplicedIsRelocated(old(entries), dest, source, count, slice, entries);
      RelocatedRedirects(old(entries), dest, source, count);
    }
  }

  // ----- Block alignment -----

  /** Every run starts on a block boundary and lands on one. */
  ghost predicate Aligned(m: Relocs, block: nat)
    requires block > 0
  {
    forall k :: k in m ==> k % block == 0 && m[k] % block == 0
  }

  lemma MultiplesAreApart(a: nat, b: nat, block: nat)
    requires block > 0 && a % block == 0 && b % block == 0 && a < b
    ensures a + block <= b
  {
    var n, r := a / block, b - a;
    assert b == n * block + r;
    if r < block {
      Quotient(n, r, block);
    }
  }

  lemma MultiplesAdd(a: nat, b: nat, block: nat)
    requires block > 0 && a % block == 0 && b % block == 0
    ensures (a + b) % block == 0
    ensures b <= a ==> (a - b) % block == 0
  {
    var p, q := a / block, b / block;
    assert a == p * block && b == q * block;
    Quotient(p + q, 0, block);
    assert a + b == (p + q) * block;
    if b <= a {
      assert a - b == (p - q) * block;
      Quotient(p - q, 0, block);
    }
  }

  /** Inside one block the offset is constant, so a block can be read in one piece. */
  lemma BlockIsContiguous(m: Relocs, block: nat, x: nat, j: nat)
    requires block > 0 && 0 in m && Aligned(m, block)
    requires x % block == 0 && j < block
    ensures Lookup(m, x + j) == Lookup(m, x) + j
    ensures Lookup(m, x) % block == 0
  {
    hide Floor;
    var f := Floor(m, x);
    forall k | f < k <= x + j ensures k !in m {
      if k in m {
        MultiplesAreApart(x, k, block);
        assert false;
      }
    }
    FloorIs(m, x + j, f);
    MultiplesAdd(x, f, block);
    MultiplesAdd(m[f], x - f, block);
  }

  lemma RelocatedStaysAligned(m: Relocs, block: nat, dest: nat, source: nat, count: nat)
    requires block > 0 && 0 in m && Aligned(m, block)
    requires dest % block == 0 && source % block == 0 && count % block == 0
    ensures Aligned(Relocated(m, dest, source, count), block)
  {
    hide Floor;
    var r := Relocated(m, dest, source, count);
    MultiplesAdd(dest, count, block);
    BlockIsContiguous(m, block, source, 0);
    BlockIsContiguous(m, block, dest + count, 0);
    forall k | k in r ensures k % block == 0 && r[k] % block == 0 {
      if dest < k < dest + count {
        MultiplesAdd(k - dest + source, source, block);
        MultiplesAdd(k - dest, dest, block);
      }
    }
  }
}
