/**
  The sectors that have been copied from since the last restart point.

  The set is a map from boundaries to "used from here on", with an entry at 0.  It is canonical
  when neighbouring entries differ and the last entry is false.
*/
module UsedSectors {
  import opened OrderedMap

  type Boundaries = map<nat, bool>

  predicate Used(m: Boundaries, x: nat)
    requires 0 in m
  {
    m[Floor(m, x)]
  }

  ghost predicate Neighbours(m: Boundaries, a: nat, b: nat) {
    a in m && b in m && a < b && forall k :: a < k < b ==> k !in m
  }

  ghost predicate IsLast(m: Boundaries, last: nat) {
    last in m && forall k :: k in m ==> k <= last
  }

  ghost predicate Canonical(m: Boundaries) {
    && 0 in m
    && (forall a, b :: Neighbours(m, a, b) ==> m[a] != m[b])
    && (exists last :: IsLast(m, last) && !m[last])
  }

  /** Boundaries inside the range go; `start` and `end` stay unless they join a used run. */
  function WithRange(m: Boundaries, start: nat, end: nat, joinsBefore: bool, joinsAfter: bool): Boundaries {
    var outer := map k | k in m && (k < start || end < k) :: m[k];
    var started := if joinsBefore then outer else outer[start := true];
    if joinsAfter then started else started[end := false]
  }

  /** The map after [start, end) has been added. */
  function Marked(m: Boundaries, start: nat, end: nat): (r: Boundaries)
    requires 0 in m && start < end
    ensures 0 in r
  {
    WithRange(m, start, end, start > 0 && Used(m, start - 1), Used(m, end))
  }

  lemma NextBoundaryDiffers(m: Boundaries, x: nat, k: nat)
    requires Canonical(m)
    requires IsNext(m, x, k)
    ensures m[k] != Used(m, x)
  {
    hide Floor;
    assert Neighbours(m, Floor(m, x), k);
  }

  /** Marking adds exactly the given range to the set. */
  lemma MarkedIsUnion(m: Boundaries, start: nat, end: nat, x: nat)
    requires Canonical(m) && start < end
    ensures Used(Marked(m, start, end), x) == (Used(m, x) || start <= x < end)
  {
    hide Floor;
    var r, f := Marked(m, start, end), Floor(m, x);
    if x < start {
      FloorIs(r, x, f);
    } else if end < f {
      FloorIs(r, x, f);
    } else {
      if end <= x { FloorIs(m, end, f); }
      if end <= x && !Used(m, end) {
        FloorIs(r, x, end);
      } else if start > 0 && Used(m, start - 1) {
        FloorIs(r, x, Floor(m, start - 1));
      } else {
        FloorIs(r, x, start);
      }
    }
  }

  lemma MarkedAlternates(m: Boundaries, start: nat, end: nat, a: nat, b: nat)
    requires Canonical(m) && start < end
    requires Neighbours(Marked(m, start, end), a, b)
    ensures Marked(m, start, end)[a] != Marked(m, start, end)[b]
  {
    assert 0 in m;
    hide Floor, Marked, Canonical;
    var r := Marked(m, start, end);
    FloorIs(r, b - 1, a);
    MarkedIsUnion(m, start, end, b - 1);
    BoundaryFlips(m, start, end, b);
  }

  /** At a boundary the new map differs from what the sector below it is marked as. */
  lemma BoundaryFlips(m: Boundaries, start: nat, end: nat, b: nat)
    requires Canonical(m) && start < end && b > 0 && b in Marked(m, start, end)
    ensures Marked(m, start, end)[b] != (Used(m, b - 1) || start <= b - 1 < end)
  {
    if b < start || end < b { OutsideAlternates(m, start, end, b); }
    hide Canonical, Floor;
  }

  /** Away from the range the boundaries are as they were. */
  lemma OutsideAlternates(m: Boundaries, start: nat, end: nat, b: nat)
    requires Canonical(m) && start < end && b > 0 && b in Marked(m, start, end) && (b < start || end < b)
    ensures b in m && Marked(m, start, end)[b] == m[b] && Used(m, b - 1) != m[b]
  {
    hide Floor;
    assert Neighbours(m, Floor(m, b - 1), b);
  }

  lemma MarkedIsCanonical(m: Boundaries, start: nat, end: nat)
    requires Canonical(m) && start < end
    ensures Canonical(Marked(m, start, end))
  {
    hide Marked;
    var r := Marked(m, start, end);
    forall a, b | Neighbours(r, a, b) ensures r[a] != r[b] {
      MarkedAlternates(m, start, end, a, b);
    }
    MarkedEndsFalse(m, start, end);
  }

  lemma MarkedEndsFalse(m: Boundaries, start: nat, end: nat)
    requires Canonical(m) && start < end
    ensures exists last :: IsLast(Marked(m, start, end), last) && !Marked(m, start, end)[last]
  {
    hide Floor;
    var r := Marked(m, start, end);
    var last: nat :| IsLast(m, last) && !m[last];
    if last <= end {
      FloorIs(m, end, last);
      assert IsLast(r, end);
    } else {
      assert IsLast(r, last);
    }
  }

  class UsedMap {
    var entries: Boundaries

    ghost predicate Valid()
      reads this
    {
      0 in entries && Canonical(entries)
    }

    constructor ()
      ensures Valid() && entries == map[0 := false]
      ensures forall x: nat :: !Used(entries, x)
    {
      entries := map[0 := false];
    }

    method Clear()
      modifies this
      ensures Valid() && entries == map[0 := false]
      ensures forall x: nat :: !Used(entries, x)
    {
      entries := map[0 := false];
    }

    /**
      Both iterators of the test name the same entry, the one at or before `start`.  No overlap is
      ever missed; in fact every nonempty range is reported as a collision.
    */
    method CheckCollision(start: nat, end: nat) returns (collision: bool)
      requires Valid()
      ensures (exists x :: start <= x < end && Used(entries, x)) ==> collision
      ensures start < end ==> collision
      ensures collision <==> Used(entries, start) || Floor(entries, start) < end
    {
      var secondOverlap := Floor(entries, start);
      var firstOverlap := secondOverlap;
      if entries[firstOverlap] {
        return true;
      } else if secondOverlap < end {
        return true;
      }
      return false;
    }

    /** Adds [start, end), merging with what it touches. */
    method MarkUsed(start: nat, end: nat)
      requires Valid() && start < end
      modifies this
      ensures Valid()
      ensures entries == Marked(old(entries), start, end)
      ensures forall x: nat :: Used(entries, x) == (old(Used(entries, x)) || start <= x < end)
    {
      hide Canonical, Floor, Marked;
      var m := entries;
      entries := entries[start := true][end := false];
      var startPos, endPos := SpanToErase(m, start, end);
      if startPos < endPos {
        entries := map k | k in entries && !(startPos <= k < endPos) :: entries[k];
      }
      ErasedIsMarked(m, start, end, startPos, endPos, entries);
      MarkedIsCanonical(m, start, end);
      forall x: nat {
        MarkedIsUnion(m, start, end, x);
      }
    }

    /** The two positions between which `MarkUsed` erases, once both boundaries have been set. */
    method SpanToErase(ghost m: Boundaries, start: nat, end: nat) returns (startPos: nat, endPos: nat)
      requires 0 in m && start < end && entries == m[start := true][end := false]
      ensures ErasesFrom(entries, start, startPos) && ErasesTo(entries, end, endPos)
    {
      startPos, endPos := start, end;
      if start == 0 || !entries[Floor(entries, start - 1)] {
        ghost var next := NextExists(entries, start, end);
        startPos :| startPos in entries && IsNext(entries, start, startPos);
      }
      if exists k :: k in entries && end < k {
        ghost var some: nat :| some in entries && end < some;
        ghost var next := NextExists(entries, end, some);
        var nextPos: nat :| nextPos in entries && IsNext(entries, end, nextPos);
        assert IsNext(entries, end, nextPos);
        NextIsUnique(entries, end, nextPos);
        if !entries[nextPos] {
          endPos := nextPos;
        }
      }
    }
  }

  /** Erasing starts after `start`, or at `start` when the boundary before it is already true. */
  ghost predicate ErasesFrom(n: Boundaries, start: nat, startPos: nat)
    requires 0 in n
  {
    if start == 0 || !Used(n, start - 1) then IsNext(n, start, startPos) else startPos == start
  }

  /** Erasing stops at `end`, or after it when the boundary after it is already false. */
  ghost predicate ErasesTo(n: Boundaries, end: nat, endPos: nat) {
    && end <= endPos
    && (endPos == end ==> forall k :: IsNext(n, end, k) ==> n[k])
    && (end < endPos ==> IsNext(n, end, endPos) && !n[endPos])
  }

  lemma NextIsUnique(n: Boundaries, x: nat, k: nat)
    requires IsNext(n, x, k)
    ensures forall j :: IsNext(n, x, j) ==> j == k
  {
  }

  /** Above a used sector there is a next boundary, and it is false. */
  lemma UsedRunEnds(m: Boundaries, x: nat) returns (next: nat)
    requires Canonical(m) && Used(m, x)
    ensures IsNext(m, x, next) && !m[next]
  {
    hide Floor;
    var last: nat :| IsLast(m, last) && !m[last];
    if last <= x {
      FloorIs(m, x, last);
    }
    next := NextExists(m, x, last);
    NextBoundaryDiffers(m, x, next);
  }

  lemma EndMergesIfUsed(m: Boundaries, start: nat, end: nat, endPos: nat)
    requires Canonical(m) && 0 in m && start < end
    requires ErasesTo(m[start := true][end := false], end, endPos)
    ensures Used(m, end) <==> end < endPos
  {
    hide Floor, Canonical;
    var n := m[start := true][end := false];
    if Used(m, end) {
      var next := UsedRunEnds(m, end);
      assert forall j :: end < j < next ==> j !in m && j !in n;
      assert IsNext(n, end, next);
    } else if end < endPos {
      assert forall j :: end < j < endPos ==> j !in n && j !in m;
      assert IsNext(m, end, endPos);
      NextBoundaryDiffers(m, end, endPos);
    }
  }

  /** What erasing [startPos, endPos) leaves, for the positions that `MarkUsed` computes. */
  lemma ErasedIsMarked(m: Boundaries, start: nat, end: nat, startPos: nat, endPos: nat, r: Boundaries)
    requires Canonical(m) && 0 in m && start < end
    requires var n := m[start := true][end := false];
      && ErasesFrom(n, start, startPos)
      && ErasesTo(n, end, endPos)
      && r == if startPos < endPos then map k | k in n && !(startPos <= k < endPos) :: n[k] else n
    ensures r == Marked(m, start, end)
  {
    hide Floor, Canonical;
    EndMergesIfUsed(m, start, end, endPos);
    var n := m[start := true][end := false];
    if start > 0 {
      FloorIs(n, start - 1, Floor(m, start - 1));
    }
    assert forall j :: start < j < startPos ==> j !in n;
    assert forall j :: end < j < endPos ==> j !in n;
    assert end in n && start in n;
    ErasedIsWithRange(m, start, end, startPos, endPos);
  }

  lemma ErasedIsWithRange(m: Boundaries, start: nat, end: nat, startPos: nat, endPos: nat)
    requires start <= startPos <= end <= endPos && start < end
    requires var n := m[start := true][end := false];
      && (forall j :: start < j < startPos ==> j !in n)
      && (forall j :: end < j < endPos ==> j !in n)
    ensures var n := m[start := true][end := false];
      WithRange(m, start, end, startPos == start, end < endPos)
        == if startPos < endPos then map k | k in n && !(startPos <= k < endPos) :: n[k] else n
  {
    var n := m[start := true][end := false];
    var r := map k | k in n && !(startPos <= k < endPos) :: n[k];
    var want := WithRange(m, start, end, startPos == start, end < endPos);
    assert forall k :: k in m && k != start && k != end ==> k in n && n[k] == m[k];
    forall k | k in r ensures k in want && want[k] == r[k] {
    }
    forall k | k in want ensures k in r {
    }
  }
}
