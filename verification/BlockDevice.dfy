/**
  A block device behind a write cache, and what a power cut may leave on it.

  A disk is a sequence of 512-byte sectors.  Writes go to the cache; only `Fsync` makes them durable.
  After a power cut a sector with an unsynced write may hold anything at all, except that a write
  of exactly block 0 is atomic: block 0 holds its synced contents or one of the contents written since.
*/
module BlockDevice {
  import opened Wrappers

  const SECTOR_SIZE := 512

  type Sector = s: seq<bv8> | |s| == 512 witness seq(512, i => 0)
  type Disk = seq<Sector>

  const BLANK: Sector := seq(512, i => 0)

  /** A write; sectors beyond the end of the device are lost. */
  function Put(d: Disk, at: nat, data: seq<Sector>): (r: Disk)
    ensures |r| == |d|
    ensures forall s :: 0 <= s < |d| ==> r[s] == if at <= s < at + |data| then data[s - at] else d[s]
  {
    seq(|d|, s requires 0 <= s < |d| => if at <= s < at + |data| then data[s - at] else d[s])
  }

  /** A read; asking for sectors beyond the end of the device fails. */
  function Get(d: Disk, at: nat, count: nat): (r: Option<seq<Sector>>)
    ensures r.Some? ==> |r.value| == count
  {
    if at + count <= |d| then Some(d[at..at + count]) else None
  }

  datatype Op = Write(at: nat, data: seq<Sector>) | Fsync

  function Apply(d: Disk, ops: seq<Op>): (r: Disk)
    ensures |r| == |d|
    decreases |ops|
  {
    if ops == [] then d
    else Apply(if ops[0].Write? then Put(d, ops[0].at, ops[0].data) else d, ops[1..])
  }

  lemma {:induction false} ApplyConcat(d: Disk, a: seq<Op>, b: seq<Op>)
    ensures Apply(d, a + b) == Apply(Apply(d, a), b)
    decreases |a|
  {
    if a == [] {
      assert a + b == b;
    } else {
      assert (a + b)[1..] == a[1..] + b;
      ApplyConcat(if a[0].Write? then Put(d, a[0].at, a[0].data) else d, a[1..], b);
    }
  }

  // ----- The cache -----

  /** `now` is what reads see; `synced` is durable except for `dirty` sectors and the choice of block 0. */
  datatype Cache = Cache(now: Disk, synced: Disk, dirty: set<nat>, heads: set<seq<Sector>>)

  predicate Within(s: nat, at: nat, count: nat) {
    at <= s < at + count
  }

  function Range(at: nat, count: nat): set<nat> {
    set s: nat | at <= s < at + count && Within(s, at, count)
  }

  function Clean(d: Disk, block: nat): Cache
    requires block <= |d|
  {
    Cache(d, d, {}, {d[..block]})
  }

  function Issue(c: Cache, block: nat, op: Op): (r: Cache)
    requires block <= |c.now|
    ensures |r.now| == |c.now|
  {
    match op
    case Fsync => Clean(c.now, block)
    case Write(at, data) =>
      var now := Put(c.now, at, data);
      if at == 0 && |data| == block then c.(now := now, heads := c.heads + {data})
      else c.(now := now, dirty := c.dirty + Range(at, |data|))
  }

  function IssueAll(c: Cache, block: nat, ops: seq<Op>): (r: Cache)
    requires block <= |c.now|
    ensures |r.now| == |c.now|
    decreases |ops|
  {
    if ops == [] then c else IssueAll(Issue(c, block, ops[0]), block, ops[1..])
  }

  /** Can `left` be on the device after a power cut? */
  ghost predicate MayLeave(c: Cache, block: nat, left: Disk) {
    && block <= |left| == |c.synced|
    && ((forall s :: s in c.dirty ==> block <= s) ==> left[..block] in c.heads)
    && forall s :: block <= s < |left| && s !in c.dirty ==> left[s] == c.synced[s]
  }

  lemma {:induction false} IssueAllConcat(c: Cache, block: nat, a: seq<Op>, b: seq<Op>)
    requires block <= |c.now|
    ensures IssueAll(c, block, a + b) == IssueAll(IssueAll(c, block, a), block, b)
    decreases |a|
  {
    if a == [] {
      assert a + b == b;
    } else {
      assert (a + b)[1..] == a[1..] + b;
      IssueAllConcat(Issue(c, block, a[0]), block, a[1..], b);
    }
  }

  lemma {:induction false} IssueAllNow(c: Cache, block: nat, ops: seq<Op>)
    requires block <= |c.now|
    ensures IssueAll(c, block, ops).now == Apply(c.now, ops)
    decreases |ops|
  {
    if ops != [] {
      IssueAllNow(Issue(c, block, ops[0]), block, ops[1..]);
    }
  }

  /** Until the next sync the sectors of a write may hold anything after a power cut, whatever is written besides. */
  lemma UnsyncedMayHoldAnything(c: Cache, block: nat, op: Op, ops: seq<Op>, left: Disk, s: nat, x: Sector)
    requires block <= |c.now| && Fsync !in ops
    requires op.Write? && Within(s, op.at, |op.data|) && block <= op.at && block <= s < |left|
    requires MayLeave(IssueAll(Issue(c, block, op), block, ops), block, left)
    ensures MayLeave(IssueAll(Issue(c, block, op), block, ops), block, left[s := x])
  {
    var c' := Issue(c, block, op);
    assert s in Range(op.at, |op.data|) && s in c'.dirty;
    StaysDirty(c', block, ops, s);
    assert left[s := x][..block] == left[..block];
  }

  lemma {:induction false} StaysDirty(c: Cache, block: nat, ops: seq<Op>, s: nat)
    requires block <= |c.now| && Fsync !in ops && s in c.dirty
    ensures s in IssueAll(c, block, ops).dirty
    decreases |ops|
  {
    if ops != [] { StaysDirty(Issue(c, block, ops[0]), block, ops[1..], s); }
  }

  /** After block 0 is written it may be the old one or the new one. */
  lemma HeadMayBeOldOrNew(d: Disk, block: nat, data: seq<Sector>)
    requires |data| == block <= |d|
    ensures var c := Issue(Clean(d, block), block, Write(0, data));
      MayLeave(c, block, d) && MayLeave(c, block, Put(d, 0, data))
  {
    assert Put(d, 0, data)[..block] == data;
  }

  lemma CleanLeavesOnlyItself(d: Disk, block: nat, left: Disk)
    requires block <= |d| && MayLeave(Clean(d, block), block, left)
    ensures left == d
  {
    assert left[..block] == d[..block];
    forall s | 0 <= s < |d| ensures left[s] == d[s] {
      if s < block {
        assert left[s] == left[..block][s] == d[..block][s];
      }
    }
  }

  /** The device as the restore code holds it: a disk, and the history of what was issued to it. */
  class Device {
    var disk: Disk
    ghost var history: seq<Op>

    constructor (d: Disk)
      ensures disk == d && history == []
    {
      disk := d;
      history := [];
    }

    method Read(at: nat, count: nat) returns (r: Option<seq<Sector>>)
      ensures r == Get(disk, at, count)
    {
      r := if at + count <= |disk| then Some(disk[at..at + count]) else None;
    }

    method Write(at: nat, data: seq<Sector>)
      modifies this
      ensures disk == Put(old(disk), at, data)
      ensures history == old(history) + [Op.Write(at, data)]
    {
      disk := seq(|disk|,
                  s requires 0 <= s < |disk| reads this => if at <= s < at + |data| then data[s - at] else disk[s]);
      history := history + [Op.Write(at, data)];
    }

    method Fsync()
      modifies this`history
      ensures history == old(history) + [Op.Fsync]
    {
      history := history + [Op.Fsync];
    }
  }
}
