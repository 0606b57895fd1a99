/**
  The real pass against its meaning: restart points and "begun" marks come and go in block 0, but
  when the pass ends the disk is the one that undoing the log produces.
*/
module Restoring {
  import opened Wrappers
  import opened BlockDevice
  import opened LogFormat
  import opened Replay
  import opened Validation

  ghost predicate AgreeBeyond(x: Disk, y: Disk, block: nat) {
    |x| == |y| && forall s :: block <= s < |x| ==> x[s] == y[s]
  }

  /** Two copies of a log block that differ at most in their magic and in how many entries are left. */
  ghost predicate SameLog(a: Buffer, b: Buffer) {
    && |a| == |b|
    && HeaderOf(a).(magic := 0, count := 0) == HeaderOf(b).(magic := 0, count := 0)
    && forall i: nat :: EntryOf(a, i) == EntryOf(b, i)
  }

  lemma RestartIsSameLog(ls: Buffer, n: nat)
    requires HeaderOf(ls).headerSize >= HEADER_BYTES && n <= UINT32_MAX
    ensures SameLog(Restart(ls, n), ls)
  {
    hide HeaderOf, EntryOf, Restart;
    RestartHeader(ls, n);
    forall i: nat {
      RestartEntry(ls, n, i);
    }
  }

  lemma PartialIsSameLog(ls: Buffer)
    requires HeaderOf(ls).headerSize >= HEADER_BYTES
    ensures SameLog(Partial(ls), ls)
  {
    hide HeaderOf, EntryOf, Partial;
    PartialHeader(ls);
    forall i: nat {
      PartialEntry(ls, i);
    }
  }

  /** The operations of one entry amount to two writes. */
  lemma ApplyEntryOps(d: Disk, ls: Buffer, i: nat, data: seq<Sector>)
    ensures Apply(d, EntryOps(ls, i, data))
         == Put(Put(d, 0, Restart(ls, i + 1)), EntryOf(ls, i).source, ToWrite(ls, i, data))
  {
    hide Restart, EntryOf, ToWrite, Put;
    var restart, at, out := Restart(ls, i + 1), EntryOf(ls, i).source, ToWrite(ls, i, data);
    var tail: seq<Op> := if i == 0 then [Fsync] else [];
    assert EntryOps(ls, i, data) == [Fsync, Write(0, restart), Fsync, Write(at, out)] + tail;
    ApplyConcat(d, [Fsync, Write(0, restart), Fsync, Write(at, out)], tail);
    assert [Fsync, Write(0, restart), Fsync, Write(at, out)] == [Fsync] + ([Write(0,
        restart)] + ([Fsync] + [Write(at, out)]));
    ApplyConcat(d, [Fsync], [Write(0, restart)] + ([Fsync] + [Write(at, out)]));
    ApplyConcat(d, [Write(0, restart)], [Fsync] + [Write(at, out)]);
    ApplyConcat(Put(d, 0, restart), [Fsync], [Write(at, out)]);
  }

  /** An entry reads the same contents from disks that agree where it reads. */
  lemma SavedIsLocal(x: Disk, y: Disk, block: nat, a: Buffer, b: Buffer, i: nat)
    requires block > 0 && |x| == |y| && SameLog(a, b)
    requires var e := EntryOf(b, i); SizeOk(e, block) ==>
      forall s :: e.dest <= s < e.dest + Sectors(e) && s < |x| ==> x[s] == y[s]
    ensures Saved(x, block, a, i) == Saved(y, block, b, i)
  {
    hide EntryOf, HeaderOf, ContentsOk, Sectors;
    var e := EntryOf(b, i);
    assert EntryOf(a, i) == e;
    if SizeOk(e, block) && e.dest + Sectors(e) <= |x| {
      assert x[e.dest..e.dest + Sectors(e)] == y[e.dest..e.dest + Sectors(e)];
    }
  }

  /** One entry, really restored and ideally undone, side by side. */
  lemma EntryFollows(x: Disk, y: Disk, block: nat, a: Buffer, b: Buffer, i: nat)
    requires block > 0 && block <= |x| && |a| == block && AgreeBeyond(x, y, block) && SameLog(a, b)
    requires WfEntry(EntryOf(b, i), i, block, |y|) && Saved(y, block, b, i).Some?
    ensures Saved(x, block, a, i) == Saved(y, block, b, i)
    ensures var data := Saved(y, block, b, i).value;
      var x' := Apply(x, EntryOps(a, i, data));
      var y' := Put(y, EntryOf(b, i).source, data);
      && AgreeBeyond(x', y', block)
      && (i == 0 ==> |data| == block && y'[..block] == data && x'[..block] == ToWrite(b, 0, data))
  {
    hide EntryOf, HeaderOf, Saved, Sectors, Apply, EntryOps, Restart;
    var e := EntryOf(b, i);
    SavedReads(y, block, b, i);
    SavedIsLocal(x, y, block, a, b, i);
    var data := Saved(y, block, b, i).value;
    assert EntryOf(a, i) == e;
    assert ToWrite(a, i, data) == ToWrite(b, i, data);
    ApplyEntryOps(x, a, i, data);
  }

  lemma {:induction false} BlockFollows(x: Disk, y: Disk, block: nat, a: Buffer, b: Buffer, k: nat)
    requires 0 < block <= |x| && |a| == block && AgreeBeyond(x, y, block) && SameLog(a, b)
    requires 1 <= k <= UINT32_MAX && HeaderOf(a).headerSize >= HEADER_BYTES
    requires WfBlock(b, k, block, |y|) && Undo(y, block, b, k).Some?
    ensures var run, y' := RestoreBlock(x, block, a, k), Undo(y, block, b, k).value;
      && run.ok && AgreeBeyond(run.disk, y', block)
      && run.disk[..block] == ToWrite(b, 0, y'[..block])
    decreases k
  {
    hide EntryOf, HeaderOf, Saved, Sectors, Apply, EntryOps, Restart, ToWrite, SameLog, AgreeBeyond, WfEntry;
    assert WfEntry(EntryOf(b, k - 1), k - 1, block, |y|);
    EntryFollows(x, y, block, a, b, k - 1);
    var data := Saved(y, block, b, k - 1).value;
    var x' := Apply(x, EntryOps(a, k - 1, data));
    var y' := Put(y, EntryOf(b, k - 1).source, data);
    if k > 1 {
      RestartIsSameLog(a, k);
      SameLogTransitive(Restart(a, k), a, b);
      RestartHeader(a, k);
      assert AgreeBeyond(x', y', block);
      BlockFollows(x', y', block, Restart(a, k), b, k - 1);
    } else {
      assert Undo(y', block, b, 0) == Some(y');
      assert RestoreBlock(x', block, Restart(a, k), 0).disk == x';
    }
  }

  lemma SameLogTransitive(a: Buffer, b: Buffer, c: Buffer)
    requires SameLog(a, b) && SameLog(b, c)
    ensures SameLog(a, c)
  {
    hide EntryOf, HeaderOf;
    forall i: nat ensures EntryOf(a, i) == EntryOf(c, i) {
      assert EntryOf(a, i) == EntryOf(b, i) == EntryOf(c, i);
    }
  }

  // ----- The whole pass -----

  /** Every log block that the real pass reaches is well formed. */
  ghost predicate WfRestore(d: Disk, block: nat, q: int)
    requires block > 0
    decreases q + 1
  {
    q >= 0 && Get(d, 0, block).Some? ==>
      var ls := Get(d, 0, block).value;
      HeaderOk(HeaderOf(ls), block, q, false) ==>
        && WfBlock(ls, HeaderOf(ls).count, block, |d|)
        && (RestoreBlock(d, block, ls, HeaderOf(ls).count).ok ==>
              WfRestore(RestoreBlock(d, block, ls, HeaderOf(ls).count).disk, block, q - 1))
  }

  /** Block 0 of `x` is block 0 of `y`, possibly marked as begun. */
  ghost predicate HeadFollows(x: Disk, y: Disk, block: nat)
    requires 0 < block <= |x| && block <= |y|
  {
    x[..block] == y[..block] || x[..block] == Partial(y[..block])
  }

  lemma WfBlockAlike(a: Buffer, b: Buffer, k: nat, block: nat, sectors: nat)
    requires block > 0 && SameLog(a, b) && WfBlock(b, k, block, sectors)
    ensures WfBlock(a, k, block, sectors)
  {
    hide EntryOf, HeaderOf, WfEntry;
    forall i | 0 <= i < k ensures WfEntry(EntryOf(a, i), i, block, sectors) {
      assert EntryOf(a, i) == EntryOf(b, i);
    }
  }

  lemma HeadIsLog(a: Buffer, b: Buffer, block: nat, q: int)
    requires a == b || a == Partial(b)
    requires HeaderOk(HeaderOf(b), block, q, true)
    ensures SameLog(a, b)
    ensures HeaderOk(HeaderOf(a), block, q, false)
    ensures HeaderOf(a).count == HeaderOf(b).count
  {
    hide EntryOf, HeaderOf, Partial;
    PartialHeader(b);
    PartialIsSameLog(b);
  }

  lemma FieldsAreBounded(b: Buffer)
    ensures HeaderOf(b).count <= UINT32_MAX && HeaderOf(b).sequence <= UINT32_MAX
  {
  }

  /** What a restored log block leaves at block 0 when an older log block follows. */
  lemma WrittenHead(ls: Buffer, data: Buffer)
    ensures ToWrite(ls, 0, data) == data || ToWrite(ls, 0, data) == Partial(data)
    ensures HeaderOf(ls).sequence == 0 ==> ToWrite(ls, 0, data) == data
    ensures HeaderOf(ls).sequence != 0 ==> HeaderOf(ToWrite(ls, 0, data)).magic != MAGIC
  {
    hide HeaderOf, Partial;
    PartialHeader(data);
  }

  lemma AgreeingDisks(x: Disk, y: Disk, block: nat)
    requires block <= |x| && AgreeBeyond(x, y, block) && x[..block] == y[..block]
    ensures x == y
  {
    forall s | 0 <= s < |x| ensures x[s] == y[s] {
      if s < block { assert x[..block][s] == y[..block][s]; }
    }
  }

  /** The real pass succeeds whenever the log can be undone, and ends on the same disk. */
  lemma {:induction false} RestoreFollowsUndo(x: Disk, y: Disk, block: nat, q: int)
    requires 0 < block <= |x| && AgreeBeyond(x, y, block) && HeadFollows(x, y, block)
    requires q < 0 ==> x == y
    requires WfLog(y, block, q) && UndoAll(y, block, q).Some?
    ensures RestoreAll(x, block, q).ok
    ensures RestoreAll(x, block, q).disk == UndoAll(y, block, q).value
    ensures WfRestore(x, block, q)
    decreases q + 1
  {
    hide EntryOf, HeaderOf, Undo, RestoreBlock, WfBlock, ToWrite, AgreeBeyond, Partial, SameLog;
    if q >= 0 {
      var a: Buffer, b: Buffer := x[..block], y[..block];
      assert Get(x, 0, block) == Some(a) && |x| == |y| by { RevealLength(x, y, block); }
      assert Get(y, 0, block) == Some(b);
      if HeaderOk(HeaderOf(b), block, q, true) {
        HeadIsLog(a, b, block, q);
      }
      FieldsAreBounded(b);
      var k := HeaderOf(b).count;
      BlockFollows(x, y, block, a, b, k);
      WfBlockAlike(a, b, k, block, |x|);
      var x', y' := RestoreBlock(x, block, a, k).disk, Undo(y, block, b, k).value;
      WrittenHead(b, y'[..block]);
      if q == 0 { AgreeingDisks(x', y', block); }
      RestoreFollowsUndo(x', y', block, q - 1);
    }
  }

  lemma RevealLength(x: Disk, y: Disk, block: nat)
    requires AgreeBeyond(x, y, block)
    ensures |x| == |y|
  {
  }
}
