/**
  Restoring survives power cuts.

  Every entry is preceded by a synced restart point, because the collision test fires on every
  nonempty range.  So at any moment the device is one from which restoring again reaches the same
  disk, however the unsynced sectors were torn, and however often that happens.
*/
module CrashRecovery {
  import opened Wrappers
  import opened BlockDevice
  import opened LogFormat
  import opened Relocations
  import opened Replay
  import opened Validation
  import opened Restoring

  ghost predicate NotALog(d: Disk) {
    |d| > 0 && HeaderOf(d).magic != MAGIC && HeaderOf(d).magic != PARTIAL_MAGIC
  }

  /** The rest of the real pass, from log block `q` on, succeeds and ends on `goal`. */
  ghost predicate Reaches(d: Disk, block: nat, q: int, goal: Disk)
    requires block > 0
  {
    WfRestore(d, block, q) && RestoreAll(d, block, q).ok && RestoreAll(d, block, q).disk == goal
  }

  /** Restoring `d` reaches `goal`, whether `d` is fresh, half restored or already done. */
  ghost predicate Recoverable(d: Disk, block: nat, goal: Disk)
    requires block > 0
  {
    && block <= |d| == |goal| && NotALog(goal)
    && (d == goal || (
          var h := HeaderOf(d);
          && AsInt32(h.sequence) >= 0
          && (h.magic == PARTIAL_MAGIC || (h.magic == MAGIC && Validates(d, map[0 := 0], block, AsInt32(h.sequence))))
          && Reaches(d, block, AsInt32(h.sequence), goal)))
  }

  /** Whatever a power cut now can leave is recoverable. */
  ghost predicate SafeNow(c: Cache, block: nat, goal: Disk)
    requires block > 0
  {
    forall left :: MayLeave(c, block, left) ==> Recoverable(left, block, goal)
  }

  /** So it is now and after each further operation. */
  ghost predicate SafeThroughout(c: Cache, block: nat, ops: seq<Op>, goal: Disk)
    requires 0 < block <= |c.now|
    decreases |ops|
  {
    SafeNow(c, block, goal) && (ops != [] ==> SafeThroughout(Issue(c, block, ops[0]), block, ops[1..], goal))
  }

  lemma {:induction false} SafeConcat(c: Cache, block: nat, a: seq<Op>, b: seq<Op>, goal: Disk)
    requires 0 < block <= |c.now|
    requires SafeThroughout(c, block, a, goal) && SafeThroughout(IssueAll(c, block, a), block, b, goal)
    ensures SafeThroughout(c, block, a + b, goal)
    decreases |a|
  {
    hide SafeNow;
    if a == [] {
      assert a + b == b;
    } else {
      assert (a + b)[1..] == a[1..] + b;
      SafeConcat(Issue(c, block, a[0]), block, a[1..], b, goal);
    }
  }

  lemma {:induction false} SafeAtPrefix(c: Cache, block: nat, ops: seq<Op>, goal: Disk, n: nat)
    requires 0 < block <= |c.now| && n <= |ops|
    requires SafeThroughout(c, block, ops, goal)
    ensures SafeNow(IssueAll(c, block, ops[..n]), block, goal)
    decreases n
  {
    hide SafeNow;
    if n > 0 {
      assert ops[..n][1..] == ops[1..][..n - 1];
      SafeAtPrefix(Issue(c, block, ops[0]), block, ops[1..], goal, n - 1);
    }
  }

  // ----- Restarting one entry -----

  /** Entries k-1, ..., 0 of log block `ls` are still to be restored on `d`, and then the older blocks. */
  ghost predicate Pending(d: Disk, block: nat, ls: Buffer, k: nat, q: nat, goal: Disk)
    requires block > 0
  {
    && |ls| == block <= |d| == |goal| && NotALog(goal)
    && HeaderOk(HeaderOf(ls), block, q, false)
    && k <= HeaderOf(ls).count
    && WfBlock(ls, k, block, |d|)
    && RestoreBlock(d, block, ls, k).ok
    && Reaches(RestoreBlock(d, block, ls, k).disk, block, q - 1, goal)
  }

  /** `left` carries the restart point for `k` entries and is `d` except where entry k-1 writes. */
  ghost predicate Torn(left: Disk, d: Disk, block: nat, ls: Buffer, k: nat)
    requires k > 0
  {
    && block <= |left| == |d| && left[..block] == Restart(ls, k)
    && var e := EntryOf(ls, k - 1);
       forall s :: block <= s < |d| && !(e.source <= s < e.source + Sectors(e)) ==> left[s] == d[s]
  }

  lemma RestartHeaderOk(ls: Buffer, block: nat, q: int, k: nat)
    requires HeaderOk(HeaderOf(ls), block, q, false) && 1 <= k <= HeaderOf(ls).count
    ensures k <= UINT32_MAX
    ensures HeaderOk(HeaderOf(Restart(ls, k)), block, q, false)
    ensures HeaderOf(Restart(ls, k)).count == k
    ensures HeaderOf(Restart(ls, k)).magic == PARTIAL_MAGIC
    ensures SameLog(Restart(ls, k), ls)
  {
    FieldsAreBounded(ls);
    hide HeaderOf, EntryOf, Restart;
    RestartHeader(ls, k);
    RestartIsSameLog(ls, k);
  }

  lemma EntryOpsAlike(a: Buffer, ls: Buffer, i: nat, data: seq<Sector>)
    requires a == Restart(ls, i + 1) && SameLog(a, ls)
    ensures Restart(a, i + 1) == Restart(ls, i + 1)
    ensures EntryOps(a, i, data) == EntryOps(ls, i, data)
  {
    hide HeaderOf, EntryOf, Restart;
    RestartAgain(ls, i + 1, i + 1);
    assert EntryOf(a, i) == EntryOf(ls, i);
  }

  /** Redoing the entry gives the same disk as doing it once: it rewrites whatever was torn. */
  lemma RedoneEntry(left: Disk, d: Disk, block: nat, ls: Buffer, k: nat, q: nat, goal: Disk)
    requires block > 0 && k > 0 && Pending(d, block, ls, k, q, goal) && Torn(left, d, block, ls, k)
    ensures SameLog(Restart(ls, k), ls)
    ensures RestoreBlock(left, block, Restart(ls, k), k) == RestoreBlock(d, block, ls, k)
  {
    hide HeaderOf, EntryOf, Restart, Reaches, NotALog, ToWrite, Sectors, EntryOps, Apply, Saved;
    var a, i := Restart(ls, k), k - 1;
    var e := EntryOf(ls, i);
    assert WfEntry(e, i, block, |d|);
    RestartHeaderOk(ls, block, q, k);
    SavedIsLocal(left, d, block, a, ls, i);
    var data := Saved(d, block, ls, i).value;
    SavedReads(d, block, ls, i);
    EntryOpsAlike(a, ls, i, data);
    ApplyEntryOps(left, ls, i, data);
    ApplyEntryOps(d, ls, i, data);
    RedoneWrites(left, d, block, a, e.source, ToWrite(ls, i, data));
  }

  lemma RedoneWrites(left: Disk, d: Disk, block: nat, head: seq<Sector>, at: nat, data: seq<Sector>)
    requires |head| == block <= |left| == |d|
    requires forall s :: block <= s < |d| && !(at <= s < at + |data|) ==> left[s] == d[s]
    ensures Put(Put(left, 0, head), at, data) == Put(Put(d, 0, head), at, data)
  {
  }

  lemma TornIsRecoverable(left: Disk, d: Disk, block: nat, ls: Buffer, k: nat, q: nat, goal: Disk)
    requires block > 0 && k > 0 && Pending(d, block, ls, k, q, goal) && Torn(left, d, block, ls, k)
    ensures Recoverable(left, block, goal)
  {
    hide HeaderOf, EntryOf, Restart, NotALog, RestoreBlock, Validates, WfBlock;
    var a := Restart(ls, k);
    RedoneEntry(left, d, block, ls, k, q, goal);
    RestartHeaderOk(ls, block, q, k);
    HeaderOfPrefix(left, block);
    WfBlockAlike(a, ls, k, block, |d|);
    assert Get(left, 0, block) == Some(a);
    RestoredFromBlock(left, block, a, q, goal);
  }

  /** If the log block at block 0 can be restored and the rest reaches the goal, the whole pass does. */
  lemma RestoredFromBlock(d: Disk, block: nat, a: Buffer, q: nat, goal: Disk)
    requires block > 0 && Get(d, 0, block) == Some(a)
    requires HeaderOk(HeaderOf(a), block, q, false) && WfBlock(a, HeaderOf(a).count, block, |d|)
    requires RestoreBlock(d, block, a, HeaderOf(a).count).ok
    requires Reaches(RestoreBlock(d, block, a, HeaderOf(a).count).disk, block, q - 1, goal)
    ensures Reaches(d, block, q, goal)
  {
    hide HeaderOf, RestoreBlock, WfBlock, HeaderOk;
  }

  // ----- One entry, operation by operation -----

  lemma SyncIsSafe(c: Cache, block: nat, goal: Disk)
    requires 0 < block <= |c.now| && SafeNow(c, block, goal) && MayLeave(c, block, c.now)
    ensures SafeNow(Clean(c.now, block), block, goal)
    ensures MayLeave(Clean(c.now, block), block, c.now)
  {
    hide Recoverable;
    forall left | MayLeave(Clean(c.now, block), block, left) ensures Recoverable(left, block, goal) {
      CleanLeavesOnlyItself(c.now, block, left);
    }
  }

  /** Saving the restart point: block 0 is the old one or the new one, and both are fine. */
  lemma SavingIsSafe(d: Disk, block: nat, ls: Buffer, k: nat, q: nat, goal: Disk)
    requires block > 0 && k > 0 && Pending(d, block, ls, k, q, goal) && Recoverable(d, block, goal)
    ensures var c := Issue(Clean(d, block), block, Write(0, Restart(ls, k)));
      && SafeNow(c, block, goal) && MayLeave(c, block, c.now)
      && c.now == Put(d, 0, Restart(ls, k)) && Torn(c.now, d, block, ls, k)
  {
    hide HeaderOf, EntryOf, Restart, Recoverable, Sectors;
    var head := Restart(ls, k);
    var c := Issue(Clean(d, block), block, Write(0, head));
    assert c.now[..block] == head;
    assert Torn(c.now, d, block, ls, k);
    forall left | MayLeave(c, block, left) ensures Recoverable(left, block, goal) {
      if left[..block] == head {
        TornIsRecoverable(left, d, block, ls, k, q, goal);
      } else {
        CleanLeavesOnlyItself(d, block, left);
      }
    }
  }

  /** Copying back while the restart point is durable: the target may be torn, nothing else. */
  lemma CopyingIsSafe(d: Disk, block: nat, ls: Buffer, k: nat, q: nat, goal: Disk, out: seq<Sector>)
    requires block > 0 && k > 1 && Pending(d, block, ls, k, q, goal)
    requires Saved(d, block, ls, k - 1).Some? && |out| == Sectors(EntryOf(ls, k - 1))
    ensures var saved := Put(d, 0, Restart(ls, k));
      var c := Issue(Clean(saved, block), block, Write(EntryOf(ls, k - 1).source, out));
      SafeNow(c, block, goal) && MayLeave(c, block, c.now)
  {
    hide HeaderOf, EntryOf, Restart, Recoverable, Sectors, RestoreBlock, Reaches;
    var saved, e := Put(d, 0, Restart(ls, k)), EntryOf(ls, k - 1);
    var c := Issue(Clean(saved, block), block, Write(e.source, out));
    SavedReads(d, block, ls, k - 1);
    assert WfEntry(e, k - 1, block, |d|);
    assert saved[..block] == Restart(ls, k);
    assert c.now[..block] == saved[..block];
    assert c.dirty == Range(e.source, |out|) && c.heads == {saved[..block]};
    forall left | MayLeave(c, block, left) ensures Recoverable(left, block, goal) {
      forall s | block <= s < |d| && !(e.source <= s < e.source + Sectors(e)) ensures left[s] == d[s] {
        assert s !in c.dirty;
        assert saved[s] == d[s];
      }
      assert Torn(left, d, block, ls, k);
      TornIsRecoverable(left, d, block, ls, k, q, goal);
    }
  }

  /** Restoring block 0 itself ends the log block: the next one, or the finished disk, takes over. */
  lemma FinishingIsSafe(d: Disk, block: nat, ls: Buffer, q: nat, goal: Disk, out: seq<Sector>)
    requires block > 0 && Pending(d, block, ls, 1, q, goal) && |out| == block
    requires Recoverable(Put(Put(d, 0, Restart(ls, 1)), 0, out), block, goal)
    ensures var saved := Put(d, 0, Restart(ls, 1));
      var c := Issue(Clean(saved, block), block, Write(0, out));
      SafeNow(c, block, goal) && MayLeave(c, block, c.now)
  {
    hide HeaderOf, EntryOf, Restart, Recoverable, Sectors, RestoreBlock, Reaches;
    var saved := Put(d, 0, Restart(ls, 1));
    var c := Issue(Clean(saved, block), block, Write(0, out));
    assert saved[..block] == Restart(ls, 1);
    assert c.now[..block] == out;
    forall left | MayLeave(c, block, left) ensures Recoverable(left, block, goal) {
      assert left[..block] == out || left[..block] == Restart(ls, 1);
      if left[..block] == out {
        AgreeingDisks(left, c.now, block);
      } else {
        TornIsRecoverable(left, d, block, ls, 1, q, goal);
      }
    }
  }

  lemma LastEntry(d: Disk, block: nat, ls: Buffer, q: nat, goal: Disk)
    requires block > 0 && Pending(d, block, ls, 1, q, goal)
    ensures Saved(d, block, ls, 0).Some?
    ensures var out := ToWrite(ls, 0, Saved(d, block, ls, 0).value);
      && |out| == block && EntryOf(ls, 0).source == 0
      && RestoreBlock(d, block, ls, 1).disk == Put(Put(d, 0, Restart(ls, 1)), 0, out)
  {
    hide HeaderOf, EntryOf, Restart, ToWrite, Sectors, NotALog, Apply, Reaches;
    var data := Saved(d, block, ls, 0).value;
    SavedReads(d, block, ls, 0);
    assert WfEntry(EntryOf(ls, 0), 0, block, |d|);
    ApplyEntryOps(d, ls, 0, data);
    assert RestoreBlock(d, block, ls, 1).disk
        == RestoreBlock(Apply(d, EntryOps(ls, 0, data)), block, Restart(ls, 1), 0).disk;
  }

  /** The disk after the last entry of a log block can be restored further, or is the goal. */
  lemma NextBlockIsRecoverable(d: Disk, block: nat, ls: Buffer, q: nat, goal: Disk)
    requires block > 0 && Pending(d, block, ls, 1, q, goal)
    ensures Saved(d, block, ls, 0).Some?
    ensures var out := ToWrite(ls, 0, Saved(d, block, ls, 0).value);
      && |out| == block && EntryOf(ls, 0).source == 0
      && Recoverable(Put(Put(d, 0, Restart(ls, 1)), 0, out), block, goal)
  {
    hide HeaderOf, EntryOf, Restart, ToWrite, Sectors, NotALog, RestoreBlock, WfBlock, Saved, WfRestore, Validates;
    LastEntry(d, block, ls, q, goal);
    var data := Saved(d, block, ls, 0).value;
    var out := ToWrite(ls, 0, data);
    var d' := Put(Put(d, 0, Restart(ls, 1)), 0, out);
    assert Reaches(d', block, q - 1, goal);
    if q > 0 {
      FieldsAreBounded(ls);
      WrittenHead(ls, data);
      assert d'[..block] == out;
      HeaderOfPrefix(d', block);
      assert Get(d', 0, block).value == d'[..block];
    }
  }

  lemma SafeStep(c: Cache, block: nat, op: Op, rest: seq<Op>, goal: Disk)
    requires 0 < block <= |c.now| && SafeNow(c, block, goal)
    requires SafeThroughout(Issue(c, block, op), block, rest, goal)
    ensures SafeThroughout(c, block, [op] + rest, goal)
    ensures IssueAll(c, block, [op] + rest) == IssueAll(Issue(c, block, op), block, rest)
  {
    hide SafeNow;
    assert ([op] + rest)[1..] == rest;
  }

  /** Everything the device does for one entry is safe, and leaves it ready for the next. */
  lemma EntryIsSafe(c: Cache, block: nat, ls: Buffer, k: nat, q: nat, goal: Disk)
    requires 0 < block && k > 0 && Pending(c.now, block, ls, k, q, goal)
    requires SafeNow(c, block, goal) && MayLeave(c, block, c.now)
    ensures Saved(c.now, block, ls, k - 1).Some?
    ensures var ops := EntryOps(ls, k - 1, Saved(c.now, block, ls, k - 1).value);
      var c' := IssueAll(c, block, ops);
      && SafeThroughout(c, block, ops, goal)
      && SafeNow(c', block, goal) && MayLeave(c', block, c'.now) && c'.now == Apply(c.now, ops)
  {
    hide HeaderOf, EntryOf, Restart, ToWrite, Recoverable, SafeNow, MayLeave, Reaches, Saved, Issue, Apply, Sectors,
         HeaderOk, WfEntry, NotALog;
    var d, i := c.now, k - 1;
    assert Saved(d, block, ls, i).Some? by { PendingIsSaved(d, block, ls, k, q, goal); }
    var data := Saved(d, block, ls, i).value;
    var at, out := EntryOf(ls, i).source, ToWrite(ls, i, data);
    var restart := Write(0, Restart(ls, i + 1));
    var tail: seq<Op> := if i == 0 then [Fsync] else [];
    var c1 := Issue(c, block, Fsync);
    IssueFsync(c, block);
    SyncIsSafe(c, block, goal);
    assert Recoverable(d, block, goal) by { assert MayLeave(c, block, d); RevealSafe(c, block, goal, d); }
    var c2 := Issue(c1, block, restart);
    SavingIsSafe(d, block, ls, k, q, goal);
    var c3 := Issue(c2, block, Fsync);
    IssueFsync(c2, block);
    SyncIsSafe(c2, block, goal);
    var c4 := Issue(c3, block, Write(at, out));
    if k > 1 {
      CopyingIsSafe(d, block, ls, k, q, goal, out);
    } else {
      NextBlockIsRecoverable(d, block, ls, q, goal);
      FinishingIsSafe(d, block, ls, q, goal, out);
    }
    var c5 := IssueAll(c4, block, tail);
    if i == 0 {
      IssueFsync(c4, block);
      SyncIsSafe(c4, block, goal);
      assert SafeThroughout(Issue(c4, block, Fsync), block, [], goal);
      SafeStep(c4, block, Fsync, [], goal);
      assert [Fsync] + [] == tail;
    }
    assert SafeThroughout(c4, block, tail, goal);
    SafeStep(c3, block, Write(at, out), tail, goal);
    SafeStep(c2, block, Fsync, [Write(at, out)] + tail, goal);
    SafeStep(c1, block, restart, [Fsync] + ([Write(at, out)] + tail), goal);
    SafeStep(c, block, Fsync, [restart] + ([Fsync] + ([Write(at, out)] + tail)), goal);
    assert EntryOps(ls, i, data) == [Fsync] + ([restart] + ([Fsync] + ([Write(at, out)] + tail)));
    IssueAllNow(c, block, EntryOps(ls, i, data));
  }

  lemma PendingIsSaved(d: Disk, block: nat, ls: Buffer, k: nat, q: nat, goal: Disk)
    requires block > 0 && k > 0 && Pending(d, block, ls, k, q, goal)
    ensures Saved(d, block, ls, k - 1).Some?
  {
    hide Saved;
  }

  lemma IssueFsync(c: Cache, block: nat)
    requires block <= |c.now|
    ensures Issue(c, block, Fsync) == Clean(c.now, block)
  {
  }

  lemma RevealSafe(c: Cache, block: nat, goal: Disk, left: Disk)
    requires block > 0 && SafeNow(c, block, goal) && MayLeave(c, block, left)
    ensures Recoverable(left, block, goal)
  {
  }

  // ----- The whole pass -----

  lemma {:induction false} OpsConcat(a: seq<seq<Op>>, b: seq<seq<Op>>)
    ensures Ops(a + b) == Ops(a) + Ops(b)
    decreases |a|
  {
    if a == [] {
      assert a + b == b;
    } else {
      assert (a + b)[1..] == a[1..] + b;
      OpsConcat(a[1..], b);
    }
  }

  lemma PendingStep(d: Disk, block: nat, ls: Buffer, k: nat, q: nat, goal: Disk)
    requires block > 0 && k > 1 && Pending(d, block, ls, k, q, goal)
    ensures Saved(d, block, ls, k - 1).Some?
    ensures var ops := EntryOps(ls, k - 1, Saved(d, block, ls, k - 1).value);
      && Pending(Apply(d, ops), block, Restart(ls, k), k - 1, q, goal)
  {
    hide HeaderOf, EntryOf, Restart, Reaches, Saved, Apply, EntryOps, WfEntry, NotALog;
    RestartHeaderOk(ls, block, q, k);
    WfBlockAlike(Restart(ls, k), ls, k - 1, block, |d|);
  }

  lemma {:induction false} BlockIsSafe(c: Cache, block: nat, ls: Buffer, k: nat, q: nat, goal: Disk)
    requires 0 < block <= |c.now| && k > 0 && Pending(c.now, block, ls, k, q, goal)
    requires SafeNow(c, block, goal) && MayLeave(c, block, c.now)
    ensures var run := RestoreBlock(c.now, block, ls, k);
      var c' := IssueAll(c, block, Ops(run.steps));
      && SafeThroughout(c, block, Ops(run.steps), goal)
      && SafeNow(c', block, goal) && MayLeave(c', block, c'.now) && c'.now == run.disk
    decreases k
  {
    hide HeaderOf, EntryOf, Restart, SafeNow, MayLeave, Saved, Apply, EntryOps, Pending, Issue;
    var d := c.now;
    EntryIsSafe(c, block, ls, k, q, goal);
    var ops := EntryOps(ls, k - 1, Saved(d, block, ls, k - 1).value);
    var c' := IssueAll(c, block, ops);
    var rest := RestoreBlock(c'.now, block, Restart(ls, k), k - 1);
    var run := RestoreBlock(d, block, ls, k);
    assert run.steps == [ops] + rest.steps;
    assert run.steps[1..] == rest.steps;
    if k > 1 {
      PendingStep(d, block, ls, k, q, goal);
      BlockIsSafe(c', block, Restart(ls, k), k - 1, q, goal);
    } else {
      assert Ops(rest.steps) == [];
      assert SafeThroughout(c', block, [], goal);
    }
    SafeConcat(c, block, ops, Ops(rest.steps), goal);
    IssueAllConcat(c, block, ops, Ops(rest.steps));
  }

  lemma {:induction false} PassIsSafe(c: Cache, block: nat, q: int, goal: Disk)
    requires 0 < block <= |c.now| == |goal| && Reaches(c.now, block, q, goal) && NotALog(goal)
    requires SafeNow(c, block, goal) && MayLeave(c, block, c.now)
    ensures SafeThroughout(c, block, Ops(RestoreAll(c.now, block, q).steps), goal)
    decreases q + 1
  {
    hide HeaderOf, EntryOf, SafeNow, MayLeave, RestoreBlock, WfBlock, Issue, NotALog;
    if q >= 0 {
      var ls: Buffer := Get(c.now, 0, block).value;
      var k := HeaderOf(ls).count;
      var run := RestoreBlock(c.now, block, ls, k);
      assert Pending(c.now, block, ls, k, q, goal);
      BlockIsSafe(c, block, ls, k, q, goal);
      var c' := IssueAll(c, block, Ops(run.steps));
      PassIsSafe(c', block, q - 1, goal);
      OpsConcat(run.steps, RestoreAll(run.disk, block, q - 1).steps);
      SafeConcat(c, block, Ops(run.steps), Ops(RestoreAll(run.disk, block, q - 1).steps), goal);
    } else {
      assert Ops([]) == [];
    }
  }

  // ----- The whole command, interrupted any number of times -----

  function RestoreOps(d: Disk): seq<Op>
    requires UsableBlockSize(d)
  {
    Ops(Restore(d).steps)
  }

  /** `left` is what a power cut at some point of restoring `d` leaves. */
  ghost predicate Interrupted(d: Disk, left: Disk, block: nat) {
    && UsableBlockSize(d) && block <= |d|
    && exists n | 0 <= n <= |RestoreOps(d)| ::
         MayLeave(IssueAll(Clean(d, block), block, RestoreOps(d)[..n]), block, left)
  }

  lemma RecoverableRuns(d: Disk, block: nat, goal: Disk)
    requires block > 0 && Recoverable(d, block, goal)
    ensures UsableBlockSize(d) && Restore(d).disk == goal
    ensures d == goal || Restore(d) == RestoreAll(d, block, AsInt32(HeaderOf(d).sequence))
  {
    hide HeaderOf, RestoreBlock, Validates, WfRestore;
    if d != goal {
      HeaderOfPrefix(d, block);
      assert Get(d, 0, block).value == d[..block];
      assert HeaderOk(HeaderOf(d), block, AsInt32(HeaderOf(d).sequence), false);
    }
  }

  /** A power cut at any point leaves a device from which restoring reaches the same disk. */
  lemma PowerCutIsRecoverable(d: Disk, left: Disk, block: nat, goal: Disk)
    requires block > 0 && Recoverable(d, block, goal) && Interrupted(d, left, block)
    ensures Recoverable(left, block, goal)
  {
    hide HeaderOf, RestoreAll, Validates, WfRestore, MayLeave;
    var ops := RestoreOps(d);
    var n :| 0 <= n <= |ops| && MayLeave(IssueAll(Clean(d, block), block, ops[..n]), block, left);
    RecoverableRuns(d, block, goal);
    var c := Clean(d, block);
    CleanIsSafe(d, block, goal);
    if d == goal && !IsLog(d) {
      assert ops == [];
      assert SafeThroughout(c, block, ops, goal);
    } else {
      PassIsSafe(c, block, AsInt32(HeaderOf(d).sequence), goal);
    }
    SafeAtPrefix(c, block, ops, goal, n);
    RevealSafe(IssueAll(c, block, ops[..n]), block, goal, left);
  }

  lemma CleanIsSafe(d: Disk, block: nat, goal: Disk)
    requires 0 < block <= |d| && Recoverable(d, block, goal)
    ensures SafeNow(Clean(d, block), block, goal) && MayLeave(Clean(d, block), block, d)
  {
    hide Recoverable;
    forall left | MayLeave(Clean(d, block), block, left) ensures Recoverable(left, block, goal) {
      CleanLeavesOnlyItself(d, block, left);
    }
  }

  /** A fresh log that validation accepts is recoverable, and what it recovers is the reverse replay. */
  lemma AcceptedLogIsRecoverable(d: Disk, block: nat, q: nat)
    requires block > 0 && IsLog(d) && HeaderOf(d).magic == MAGIC && AsInt32(HeaderOf(d).sequence) == q
    requires WfLog(d, block, q) && Validates(d, map[0 := 0], block, q)
    requires UndoAll(d, block, q).Some? ==> NotALog(UndoAll(d, block, q).value)
    ensures UndoAll(d, block, q).Some?
    ensures Recoverable(d, block, UndoAll(d, block, q).value)
  {
    hide HeaderOf, RestoreAll, Validates, WfRestore, WfLog, Presents;
    IdentityPresents(d, block);
    ValidatesIffUndoable(d, map[0 := 0], d, block, q);
    assert block <= |d|;
    RestoreFollowsUndo(d, d, block, q);
  }

  /**
    Crash recovery.  Start from a fresh, accepted log; cut the power at any point of the restore,
    restore what is left, cut again, any number of times.  Restoring the last disk always gives the
    disk that one uninterrupted reverse replay of the original would give.
  */
  lemma {:induction false} RestoreSurvivesPowerCuts(disks: seq<Disk>, block: nat, goal: Disk)
    requires block > 0 && disks != [] && Recoverable(disks[0], block, goal)
    requires forall i :: 0 <= i < |disks| - 1 ==> Interrupted(disks[i], disks[i + 1], block)
    ensures var last := disks[|disks| - 1];
      Recoverable(last, block, goal) && UsableBlockSize(last) && Restore(last).disk == goal
    decreases |disks|
  {
    hide Recoverable, Interrupted, Restore, UsableBlockSize;
    if |disks| == 1 {
      RecoverableRuns(disks[0], block, goal);
    } else {
      assert Interrupted(disks[0], disks[0 + 1], block);
      PowerCutIsRecoverable(disks[0], disks[1], block, goal);
      var rest := disks[1..];
      forall i | 0 <= i < |rest| - 1 ensures Interrupted(rest[i], rest[i + 1], block) {
        assert Interrupted(disks[i + 1], disks[i + 1 + 1], block);
      }
      RestoreSurvivesPowerCuts(rest, block, goal);
    }
  }

  /**
    Without I/O errors a fresh log is undone entirely or not at all: either validation accepts, the
    real pass succeeds too and the disk is the reverse replay, or only block 0 changes.
  */
  lemma AllOrNothing(d: Disk)
    requires IsLog(d) && UsableBlockSize(d) && HeaderOf(d).magic == MAGIC && HeaderOf(d).blockSize >= HEADER_BYTES
    requires WfLog(d, BlockOf(d), AsInt32(HeaderOf(d).sequence))
    ensures var block, undone := BlockOf(d), UndoAll(d, BlockOf(d), AsInt32(HeaderOf(d).sequence));
      var run, original := Restore(d), Get(d, HeaderOf(d).sector0, BlockOf(d));
      && (undone.Some? ==> run.ok && run.disk == undone.value)
      && (undone.None? && original.Some? ==> run.ok && run.disk == Put(d, 0, original.value))
      && (undone.None? && original.None? ==> !run.ok && run.disk == d)
  {
    hide HeaderOf, RestoreAll, Validates, WfRestore, Presents;
    var block, q := BlockOf(d), AsInt32(HeaderOf(d).sequence);
    IdentityPresents(d, block);
    ValidatesIffUndoable(d, map[0 := 0], d, block, q);
    if UndoAll(d, block, q).Some? {
      if q >= 0 {
        RestoreFollowsUndo(d, d, block, q);
      } else {
        EmptyPass(d, block, q);
      }
    }
  }

  lemma EmptyPass(d: Disk, block: nat, q: int)
    requires block > 0 && q < 0
    ensures RestoreAll(d, block, q) == Run(true, d, [])
  {
  }

  // ----- Restores that stop at a limit -----

  /** How many entries a run with this limit restores; 0 means no limit, and at least one is tried. */
  function StepsWithin(limit: int, steps: nat): (n: nat)
    ensures n <= steps
  {
    if limit == 0 || steps == 0 then steps
    else if limit < 1 then 1
    else if limit < steps then limit else steps
  }

  function LimitedRun(d: Disk, limit: int): Disk
    requires UsableBlockSize(d)
  {
    var steps := Restore(d).steps;
    Apply(d, Ops(steps[..StepsWithin(limit, |steps|)]))
  }

  lemma {:induction false} NowMayBeLeft(c: Cache, block: nat, ops: seq<Op>)
    requires block <= |c.now| && MayLeave(c, block, c.now)
    ensures var c' := IssueAll(c, block, ops); MayLeave(c', block, c'.now)
    decreases |ops|
  {
    if ops != [] {
      var c' := Issue(c, block, ops[0]);
      OneOpMayBeLeft(c, block, ops[0]);
      NowMayBeLeft(c', block, ops[1..]);
    }
  }

  lemma OneOpMayBeLeft(c: Cache, block: nat, op: Op)
    requires block <= |c.now| && MayLeave(c, block, c.now)
    ensures var c' := Issue(c, block, op); MayLeave(c', block, c'.now)
  {
    var c' := Issue(c, block, op);
    if op.Write? {
      if op.at == 0 && |op.data| == block {
        assert c'.now[..block] == op.data;
      } else if op.at < block && |op.data| > 0 {
        assert op.at in Range(op.at, |op.data|);
      } else {
        assert c'.now[..block] == c.now[..block];
      }
    }
  }

  /** Stopping at a limit leaves the device as one possible power cut would. */
  lemma LimitIsInterruption(d: Disk, block: nat, limit: int)
    requires UsableBlockSize(d) && block <= |d|
    ensures Interrupted(d, LimitedRun(d, limit), block)
  {
    hide HeaderOf, Restore;
    var steps := Restore(d).steps;
    var k := StepsWithin(limit, |steps|);
    var n := |Ops(steps[..k])|;
    assert steps == steps[..k] + steps[k..];
    OpsConcat(steps[..k], steps[k..]);
    assert RestoreOps(d)[..n] == Ops(steps[..k]);
    var c := Clean(d, block);
    assert d[..block] in c.heads;
    NowMayBeLeft(c, block, RestoreOps(d)[..n]);
    IssueAllNow(c, block, RestoreOps(d)[..n]);
    assert 0 <= n <= |RestoreOps(d)|;
  }

  /** The disk after one run for each of the given limits. */
  function AfterRuns(d: Disk, limits: seq<int>): Disk
    decreases |limits|
  {
    if limits == [] || !UsableBlockSize(d) then d else AfterRuns(LimitedRun(d, limits[0]), limits[1..])
  }

  /** Any sequence of limited runs followed by one unlimited run ends where the unlimited run alone ends. */
  lemma {:induction false} LimitedRunsCompose(d: Disk, block: nat, limits: seq<int>, goal: Disk)
    requires block > 0 && Recoverable(d, block, goal)
    ensures var last := AfterRuns(d, limits); UsableBlockSize(last) && Restore(last).disk == goal
    decreases |limits|
  {
    hide Recoverable, Interrupted, Restore, UsableBlockSize, LimitedRun;
    RecoverableRuns(d, block, goal);
    if limits != [] {
      assert block <= |d| by { RecoverableLength(d, block, goal); }
      LimitIsInterruption(d, block, limits[0]);
      PowerCutIsRecoverable(d, LimitedRun(d, limits[0]), block, goal);
      LimitedRunsCompose(LimitedRun(d, limits[0]), block, limits[1..], goal);
    }
  }

  lemma RecoverableLength(d: Disk, block: nat, goal: Disk)
    requires block > 0 && Recoverable(d, block, goal)
    ensures block <= |d|
  {
    hide RestoreAll;
  }

  /** The two results for a fresh log: both end on the reverse replay of the original disk. */
  lemma FreshLogSurvives(d: Disk, disks: seq<Disk>, limits: seq<int>)
    requires IsLog(d) && UsableBlockSize(d) && HeaderOf(d).magic == MAGIC && HeaderOf(d).blockSize >= HEADER_BYTES
    requires AsInt32(HeaderOf(d).sequence) >= 0
    requires WfLog(d, BlockOf(d), AsInt32(HeaderOf(d).sequence))
    requires Validates(d, map[0 := 0], BlockOf(d), AsInt32(HeaderOf(d).sequence))
    requires var undone := UndoAll(d, BlockOf(d), AsInt32(HeaderOf(d).sequence));
      undone.Some? ==> NotALog(undone.value)
    requires disks != [] && disks[0] == d
    requires forall i :: 0 <= i < |disks| - 1 ==> Interrupted(disks[i], disks[i + 1], BlockOf(d))
    ensures var undone := UndoAll(d, BlockOf(d), AsInt32(HeaderOf(d).sequence));
      && undone.Some?
      && UsableBlockSize(disks[|disks| - 1]) && Restore(disks[|disks| - 1]).disk == undone.value
      && UsableBlockSize(AfterRuns(d, limits)) && Restore(AfterRuns(d, limits)).disk == undone.value
  {
    hide HeaderOf, Recoverable, Interrupted, Restore, UndoAll, Validates, WfLog, AfterRuns;
    var block, q := BlockOf(d), AsInt32(HeaderOf(d).sequence);
    AcceptedLogIsRecoverable(d, block, q);
    var goal := UndoAll(d, block, q).value;
    RestoreSurvivesPowerCuts(disks, block, goal);
    LimitedRunsCompose(d, block, limits, goal);
  }
}
