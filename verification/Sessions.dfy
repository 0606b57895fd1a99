/**
  Restores in a row without a sync in between, and power cuts: the write cache is carried from one
  run to the next, and a power cut may come in any of them.
*/
module Sessions {
  import opened Wrappers
  import opened BlockDevice
  import opened LogFormat
  import opened Replay
  import opened Restoring
  import opened CrashRecovery

  /** The operations of a run with this limit. */
  function LimitedOps(d: Disk, limit: int): seq<Op>
    requires UsableBlockSize(d)
  {
    var steps := Restore(d).steps;
    Ops(steps[..StepsWithin(limit, |steps|)])
  }

  /** A run with a limit carries the cache on. */
  ghost predicate Runs(c: Cache, next: Cache, block: nat, limit: int)
    requires block <= |c.now|
  {
    UsableBlockSize(c.now) && next == IssueAll(c, block, LimitedOps(c.now, limit))
  }

  /** Power is lost somewhere in a run, and the device comes up with what was left. */
  ghost predicate Cuts(c: Cache, next: Cache, block: nat)
    requires block <= |c.now|
  {
    && UsableBlockSize(c.now) && block <= |next.now| && next == Clean(next.now, block)
    && exists n | 0 <= n <= |RestoreOps(c.now)| :: MayLeave(IssueAll(c, block, RestoreOps(c.now)[..n]), block, next.now)
  }

  ghost predicate Follows(c: Cache, next: Cache, block: nat)
    requires block <= |c.now|
  {
    (exists limit :: Runs(c, next, block, limit)) || Cuts(c, next, block)
  }

  /** Any number of runs and power cuts, from a device that was synced. */
  ghost predicate IsSession(caches: seq<Cache>, block: nat) {
    && caches != [] && block <= |caches[0].now| && caches[0] == Clean(caches[0].now, block)
    && (forall i :: 0 <= i < |caches| ==> block <= |caches[i].now|)
    && (forall i :: 0 < i < |caches| ==> Follows(caches[i - 1], caches[i], block))
  }

  lemma LimitedOpsArePrefix(d: Disk, limit: int)
    requires UsableBlockSize(d)
    ensures |LimitedOps(d, limit)| <= |RestoreOps(d)| && RestoreOps(d)[..|LimitedOps(d, limit)|] == LimitedOps(d, limit)
  {
    hide Restore, UsableBlockSize;
    var steps := Restore(d).steps;
    var k := StepsWithin(limit, |steps|);
    assert steps == steps[..k] + steps[k..];
    OpsConcat(steps[..k], steps[k..]);
  }

  // ----- Rolling back -----

  /** The device is safe as it is, and what reads see is one of the disks that may be left. */
  ghost predicate Safe(c: Cache, block: nat, goal: Disk) {
    0 < block <= |c.now| && SafeNow(c, block, goal) && MayLeave(c, block, c.now)
  }

  lemma WholeRunIsSafe(c: Cache, block: nat, goal: Disk)
    requires Safe(c, block, goal)
    ensures UsableBlockSize(c.now) && Restore(c.now).disk == goal && SafeThroughout(c, block, RestoreOps(c.now), goal)
  {
    hide HeaderOf, RestoreAll, Validates, WfRestore, MayLeave, SafeNow;
    var d := c.now;
    RevealSafe(c, block, goal, d);
    RecoverableRuns(d, block, goal);
    if d == goal && !IsLog(d) {
      assert RestoreOps(d) == [];
    } else {
      PassIsSafe(c, block, AsInt32(HeaderOf(d).sequence), goal);
    }
  }

  lemma SafeFollows(c: Cache, next: Cache, block: nat, goal: Disk)
    requires Safe(c, block, goal) && Follows(c, next, block) && block <= |next.now|
    ensures Safe(next, block, goal)
  {
    hide UsableBlockSize, Restore, SafeNow, MayLeave, SafeThroughout, RestoreOps, LimitedOps;
    WholeRunIsSafe(c, block, goal);
    var ops := RestoreOps(c.now);
    if limit :| Runs(c, next, block, limit) {
      var n := |LimitedOps(c.now, limit)|;
      LimitedOpsArePrefix(c.now, limit);
      SafeAtPrefix(c, block, ops, goal, n);
      NowMayBeLeft(c, block, ops[..n]);
    } else {
      var n :| 0 <= n <= |ops| && MayLeave(IssueAll(c, block, ops[..n]), block, next.now);
      SafeAtPrefix(c, block, ops, goal, n);
      RevealSafe(IssueAll(c, block, ops[..n]), block, goal, next.now);
      CleanIsSafe(next.now, block, goal);
    }
  }

  lemma {:induction false} SessionIsSafe(caches: seq<Cache>, block: nat, goal: Disk, n: nat)
    requires block > 0 && IsSession(caches, block) && Recoverable(caches[0].now, block, goal) && n < |caches|
    ensures Safe(caches[n], block, goal)
  {
    hide Recoverable, Safe, Follows;
    if n == 0 {
      StartIsSafe(caches[0].now, block, goal);
    } else {
      SessionIsSafe(caches, block, goal, n - 1);
      assert Follows(caches[n - 1], caches[n], block);
      SafeFollows(caches[n - 1], caches[n], block, goal);
    }
  }

  lemma StartIsSafe(d: Disk, block: nat, goal: Disk)
    requires 0 < block <= |d| && Recoverable(d, block, goal)
    ensures Safe(Clean(d, block), block, goal)
  {
    hide Recoverable;
    CleanIsSafe(d, block, goal);
  }

  /**
    Runs with limits, their unsynced writes carried into the next run, and power cuts, in any order
    and number: a complete run afterwards ends on the disk of one uninterrupted restore.
  */
  lemma SessionsSurvive(caches: seq<Cache>, block: nat, goal: Disk)
    requires block > 0 && IsSession(caches, block) && Recoverable(caches[0].now, block, goal)
    ensures var last := caches[|caches| - 1].now; UsableBlockSize(last) && Restore(last).disk == goal
  {
    assert caches != [];
    hide Recoverable, IsSession, Safe, Restore, UsableBlockSize;
    SessionIsSafe(caches, block, goal, |caches| - 1);
    WholeRunIsSafe(caches[|caches| - 1], block, goal);
  }

  // ----- Rolling forward -----

  /** The original block 0, or the log that cannot be replayed. */
  ghost predicate Either(c: Cache, block: nat, d: Disk, goal: Disk)
    requires block <= |d| == |goal|
  {
    && |c.now| == |d| && (c.now == d || c.now == goal) && (c.synced == d || c.synced == goal)
    && c.dirty == {} && c.heads <= {d[..block], goal[..block]}
  }

  lemma EitherIsLeft(c: Cache, block: nat, d: Disk, goal: Disk, left: Disk)
    requires block <= |d| == |goal| && d[block..] == goal[block..] && Either(c, block, d, goal)
    requires MayLeave(c, block, left)
    ensures left == d || left == goal
  {
    assert left[block..] == d[block..] by {
      forall s | block <= s < |d| ensures left[s] == d[s] {
        assert goal[s] == goal[block..][s - block] == d[block..][s - block];
      }
    }
    assert left == left[..block] + left[block..] && d == d[..block] + d[block..];
    assert goal == goal[..block] + goal[block..];
  }

  /** A log that validation rejects, and what rolling it forward makes of the disk. */
  ghost predicate ForwardTo(d: Disk, block: nat, goal: Disk) {
    && 0 < block <= |d| && UsableBlockSize(d) && RollsForward(d) && BlockOf(d) == block
    && Get(d, HeaderOf(d).sector0, block).Some? && goal == Put(d, 0, Get(d, HeaderOf(d).sector0, block).value)
    && NotALog(goal)
  }

  lemma ForwardRuns(d: Disk, block: nat, goal: Disk)
    requires ForwardTo(d, block, goal)
    ensures RestoreOps(d) == [Write(0, goal[..block])] && Restore(d).disk == goal
    ensures forall limit :: LimitedOps(d, limit) == RestoreOps(d)
    ensures UsableBlockSize(goal) && RestoreOps(goal) == [] && Restore(goal).disk == goal
    ensures forall limit :: LimitedOps(goal, limit) == []
    ensures |d| == |goal| && d[block..] == goal[block..]
  {
    hide HeaderOf, Validates;
    var original := Get(d, HeaderOf(d).sector0, block).value;
    assert goal[..block] == original;
    var steps := Restore(d).steps;
    assert steps == [[Write(0, original)]] && steps[1..] == [] && steps[..1] == steps;
    assert Ops(steps) == [Write(0, original)] + Ops([]) == [Write(0, original)];
    assert Restore(goal).steps == [] && Ops([]) == [];
  }

  lemma IssueOne(c: Cache, block: nat, op: Op)
    requires block <= |c.now|
    ensures IssueAll(c, block, [op]) == Issue(c, block, op) && IssueAll(c, block, []) == c
  {
    assert [op][1..] == [];
  }

  lemma ForwardFits(d: Disk, block: nat, goal: Disk)
    requires ForwardTo(d, block, goal)
    ensures 0 < block <= |d| == |goal|
  {
    hide UsableBlockSize, HeaderOf, Validates;
  }

  lemma HeadIsEither(c: Cache, block: nat, d: Disk, goal: Disk)
    requires 0 < block <= |d| == |goal| && d[block..] == goal[block..] && Either(c, block, d, goal)
    ensures Either(Issue(c, block, Write(0, goal[..block])), block, d, goal)
  {
    PuttingTheHead(d, block, goal);
    hide Put;
  }

  lemma EitherFollows(c: Cache, next: Cache, block: nat, d: Disk, goal: Disk)
    requires ForwardTo(d, block, goal) && Either(c, block, d, goal) && Follows(c, next, block) && block <= |next.now|
    ensures Either(next, block, d, goal)
  {
    hide ForwardTo, UsableBlockSize, Restore, RestoreOps, LimitedOps, MayLeave, Issue;
    ForwardFits(d, block, goal);
    ForwardRuns(d, block, goal);
    var op := Write(0, goal[..block]);
    IssueOne(c, block, op);
    HeadIsEither(c, block, d, goal);
    if !(exists limit :: Runs(c, next, block, limit)) {
      var ops := RestoreOps(c.now);
      var n :| 0 <= n <= |ops| && MayLeave(IssueAll(c, block, ops[..n]), block, next.now);
      assert ops[..n] == [] || ops[..n] == [op];
      EitherIsLeft(IssueAll(c, block, ops[..n]), block, d, goal, next.now);
    }
  }

  lemma PuttingTheHead(d: Disk, block: nat, goal: Disk)
    requires 0 < block <= |d| == |goal| && d[block..] == goal[block..]
    ensures Put(d, 0, goal[..block]) == goal && Put(goal, 0, goal[..block]) == goal
  {
    forall s | block <= s < |d| ensures d[s] == goal[s] {
      assert d[s] == d[block..][s - block] && goal[s] == goal[block..][s - block];
    }
  }

  /** Rolling forward survives power cuts as well: whatever happens, a complete run ends with the original block 0. */
  lemma ForwardSurvives(caches: seq<Cache>, block: nat, goal: Disk, n: nat)
    requires IsSession(caches, block) && ForwardTo(caches[0].now, block, goal) && n < |caches|
    ensures var now := caches[n].now;
      && (now == caches[0].now || now == goal)
      && UsableBlockSize(now) && Restore(now).disk == goal
  {
    var d := caches[0].now;
    assert UsableBlockSize(d);
    ForwardRuns(d, block, goal);
    hide ForwardTo, UsableBlockSize, Restore, RestoreOps, LimitedOps, Follows;
    ForwardEither(caches, block, goal, n);
  }

  lemma {:induction false} ForwardEither(caches: seq<Cache>, block: nat, goal: Disk, n: nat)
    requires IsSession(caches, block) && ForwardTo(caches[0].now, block, goal) && n < |caches|
    ensures block <= |caches[0].now| == |goal| && Either(caches[n], block, caches[0].now, goal)
  {
    hide ForwardTo, UsableBlockSize, Restore, RestoreOps, LimitedOps, Follows;
    ForwardRuns(caches[0].now, block, goal);
    if n > 0 {
      ForwardEither(caches, block, goal, n - 1);
      assert Follows(caches[n - 1], caches[n], block);
      EitherFollows(caches[n - 1], caches[n], block, caches[0].now, goal);
    }
  }
}
