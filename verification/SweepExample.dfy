/**
  Why a checkpoint must not begin while the sweep after the previous one is due: a run in which it is
  due, and what rolling the new checkpoint back would then bring back.
*/
module SweepExample {
  import opened Wrappers
  import opened KeyUpgrade

  lemma RunCons(w: World, s: Step, rest: seq<Step>)
    requires Enabled(w, s) && Runs(Do(w, s), rest)
    ensures Runs(w, [s] + rest) && After(w, [s] + rest) == After(Do(w, s), rest)
  {
    hide Do, Enabled;
    assert ([s] + rest)[1..] == rest;
  }

  /** `w` as it would be if a checkpoint began now, whether or not a sweep is due. */
  function Begun(w: World): World {
    w.(checkpointing := true, durable := LiveVersions(w.live), saved := w.live, savedNames := w.names)
  }

  /** The rollback tree is not touched. */
  ghost predicate SameSaved(w: World, w': World) {
    w'.saved == w.saved && w'.savedNames == w.savedNames && w'.checkpointing == w.checkpointing
  }

  lemma SweepRenames(w: World, dirs: seq<Path>)
    requires w.holder == Sweeping(dirs) && dirs != [] && CommitTarget(w, dirs[0])
    ensures Enabled(w, RenameBlob)
    ensures var w' := Do(w, RenameBlob);
      && w'.holder == Renamed(dirs[0], FilesOf(w, dirs[0]).blob.value, Some(dirs[1..])) && Known(w', dirs[0])
      && SameSaved(w, w')
  {
  }

  lemma RenameIsSynced(w: World)
    requires w.holder.Renamed? && Known(w, w.holder.dir)
    ensures Enabled(w, SyncDir)
    ensures var w' := Do(w, SyncDir); w'.holder == Synced(w.holder.was, w.holder.rest) && SameSaved(w, w')
  {
  }

  lemma OldIsDeleted(w: World)
    requires w.holder.Synced?
    ensures Enabled(w, DeleteOld)
    ensures var w' := Do(w, DeleteOld); w.holder.was in w'.deleted && SameSaved(w, w')
  {
  }

  lemma FirstIsSwept(w: World, dirs: seq<Path>) returns (w': World)
    requires w.holder == Sweeping(dirs) && dirs != [] && CommitTarget(w, dirs[0])
    ensures Runs(w, [RenameBlob, SyncDir, DeleteOld]) && w' == After(w, [RenameBlob, SyncDir, DeleteOld])
    ensures SameSaved(w, w') && FilesOf(w, dirs[0]).blob.value in w'.deleted
  {
    hide Do, Enabled;
    SweepRenames(w, dirs);
    var w2 := Do(w, RenameBlob);
    RenameIsSynced(w2);
    var w3 := Do(w2, SyncDir);
    OldIsDeleted(w3);
    w' := Do(w3, DeleteOld);
    assert Runs(w', []) && After(w', []) == w';
    RunCons(w3, DeleteOld, []);
    RunCons(w2, SyncDir, [DeleteOld]);
    RunCons(w, RenameBlob, [SyncDir, DeleteOld]);
    assert [RenameBlob] + [SyncDir, DeleteOld] == [RenameBlob, SyncDir, DeleteOld];
    assert [SyncDir] + [DeleteOld] == [SyncDir, DeleteOld];
    assert [DeleteOld] + [] == [DeleteOld];
  }

  ghost predicate Reached(w: World, s: Step, w': World) {
    Enabled(w, s) && Do(w, s) == w'
  }

  /** A directory with key 0, and a checkpoint begun. */
  function Checkpointed(dir: Path): World {
    var files := map[0 := Files(Some(0), None)];
    EMPTY.(names := map[dir := 0], live := files, durable := LiveVersions(files), nextKey := 1, nextIno := 1,
           checkpointing := true, saved := files, savedNames := map[dir := 0])
  }

  lemma ACheckpointBegins(dir: Path)
    ensures Runs(EMPTY, [Create(dir), StoreBlob(dir), BeginCheckpoint])
    ensures After(EMPTY, [Create(dir), StoreBlob(dir), BeginCheckpoint]) == Checkpointed(dir)
  {
    hide Do, Enabled;
    var w1 := Created(dir);
    var w2 := WithFiles(w1, dir, Files(Some(0), None)).(nextKey := 1);
    DirIsCreated(dir);
    BlobIsStored(dir);
    CheckpointIsBegun(w2, dir);
    ThreeSteps(EMPTY, w1, w2, Checkpointed(dir), Create(dir), StoreBlob(dir), BeginCheckpoint);
  }

  /** One empty directory. */
  function Created(dir: Path): World {
    EMPTY.(names := map[dir := 0], live := map[0 := Files(None, None)], durable := {Version(0, Files(None, None))},
        nextIno := 1)
  }

  lemma DirIsCreated(dir: Path)
    ensures Reached(EMPTY, Create(dir), Created(dir))
  {
    var w := Do(EMPTY, Create(dir));
    assert w.names == map[dir := 0] && w.live == map[0 := Files(None, None)];
    assert w.durable == {Version(0, Files(None, None))};
  }

  lemma BlobIsStored(dir: Path)
    ensures Reached(Created(dir), StoreBlob(dir), WithFiles(Created(dir), dir, Files(Some(0), None)).(nextKey := 1))
  {
  }

  lemma CheckpointIsBegun(w: World, dir: Path)
    requires w == WithFiles(Created(dir), dir, Files(Some(0), None)).(nextKey := 1)
    ensures Reached(w, BeginCheckpoint, Checkpointed(dir))
  {
    assert w.live == map[0 := Files(Some(0), None)];
  }

  lemma ThreeSteps(w: World, w1: World, w2: World, w3: World, s1: Step, s2: Step, s3: Step)
    requires Reached(w, s1, w1) && Reached(w1, s2, w2) && Reached(w2, s3, w3)
    ensures Runs(w, [s1, s2, s3]) && After(w, [s1, s2, s3]) == w3
  {
    hide Do, Enabled;
    assert Runs(w3, []) && After(w3, []) == w3;
    RunCons(w2, s3, []);
    RunCons(w1, s2, [s3]);
    RunCons(w, s1, [s2, s3]);
    assert [s3] + [] == [s3] && [s2] + [s3] == [s2, s3] && [s1] + [s2, s3] == [s1, s2, s3];
  }

  lemma AnUpgradeIsWritten(dir: Path)
    ensures var w := Checkpointed(dir);
      var w' := WithFiles(w, dir, Files(Some(0), Some(1))).(holder := Written(dir), nextKey := 2);
      Runs(w, [Acquire(dir), GetUpgraded, WriteDone]) && After(w, [Acquire(dir), GetUpgraded, WriteDone]) == w'
  {
    var w := Checkpointed(dir);
    var w1 := w.(holder := Opening(dir));
    assert Reached(w, Acquire(dir), w1);
    var w2 := w1.(holder := Upgrading(dir, 1), nextKey := 2);
    assert Reached(w1, GetUpgraded, w2);
    var w3 := WithFiles(w, dir, Files(Some(0), Some(1))).(holder := Written(dir), nextKey := 2);
    assert Reached(w2, WriteDone, w3);
    hide Do, Enabled;
    ThreeSteps(w, w1, w2, w3, Acquire(dir), GetUpgraded, WriteDone);
  }

  lemma TheCommitIsPutOff(w: World)
    requires w.holder.Written? && w.checkpointing
    ensures Runs(w, [Decide, Schedule, CommitCheckpoint])
    ensures var w' := After(w, [Decide, Schedule, CommitCheckpoint]);
      && w'.names == w.names && w'.live == w.live && w'.holder == Free && w'.sweepDue
      && w'.pending == w.pending + [w.holder.dir]
  {
    var w1 := w.(holder := Decided(w.holder.dir, true));
    assert Reached(w, Decide, w1);
    var w2 := w1.(pending := w.pending + [w.holder.dir], holder := Free);
    assert Reached(w1, Schedule, w2);
    var w3 := w2.(checkpointing := false, saved := map[], savedNames := map[], sweepDue := true);
    assert Reached(w2, CommitCheckpoint, w3);
    hide Do, Enabled;
    ThreeSteps(w, w1, w2, w3, Decide, Schedule, CommitCheckpoint);
  }

  lemma {:induction false} RunConcat(w: World, a: seq<Step>, b: seq<Step>)
    requires Runs(w, a) && Runs(After(w, a), b)
    ensures Runs(w, a + b) && After(w, a + b) == After(After(w, a), b)
    decreases |a|
  {
    hide Do, Enabled;
    if a == [] {
      assert a + b == b;
    } else {
      RunConcat(Do(w, a[0]), a[1..], b);
      assert (a + b)[1..] == a[1..] + b;
    }
  }

  /** A sweep can be due: an upgrade put off by a checkpoint, with the checkpoint committed. */
  lemma ASweepIsDue(dir: Path) returns (steps: seq<Step>)
    ensures Runs(EMPTY, steps)
    ensures var w := After(EMPTY, steps);
      Inv(w) && Known(w, dir) && w.holder == Free && w.sweepDue && w.pending == [dir] && FilesOf(w, dir).blob.Some?
  {
    hide Do, Enabled, Inv, Runs, After;
    var a, b, c := [Create(dir), StoreBlob(dir), BeginCheckpoint], [Acquire(dir), GetUpgraded, WriteDone], [Decide,
        Schedule, CommitCheckpoint];
    ACheckpointBegins(dir);
    AnUpgradeIsWritten(dir);
    var w := After(Checkpointed(dir), b);
    TheCommitIsPutOff(w);
    RunConcat(EMPTY, a, b);
    RunConcat(EMPTY, a + b, c);
    steps := a + b + c;
    EmptyIsFine();
    RunKeeps(EMPTY, steps);
  }

  lemma RollbackRestores(w: World)
    requires w.checkpointing
    ensures Enabled(w, Rollback)
    ensures var w' := Do(w, Rollback); w'.live == w.saved && w'.names == w.savedNames && w'.deleted == w.deleted
  {
  }

  // ----- A checkpoint that begins during a sweep -----

  /** The list holds an upgraded key to sweep; nothing happened to the rollback tree or to the blob of `dir`. */
  ghost predicate ToSweep(w: World, w': World, dir: Path) {
    && w'.holder == Free && w'.sweepDue && w'.pending != [] && w'.pending[0] == dir && SameSaved(w, w')
    && CommitTarget(w', dir) && Known(w, dir) && FilesOf(w', dir).blob == FilesOf(w, dir).blob
  }

  /** An upgrade of the key in `dir` that is put off. */
  lemma UpgradeIsPutOff(w: World, dir: Path) returns (steps: seq<Step>)
    requires w.holder == Free && w.sweepDue && w.checkpointing && w.pending == []
    requires Known(w, dir) && FilesOf(w, dir).blob.Some? && w.names[dir] !in w.doomed
    ensures Runs(w, steps) && ToSweep(w, After(w, steps), dir)
  {
    hide Do, Enabled, Runs, After, IsPending;
    var k := w.nextKey;
    var w3 := WithFiles(w, dir, FilesOf(w, dir).(upgraded := Some(k))).(holder := Written(dir), nextKey := k + 1);
    UpgradeIsBegun(w, dir);
    UpgradeIsListed(w3);
    RunConcat(w, [Acquire(dir), GetUpgraded, WriteDone], [Decide, Schedule]);
    steps := [Acquire(dir), GetUpgraded, WriteDone] + [Decide, Schedule];
  }

  lemma UpgradeIsBegun(w: World, dir: Path)
    requires w.holder == Free && w.pending == [] && Known(w, dir) && FilesOf(w, dir).blob.Some?
    requires w.names[dir] !in w.doomed
    ensures Runs(w, [Acquire(dir), GetUpgraded, WriteDone])
    ensures After(w, [Acquire(dir), GetUpgraded, WriteDone]) ==
      WithFiles(w, dir, FilesOf(w, dir).(upgraded := Some(w.nextKey))).(holder := Written(dir),
          nextKey := w.nextKey + 1)
  {
    var k := w.nextKey;
    var w1 := w.(holder := Opening(dir));
    var w2 := w1.(holder := Upgrading(dir, k), nextKey := k + 1);
    hide Do, Enabled;
    LockIsTaken(w, dir);
    KeyIsUpgraded(w1);
    var w3 := WithFiles(w, dir, FilesOf(w, dir).(upgraded := Some(k))).(holder := Written(dir), nextKey := k + 1);
    UpgradeIsOnDisk(w2);
    ThreeSteps(w, w1, w2, w3, Acquire(dir), GetUpgraded, WriteDone);
  }

  lemma LockIsTaken(w: World, dir: Path)
    requires w.holder == Free && Known(w, dir) && w.names[dir] !in w.doomed
    ensures Reached(w, Acquire(dir), w.(holder := Opening(dir)))
  {
  }

  lemma KeyIsUpgraded(w: World)
    requires w.holder.Opening? && w.pending == [] && Known(w, w.holder.dir) && FilesOf(w, w.holder.dir).blob.Some?
    ensures Reached(w, GetUpgraded, w.(holder := Upgrading(w.holder.dir, w.nextKey), nextKey := w.nextKey + 1))
  {
  }

  lemma UpgradeIsOnDisk(w: World)
    requires w.holder.Upgrading? && Known(w, w.holder.dir)
    ensures Reached(w, WriteDone,
      WithFiles(w, w.holder.dir, FilesOf(w,
          w.holder.dir).(upgraded := Some(w.holder.key))).(holder := Written(w.holder.dir)))
  {
  }

  lemma UpgradeIsListed(w: World)
    requires w.holder.Written? && w.checkpointing
    ensures Runs(w, [Decide, Schedule])
    ensures After(w, [Decide, Schedule]) == w.(holder := Free, pending := w.pending + [w.holder.dir])
  {
    var w1 := w.(holder := Decided(w.holder.dir, true));
    assert Reached(w, Decide, w1);
    var w2 := w1.(pending := w.pending + [w.holder.dir], holder := Free);
    assert Reached(w1, Schedule, w2);
    hide Do, Enabled;
    TwoSteps(w, w1, w2, Decide, Schedule);
  }

  lemma TwoSteps(w: World, w1: World, w2: World, s1: Step, s2: Step)
    requires Reached(w, s1, w1) && Reached(w1, s2, w2)
    ensures Runs(w, [s1, s2]) && After(w, [s1, s2]) == w2
  {
    hide Do, Enabled;
    assert Runs(w2, []) && After(w2, []) == w2;
    RunCons(w1, s2, []);
    RunCons(w, s1, [s2]);
    assert [s2] + [] == [s2] && [s1] + [s2] == [s1, s2];
  }

  lemma ListedIsSwept(w: World, w1: World, dir: Path) returns (steps: seq<Step>)
    requires ToSweep(w, w1, dir) && w.checkpointing
    ensures Runs(w1, steps) && SameSaved(w, After(w1, steps)) && FilesOf(w, dir).blob.value in After(w1, steps).deleted
  {
    var w2 := w1.(holder := Sweeping(w1.pending));
    assert Reached(w1, SweepBegin, w2);
    var swept := FirstIsSwept(w2, w1.pending);
    hide Do, Enabled, Runs, After;
    RunCons(w1, SweepBegin, [RenameBlob, SyncDir, DeleteOld]);
    steps := [SweepBegin] + [RenameBlob, SyncDir, DeleteOld];
  }

  /**
    Why a checkpoint must not begin while a sweep is due: the sweep then takes place during the
    checkpoint, and deletes a key that its rollback brings back as the blob.  If directories are listed
    this happens to the first of them, and otherwise to any whose upgrade is put off next.
  */
  lemma BeginDuringSweepLosesAKey(w: World, dir: Path) returns (steps: seq<Step>)
    requires Inv(w) && w.holder == Free && w.sweepDue
    requires Known(w, dir) && FilesOf(w, dir).blob.Some? && w.names[dir] !in w.doomed
    requires w.pending == [] || w.pending[0] == dir
    ensures Runs(Begun(w), steps) && Enabled(After(Begun(w), steps), Rollback)
    ensures var after := Do(After(Begun(w), steps), Rollback);
      && Known(after, dir) && FilesOf(after, dir).blob == FilesOf(w, dir).blob
      && FilesOf(w, dir).blob.value in after.deleted
  {
    var b, first := Begun(w), [];
    if w.pending == [] {
      first := UpgradeIsPutOff(b, dir);
    } else {
      assert Ready(w, w.pending[0]);
      assert Runs(b, []) && After(b, []) == b && ToSweep(b, b, dir);
    }
    hide Do, Enabled, Runs, After, Inv;
    var rest := ListedIsSwept(b, After(b, first), dir);
    RunConcat(b, first, rest);
    steps := first + rest;
    RollbackRestores(After(b, steps));
  }
}
