/**
  Storing, opening, renaming and destroying keys.

  Each method is a sequence of moves of the key directories.  Any file operation or Keystore call may
  fail, and while a key is being used the checkpoint may be committed: after the lock is taken, and
  before and after it is decided whether to put the commit of an upgraded key off.  `trace` records
  every store passed through, so what is said about every run holds wherever a method is cut off.
*/
module KeyStorage {
  import opened Wrappers
  import opened KeyUpgrade
  import opened KeyLineage
  import opened KeyDeletions
  import opened KeyDirectories
  import opened KeyMoves

  datatype Binding = Uninitialized | InUse | NotUsed

  class KeyStorage {
    var st: Store
    var binding: Binding
    var seed: string
    var faults: nat               // how many calls have failed
    ghost var trace: seq<Store>

    ghost predicate Valid()
      reads this`st, this`trace
    {
      IsTrace(trace) && trace[|trace| - 1] == st && Sound(st)
    }

    /** The seed mixed into application ids. */
    function Seed(): string
      reads this
    {
      if binding == InUse then seed else ""
    }

    constructor (temps: set<Path>)
      ensures Valid() && st == NewStore(temps) && binding == Uninitialized && faults == 0
    {
      hide Sound;
      NewStoreIsSound(temps);
      st := NewStore(temps);
      binding, seed, faults := Uninitialized, "", 0;
      trace := [NewStore(temps)];
    }

    /** Starts on what a run, ending with a power cut or a rollback, has left. */
    constructor Boot(left: Store, ghost run: seq<Store>)
      requires IsTrace(run) && run[|run| - 1] == left
      ensures Valid() && st == left && trace == run && binding == Uninitialized && faults == 0
    {
      assert run != [];
      hide Sound, IsTrace;
      TraceIsSound(run, |run| - 1);
      st := left;
      binding, seed, faults := Uninitialized, "", 0;
      trace := run;
    }

    method Fault() returns (failed: bool)
      modifies this`faults
      ensures faults == old(faults) + if failed then 1 else 0
    {
      failed := *;
      if failed { faults := faults + 1; }
    }

    method Perform(m: Move)
      requires Valid() && Can(st, m)
      modifies this`st, this`trace
      ensures Valid() && st == Moved(old(st), m) && trace == old(trace) + [st]
    {
      hide Sound, Can, Moved;
      MoveKeeps(st, m);
      assert Follows(st, Moved(st, m));
      st := Moved(st, m);
      trace := trace + [st];
    }

    /** One step of the upgrade protocol that touches no name; `a` and `before` are where the operation began. */
    method Take(s: Step, ghost before: seq<Store>, ghost a: Store)
      requires Valid() && Enabled(st.w, s) && Inner(s) && Quietly(before, a, trace, st)
      modifies this`st, this`trace
      ensures Valid() && st.w == Do(old(st).w, s) && Quietly(before, a, trace, st) && SameTree(old(st), st)
    {
      hide Sound, Can, DoKeys, KeepsKeys, SameTree, IsTrace, Quietly, Do, Enabled;
      InnerCan(st, s);
      InnerSteps(st, s);
      KeyStepParts(st, s);
      QuietlyOn(before, a, trace, st, Moved(st, Keys(s)));
      Perform(Keys(s));
    }

    /** Between two moves the checkpoint may be committed. */
    method CheckpointMayCommit(ghost before: seq<Store>, ghost a: Store)
      requires Valid() && Quietly(before, a, trace, st)
      modifies this`st, this`trace
      ensures Valid() && Quietly(before, a, trace, st)
      ensures SameFiles(old(st).w, st.w) && st.w.holder == old(st).w.holder && st.w.deleted == old(st).w.deleted
    {
      hide Sound, IsTrace, Quietly, Do, Enabled, SameTree;
      var commit: bool := *;
      if commit && st.w.checkpointing {
        CommitLeavesFiles(st.w);
        Take(CommitCheckpoint, before, a);
      }
    }

    /** Whether an upgraded key of this directory is waiting for the checkpoint to be committed. */
    method IsKeyCommitPending(dir: Path) returns (pending: bool)
      ensures pending == IsPending(st.w, dir)
    {
      var n: nat := 0;
      while n < |st.w.pending|
        invariant n <= |st.w.pending|
        invariant forall k :: 0 <= k < n ==> !SameFile(st.w, dir, st.w.pending[k])
      {
        if SameFile(st.w, dir, st.w.pending[n]) { return true; }
        n := n + 1;
      }
      return false;
    }

    /** Gets rid of an upgraded key left over by a failed or lost upgrade. */
    method DeleteUpgradedKey(dir: Path, ghost before: seq<Store>, ghost a: Store)
      requires Valid() && Quietly(before, a, trace, st) && st.w.holder == Opening(dir) && Known(st.w, dir)
      requires !IsPending(st.w, dir)
      modifies this`st, this`trace, this`faults
      ensures Valid() && Quietly(before, a, trace, st) && old(faults) <= faults
      ensures SameOp(old(st).w, st.w, dir)
      ensures faults == old(faults) ==>
        && FilesOf(st.w, dir).upgraded == None
        && (FilesOf(old(st).w, dir).upgraded.Some? ==> FilesOf(old(st).w, dir).upgraded.value in st.w.deleted)
    {
      hide Sound, IsTrace, Quietly, Do, Enabled, IsPending, SameTree;
      if FilesOf(st.w, dir).upgraded.Some? {
        var kept := Fault();
        LeftoverDeleted(st.w, dir);
        if !kept { Take(DeleteLeftover, before, a); }
        kept := Fault();
        SamePending(old(st).w, st.w, dir);
        LeftoverUnlinked(st.w, dir);
        if !kept { Take(UnlinkLeftover, before, a); }
      }
    }
  
    /**
      Replaces the blob by the upgraded one.  Only when that is durable is the old key deleted.
    */
    method CommitUpgradedKey(dir: Path, ghost rest: Option<seq<Path>>, ghost before: seq<Store>, ghost a: Store)
      returns (ok: bool)
      requires Valid() && Quietly(before, a, trace, st) && Known(st.w, dir) && Committing(st.w, dir, rest)
      modifies this`st, this`trace, this`faults
      ensures Valid() && Quietly(before, a, trace, st) && old(faults) <= faults
      ensures st.w.holder == NextHolder(rest) && st.w.pending == old(st).w.pending && st.w.names == old(st).w.names
      ensures Known(st.w, dir)
      ensures forall i :: i in old(st).w.live && i != old(st).w.names[dir] ==>
          i in st.w.live && st.w.live[i] == old(st).w.live[i]
      ensures ok ==> CommitTarget(old(st).w, dir) && FilesOf(st.w, dir) == Files(FilesOf(old(st).w, dir).upgraded, None)
      ensures st.w.deleted == old(st).w.deleted
        || (ok && st.w.deleted == old(st).w.deleted + {FilesOf(old(st).w, dir).blob.value})
      ensures faults == old(faults) && CommitTarget(old(st).w, dir) ==>
        ok && FilesOf(old(st).w, dir).blob.value in st.w.deleted
    {
      hide Valid, Quietly, Do, Enabled, SameTree, Committing;
      var failed := Fault();
      if failed || !CommitTarget(st.w, dir) {
        CommitSkipped(st.w, dir, rest);
        Take(SkipCommit, before, a);
        return false;
      }
      BlobRenamed(st.w, dir, rest);
      Take(RenameBlob, before, a);
      ok := SettleRename(before, a);
    }

    /** Makes the rename durable and then, and only then, deletes the old key. */
    method SettleRename(ghost before: seq<Store>, ghost a: Store) returns (ok: bool)
      requires Valid() && Quietly(before, a, trace, st) && st.w.holder.Renamed? && Known(st.w, st.w.holder.dir)
      modifies this`st, this`trace, this`faults
      ensures Valid() && Quietly(before, a, trace, st) && old(faults) <= faults && SameFiles(old(st).w, st.w)
      ensures st.w.holder == NextHolder(old(st).w.holder.rest)
      ensures st.w.deleted == old(st).w.deleted || (ok && st.w.deleted == old(st).w.deleted + {old(st).w.holder.was})
      ensures faults == old(faults) ==> ok && old(st).w.holder.was in st.w.deleted
    {
      hide Valid, Quietly, Do, Enabled, SameTree;
      var failed := Fault();
      RenameSynced(st.w);
      if failed {
        Take(SyncFailed, before, a);
        return false;
      }
      Take(SyncDir, before, a);
      failed := Fault();
      OldKeyDeleted(st.w);
      if failed { Take(KeepOld, before, a); } else { Take(DeleteOld, before, a); }
      ok := true;
    }

    /** Writes the upgraded key beside the old one. */
    method WriteUpgradedKey(dir: Path, ghost before: seq<Store>, ghost a: Store) returns (ok: bool)
      requires Valid() && Quietly(before, a, trace, st) && st.w.holder.Upgrading? && st.w.holder.dir == dir
      requires Known(st.w, dir)
      modifies this`st, this`trace, this`faults
      ensures Valid() && Quietly(before, a, trace, st) && old(faults) <= faults
      ensures st.w.holder == if ok then Written(dir) else Free
      ensures Known(st.w, dir) && FilesOf(st.w, dir).blob == FilesOf(old(st).w, dir).blob
      ensures ok ==> FilesOf(st.w, dir).upgraded == Some(old(st).w.holder.key)
      ensures st.w.pending == old(st).w.pending && st.w.names == old(st).w.names
      ensures faults == old(faults) ==> ok
    {
      hide Valid, Quietly, Do, Enabled, SameTree, IsPending;
      var failed := Fault();
      if failed {
        WriteIsAbandoned(st.w);
        Take(WriteAbandoned, before, a);
        return false;
      }
      WriteBegins(st.w, dir);
      Take(WriteBegun, before, a);
      ok := FinishWriting(dir, before, a);
    }

    method FinishWriting(dir: Path, ghost before: seq<Store>, ghost a: Store) returns (ok: bool)
      requires Valid() && Quietly(before, a, trace, st) && st.w.holder.Upgrading? && st.w.holder.dir == dir
      requires Known(st.w, dir)
      modifies this`st, this`trace, this`faults
      ensures Valid() && Quietly(before, a, trace, st) && old(faults) <= faults && ok == (faults == old(faults))
      ensures st.w.holder == if ok then Written(dir) else Free
      ensures Known(st.w, dir)
      ensures FilesOf(st.w, dir) == FilesOf(old(st).w, dir).(upgraded := if ok then Some(old(st).w.holder.key)
          else None)
      ensures st.w.pending == old(st).w.pending && st.w.names == old(st).w.names
    {
      hide Valid, Quietly, Do, Enabled, SameTree;
      var failed := Fault();
      WriteEnds(st.w, dir);
      if failed { Take(WriteFailed, before, a); } else { Take(WriteDone, before, a); }
      ok := !failed;
    }

    /** Replaces the key by the upgraded one, or puts that off because of a checkpoint. */
    method UpgradeKey(dir: Path, ghost before: seq<Store>, ghost a: Store) returns (ok: bool)
      requires Valid() && Quietly(before, a, trace, st) && st.w.holder == Opening(dir) && Known(st.w, dir)
      requires !IsPending(st.w, dir) && FilesOf(st.w, dir).blob.Some?
      modifies this`st, this`trace, this`faults
      ensures Valid() && Quietly(before, a, trace, st) && old(faults) <= faults && st.w.holder == Free
      ensures ok ==> Known(st.w, dir) && Upgraded(old(st).w, st.w, dir, old(st).w.nextKey)
      ensures faults == old(faults) ==> ok
    {
      hide Valid, Quietly, Do, Enabled, SameTree, IsPending;
      UpgradeBegun(st.w, dir);
      Take(GetUpgraded, before, a);
      ok := WriteUpgradedKey(dir, before, a);
      if ok { ok := FinishUpgrade(dir, before, a); }
    }

    method FinishUpgrade(dir: Path, ghost before: seq<Store>, ghost a: Store) returns (ok: bool)
      requires Valid() && Quietly(before, a, trace, st) && st.w.holder == Written(dir)
      requires Known(st.w, dir) && FilesOf(st.w, dir).blob.Some?
      modifies this`st, this`trace, this`faults
      ensures Valid() && Quietly(before, a, trace, st) && old(faults) <= faults && st.w.holder == Free
      ensures Known(st.w, dir)
      ensures ok ==>
        || (st.w.pending == old(st).w.pending + [dir] && FilesOf(st.w, dir) == FilesOf(old(st).w, dir))
        || (st.w.pending == old(st).w.pending && FilesOf(st.w, dir) == Files(FilesOf(old(st).w, dir).upgraded, None))
      ensures faults == old(faults) ==> ok
    {
      hide Sound, IsTrace, Quietly, Do, Enabled, SameTree;
      CheckpointMayCommit(before, a);
      UpgradeDecided(st.w);
      Take(Decide, before, a);
      CheckpointMayCommit(before, a);
      if st.w.holder.defer {
        UpgradeScheduled(st.w);
        Take(Schedule, before, a);
        ok := true;
      } else {
        DecidedIsReady(st, dir);
        ok := CommitUpgradedKey(dir, None, before, a);
      }
    }
  
    /** Begins an operation with the key in the directory, upgrading the key when Keystore asks for it. */
    method BeginKeystoreOp(dir: Path, upgrade: bool) returns (key: Option<Key>)
      requires Valid() && st.w.holder == Free
      modifies this`st, this`trace, this`faults
      ensures Valid() && st.w.holder == Free && Quietly(old(trace), old(st), trace, st) && old(faults) <= faults
      ensures key.Some? ==> Known(old(st).w, dir) && key == OpeningKey(old(st).w, dir)
      ensures faults == old(faults) && Known(old(st).w, dir) ==> key == OpeningKey(old(st).w, dir)
      ensures key.Some? ==>
        && Known(st.w, dir)
        && key == (if IsPending(old(st).w, dir) then FilesOf(old(st).w, dir).upgraded else FilesOf(old(st).w, dir).blob)
        && if upgrade then !IsPending(old(st).w, dir) && exists k :: Upgraded(old(st).w, st.w, dir, k)
           else st.w.pending == old(st).w.pending && OpeningKey(st.w, dir) == key
    {
      hide Valid, Quietly, Do, Enabled, SameTree, IsPending;
      ghost var before, a := trace, st;
      QuietlyFrom(trace, st);
      if !Known(st.w, dir) { return None; }
      if st.w.names[dir] in st.w.doomed {
        key := UseLeftKey(dir, upgrade);
        return;
      }
      LockTaken(st.w, dir);
      Take(Acquire(dir), before, a);
      CheckpointMayCommit(before, a);
      SamePending(a.w, st.w, dir);
      var pending := IsKeyCommitPending(dir);
      if pending {
        key := UseUpgradedKey(dir, upgrade, before, a);
      } else {
        ghost var w := st.w;
        key := UseKey(dir, upgrade, before, a);
        if key.Some? && upgrade {
          ghost var k :| Upgraded(w, st.w, dir, k);
          assert Upgraded(a.w, st.w, dir, k);
        }
      }
      if key.Some? && !upgrade { SamePending(a.w, st.w, dir); }
    }

    /** Uses the key of a directory whose destruction was begun and cut off. */
    method UseLeftKey(dir: Path, upgrade: bool) returns (key: Option<Key>)
      requires Valid() && st.w.holder == Free && Known(st.w, dir) && st.w.names[dir] in st.w.doomed
      modifies this`faults
      ensures Valid() && old(faults) <= faults && (key.Some? ==> !upgrade)
      ensures key.Some? || faults == old(faults) ==> key == OpeningKey(st.w, dir)
    {
      hide LiveIsWorst, Traced, Placed, RestFilled, BlobsFilled, Inv, IsPending;
      DoomedIsNotPending(st.w, dir);
      var failed := Fault();
      if upgrade {                // which is taken to fail
        faults, failed := faults + 1, true;
      }
      key := if failed then None else FilesOf(st.w, dir).blob;
    }

    /** Uses the upgraded key, which is on disk but not committed yet. */
    method UseUpgradedKey(dir: Path, upgrade: bool, ghost before: seq<Store>, ghost a: Store) returns (key: Option<Key>)
      requires Valid() && Quietly(before, a, trace, st) && st.w.holder == Opening(dir) && Known(st.w, dir)
      modifies this`st, this`trace, this`faults
      ensures Valid() && st.w.holder == Free && Quietly(before, a, trace, st) && old(faults) <= faults
      ensures key.Some? || faults == old(faults) ==> key == FilesOf(old(st).w, dir).upgraded
      ensures SameFiles(old(st).w, st.w) && (key.Some? ==> !upgrade)
    {
      hide Valid, Quietly, Do, Enabled, SameTree;
      key := FilesOf(st.w, dir).upgraded;
      var failed := Fault();      // reading it or beginning the operation
      if upgrade {                // which is not expected twice
        faults, failed := faults + 1, true;
      }
      LockReleased(st.w);
      Take(Release, before, a);
      if failed { key := None; }
    }

    /** Uses the key in the blob file, and replaces it when Keystore asks for that. */
    method UseKey(dir: Path, upgrade: bool, ghost before: seq<Store>, ghost a: Store) returns (key: Option<Key>)
      requires Valid() && Quietly(before, a, trace, st) && st.w.holder == Opening(dir) && Known(st.w, dir)
      requires !IsPending(st.w, dir)
      modifies this`st, this`trace, this`faults
      ensures Valid() && st.w.holder == Free && Quietly(before, a, trace, st) && old(faults) <= faults
      ensures key.Some? || faults == old(faults) ==> key == FilesOf(old(st).w, dir).blob
      ensures key.Some? && !upgrade ==>
        && Known(st.w, dir) && FilesOf(st.w, dir).blob == key
        && st.w.pending == old(st).w.pending && st.w.names == old(st).w.names
      ensures key.Some? && upgrade ==> Known(st.w, dir) && exists k :: Upgraded(old(st).w, st.w, dir, k)
    {
      hide Valid, Quietly, Do, Enabled, SameTree, IsPending;
      DeleteUpgradedKey(dir, before, a);
      SamePending(old(st).w, st.w, dir);
      key := FilesOf(st.w, dir).blob;
      var failed := Fault();      // reading it or beginning the operation
      if failed || key.None? || !upgrade {
        LockReleased(st.w);
        Take(Release, before, a);
        if failed { key := None; }
      } else {
        ghost var w := st.w;
        var ok := UpgradeKey(dir, before, a);
        if !ok { key := None; }
        assert ok ==> Upgraded(w, st.w, dir, w.nextKey) && Upgraded(old(st).w, st.w, dir, w.nextKey);
      }
    }

    /** After a checkpoint was committed: commits every upgraded key that waited for that. */
    method DeferredCommitKeystoreKeys()
      requires Valid() && st.w.holder == Free && st.w.sweepDue
      modifies this`st, this`trace, this`faults
      ensures Valid() && st.w.holder == Free && Quietly(old(trace), old(st), trace, st) && old(faults) <= faults
      ensures st.w.pending == [] && !st.w.sweepDue
      ensures faults == old(faults) ==>
          forall n :: 0 <= n < |old(st).w.pending| && CommitTarget(old(st).w, old(st).w.pending[n]) ==>
        && Known(st.w, old(st).w.pending[n])
        && FilesOf(st.w, old(st).w.pending[n]) == Files(FilesOf(old(st).w, old(st).w.pending[n]).upgraded, None)
    {
      hide Quietly, Do, Enabled, SameTree, IsTrace, Sound, IsPending, Swept;
      ghost var before, a := trace, st;
      QuietlyFrom(trace, st);
      SweepBegun(st);
      var dirs := st.w.pending;
      Take(SweepBegin, before, a);
      SweptFrom(a.w, st.w, dirs);
      SweepAll(dirs, before, a);
      SweepEnded(st.w);
      Take(SweepEnd, before, a);
    }

    method SweepAll(dirs: seq<Path>, ghost before: seq<Store>, ghost a: Store)
      requires Valid() && Quietly(before, a, trace, st) && st.w.holder == Sweeping(dirs)
      requires Swept(a.w, st.w, dirs, 0, true)
      modifies this`st, this`trace, this`faults
      ensures Valid() && Quietly(before, a, trace, st) && old(faults) <= faults && st.w.holder == Sweeping([])
      ensures st.w.names == a.w.names
      ensures faults == old(faults) ==> forall k :: 0 <= k < |dirs| && CommitTarget(a.w, dirs[k]) ==>
        Known(st.w, dirs[k]) && FilesOf(st.w, dirs[k]) == Files(FilesOf(a.w, dirs[k]).upgraded, None)
    {
      hide Quietly, Swept, Valid;
      var n: nat := 0;
      assert dirs[0..] == dirs;
      while n < |dirs|
        invariant n <= |dirs| && Valid() && Quietly(before, a, trace, st) && old(faults) <= faults
        invariant st.w.holder == Sweeping(dirs[n..]) && Swept(a.w, st.w, dirs, n, faults == old(faults))
      {
        assert dirs[n..][0] == dirs[n] && dirs[n..][1..] == dirs[n + 1..];
        ghost var w, clean := st.w, faults == old(faults);
        SweptKnown(a.w, st.w, dirs, n, clean);
        var _ := CommitUpgradedKey(dirs[n], Some(dirs[n + 1..]), before, a);
        SweptOn(a.w, w, st.w, dirs, n, clean, faults == old(faults));
        n := n + 1;
      }
      SweptKnown(a.w, st.w, dirs, n, faults == old(faults));
    }

    /** Forgets a pending commit of a directory that is being destroyed. */
    method CancelPendingKeyCommit(dir: Path) returns (pending: seq<Path>)
      ensures pending == WithoutDir(st.w, st.w.pending, dir)
    {
      var n: nat := 0;
      while n < |st.w.pending|
        invariant n <= |st.w.pending|
        invariant WithoutDir(st.w, st.w.pending, dir) == st.w.pending[..n] + WithoutDir(st.w, st.w.pending[n..], dir)
      {
        assert st.w.pending[n..][1..] == st.w.pending[n + 1..];
        if SameFile(st.w, st.w.pending[n], dir) {
          return st.w.pending[..n] + st.w.pending[n + 1..];
        }
        n := n + 1;
      }
      return st.w.pending;
    }

    /** Destroys the key in the directory and removes the directory, trying everything whatever fails. */
    method DestroyKey(dir: Path) returns (ok: bool)
      requires Valid() && st.w.holder == Free
      modifies this`st, this`trace, this`faults
      ensures Valid() && st.w.holder == Free && old(faults) <= faults
      ensures dir !in old(st).w.names ==> st == old(st) && trace == old(trace)
      ensures dir in old(st).w.names ==> Destroying(old(trace), old(st), trace, st, old(st).w.names[dir])
      ensures dir in old(st).w.names ==> st.w.doomed == old(st).w.doomed + {old(st).w.names[dir]}
      ensures st.w.names == old(st).w.names || st.w.names == old(st).w.names - {dir}
      ensures faults == old(faults) ==> ok && dir !in st.w.names
      ensures faults == old(faults) && Known(old(st).w, dir) ==>
        DeletedAll(FilesOf(old(st).w, dir), st.w.deleted) && Overwritten(st, old(st).w.names[dir])
    {
      hide Destroys, Destroying, Moved, Can, Sound, IsTrace, Do, Enabled;
      if dir !in st.w.names {         // there is nothing to discard or to remove
        var failed := Fault();
        return !failed;
      }
      ghost var before, a, i := trace, st, st.w.names[dir];
      DestroyStarts(st, dir);
      var pending := CancelPendingKeyCommit(dir);
      Perform(Keys(Destroy(dir)));
      assert st.w.pending == pending;
      DestroyingFrom(before, a, i, st);
      NameFacts(st);
      ok := DestroyBlobs(dir, before, a, i);
      var removed := RemoveFiles(dir, before, a, i);
      ok := ok && removed;
    }

    /** Overwrites the files of the directory and removes it; removing it takes the files first. */
    method RemoveFiles(dir: Path, ghost before: seq<Store>, ghost a: Store, ghost i: Ino) returns (ok: bool)
      requires Valid() && dir in st.w.names && st.w.names[dir] == i && i in st.w.doomed
      requires Destroying(before, a, trace, st, i)
      modifies this`st, this`trace, this`faults
      ensures Valid() && old(faults) <= faults && Destroying(before, a, trace, st, i)
      ensures st.w.holder == old(st).w.holder && st.w.doomed == old(st).w.doomed && st.w.deleted == old(st).w.deleted
      ensures st.w.names == old(st).w.names || st.w.names == old(st).w.names - {dir}
      ensures faults == old(faults) ==> ok && dir !in st.w.names && Overwritten(st, i)
    {
      hide Destroys, Destroying, Moved, Can, Sound, IsTrace;
      ok := true;
      var failed := Fault();
      if failed {
        ok := false;
      } else {
        DiscardFiles(dir, before, a, i);
      }
      failed := Fault();
      var started: bool := *;
      if !failed || started { DiscardFiles(dir, before, a, i); }
      if failed {
        ok := false;
      } else {
        DirIsRemoved(st, dir);
        DestroyingOn(before, a, trace, st, i, Moved(st, Keys(RemoveDir(dir))));
        Perform(Keys(RemoveDir(dir)));
      }
    }

    /** The ciphertext and its salt go. */
    method DiscardFiles(dir: Path, ghost before: seq<Store>, ghost a: Store, ghost i: Ino)
      requires Valid() && dir in st.w.names && st.w.names[dir] == i && i in st.w.doomed
      requires Destroying(before, a, trace, st, i)
      modifies this`st, this`trace
      ensures Valid() && Destroying(before, a, trace, st, i) && st.w == old(st).w && Overwritten(st, i)
    {
      hide Destroys, Destroying, Moved, Can, Sound, IsTrace, Overwritten;
      RestKnown(st, dir);
      DirIsDiscarded(st, dir);
      DestroyingOn(before, a, trace, st, i, Moved(st, Discard(dir)));
      Perform(Discard(dir));
    }

    /** Deletes the keys of both blob files from Keystore. */
    method DestroyBlobs(dir: Path, ghost before: seq<Store>, ghost a: Store, ghost i: Ino) returns (ok: bool)
      requires Valid() && Known(st.w, dir) && st.w.names[dir] == i && i in st.w.doomed
      requires Destroying(before, a, trace, st, i)
      modifies this`st, this`trace, this`faults
      ensures Valid() && old(faults) <= faults && Destroying(before, a, trace, st, i)
      ensures SameFiles(old(st).w, st.w) && st.w.holder == old(st).w.holder
      ensures faults == old(faults) ==> ok && DeletedAll(FilesOf(old(st).w, dir), st.w.deleted)
    {
      hide Destroying, Valid, Names;
      var f := FilesOf(st.w, dir);
      NamesOf(f);
      ok := DeleteKeystoreKey(dir, f.blob, before, a, i);
      var ok' := DeleteKeystoreKey(dir, f.upgraded, before, a, i);
      ok := ok && ok';
    }

    /** Deletes the key a blob file names, if there is such a file. */
    method DeleteKeystoreKey(dir: Path, file: Option<Key>, ghost before: seq<Store>, ghost a: Store, ghost i: Ino)
      returns (ok: bool)
      requires Valid() && Known(st.w, dir) && st.w.names[dir] == i && i in st.w.doomed
      requires Destroying(before, a, trace, st, i)
      requires file.Some? ==> Names(FilesOf(st.w, dir), file.value)
      modifies this`st, this`trace, this`faults
      ensures Valid() && old(faults) <= faults && Destroying(before, a, trace, st, i)
      ensures SameFiles(old(st).w, st.w) && st.w.holder == old(st).w.holder
      ensures st.w.deleted == old(st).w.deleted + if file.Some? && ok then {file.value} else {}
      ensures faults == old(faults) ==> ok
    {
      hide Destroying, Destroys, Moved, Can, Sound, IsTrace, Do, Enabled, Names;
      if file.None? { return true; }
      var failed := Fault();
      if failed { return false; }
      KeyIsDestroyed(st, dir, file.value);
      DestroyingOn(before, a, trace, st, i, Moved(st, Keys(KeyUpgrade.Step.DestroyKey(dir, file.value))));
      Perform(Keys(KeyUpgrade.Step.DestroyKey(dir, file.value)));
      ok := true;
    }
  
    /** The list after a rename: the first entry for the directory, if any, gets the new name. */
    method RenamePendingKeyCommit(from: Path, to: Path) returns (pending: seq<Path>)
      ensures pending == WithRenamed(st.w, st.w.pending, from, to)
    {
      var n: nat := 0;
      while n < |st.w.pending| && !SameFile(st.w, from, st.w.pending[n])
        invariant n <= |st.w.pending|
        invariant WithRenamed(st.w, st.w.pending, from, to) == st.w.pending[..n] + WithRenamed(st.w,
            st.w.pending[n..], from, to)
      {
        assert st.w.pending[n..][1..] == st.w.pending[n + 1..];
        n := n + 1;
      }
      pending := if n < |st.w.pending| then st.w.pending[n := to] else st.w.pending;
      assert n < |st.w.pending| ==> st.w.pending[n..][1..] == st.w.pending[n + 1..];
    }

    /** Renames a key directory, and its entry in the list. */
    method RenameKeyDir(from: Path, to: Path) returns (ok: bool)
      requires Valid() && st.w.holder == Free && to !in st.temps
      requires (from in st.w.names ==> st.w.names[from] in st.stored)
      modifies this`st, this`trace, this`faults
      ensures Valid() && st.w.holder == Free && old(faults) <= faults
      ensures !ok ==> st == old(st) && trace == old(trace)
      ensures ok ==> Renames(old(st), st, from, to) && trace == old(trace) + [st]
      ensures faults == old(faults) ==> ok == (from in old(st).w.names && to !in old(st).w.names)
    {
      hide Moved, Can, Sound, IsTrace, Do, Enabled, Renames, WithRenamed;
      var pending := RenamePendingKeyCommit(from, to);
      var failed := Fault();
      if failed || from !in st.w.names || to in st.w.names { return false; }
      DirIsRenamed(st, from, to);
      Perform(Keys(RenameDir(from, to)));
      assert st.w.pending == pending;
      ok := true;
    }
  
    // ----- Storing and retrieving -----

    /** The application id; once one was made without a seed, no seed can be set any more. */
    method GenerateAppId(rest: Rest, auth: Auth) returns (app: string)
      modifies this`binding
      ensures app == AppId(rest, auth, Seed()) && Seed() == old(Seed()) && binding != Uninitialized
      ensures rest.secdiscardable.Some? ==>
        app == rest.secdiscardable.value + auth.secret + if old(binding) == InUse then seed else ""
    {
      app := (if rest.secdiscardable.Some? then rest.secdiscardable.value else "") + auth.secret;
      match binding {
        case Uninitialized => binding := NotUsed;
        case InUse => app := app + seed;
        case NotUsed =>
      }
      assert app == AppId(rest, auth, Seed());
    }

    /** Sets the seed, unless application ids were made already. */
    method SetKeyStorageBindingSeed(newSeed: string) returns (ok: bool)
      modifies this`binding, this`seed
      ensures ok == (old(binding) == Uninitialized)
      ensures ok ==> Seed() == newSeed && binding == InUse
      ensures !ok ==> binding == old(binding) && seed == old(seed)
    {
      match binding {
        case Uninitialized =>
          binding, seed := InUse, newSeed;
          return true;
        case InUse => return false;
        case NotUsed => return false;
      }
    }

    method MakeDir(dir: Path, ghost before: seq<Store>, ghost a: Store, ghost key: Path, ghost d: Deposit)
      returns (ok: bool)
      requires Valid() && Storing(before, a, trace, st, dir, key, d) && st.w.holder == Free && dir in st.temps
      requires key != dir
      modifies this`st, this`trace, this`faults
      ensures Valid() && Storing(before, a, trace, st, dir, key, d) && old(faults) <= faults
      ensures !ok ==> st == old(st) && (faults == old(faults) ==> dir in st.w.names)
      ensures ok ==>
        && dir !in old(st).w.names && dir in st.w.names
        && var j := st.w.names[dir];
           && Filling(st, dir, j) && FilesOf(st.w, dir) == Files(None, None) && j !in st.lineage.root && j !in a.place
           && st.w.names == old(st).w.names[dir := j]
    {
      hide Moved, Can, Sound, IsTrace, Do, Enabled, Filling, Storing;
      var failed := Fault();
      if failed || dir in st.w.names { return false; }
      DirIsCreated(st, dir, key, d);
      StoringKeepsOld(before, a, trace, st, dir, key, d);
      StoringOn(before, a, trace, st, Moved(st, Keys(Create(dir))), st.w.nextIno, dir, key, d);
      Perform(Keys(Create(dir)));
      assert Filling(st, dir, old(st).w.nextIno);
      FillingName(st, dir, old(st).w.nextIno);
      ok := true;
    }

    /** Writes one of the files beside the blobs; when that fails, part of it may remain. */
    method WriteFile(dir: Path, r: Rest, ghost j: Ino, ghost before: seq<Store>, ghost a: Store, ghost key: Path,
                     ghost d: Deposit) returns (ok: bool)
      requires Valid() && Storing(before, a, trace, st, dir, key, d) && Filling(st, dir, j)
      modifies this`st, this`trace, this`faults
      ensures Valid() && Storing(before, a, trace, st, dir, key, d) && Filling(st, dir, j) && old(faults) <= faults
      ensures st.w == old(st).w && st.lineage == old(st).lineage && (ok ==> st.rest[j] == r)
      ensures faults == old(faults) ==> ok
    {
      hide Moved, Can, Sound, IsTrace, Storing, SameNames;
      var failed := Fault();
      var written := r;
      if failed { written := *; }
      RestIsWritten(st, dir, j, written);
      StoringAlike(before, a, trace, st, Moved(st, WriteRest(dir, written)), dir, key, d);
      Perform(WriteRest(dir, written));
      ok := !failed;
    }

    /** Generates a Keystore key for the directory and seals the message with it. */
    method EncryptWithKeystoreKey(dir: Path, app: string, message: Message, ghost j: Ino,
                                  ghost before: seq<Store>, ghost a: Store, ghost key: Path,
                                      ghost d: Deposit) returns (c: Option<Cipher>)
      requires Valid() && Storing(before, a, trace, st, dir, key, d) && Filling(st, dir, j)
      requires FilesOf(st.w, dir) == Files(None, None) && j !in st.lineage.root
      modifies this`st, this`trace, this`faults
      ensures Valid() && Storing(before, a, trace, st, dir, key, d) && Filling(st, dir, j) && old(faults) <= faults
      ensures st.rest == old(st).rest && st.w.names == old(st).w.names
      ensures c.Some? ==>
        && FilesOf(st.w, dir).blob.Some? && j in st.lineage.root
        && c == Some(Sealed(Some(st.lineage.root[j]), app, message))
      ensures faults == old(faults) ==> c.Some?
    {
      hide Moved, Can, Sound, IsTrace, Storing, SameNames, Quietly;
      var failed := Fault();
      if failed { return None; }
      GenerateBlob(dir, j, before, a, key, d);
      ghost var mid, b := trace, st;
      var upgrade: bool := *;
      var k := BeginKeystoreOp(dir, upgrade);
      StoringQuietly(before, a, mid, b, trace, st, dir, key, d);
      FillingQuietly(mid, b, trace, st, dir, j);
      OpenedKeyTraces(mid, b, trace, st, dir, j);
      failed := Fault();
      if failed || k.None? { return None; }
      c := Some(Sealed(Some(st.lineage.origin[k.value]), app, message));
    }

    method GenerateBlob(dir: Path, ghost j: Ino, ghost before: seq<Store>, ghost a: Store, ghost key: Path,
                        ghost d: Deposit)
      requires Valid() && Storing(before, a, trace, st, dir, key, d) && Filling(st, dir, j)
      requires FilesOf(st.w, dir) == Files(None, None) && j !in st.lineage.root
      modifies this`st, this`trace
      ensures Valid() && Storing(before, a, trace, st, dir, key, d) && Filling(st, dir, j)
      ensures st.rest == old(st).rest && st.w.names == old(st).w.names && FilesOf(st.w, dir).blob.Some?
    {
      hide Moved, Can, Sound, IsTrace, Storing;
      BlobIsStored(st, dir, j);
      StoringAlike(before, a, trace, st, Moved(st, Keys(StoreBlob(dir))), dir, key, d);
      Perform(Keys(StoreBlob(dir)));
    }
  
    /** Syncs the filled directory. */
    method FinishDir(dir: Path, ghost j: Ino, ghost before: seq<Store>, ghost a: Store, ghost key: Path, d: Deposit)
      returns (ok: bool)
      requires Valid() && Storing(before, a, trace, st, dir, key, d) && Filling(st, dir, j) && j !in a.place
      requires Complete(st.rest[j], d, st.lineage, j) && (d.auth.UsesKeystore() ==> FilesOf(st.w, dir).blob.Some?)
      modifies this`st, this`trace, this`faults
      ensures Valid() && Storing(before, a, trace, st, dir, key, d) && old(faults) <= faults
      ensures st.w.names == old(st).w.names && st.w.doomed == old(st).w.doomed && st.w.holder == Free
      ensures st.temps == old(st).temps
      ensures ok ==> j in st.stored && st.stored[j] == d && j in st.places && None in st.places[j]
      ensures faults == old(faults) ==> ok
    {
      hide Moved, Can, Sound, IsTrace, Storing, Complete, StoresOne;
      var failed := Fault();
      if failed { return false; }
      StoringNewPlaces(before, a, trace, st, dir, key, d, j);
      DirIsFinished(st, dir, j, d, key);
      StoringOn(before, a, trace, st, Moved(st, Finish(dir, d)), j, dir, key, d);
      Perform(Finish(dir, d));
      ok := true;
    }

    /** Makes the directory and fills it with what it takes to retrieve the message. */
    method StoreKey(dir: Path, auth: Auth, message: Message, ghost before: seq<Store>, ghost a: Store, ghost key: Path)
      returns (ok: bool)
      requires Valid() && Storing(before, a, trace, st, dir, key, Deposit(auth, Seed(), message))
      requires st.w.holder == Free && dir in st.temps && key != dir
      modifies this`st, this`trace, this`faults, this`binding
      ensures Valid() && Seed() == old(Seed()) && st.w.holder == Free && old(faults) <= faults
      ensures Storing(before, a, trace, st, dir, key, Deposit(auth, Seed(), message))
      ensures
        || st.w.names == old(st).w.names
        || (dir !in old(st).w.names && dir in st.w.names && st.w.names == old(st).w.names[dir := st.w.names[dir]])
      ensures ok ==>
        && dir !in old(st).w.names && dir in st.w.names
        && var j := st.w.names[dir];
           && j !in a.place && j !in st.w.doomed && j in st.stored && st.stored[j] == Deposit(auth, Seed(), message)
           && j in st.places && None in st.places[j]
      ensures faults == old(faults) && dir !in old(st).w.names ==> ok
    {
      hide Storing, Valid, Filling, Complete;
      var d := Deposit(auth, Seed(), message);
      ok := MakeDir(dir, before, a, key, d);
      if !ok { return false; }
      ghost var j := st.w.names[dir];
      var r := Rest(Some(CURRENT_VERSION), None, None);
      FillingFacts(st, dir, j);
      ok := WriteFile(dir, r, j, before, a, key, d);
      FillingFacts(st, dir, j);
      if !ok { return false; }
      if auth.UsesKeystore() {
        var random: string := *;
        r := r.(secdiscardable := Some(random));
        ok := WriteFile(dir, r, j, before, a, key, d);
        FillingFacts(st, dir, j);
        if !ok { return false; }
      }
      ok := FillKey(dir, r, j, before, a, key, d);
    }

    /** Seals the message, writes it and syncs the directory. */
    method FillKey(dir: Path, r: Rest, ghost j: Ino, ghost before: seq<Store>, ghost a: Store, ghost key: Path,
                   d: Deposit) returns (ok: bool)
      requires Valid() && Storing(before, a, trace, st, dir, key, d) && Filling(st, dir, j) && j !in a.place
      requires FilesOf(st.w, dir) == Files(None, None) && j !in st.lineage.root && r.version == Some(CURRENT_VERSION)
      requires d.seed == Seed()
      modifies this`st, this`trace, this`faults, this`binding
      ensures Valid() && Storing(before, a, trace, st, dir, key, d) && Seed() == old(Seed()) && old(faults) <= faults
      ensures st.w.names == old(st).w.names && st.w.holder == Free && j !in st.w.doomed
      ensures ok ==> j in st.stored && st.stored[j] == d && j in st.places && None in st.places[j]
      ensures faults == old(faults) ==> ok
    {
      hide Storing, Valid, Filling;
      var app := GenerateAppId(r, d.auth);
      var c: Option<Cipher>;
      if d.auth.UsesKeystore() {
        c := EncryptWithKeystoreKey(dir, app, d.message, j, before, a, key, d);
      } else {
        var failed := Fault();
        c := if failed then None else Some(Sealed(None, app, d.message));
      }
      FillingFacts(st, dir, j);
      if c.None? { return false; }
      ok := WriteFile(dir, r.(encrypted := c), j, before, a, key, d);
      FillingFacts(st, dir, j);
      if !ok { return false; }
      assert Complete(st.rest[j], d, st.lineage, j);
      ok := FinishDir(dir, j, before, a, key, d);
    }

    /**
      Stores the message so that the final name is either absent or complete, wherever the operation
      is cut off.
    */
    method StoreKeyAtomically(key: Path, tmp: Path, auth: Auth, message: Message) returns (ok: bool)
      requires Valid() && st.w.holder == Free && tmp in st.temps && key !in st.temps
      modifies this`st, this`trace, this`faults, this`binding
      ensures Valid() && Seed() == old(Seed()) && st.w.holder == Free && old(faults) <= faults
      ensures Storing(old(trace), old(st), trace, st, tmp, key, Deposit(auth, Seed(), message))
      ensures key in old(st).w.names ==> !ok && st == old(st) && trace == old(trace)
      ensures ok ==>
        && key !in old(st).w.names && key in st.w.names
        && var i := st.w.names[key];
           && i !in old(st).place && i !in st.w.doomed && i in st.stored
           && st.stored[i] == Deposit(auth, Seed(), message)
           && i in st.places && st.places[i] == {Some(key)}
      ensures ok ==> SyncedBelow(st, Parent(key))
      ensures forall p :: p != tmp && p != key ==>
        (p in st.w.names <==> p in old(st).w.names) && (p in st.w.names ==> st.w.names[p] == old(st).w.names[p])
      ensures faults == old(faults) ==> ok == (key !in old(st).w.names)
    {
      hide Storing, Destroying, Sound, IsTrace, Renames, Parent, SyncedBelow;
      ghost var before, a, d := trace, st, Deposit(auth, Seed(), message);
      PlacesKnown(st);
      StoringFrom(trace, st, tmp, key, d);
      if key in st.w.names { return false; }
      if tmp in st.w.names {
        var _ := DestroyKey(tmp);
        TmpIsAlone(a, tmp);
        StoringAfterDestroying(before, a, trace, st, a.w.names[tmp], tmp, key, d);
      }
      StoringTemps(before, a, trace, st, tmp, key, d);
      ok := StoreKey(tmp, auth, message, before, a, key);
      if !ok { return false; }
      StoringTemps(before, a, trace, st, tmp, key, d);
      ok := Publish(key, tmp, before, a, d);
    }

    /** Renames the filled directory to its final name and syncs that. */
    method Publish(key: Path, tmp: Path, ghost before: seq<Store>, ghost a: Store, ghost d: Deposit) returns (ok: bool)
      requires Valid() && Storing(before, a, trace, st, tmp, key, d) && st.w.holder == Free && key !in st.temps
      requires tmp in st.w.names
      requires var j := st.w.names[tmp]; j !in a.place && j !in st.w.doomed && j in st.stored && st.stored[j] == d
      requires st.w.names[tmp] in st.places && None in st.places[st.w.names[tmp]]
      modifies this`st, this`trace, this`faults
      ensures Valid() && st.w.holder == Free && Storing(before, a, trace, st, tmp, key, d) && old(faults) <= faults
      ensures forall p :: p != tmp && p != key ==>
        (p in st.w.names <==> p in old(st).w.names) && (p in st.w.names ==> st.w.names[p] == old(st).w.names[p])
      ensures ok ==>
        && key !in old(st).w.names && key in st.w.names && st.w.names[key] == old(st).w.names[tmp]
        && var i := st.w.names[key];
           i !in st.w.doomed && i in st.stored && st.stored[i] == d && i in st.places && st.places[i] == {Some(key)}
      ensures ok ==> SyncedBelow(st, Parent(key))
      ensures faults == old(faults) ==> ok == (key !in old(st).w.names)
    {
      hide Storing, Sound, IsTrace, Moved, Can, StoresOne, Renames, SyncedBelow, Parent;
      ghost var b, j := st, st.w.names[tmp];
      PlacesKnown(st);
      StoringNewPlaces(before, a, trace, st, tmp, key, d, j);
      ok := RenameKeyDir(tmp, key);
      if !ok { return false; }
      RenameStores(b, st, tmp, key, d);
      StoringOn(before, a, old(trace), b, st, j, tmp, key, d);
      RenamedKey(b, st, tmp, key);
      ok := SyncPublished(key, tmp, j, before, a, d);
    }

    method SyncPublished(key: Path, tmp: Path, ghost j: Ino, ghost before: seq<Store>, ghost a: Store, ghost d: Deposit)
      returns (ok: bool)
      requires Valid() && Storing(before, a, trace, st, tmp, key, d) && j !in a.place && j in st.place
      requires st.place[j] == Some(key)
      modifies this`st, this`trace, this`faults
      ensures Valid() && Storing(before, a, trace, st, tmp, key, d) && old(faults) <= faults
      ensures ok == (faults == old(faults))
      ensures st == old(st).(places := st.places)
      ensures (ok ==> j in st.places && st.places[j] == {Some(key)} && SyncedBelow(st, Parent(key)))
    {
      hide Storing, Sound, IsTrace, Parent, Moved, Can, StoresOne, SyncedBelow;
      var failed := Fault();
      if failed { return false; }
      PlacesKnown(st);
      NamesAreSynced(st, Parent(key));
      SyncSettlesNames(st, Parent(key));
      StoringNewPlaces(before, a, trace, st, tmp, key, d, j);
      SyncStores(st, j, tmp, key, d, Moved(st, SyncNames(Parent(key))));
      StoringOn(before, a, trace, st, Moved(st, SyncNames(Parent(key))), j, tmp, key, d);
      Perform(SyncNames(Parent(key)));
      ok := true;
    }

    /** Retrieves the message stored in the directory. */
    method RetrieveKey(dir: Path, auth: Auth) returns (message: Option<Message>)
      requires Valid() && st.w.holder == Free
      modifies this`st, this`trace, this`faults, this`binding
      ensures Valid() && Seed() == old(Seed()) && st.w.holder == Free && Quietly(old(trace), old(st), trace, st)
      ensures old(faults) <= faults
      ensures message.Some? || faults == old(faults) ==> message == Retrieved(old(st), dir, auth, Seed())
    {
      hide Quietly, Sound, IsTrace, OpeningKey, AppId;
      QuietlyFrom(trace, st);
      var failed := Fault();
      if failed || !Known(st.w, dir) || st.w.names[dir] !in st.rest { return None; }
      var r := st.rest[st.w.names[dir]];
      if r.version != Some(CURRENT_VERSION) { return None; }
      var app := GenerateAppId(r, auth);
      failed := Fault();
      if failed || r.encrypted.None? { return None; }
      if auth.UsesKeystore() {
        message := DecryptWithKeystoreKey(dir, app, r.encrypted.value);
      } else if r.encrypted.value.under.None? && r.encrypted.value.app == app {
        message := Some(r.encrypted.value.message);
      } else {
        message := None;
      }
    }

    /** Opens a ciphertext: the key must trace back to the one that sealed it, for the same application id. */
    method DecryptWithKeystoreKey(dir: Path, app: string, c: Cipher) returns (message: Option<Message>)
      requires Valid() && st.w.holder == Free && Known(st.w, dir)
      modifies this`st, this`trace, this`faults
      ensures Valid() && st.w.holder == Free && Quietly(old(trace), old(st), trace, st) && old(faults) <= faults
      ensures message.Some? || faults == old(faults) ==>
        message ==
          var k := OpeningKey(old(st).w, dir);
          if c.app == app && k.Some? && k.value in old(st).lineage.origin && k.value !in old(st).w.deleted
             && c.under == Some(old(st).lineage.origin[k.value])
          then Some(c.message) else None
    {
      hide Quietly, Sound, IsTrace;
      var origin, deleted := st.lineage.origin, st.w.deleted;
      var upgrade: bool := *;
      var k := BeginKeystoreOp(dir, upgrade);
      var failed := Fault();
      var usable := !failed && k.Some? && k.value !in deleted && c.app == app;
      if usable && k.value in origin && c.under == Some(origin[k.value]) {
        message := Some(c.message);
      } else {
        message := None;
      }
    }
  }
}
