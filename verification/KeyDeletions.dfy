/**
  Which directories name keys that were deleted from Keystore.

  A key that a directory names as its blob is deleted only by destroying that directory, and then the
  live directory names a deleted key as well: what a power cut brings back is no worse than what there is.
*/
module KeyDeletions {
  import opened Wrappers
  import opened KeyUpgrade
  import opened KeyLineage

  predicate NamesDeleted(w: World, f: Files) {
    f.blob.Some? && f.blob.value in w.deleted
  }

  /** The blob of the directory is of no use any more. */
  predicate Lost(w: World, i: Ino) {
    i in w.live && NamesDeleted(w, w.live[i])
  }

  /** Where a power cut can leave a blob that is of no use, the live one is of no use either. */
  ghost predicate LiveIsWorst(w: World) {
    forall v :: v in w.durable && NamesDeleted(w, v.files) ==> Lost(w, v.ino)
  }

  /** The key a step deletes. */
  function Deletes(w: World, s: Step): Option<Key>
    requires Enabled(w, s)
  {
    match s
    case DeleteLeftover => FilesOf(w, w.holder.dir).upgraded
    case DeleteOld => Some(w.holder.was)
    case DestroyKey(_, k) => Some(k)
    case _ => None
  }

  lemma DeletesOne(w: World, s: Step)
    requires Enabled(w, s)
    ensures Do(w, s).deleted == w.deleted + if Deletes(w, s).Some? then {Deletes(w, s).value} else {}
  {
    hide IsPending, LiveVersions, Injective, WithRenamed, WithoutDir, SameFile;
    if s.DeleteLeftover? || s.DeleteOld? || s.DestroyKey? { DeleterDeletes(w, s); } else { OthersDelete(w, s); }
  }

  lemma DeleterDeletes(w: World, s: Step)
    requires Enabled(w, s) && (s.DeleteLeftover? || s.DeleteOld? || s.DestroyKey?)
    ensures Deletes(w, s).Some? && Do(w, s).deleted == w.deleted + {Deletes(w, s).value}
  {
    hide IsPending, LiveVersions, Injective, WithRenamed, WithoutDir, SameFile;
  }

  lemma OthersDelete(w: World, s: Step)
    requires Enabled(w, s) && !s.DeleteLeftover? && !s.DeleteOld? && !s.DestroyKey?
    ensures Deletes(w, s).None? && Do(w, s).deleted == w.deleted
  {
    hide IsPending, LiveVersions, Injective, WithRenamed, WithoutDir, SameFile;
    if EditOf(w, s).Some? {
      EditIsChange(w, s);
      hide Do, Enabled, EditOf;
    } else if Sorts(s) {
      SortingDeletes(w, s);
    } else {
      LockingDeletes(w, s);
    }
  }

  lemma SortingDeletes(w: World, s: Step)
    requires Enabled(w, s) && Sorts(s)
    ensures Do(w, s).deleted == w.deleted
  {
    hide LiveVersions, Injective;
    match s
    case Create(_) =>
    case SyncKeys(_) =>
    case CommitCheckpoint =>
    case BeginCheckpoint =>
    case SyncDir =>
    case PowerCut(_, _, _) =>
    case Rollback =>
  }

  lemma LockingDeletes(w: World, s: Step)
    requires Enabled(w, s) && EditOf(w, s).None? && !Sorts(s) && !s.DeleteLeftover? && !s.DeleteOld? && !s.DestroyKey?
    ensures Do(w, s).deleted == w.deleted
  {
    hide IsPending, LiveVersions, Injective, WithRenamed, WithoutDir, SameFile, CommitTarget, FilesOf;
    match s
    case RemoveDir(_) =>
    case Acquire(_) =>
    case GetUpgraded =>
    case Release =>
    case WriteAbandoned =>
    case Decide =>
    case Schedule =>
    case SkipCommit =>
    case SyncFailed =>
    case KeepOld =>
    case SweepBegin =>
    case SweepEnd =>
    case RenameDir(_, _) =>
    case Destroy(_) =>
  }

  lemma DeleterLeavesFiles(w: World, s: Step)
    requires Enabled(w, s) && Deletes(w, s).Some?
    ensures Do(w, s).live == w.live && Do(w, s).durable == w.durable && Do(w, s).saved == w.saved
    ensures Do(w, s).doomed == w.doomed
  {
    hide IsPending, LiveVersions, Injective, WithRenamed, WithoutDir;
  }

  /** The directory that is being destroyed. */
  predicate Destroyed(w: World, s: Step, i: Ino) {
    s.DestroyKey? && s.path in w.names && w.names[s.path] == i
  }

  /** A deleted key is the blob of no directory, except one that is being destroyed and names it now. */
  lemma DeletedIsNoBlob(w: World, s: Step, v: Version)
    requires Inv(w) && Enabled(w, s) && Deletes(w, s).Some? && Matters(w, v) && v.files.blob == Deletes(w, s)
    ensures Destroyed(w, s, v.ino) && v.ino in w.live && w.live[v.ino].blob == Deletes(w, s)
  {
    hide Safe, Listed, IsPending;
    var k := Deletes(w, s).value;
    NamesOf(v.files);
    if s.DestroyKey? {
      LiveMatters(w, w.names[s.path]);
      assert Names(Version(w.names[s.path], w.live[w.names[s.path]]).files, k);
    } else if s.DeleteLeftover? {
      LeftoverIsNoBlob(w, w.names[w.holder.dir], v);
    }
  }

  lemma LeftoverIsNoBlob(w: World, i: Ino, v: Version)
    requires Shape(w) && Ids(w) && Spare(w) && i in w.live && w.live[i].upgraded.Some? && Matters(w, v)
    ensures v.files.blob != w.live[i].upgraded
  {
    var k := w.live[i].upgraded.value;
    LiveMatters(w, i);
    assert Names(Version(i, w.live[i]).files, k);
    assert v.files.blob == Some(k) ==> Names(v.files, k);
  }

  /** Outside a loss of power and a rollback, a step leaves the files of a directory that is being destroyed. */
  lemma DoomedFilesStay(w: World, s: Step, i: Ino)
    requires Inv(w) && Enabled(w, s) && i in w.doomed && i in w.live && !s.PowerCut? && !s.Rollback?
    ensures i in Do(w, s).live && Do(w, s).live[i] == w.live[i]
  {
    hide Ids, Safe, Spare, Listed, Do, Enabled, EditOf;
    if EditOf(w, s).Some? {
      EditIsChange(w, s);
      EditedIsNotDoomed(w, s);
    } else {
      OtherStepsAddNothing(w, s);
    }
  }

  lemma EditedIsNotDoomed(w: World, s: Step)
    requires Inv(w) && Enabled(w, s) && EditOf(w, s).Some?
    ensures var e := EditOf(w, s).value; Known(w, e.dir) && w.names[e.dir] !in w.doomed
  {
    hide Shape, Ids, Safe, Spare, Listed, Unnamed, Injective, IsPending, WasBlob;
    if s.RenameBlob? { assert Ready(w, Target(w)); }
  }

  /** Only destroying a directory makes its blob useless, and nothing makes a useless one useful again. */
  lemma LostStays(w: World, s: Step, i: Ino)
    requires Inv(w) && Enabled(w, s) && i in w.live && !s.PowerCut? && !s.Rollback?
    ensures Lost(w, i) ==> Lost(Do(w, s), i)
    ensures Lost(Do(w, s), i) ==> Lost(w, i) || Destroyed(w, s, i)
  {
    hide Ids, Safe, Spare, Held, Listed, Do, Enabled, EditOf, Deletes;
    LiveMatters(w, i);
    DeletesOne(w, s);
    if i in w.doomed {
      DoomedFilesStay(w, s, i);
      if Deletes(w, s).Some? && w.live[i].blob == Deletes(w, s) { DeletedIsNoBlob(w, s, Version(i, w.live[i])); }
    } else {
      if Lost(w, i) { LostIsDoomed(w, i); }
      if Lost(Do(w, s), i) { DoomedIsNotLost(w, s, i); }
    }
  }

  /** The step that begins to destroy a directory deletes no key. */
  lemma DoomedIsNotLost(w: World, s: Step, i: Ino)
    requires Inv(w) && Enabled(w, s) && i in w.live && i !in w.doomed
    ensures !Lost(Do(w, s), i)
  {
    hide Ids, Spare, Held, Listed, Do, Enabled, EditOf, Deletes;
    StepKeeps(w, s);
    StepFrame(w, s);
    if s.Destroy? {
      DestroyEffect(w, s);
      if Lost(w, i) { LostIsDoomed(w, i); }
    } else if Lost(Do(w, s), i) {
      LostIsDoomed(Do(w, s), i);
    }
  }

  lemma LostIsDoomed(w: World, i: Ino)
    requires Inv(w) && Lost(w, i)
    ensures i in w.doomed
  {
    hide Ids, Spare, Held, Listed;
    LiveMatters(w, i);
  }

  lemma StepKeepsLiveIsWorst(w: World, s: Step)
    requires Inv(w) && Enabled(w, s) && LiveIsWorst(w)
    ensures LiveIsWorst(Do(w, s))
  {
    hide Ids, Spare, Held, Listed, Do, Enabled, EditOf, Deletes, Shape, Lost;
    var w' := Do(w, s);
    StepKeeps(w, s);
    if s.PowerCut? || s.Rollback? {
      OnlyLiveIsLeft(w, s);
    } else {
      forall v | v in w'.durable && NamesDeleted(w', v.files) ensures Lost(w', v.ino) {
        VersionWasLost(w, s, v);
      }
    }
  }

  lemma OnlyLiveIsLeft(w: World, s: Step)
    requires Enabled(w, s) && (s.PowerCut? || s.Rollback?)
    ensures LiveIsWorst(Do(w, s))
  {
    hide Injective;
  }

  lemma VersionWasLost(w: World, s: Step, v: Version)
    requires Inv(w) && Enabled(w, s) && LiveIsWorst(w) && !s.PowerCut? && !s.Rollback?
    requires v in Do(w, s).durable && NamesDeleted(Do(w, s), v.files)
    ensures Lost(Do(w, s), v.ino)
  {
    hide Ids, Spare, Held, Listed, Do, Enabled, EditOf, Deletes;
    var w' := Do(w, s);
    DeletesOne(w, s);
    assert v.ino in w'.doomed by {
      StepKeeps(w, s);
      assert Matters(w', v);
    }
    DoomedIsOld(w, s, v);
    if NamesDeleted(w, v.files) {
      LostStays(w, s, v.ino);
    } else {
      DeletedIsNoBlob(w, s, v);
      DeleterLeavesFiles(w, s);
    }
  }

  lemma DoomedIsOld(w: World, s: Step, v: Version)
    requires Inv(w) && Enabled(w, s) && !s.PowerCut? && !s.Rollback? && v in Do(w, s).durable
    requires v.ino in Do(w, s).doomed && v.files.blob.Some?
    ensures v in w.durable && Matters(w, v)
  {
    hide Ids, Spare, Held, Listed, Do, Enabled, EditOf, Deletes;
    if EditOf(w, s).Some? {
      EditIsChange(w, s);
      EditedIsNotDoomed(w, s);
    } else {
      DurableShrinks(w, s);
      OtherStepsAddNothing(w, s);
      assert Matters(Do(w, s), v);
    }
  }
}
