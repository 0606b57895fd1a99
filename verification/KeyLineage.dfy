/**
  Which keys open which ciphertext.

  Keystore hands out an upgraded key as a replacement for an old one: it opens whatever the old one
  sealed.  Every key is traced back to the key generated for its directory, and every blob a
  directory may show, whatever was upgraded, committed, cut off or rolled back, traces back to that
  one key.
*/
module KeyLineage {
  import opened Wrappers
  import opened KeyUpgrade

  /** `origin` traces a key back through its upgrades; `root` is the key generated for a directory. */
  datatype Lineage = Lineage(origin: map<Key, Key>, root: map<Ino, Key>)

  predicate TracesTo(l: Lineage, i: Ino, k: Option<Key>) {
    k.Some? && k.value in l.origin && i in l.root && l.origin[k.value] == l.root[i]
  }

  /** A directory gets one generated key in its life. */
  predicate MayGenerate(w: World, l: Lineage, s: Step) {
    s.StoreBlob? && s.path in w.names ==> w.names[s.path] !in l.root
  }

  function Next(w: World, l: Lineage, s: Step): Lineage
    requires Enabled(w, s)
  {
    match s
    case StoreBlob(p) => Lineage(l.origin[w.nextKey := w.nextKey], l.root[w.names[p] := w.nextKey])
    case GetUpgraded =>
      var blob := FilesOf(w, w.holder.dir).blob.value;
      if blob in l.origin then l.(origin := l.origin[w.nextKey := l.origin[blob]]) else l
    case _ => l
  }

  /** The directories still to be committed, as the lock holder sees them. */
  function Queue(w: World): seq<Path> {
    match w.holder
    case Written(dir) => w.pending + [dir]
    case Decided(dir, _) => w.pending + [dir]
    case Renamed(_, _, rest) => if rest.Some? then rest.value else w.pending
    case Synced(_, rest) => if rest.Some? then rest.value else w.pending
    case Sweeping(dirs) => dirs
    case _ => w.pending
  }

  predicate ToCommit(w: World, i: Ino) {
    exists n :: 0 <= n < |Queue(w)| && Queue(w)[n] in w.names && w.names[Queue(w)[n]] == i
  }

  ghost predicate BlobsTrace(w: World, l: Lineage) {
    forall v :: Matters(w, v) && v.files.blob.Some? ==> TracesTo(l, v.ino, v.files.blob)
  }

  ghost predicate UpgradesTrace(w: World, l: Lineage) {
    forall i :: ToCommit(w, i) && i in w.live ==> TracesTo(l, i, w.live[i].upgraded)
  }

  ghost predicate Traced(w: World, l: Lineage) {
    && BlobsTrace(w, l) && UpgradesTrace(w, l)
    && (w.holder.Upgrading? ==> w.holder.dir in w.names && TracesTo(l, w.names[w.holder.dir], Some(w.holder.key)))
    && (forall k :: k in l.origin ==> k < w.nextKey)
    && (forall i :: i in l.root || i in w.doomed ==> i < w.nextIno)
  }

  /** Nothing that was traced is traced differently later. */
  lemma NextKeepsTraces(w: World, l: Lineage, s: Step)
    requires Inv(w) && Traced(w, l) && Enabled(w, s) && MayGenerate(w, l, s)
    ensures forall i, k :: TracesTo(l, i, k) ==> TracesTo(Next(w, l, s), i, k)
  {
    hide Inv, Do, BlobsTrace, UpgradesTrace, IsPending, Injective, LiveVersions;
  }

  // ----- Where a blob or an upgraded key comes from -----

  /** The directory a commit works on. */
  function Target(w: World): Path
    requires Enabled(w, RenameBlob)
  {
    if w.holder.Decided? then w.holder.dir else w.holder.dirs[0]
  }

  datatype Edit = Edit(dir: Path, files: Files)

  /** The directory a step changes and what it then holds. */
  function EditOf(w: World, s: Step): Option<Edit>
    requires Enabled(w, s)
  {
    match s
    case StoreBlob(p) => Some(Edit(p, Files(Some(w.nextKey), None)))
    case UnlinkLeftover => Some(Edit(w.holder.dir, FilesOf(w, w.holder.dir).(upgraded := None)))
    case WriteBegun => Some(Edit(w.holder.dir, FilesOf(w, w.holder.dir).(upgraded := Some(w.nextKey))))
    case WriteDone => Some(Edit(w.holder.dir, FilesOf(w, w.holder.dir).(upgraded := Some(w.holder.key))))
    case WriteFailed => Some(Edit(w.holder.dir, FilesOf(w, w.holder.dir).(upgraded := None)))
    case RenameBlob => Some(Edit(Target(w), Files(FilesOf(w, Target(w)).upgraded, None)))
    case _ => None
  }

  lemma EditIsChange(w: World, s: Step)
    requires Enabled(w, s) && EditOf(w, s).Some?
    ensures var e := EditOf(w, s).value; var w' := Do(w, s);
      && Known(w, e.dir) && w'.names == w.names && w'.live == w.live[w.names[e.dir] := e.files]
      && w'.durable == w.durable + {Version(w.names[e.dir], e.files)} && w'.saved == w.saved
      && w'.savedNames == w.savedNames
      && w'.pending == w.pending && w'.deleted == w.deleted && w'.doomed == w.doomed
  {
    hide IsPending, LiveVersions, Injective, WithRenamed, WithoutDir;
  }

  /** Steps that create directories, or make versions durable, saved or lost. */
  predicate Sorts(s: Step) {
    s.Create? || s.SyncDir? || s.SyncKeys? || s.CommitCheckpoint? || s.BeginCheckpoint? || s.PowerCut? || s.Rollback?
  }

  lemma OtherStepsLeaveVersions(w: World, s: Step)
    requires Enabled(w, s) && EditOf(w, s).None? && !Sorts(s)
    ensures var w' := Do(w, s);
      && w'.live == w.live && w'.durable == w.durable && w'.saved == w.saved && w'.savedNames == w.savedNames
      && (!s.RenameDir? && !s.RemoveDir? ==> w'.names == w.names)
  {
    if s.RenameDir? || s.Destroy? || s.DestroyKey? || s.RemoveDir? {
      hide Do, Enabled, EditOf;
      if s.RenameDir? { RenameEffect(w, s); }
      else if s.Destroy? { DestroyEffect(w, s); }
      else if s.DestroyKey? { DestroyKeyEffect(w, s); }
      else { RemoveEffect(w, s); }
    } else {
      LockStepsLeaveVersions(w, s);
    }
  }

  lemma LockStepsLeaveVersions(w: World, s: Step)
    requires Enabled(w, s) && EditOf(w, s).None? && !Sorts(s) && !s.RenameDir? && !s.Destroy? && !s.DestroyKey?
    requires !s.RemoveDir?
    ensures var w' := Do(w, s);
      && w'.live == w.live && w'.durable == w.durable && w'.saved == w.saved && w'.savedNames == w.savedNames
      && w'.names == w.names
  {
    hide IsPending, LiveVersions, Injective, WithRenamed, WithoutDir, FilesOf, CommitTarget, SameFile;
    match s
    case Acquire(_) =>
    case DeleteLeftover =>
    case GetUpgraded =>
    case Release =>
    case WriteAbandoned =>
    case Decide =>
    case Schedule =>
    case SkipCommit =>
    case SyncFailed =>
    case DeleteOld =>
    case KeepOld =>
    case SweepBegin =>
    case SweepEnd =>
  }

  lemma SortingAddsNothing(w: World, s: Step)
    requires Shape(w) && Enabled(w, s) && Sorts(s)
    ensures forall v :: Matters(Do(w, s), v) ==>
        Matters(w, v) || (s.Create? && v == Version(w.nextIno, Files(None, None)))
    ensures !s.PowerCut? && !s.Rollback? ==> forall i :: i in w.live ==>
        i in Do(w, s).live && Do(w, s).live[i] == w.live[i]
  {
    hide Injective, LiveVersions, Matters;
    match s
    case SyncDir => SyncAddsNothing(w, w.holder.dir, Do(w, s));
    case SyncKeys(p) => SyncAddsNothing(w, p, Do(w, s));
    case PowerCut(_, _, _) => hide Shape; LossAddsNothing(w, s);
    case Rollback => hide Shape; LossAddsNothing(w, s);
    case BeginCheckpoint => BeginningAddsNothing(w, s);
    case Create(_) => CreatingAddsNothing(w, s);
    case CommitCheckpoint => CommittingAddsNothing(w, s);
  }

  lemma SyncAddsNothing(w: World, dir: Path, w': World)
    requires Shape(w) && Known(w, dir) && w'.durable == WithSynced(w, dir).durable && w'.saved == w.saved
    ensures forall v :: Matters(w', v) ==> Matters(w, v)
  {
    LiveMatters(w, w.names[dir]);
  }

  lemma CreatingAddsNothing(w: World, s: Step)
    requires Enabled(w, s) && s.Create?
    ensures forall v :: Matters(Do(w, s), v) ==> Matters(w, v) || v == Version(w.nextIno, Files(None, None))
  {
  }

  lemma CommittingAddsNothing(w: World, s: Step)
    requires Enabled(w, s) && s.CommitCheckpoint?
    ensures forall v :: Matters(Do(w, s), v) ==> Matters(w, v)
  {
  }

  lemma LossAddsNothing(w: World, s: Step)
    requires Enabled(w, s) && (s.PowerCut? || s.Rollback?)
    ensures forall v :: Matters(Do(w, s), v) ==> Matters(w, v)
  {
  }

  lemma BeginningAddsNothing(w: World, s: Step)
    requires Shape(w) && Enabled(w, s) && s.BeginCheckpoint?
    ensures forall v :: Matters(Do(w, s), v) ==> Matters(w, v)
  {
    forall v | Matters(Do(w, s), v) ensures Matters(w, v) { LiveMatters(w, v.ino); }
  }

  /** A step that edits no directory adds no version but that of a new, empty one. */
  lemma OtherStepsAddNothing(w: World, s: Step)
    requires Shape(w) && Enabled(w, s) && EditOf(w, s).None?
    ensures forall v :: Matters(Do(w, s), v) ==>
        Matters(w, v) || (s.Create? && v == Version(w.nextIno, Files(None, None)))
    ensures !s.PowerCut? && !s.Rollback? ==> forall i :: i in w.live ==>
        i in Do(w, s).live && Do(w, s).live[i] == w.live[i]
  {
    hide Shape, Do, Enabled, EditOf;
    if Sorts(s) { SortingAddsNothing(w, s); } else { OtherStepsLeaveVersions(w, s); }
  }

  /** Outside a rollback no version is added to those a power cut can leave, except by an edit. */
  lemma DurableShrinks(w: World, s: Step)
    requires Shape(w) && Enabled(w, s) && EditOf(w, s).None? && !s.Rollback? && !s.PowerCut?
    ensures forall v :: v in Do(w, s).durable ==> v in w.durable || (s.Create? && v.ino == w.nextIno)
  {
    if Sorts(s) {
      match s
      case SyncDir => LiveMatters(w, w.names[w.holder.dir]);
      case SyncKeys(p) => LiveMatters(w, w.names[p]);
      case _ =>
    } else {
      OtherStepsLeaveVersions(w, s);
      hide Do, Enabled;
    }
  }

  lemma VersionsOfEdit(w: World, w': World, added: Version)
    requires w'.durable == w.durable + {added} && w'.saved == w.saved
    ensures forall v :: Matters(w', v) <==> Matters(w, v) || v == added
  {
  }

  /** Where the blob of version `v` of the next state comes from. */
  ghost predicate BlobSource(w: World, s: Step, v: Version)
    requires Enabled(w, s)
  {
    || (exists u :: Matters(w, u) && u.ino == v.ino && u.files.blob == v.files.blob)
    || (s.StoreBlob? && v.ino == w.names[s.path] && v.files.blob == Some(w.nextKey))
    || (s.RenameBlob? && v.ino == w.names[Target(w)] && v.files.blob == FilesOf(w, Target(w)).upgraded)
  }

  lemma BlobSources(w: World, s: Step)
    requires Shape(w) && Enabled(w, s)
    ensures forall v :: Matters(Do(w, s), v) && v.files.blob.Some? ==> BlobSource(w, s, v)
  {
    hide Do, Shape, Matters, IsPending;
    if EditOf(w, s).None? {
      OtherStepsAddNothing(w, s);
      hide Enabled, EditOf;
    } else {
      EditIsChange(w, s);
      var e := EditOf(w, s).value;
      LiveMatters(w, w.names[e.dir]);
      VersionsOfEdit(w, Do(w, s), Version(w.names[e.dir], e.files));
    }
  }

  /** Where a commit in the next state comes from. */
  ghost predicate CommitSource(w: World, s: Step, i: Ino)
    requires Enabled(w, s)
  {
    var w' := Do(w, s);
    i in w'.live ==>
      || (ToCommit(w, i) && i in w.live && w'.live[i].upgraded == w.live[i].upgraded)
      || (&& s.WriteDone? && w.holder.dir in w.names && i == w.names[w.holder.dir]
          && w'.live[i].upgraded == Some(w.holder.key))
  }

  lemma NotQueued(w: World, dir: Path, queue: seq<Path>)
    requires Injective(w.names) && dir in w.names && dir !in queue
    ensures forall n :: 0 <= n < |queue| && queue[n] in w.names ==> w.names[queue[n]] != w.names[dir]
  {
  }

  /** A directory that is being edited is not waiting to be committed. */
  lemma EditedIsNotQueued(w: World, s: Step)
    requires Inv(w) && Enabled(w, s) && EditOf(w, s).Some? && !s.RenameBlob?
    ensures var e := EditOf(w, s).value; Known(w, e.dir) && !ToCommit(w, w.names[e.dir])
  {
    hide Shape, Ids, Safe, Spare, Listed, Unnamed, Injective;
    NamesAreInjective(w);
    var dir := EditOf(w, s).value.dir;
    if s.StoreBlob? {
      if dir in Queue(w) { QueueIsReady(w, dir); }
      hide Held;
    } else if s.UnlinkLeftover? {
      NotListed(w, dir);
    }
    assert s.StoreBlob? || Queue(w) == w.pending;
    NotQueued(w, dir, Queue(w));
  }

  lemma QueueIsReady(w: World, dir: Path)
    requires Held(w) && dir in Queue(w)
    ensures Ready(w, dir)
  {
    hide Unnamed, WasBlob;
  }

  lemma {:induction false} WithoutDirIsPart(w: World, pending: seq<Path>, dir: Path)
    ensures forall p :: p in WithoutDir(w, pending, dir) ==> p in pending
    decreases |pending|
  {
    if pending != [] { WithoutDirIsPart(w, pending[1..], dir); }
  }

  lemma HolderShrinksQueue(w: World, s: Step)
    requires Enabled(w, s) && !Bystander(s) && !Pops(s) && !s.WriteDone? && !s.RenameDir? && !s.Destroy? && !s.PowerCut?
    requires !s.Rollback?
    ensures Queue(Do(w, s)) == Queue(w) || Queue(Do(w, s)) == []
  {
    hide IsPending, Injective, LiveVersions, WithRenamed, WithoutDir;
  }

  /** Steps that take the first directory off a sweep, or give up on a commit. */
  predicate Pops(s: Step) {
    s.RenameBlob? || s.SkipCommit?
  }

  lemma PoppingShrinksQueue(w: World, s: Step)
    requires Enabled(w, s) && Pops(s)
    ensures forall p :: p in Queue(Do(w, s)) ==> p in Queue(w)
  {
    hide IsPending, Injective, LiveVersions;
  }

  /** The queue only grows when an upgraded key has been written. */
  lemma QueueShrinks(w: World, s: Step)
    requires Enabled(w, s) && !s.WriteDone? && !s.RenameDir? && !s.PowerCut? && !s.Rollback?
    ensures forall p :: p in Queue(Do(w, s)) ==> p in Queue(w)
  {
    if Bystander(s) {
      StepFrame(w, s);
      hide Do;
    } else if s.Destroy? {
      WithoutDirIsPart(w, w.pending, s.path);
    } else {
      hide Do, Queue;
      if Pops(s) { PoppingShrinksQueue(w, s); } else { HolderShrinksQueue(w, s); }
    }
  }

  lemma QueueIsKnown(w: World)
    requires Inv(w)
    ensures forall p :: p in Queue(w) ==> p in w.names && w.names[p] in w.live
  {
    hide Shape, Ids, Safe, Spare, Listed, Unnamed, WasBlob;
    forall p | p in Queue(w) ensures p in w.names && w.names[p] in w.live {
      assert Ready(w, p);
    }
  }

  lemma QueueAfterCut(w: World, s: Step)
    requires Enabled(w, s) && (s.PowerCut? || s.Rollback?)
    ensures Queue(Do(w, s)) == []
  {
    hide Injective, LiveVersions;
  }

  lemma CommitsAreOld(w: World, s: Step, i: Ino)
    requires Inv(w) && Enabled(w, s) && !s.WriteDone? && ToCommit(Do(w, s), i)
    ensures ToCommit(w, i) && !s.PowerCut? && !s.Rollback?
  {
    hide Inv, Do, Enabled, Queue;
    var w' := Do(w, s);
    var n :| 0 <= n < |Queue(w')| && Queue(w')[n] in w'.names && w'.names[Queue(w')[n]] == i;
    if s.PowerCut? || s.Rollback? {
      QueueAfterCut(w, s);
    } else if s.RenameDir? {
      RenamedQueue(w, s, n);
    } else {
      QueueShrinks(w, s);
      QueueIsKnown(w);
      StepFrame(w, s);
      var p := Queue(w')[n];
      assert p in Queue(w);
      var m :| 0 <= m < |Queue(w)| && Queue(w)[m] == p;
    }
  }

  lemma RenamedQueue(w: World, s: Step, n: nat)
    requires Inv(w) && Enabled(w, s) && s.RenameDir? && n < |Queue(Do(w, s))|
    ensures n < |Queue(w)| && Queue(w)[n] in w.names
    ensures var p := Queue(Do(w, s))[n]; p in Do(w, s).names && Do(w, s).names[p] == w.names[Queue(w)[n]]
  {
    hide Ids, Safe, Spare, Listed, Injective;
    NamesAreInjective(w);
    forall i | 0 <= i < |w.pending|
      ensures w.pending[i] in w.names && w.pending[i] != s.name
    {
      assert Ready(w, w.pending[i]);
    }
    RenamedList(w, w.pending, s.path, s.name);
  }

  lemma CommitSources(w: World, s: Step, i: Ino)
    requires Inv(w) && Enabled(w, s) && ToCommit(Do(w, s), i)
    ensures CommitSource(w, s, i)
  {
    hide Shape, Ids, Safe, Spare, Held, Listed, ToCommit, Do, Enabled, EditOf;
    if s.WriteDone? {
      WrittenCommits(w, s, i);
    } else {
      CommitsAreOld(w, s, i);
      ToCommitIsLive(w, i);
      if EditOf(w, s).None? {
        OtherStepsAddNothing(w, s);
      } else {
        EditIsChange(w, s);
        if s.RenameBlob? { RenamedIsDone(w, s); } else { EditedIsNotQueued(w, s); }
      }
    }
  }

  lemma ToCommitIsLive(w: World, i: Ino)
    requires Inv(w) && ToCommit(w, i)
    ensures i in w.live
  {
    hide Inv, Queue;
    QueueIsKnown(w);
  }

  lemma WrittenCommits(w: World, s: Step, i: Ino)
    requires Inv(w) && Enabled(w, s) && s.WriteDone? && ToCommit(Do(w, s), i)
    ensures CommitSource(w, s, i)
  {
    EditedIsNotQueued(w, s);
    hide Inv;
    var w' := Do(w, s);
    var n :| 0 <= n < |Queue(w')| && Queue(w')[n] in w'.names && w'.names[Queue(w')[n]] == i;
    if n < |w.pending| { assert Queue(w)[n] == Queue(w')[n]; }
  }

  /** Once renamed a directory is no longer waiting. */
  lemma RenamedIsDone(w: World, s: Step)
    requires Inv(w) && Enabled(w, s) && s.RenameBlob?
    ensures var e := EditOf(w, s).value; Known(w, e.dir) && !ToCommit(Do(w, s), w.names[e.dir])
  {
    hide Ids, Safe, Spare, Listed, Unnamed, Injective;
    NamesAreInjective(w);
    var dir, w' := Target(w), Do(w, s);
    if w.holder.Sweeping? {
      assert forall n :: 1 <= n < |w.holder.dirs| ==> w.holder.dirs[n] != w.holder.dirs[0];
    }
    assert dir !in Queue(w');
    NotQueued(w', dir, Queue(w'));
  }

  /** Every blob, and every upgraded key waiting to become one, traces back to its directory's key. */
  lemma StepTraces(w: World, l: Lineage, s: Step)
    requires Inv(w) && Traced(w, l) && Enabled(w, s) && MayGenerate(w, l, s)
    ensures Traced(Do(w, s), Next(w, l, s))
  {
    hide Inv, Do, Enabled, ToCommit, Next;
    var w', l' := Do(w, s), Next(w, l, s);
    NextKeepsTraces(w, l, s);
    assert BlobsTrace(w', l') by { StepTracesBlobs(w, l, s); }
    assert UpgradesTrace(w', l') by { StepTracesUpgrades(w, l, s); }
    StepTracesHolder(w, l, s);
  }

  lemma StepTracesUpgrades(w: World, l: Lineage, s: Step)
    requires Inv(w) && Traced(w, l) && Enabled(w, s) && MayGenerate(w, l, s)
    ensures UpgradesTrace(Do(w, s), Next(w, l, s))
  {
    hide Inv, Do, Enabled, ToCommit, Next, TracesTo;
    NextKeepsTraces(w, l, s);
    forall i | ToCommit(Do(w, s), i) && i in Do(w, s).live
      ensures TracesTo(Next(w, l, s), i, Do(w, s).live[i].upgraded)
    {
      CommitSources(w, s, i);
      if s.WriteDone? { HolderUpgrades(w, s); }
    }
  }

  lemma HolderUpgrades(w: World, s: Step)
    requires Enabled(w, s) && s.WriteDone?
    ensures w.holder.Upgrading?
  {
  }

  lemma StepTracesBlobs(w: World, l: Lineage, s: Step)
    requires Inv(w) && Traced(w, l) && Enabled(w, s) && MayGenerate(w, l, s)
    ensures BlobsTrace(Do(w, s), Next(w, l, s))
  {
    hide Shape, Ids, Safe, Spare, Held, Listed, Do, Enabled, ToCommit, TracesTo, Next;
    NextKeepsTraces(w, l, s);
    BlobSources(w, s);
    forall v | Matters(Do(w, s), v) && v.files.blob.Some?
      ensures TracesTo(Next(w, l, s), v.ino, v.files.blob)
    {
      if s.RenameBlob? { TargetTraces(w, l, s); } else if s.StoreBlob? { GeneratedTraces(w, l, s); }
    }
  }

  lemma GeneratedTraces(w: World, l: Lineage, s: Step)
    requires Enabled(w, s) && s.StoreBlob?
    ensures TracesTo(Next(w, l, s), w.names[s.path], Some(w.nextKey))
  {
  }

  lemma TargetTraces(w: World, l: Lineage, s: Step)
    requires Inv(w) && Traced(w, l) && Enabled(w, s) && s.RenameBlob?
    ensures TracesTo(l, w.names[Target(w)], FilesOf(w, Target(w)).upgraded)
  {
    hide Inv, BlobsTrace, TracesTo;
    var q := Queue(w);
    var n: nat := if w.holder.Decided? then |w.pending| else 0;
    assert q[n] == Target(w);
    assert ToCommit(w, w.names[Target(w)]);
  }

  lemma StepTracesHolder(w: World, l: Lineage, s: Step)
    requires Inv(w) && Traced(w, l) && Enabled(w, s) && MayGenerate(w, l, s)
    ensures var w' := Do(w, s); var l' := Next(w, l, s);
      && (w'.holder.Upgrading? ==>
          w'.holder.dir in w'.names && TracesTo(l', w'.names[w'.holder.dir], Some(w'.holder.key)))
      && (forall k :: k in l'.origin ==> k < w'.nextKey)
      && (forall i :: i in l'.root || i in w'.doomed ==> i < w'.nextIno)
  {
    hide Ids, Safe, Spare, Listed, Shape, ToCommit, UpgradesTrace, BlobsTrace, Do, Enabled, Next, TracesTo, Held;
    NextKeepsTraces(w, l, s);
    NumbersGrow(w, l, s);
    if s.GetUpgraded? {
      UpgradeTraces(w, l, s);
    } else if Do(w, s).holder.Upgrading? {
      StepFrame(w, s);
      WorkingStays(w, s);
    }
  }

  lemma NumbersGrow(w: World, l: Lineage, s: Step)
    requires Shape(w) && Enabled(w, s)
    requires (forall k :: k in l.origin ==> k < w.nextKey)
    requires (forall i :: i in l.root || i in w.doomed ==> i < w.nextIno)
    ensures forall k :: k in Next(w, l, s).origin ==> k < Do(w, s).nextKey
    ensures forall i :: i in Next(w, l, s).root || i in Do(w, s).doomed ==> i < Do(w, s).nextIno
  {
    hide Do, Enabled, Next, Shape;
    StepFrame(w, s);
    NamedIsOld(w, s);
    NextAdds(w, l, s);
  }

  lemma NamedIsOld(w: World, s: Step)
    requires Shape(w) && Enabled(w, s)
    ensures s.StoreBlob? || s.Destroy? ==> s.path in w.names && w.names[s.path] < w.nextIno
  {
    if s.StoreBlob? || s.Destroy? {
      assert s.path in w.names;
      hide Enabled;
      assert w.names[s.path] in w.names.Values && w.names[s.path] in w.live;
    }
  }

  lemma NextAdds(w: World, l: Lineage, s: Step)
    requires Enabled(w, s)
    ensures forall k :: k in Next(w, l, s).origin ==>
        k in l.origin || (k == w.nextKey && (s.StoreBlob? || s.GetUpgraded?))
    ensures forall i :: i in Next(w, l, s).root ==>
        i in l.root || (s.StoreBlob? && s.path in w.names && i == w.names[s.path])
  {
    hide Do, IsPending, Injective;
  }

  /** The directory of a running upgrade keeps its name. */
  lemma WorkingStays(w: World, s: Step)
    requires Inv(w) && Enabled(w, s) && w.holder.Upgrading? && Do(w, s).holder == w.holder
    ensures w.holder.dir in w.names && w.holder.dir in Do(w, s).names
    ensures Do(w, s).names[w.holder.dir] == w.names[w.holder.dir]
  {
    hide Shape, Ids, Safe, Spare, Listed, Unnamed, AllReady, IsPending, Injective, WithRenamed, WithoutDir,
         LiveVersions;
    match s
    case Create(_) =>
    case RemoveDir(_) =>
    case _ => hide Inv;
  }

  lemma UpgradeTraces(w: World, l: Lineage, s: Step)
    requires Inv(w) && Traced(w, l) && Enabled(w, s) && s.GetUpgraded?
    ensures Do(w, s).holder.dir in Do(w, s).names
    ensures TracesTo(Next(w, l, s), Do(w, s).names[Do(w, s).holder.dir], Some(Do(w, s).holder.key))
  {
    hide Ids, Safe, Spare, Held, Listed, UpgradesTrace, IsPending;
    LiveMatters(w, w.names[w.holder.dir]);
  }
}
