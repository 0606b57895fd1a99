/**
  Upgrading Keystore keys.

  A key directory names a Keystore key in its blob file.  An upgrade writes the new key beside it and
  later renames it over the blob; only when the rename is durable is the old key deleted, and
  deletions cannot be taken back.  While a checkpoint is active the rename is put off, because the
  directory may still be rolled back.

  The protocol is a state machine: each step is one file operation, one Keystore call or one change
  of shared state, and the lock holder's place in its critical section is part of the state.  A
  power cut is a step.
*/
module KeyUpgrade {
  import opened Wrappers

  type Path = string
  type Ino = nat
  type Key = nat

  /** The two blob files of a key directory. */
  datatype Files = Files(blob: Option<Key>, upgraded: Option<Key>)

  /** A directory with contents it has, may have after a power cut, or had when the checkpoint began. */
  datatype Version = Version(ino: Ino, files: Files)

  /** Where the holder of the upgrade lock is; `rest` is what a commit sweep still has to do. */
  datatype Holder =
    | Free
    | Opening(dir: Path)
    | Upgrading(dir: Path, key: Key)
    | Written(dir: Path)
    | Decided(dir: Path, defer: bool)
    | Renamed(dir: Path, was: Key, rest: Option<seq<Path>>)
    | Synced(was: Key, rest: Option<seq<Path>>)
    | Sweeping(dirs: seq<Path>)

  datatype World = World(
    names: map<Path, Ino>,
    live: map<Ino, Files>,
    durable: set<Version>,        // every version a power cut can leave, the live ones included
    saved: map<Ino, Files>,       // what a checkpoint rollback restores; empty without a checkpoint
    savedNames: map<Path, Ino>,
    deleted: set<Key>,        // deleted from Keystore for good
    doomed: set<Ino>,         // directories whose destruction has begun
    nextKey: Key, nextIno: Ino,
    pending: seq<Path>,       // upgraded, waiting for the checkpoint to be committed
    checkpointing: bool,
    sweepDue: bool,           // committed, but the worker has not finished its sweep
    holder: Holder)

  predicate SameFile(w: World, a: Path, b: Path) {
    a in w.names && b in w.names && w.names[a] == w.names[b]
  }

  predicate IsPending(w: World, dir: Path) {
    exists i :: 0 <= i < |w.pending| && SameFile(w, dir, w.pending[i])
  }

  predicate Known(w: World, dir: Path) {
    dir in w.names && w.names[dir] in w.live
  }

  function FilesOf(w: World, dir: Path): Files
    requires Known(w, dir)
  {
    w.live[w.names[dir]]
  }

  /** Changes a directory; until it is synced the earlier versions may still come back. */
  function WithFiles(w: World, dir: Path, f: Files): World
    requires Known(w, dir)
  {
    w.(live := w.live[w.names[dir] := f], durable := w.durable + {Version(w.names[dir], f)})
  }

  /** Makes the live version of a directory the only one. */
  function WithSynced(w: World, dir: Path): World
    requires Known(w, dir)
  {
    w.(durable := (set v | v in w.durable && v.ino != w.names[dir]) + {Version(w.names[dir], w.live[w.names[dir]])})
  }

  function LiveVersions(live: map<Ino, Files>): set<Version> {
    set i | i in live :: Version(i, live[i])
  }

  /** The holder after it is done with one directory of a commit. */
  function NextHolder(rest: Option<seq<Path>>): Holder {
    match rest case None => Free case Some(dirs) => Sweeping(dirs)
  }

  /** The list without its first entry for the directory. */
  function WithoutDir(w: World, pending: seq<Path>, dir: Path): seq<Path> {
    if pending == [] then []
    else if SameFile(w, pending[0], dir) then pending[1..]
    else [pending[0]] + WithoutDir(w, pending[1..], dir)
  }

  /** The list with its first entry for the directory replaced by the new name. */
  function WithRenamed(w: World, pending: seq<Path>, from: Path, to: Path): (r: seq<Path>)
    ensures |r| == |pending|
  {
    if pending == [] then []
    else if SameFile(w, from, pending[0]) then [to] + pending[1..]
    else [pending[0]] + WithRenamed(w, pending[1..], from, to)
  }

  datatype Step =
    // a new key directory
    | Create(path: Path) | StoreBlob(path: Path) | SyncKeys(path: Path)
    // an operation with a key, under the lock; a step left out is an operation that failed
    | Acquire(path: Path) | DeleteLeftover | UnlinkLeftover | GetUpgraded | Release
    | WriteBegun | WriteDone | WriteFailed | WriteAbandoned | Decide | Schedule
    // committing one upgraded key
    | RenameBlob | SkipCommit | SyncDir | SyncFailed | DeleteOld | KeepOld
    // the checkpoint
    | CommitCheckpoint | SweepBegin | SweepEnd | BeginCheckpoint
    // other operations on directories
    | RenameDir(path: Path, name: Path) | Destroy(path: Path) | DestroyKey(path: Path, key: Key) | RemoveDir(path: Path)
    // losing power, with or without rolling back, and possibly a new checkpoint at the next boot
    | PowerCut(survivors: map<Ino, Files>, tree: map<Path, Ino>, resume: bool) | Rollback

  predicate CommitTarget(w: World, dir: Path) {
    Known(w, dir) && FilesOf(w, dir).blob.Some? && FilesOf(w, dir).upgraded.Some?
  }

  predicate Enabled(w: World, s: Step) {
    match s
    case Create(p) => p !in w.names
    case StoreBlob(p) => Known(w, p) && w.names[p] !in w.doomed && FilesOf(w, p) == Files(None, None)
    case SyncKeys(p) => Known(w, p)
    case Acquire(p) => w.holder == Free && Known(w, p) && w.names[p] !in w.doomed
    case DeleteLeftover =>
      && w.holder.Opening? && !IsPending(w, w.holder.dir) && Known(w, w.holder.dir)
      && FilesOf(w, w.holder.dir).upgraded.Some?
    case UnlinkLeftover =>
      && w.holder.Opening? && !IsPending(w, w.holder.dir) && Known(w, w.holder.dir)
      && FilesOf(w, w.holder.dir).upgraded.Some?
    case GetUpgraded =>
      w.holder.Opening? && !IsPending(w, w.holder.dir) && Known(w, w.holder.dir) && FilesOf(w, w.holder.dir).blob.Some?
    case Release => w.holder.Opening?
    case WriteBegun => w.holder.Upgrading? && Known(w, w.holder.dir)
    case WriteDone => w.holder.Upgrading? && Known(w, w.holder.dir)
    case WriteFailed => w.holder.Upgrading? && Known(w, w.holder.dir)
    case WriteAbandoned => w.holder.Upgrading?
    case Decide => w.holder.Written?
    case Schedule => w.holder.Decided? && w.holder.defer
    case RenameBlob =>
      || (w.holder.Decided? && !w.holder.defer && CommitTarget(w, w.holder.dir))
      || (w.holder.Sweeping? && w.holder.dirs != [] && CommitTarget(w, w.holder.dirs[0]))
    case SkipCommit => (w.holder.Decided? && !w.holder.defer) || (w.holder.Sweeping? && w.holder.dirs != [])
    case SyncDir => w.holder.Renamed? && Known(w, w.holder.dir)
    case SyncFailed => w.holder.Renamed?
    case DeleteOld => w.holder.Synced?
    case KeepOld => w.holder.Synced?
    case CommitCheckpoint => w.checkpointing
    case SweepBegin => w.holder == Free && w.sweepDue
    case SweepEnd => w.holder == Sweeping([])
    case BeginCheckpoint => !w.checkpointing && w.holder == Free && !w.sweepDue
    case RenameDir(p, name) => w.holder == Free && p in w.names && name !in w.names
    case Destroy(p) => w.holder == Free && p in w.names
    case DestroyKey(p, k) =>
      && Known(w, p) && w.names[p] in w.doomed
      && (FilesOf(w, p).blob == Some(k) || FilesOf(w, p).upgraded == Some(k))
    case RemoveDir(p) => p in w.names && w.names[p] in w.doomed
    case PowerCut(survivors, tree, resume) =>
      && survivors.Keys == w.live.Keys && LiveVersions(survivors) <= w.durable
      && Injective(tree) && tree.Values <= survivors.Keys
      && (resume ==> w.checkpointing)
    case Rollback => w.checkpointing
  }

  function Do(w: World, s: Step): World
    requires Enabled(w, s)
  {
    match s
    case Create(p) =>
      w.(names := w.names[p := w.nextIno], live := w.live[w.nextIno := Files(None, None)],
         durable := w.durable + {Version(w.nextIno, Files(None, None))}, nextIno := w.nextIno + 1)
    case StoreBlob(p) => WithFiles(w, p, Files(Some(w.nextKey), None)).(nextKey := w.nextKey + 1)
    case SyncKeys(p) => WithSynced(w, p)
    case Acquire(p) => w.(holder := Opening(p))
    case DeleteLeftover => w.(deleted := w.deleted + {FilesOf(w, w.holder.dir).upgraded.value})
    case UnlinkLeftover => WithFiles(w, w.holder.dir, FilesOf(w, w.holder.dir).(upgraded := None))
    case GetUpgraded => w.(holder := Upgrading(w.holder.dir, w.nextKey), nextKey := w.nextKey + 1)
    case Release => w.(holder := Free)
    case WriteBegun =>  // a half-written file names no key that will ever be used
      WithFiles(w, w.holder.dir, FilesOf(w, w.holder.dir).(upgraded := Some(w.nextKey))).(nextKey := w.nextKey + 1)
    case WriteDone => WithFiles(w, w.holder.dir, FilesOf(w,
        w.holder.dir).(upgraded := Some(w.holder.key))).(holder := Written(w.holder.dir))
    case WriteFailed => WithFiles(w, w.holder.dir, FilesOf(w, w.holder.dir).(upgraded := None)).(holder := Free)
    case WriteAbandoned => w.(holder := Free)
    case Decide => w.(holder := Decided(w.holder.dir, w.checkpointing))
    case Schedule => w.(pending := w.pending + [w.holder.dir], holder := Free)
    case RenameBlob =>
      var dir := if w.holder.Decided? then w.holder.dir else w.holder.dirs[0];
      var rest := if w.holder.Decided? then None else Some(w.holder.dirs[1..]);
      var f := FilesOf(w, dir);
      WithFiles(w, dir, Files(f.upgraded, None)).(holder := Renamed(dir, f.blob.value, rest))
    case SkipCommit => w.(holder := if w.holder.Decided? then Free else Sweeping(w.holder.dirs[1..]))
    case SyncDir => WithSynced(w, w.holder.dir).(holder := Synced(w.holder.was, w.holder.rest))
    case SyncFailed => w.(holder := NextHolder(w.holder.rest))
    case DeleteOld => w.(deleted := w.deleted + {w.holder.was}, holder := NextHolder(w.holder.rest))
    case KeepOld => w.(holder := NextHolder(w.holder.rest))
    case CommitCheckpoint => w.(checkpointing := false, saved := map[], savedNames := map[], sweepDue := true)
    case SweepBegin => w.(holder := Sweeping(w.pending))
    case SweepEnd => w.(pending := [], sweepDue := false, holder := Free)
    case BeginCheckpoint =>
      w.(checkpointing := true, durable := LiveVersions(w.live), saved := w.live, savedNames := w.names)
    case RenameDir(p, name) =>
      w.(names := (w.names - {p})[name := w.names[p]], pending := WithRenamed(w, w.pending, p, name))
    case Destroy(p) => w.(pending := WithoutDir(w, w.pending, p), doomed := w.doomed + {w.names[p]})
    case DestroyKey(p, k) => w.(deleted := w.deleted + {k})
    case RemoveDir(p) => w.(names := w.names - {p})
    case PowerCut(survivors, tree, resume) =>
      w.(live := survivors, names := tree, durable := LiveVersions(survivors), pending := [], sweepDue := false,
          holder := Free,
         checkpointing := resume, saved := if resume then w.saved
             else map[], savedNames := if resume then w.savedNames else map[])
    case Rollback =>
      w.(live := w.saved, names := w.savedNames, durable := LiveVersions(w.saved), pending := [], sweepDue := false,
          holder := Free,
         checkpointing := false, saved := map[], savedNames := map[])
  }

  predicate Injective(names: map<Path, Ino>) {
    forall p, q :: p in names && q in names && names[p] == names[q] ==> p == q
  }

  // ----- What every step keeps -----

  /** Every version that matters: what is live, what a power cut can leave, what a rollback restores. */
  ghost predicate Matters(w: World, v: Version) {
    v in w.durable || (v.ino in w.saved && w.saved[v.ino] == v.files)
  }

  predicate Names(f: Files, k: Key) {
    f.blob == Some(k) || f.upgraded == Some(k)
  }

  ghost predicate Shape(w: World) {
    && Injective(w.names) && Injective(w.savedNames)
    && w.names.Values <= w.live.Keys && w.savedNames.Values <= w.saved.Keys <= w.live.Keys
    && LiveVersions(w.live) <= w.durable
    && (forall v :: v in w.durable ==> v.ino in w.live)
    && (forall i :: i in w.live ==> i < w.nextIno)
    && (!w.checkpointing ==> w.saved == map[])
    && (w.sweepDue ==> !w.checkpointing)
  }

  /** Keys are issued in order, and no two directories ever name the same one. */
  ghost predicate Ids(w: World) {
    && (forall v: Version, k: Key :: Matters(w, v) && Names(v.files, k) ==> k < w.nextKey)
    && (forall k :: k in w.deleted ==> k < w.nextKey)
    && (forall u: Version, v: Version, k: Key ::
          Matters(w, u) && Matters(w, v) && Names(u.files, k) && Names(v.files, k) ==> u.ino == v.ino)
  }

  /** No directory that is not being destroyed names a deleted key, now or after any loss of power or rollback. */
  ghost predicate Safe(w: World) {
    forall v :: Matters(w, v) && v.ino !in w.doomed && v.files.blob.Some? ==> v.files.blob.value !in w.deleted
  }

  /** A leftover upgraded key is nobody's blob, so it may be deleted at any time. */
  ghost predicate Spare(w: World) {
    && (forall v :: Matters(w, v) && v.files.upgraded.Some? ==> v.files.blob != v.files.upgraded)
    && (forall i, v :: i in w.live && Matters(w, v) && v.ino == i && w.live[i].upgraded.Some?
          ==> v.files.blob != w.live[i].upgraded)
    && (forall u, i :: u in w.durable && i in w.saved && u.ino == i && u.files.upgraded.Some?
          ==> w.saved[i].blob != u.files.upgraded)
  }

  /** A directory whose upgraded key is ready to be committed. */
  ghost predicate Ready(w: World, dir: Path) {
    && Known(w, dir) && w.names[dir] !in w.doomed
    && FilesOf(w, dir).upgraded.Some? && FilesOf(w, dir).upgraded.value !in w.deleted
  }

  /** Directories in the list are ready and listed once. */
  ghost predicate AllReady(w: World, dirs: seq<Path>) {
    && (forall i :: 0 <= i < |dirs| ==> Ready(w, dirs[i]))
    && (forall i, j :: 0 <= i < j < |dirs| ==> dirs[i] != dirs[j])
  }

  /** No version of any directory names the key. */
  ghost predicate Unnamed(w: World, k: Key) {
    forall v :: Matters(w, v) ==> !Names(v.files, k)
  }

  /** The directory an operation is working on: it stays, it is not listed. */
  ghost predicate Working(w: World, dir: Path) {
    Known(w, dir) && w.names[dir] !in w.doomed && dir !in w.pending
  }

  /** The key was this directory's blob: nothing else names it, and the live directory no longer does. */
  ghost predicate WasBlob(w: World, dir: Path, k: Key)
    requires Known(w, dir)
  {
    && k < w.nextKey && !Names(FilesOf(w, dir), k)
    && forall v :: Matters(w, v) && Names(v.files, k) ==> v.ino == w.names[dir]
  }

  ghost predicate Held(w: World) {
    match w.holder
    case Free => AllReady(w, w.pending)
    case Opening(dir) => AllReady(w, w.pending) && Known(w, dir) && w.names[dir] !in w.doomed
    case Upgrading(dir, key) =>
      AllReady(w, w.pending) && Working(w, dir) && key < w.nextKey && key !in w.deleted && Unnamed(w, key)
    case Written(dir) => AllReady(w, w.pending) && Working(w, dir) && Ready(w, dir)
    case Decided(dir, defer) =>
      && AllReady(w, w.pending) && Working(w, dir) && Ready(w, dir)
      && (if defer then w.checkpointing || w.sweepDue else !w.checkpointing)
    case Renamed(dir, was, rest) =>
      && !w.checkpointing && Known(w, dir) && w.names[dir] !in w.doomed && WasBlob(w, dir, was)
      && Remaining(w, rest) && (rest.Some? ==> dir !in rest.value) && (rest.None? ==> dir !in w.pending)
    case Synced(was, rest) => !w.checkpointing && Unnamed(w, was) && was < w.nextKey && Remaining(w, rest)
    case Sweeping(dirs) => !w.checkpointing && w.sweepDue && AllReady(w, dirs)
  }

  ghost predicate Remaining(w: World, rest: Option<seq<Path>>) {
    match rest
    case None => AllReady(w, w.pending)
    case Some(dirs) => w.sweepDue && AllReady(w, dirs)
  }

  /** The list is empty except during a checkpoint and until the sweep that follows its commit. */
  ghost predicate Listed(w: World) {
    w.pending != [] ==> w.checkpointing || w.sweepDue
  }

  ghost predicate Inv(w: World) {
    Shape(w) && Ids(w) && Safe(w) && Spare(w) && Held(w) && Listed(w)
  }

  // ----- Changing the files of one directory -----

  lemma LiveMatters(w: World, i: Ino)
    requires Shape(w) && i in w.live
    ensures Matters(w, Version(i, w.live[i])) && Version(i, w.live[i]) in w.durable
  {
    assert Version(i, w.live[i]) in LiveVersions(w.live);
  }

  /** A key that version `v` of this directory names already, or that nothing names yet. */
  ghost predicate MayName(w: World, i: Ino, k: Key) {
    Unnamed(w, k) || exists v :: Matters(w, v) && v.ino == i && Names(v.files, k)
  }

  /** `w'` is `w` with the files of `dir` changed to `f`, perhaps with a new key issued. */
  ghost predicate Changed(w: World, dir: Path, f: Files, w': World)
    requires Known(w, dir)
  {
    w.nextKey <= w'.nextKey && w' == WithFiles(w, dir, f).(nextKey := w'.nextKey, holder := w'.holder)
  }

  lemma ChangedMatters(w: World, dir: Path, f: Files, w': World)
    requires Known(w, dir) && Changed(w, dir, f, w')
    ensures forall v :: Matters(w', v) <==> Matters(w, v) || v == Version(w.names[dir], f)
  {
  }

  lemma ChangeKeepsShape(w: World, dir: Path, f: Files, w': World)
    requires Shape(w) && Known(w, dir) && Changed(w, dir, f, w')
    ensures Shape(w')
  {
    forall v | v in LiveVersions(w'.live) ensures v in w'.durable {
      if v.ino != w.names[dir] { LiveMatters(w, v.ino); }
    }
  }

  lemma ChangeKeepsSafe(w: World, dir: Path, f: Files, w': World)
    requires Safe(w) && Known(w, dir) && Changed(w, dir, f, w')
    requires f.blob.Some? ==> f.blob.value !in w.deleted
    ensures Safe(w')
  {
    hide Matters;
    ChangedMatters(w, dir, f, w');
  }

  lemma ChangeKeepsSpare(w: World, dir: Path, f: Files, w': World)
    requires Spare(w) && Known(w, dir) && Changed(w, dir, f, w')
    requires f.upgraded.Some? ==> f.blob != f.upgraded
    requires f.upgraded.Some? ==> forall v :: Matters(w, v) && v.ino == w.names[dir] ==> v.files.blob != f.upgraded
    requires f.blob.Some? && f.blob != FilesOf(w, dir).blob ==> f.upgraded.None?
    ensures Spare(w')
  {
    var i := w.names[dir];
    ChangedMatters(w, dir, f, w');
    forall j, v | j in w'.live && Matters(w', v) && v.ino == j && w'.live[j].upgraded.Some?
      ensures v.files.blob != w'.live[j].upgraded
    {
      if j != i { assert Matters(w, v); }
    }
    forall u, j | u in w'.durable && j in w'.saved && u.ino == j && u.files.upgraded.Some?
      ensures w'.saved[j].blob != u.files.upgraded
    {
      if u == Version(i, f) { assert Matters(w, Version(j, w.saved[j])); }
    }
  }

  lemma ChangeKeepsFacts(w: World, dir: Path, f: Files, w': World)
    requires Shape(w) && Ids(w) && Safe(w) && Spare(w) && Known(w, dir) && Changed(w, dir, f, w')
    requires forall k: Key :: Names(f, k) ==> k < w'.nextKey && MayName(w, w.names[dir], k)
    requires f.blob.Some? ==> f.blob.value !in w.deleted
    requires f.upgraded.Some? ==> f.blob != f.upgraded
    requires f.upgraded.Some? ==> forall v :: Matters(w, v) && v.ino == w.names[dir] ==> v.files.blob != f.upgraded
    requires f.blob.Some? && f.blob != FilesOf(w, dir).blob ==> f.upgraded.None?
    ensures Shape(w') && Ids(w') && Safe(w') && Spare(w')
  {
    hide Shape, Ids, Safe, Spare, Matters, Names, Changed;
    ChangeKeepsShape(w, dir, f, w');
    ChangeKeepsIds(w, dir, f, w');
    ChangeKeepsSafe(w, dir, f, w');
    ChangeKeepsSpare(w, dir, f, w');
  }

  lemma ChangeKeepsIds(w: World, dir: Path, f: Files, w': World)
    requires Ids(w) && Known(w, dir) && Changed(w, dir, f, w')
    requires forall k: Key :: Names(f, k) ==> k < w'.nextKey && MayName(w, w.names[dir], k)
    ensures Ids(w')
  {
    hide Names, Matters;
    ChangedMatters(w, dir, f, w');
    forall v: Version, k: Key | Matters(w, v) && Names(v.files, k) && Names(f, k) ensures v.ino == w.names[dir] {
      assert MayName(w, w.names[dir], k);
    }
  }

  /** Other directories stay ready. */
  lemma ReadyElsewhere(w: World, w': World, dir: Path, dirs: seq<Path>)
    requires AllReady(w, dirs) && Injective(w.names) && dir in w.names && dir !in dirs
    requires w'.names == w.names && w'.doomed == w.doomed && w'.deleted == w.deleted
    requires forall i :: i in w.live && i != w.names[dir] ==> i in w'.live && w'.live[i] == w.live[i]
    ensures AllReady(w', dirs)
  {
    forall i | 0 <= i < |dirs| ensures Ready(w', dirs[i]) {
      assert Ready(w, dirs[i]) && dirs[i] != dir;
    }
  }

  lemma NotListed(w: World, dir: Path)
    requires dir in w.names && !IsPending(w, dir)
    ensures dir !in w.pending
  {
    forall i | 0 <= i < |w.pending| ensures w.pending[i] != dir {
      assert !SameFile(w, dir, w.pending[i]);
    }
  }

  /** `w'` is `w` with a new, empty directory. */
  ghost predicate Created(w: World, p: Path, w': World) {
    && p !in w.names
    && w' == w.(names := w.names[p := w.nextIno], live := w.live[w.nextIno := Files(None, None)],
                durable := w.durable + {Version(w.nextIno, Files(None, None))}, nextIno := w.nextIno + 1)
  }

  lemma CreatedMatters(w: World, p: Path, w': World)
    requires Created(w, p, w')
    ensures forall v :: Matters(w', v) <==> Matters(w, v) || v == Version(w.nextIno, Files(None, None))
    ensures forall k: Key :: !Names(Files(None, None), k)
  {
  }

  lemma CreateKeepsShape(w: World, p: Path, w': World)
    requires Created(w, p, w') && Shape(w)
    ensures Shape(w')
  {
    forall v | v in LiveVersions(w'.live) ensures v in w'.durable {
      if v.ino != w.nextIno { LiveMatters(w, v.ino); }
    }
  }

  lemma CreateKeepsIds(w: World, p: Path, w': World)
    requires Created(w, p, w') && Ids(w) && Safe(w)
    ensures Ids(w') && Safe(w')
  {
    hide Matters, Names;
    CreatedMatters(w, p, w');
  }

  lemma CreateKeepsSpare(w: World, p: Path, w': World)
    requires Created(w, p, w') && Shape(w) && Spare(w)
    ensures Spare(w')
  {
    CreatedMatters(w, p, w');
    forall j, v | j in w'.live && Matters(w', v) && v.ino == j && w'.live[j].upgraded.Some?
      ensures v.files.blob != w'.live[j].upgraded
    {
      assert j != w.nextIno && Matters(w, v);
    }
    forall u, i | u in w'.durable && i in w'.saved && u.ino == i && u.files.upgraded.Some?
      ensures w'.saved[i].blob != u.files.upgraded
    {
      assert i != w.nextIno && u in w.durable && i in w.saved;
    }
    hide Shape;
  }

  lemma CreateKeepsReady(w: World, p: Path, w': World, dirs: seq<Path>)
    requires Created(w, p, w') && Shape(w) && AllReady(w, dirs)
    ensures AllReady(w', dirs)
  {
    forall i | 0 <= i < |dirs| ensures Ready(w', dirs[i]) { assert Ready(w, dirs[i]); }
  }

  lemma CreateKeepsHeld(w: World, p: Path, w': World)
    requires Created(w, p, w') && Shape(w) && Held(w)
    ensures Held(w')
  {
    CreatedMatters(w, p, w');
    match w.holder
    case Synced(_, rest) =>
      CreateKeepsReady(w, p, w', if rest.Some? then rest.value else w.pending);
      hide AllReady;
    case Renamed(dir, was, rest) =>
      CreateKeepsReady(w, p, w', if rest.Some? then rest.value else w.pending);
      assert WasBlob(w', dir, was);
      hide AllReady;
    case Sweeping(dirs) =>
      CreateKeepsReady(w, p, w', dirs);
    case _ =>
      CreateKeepsReady(w, p, w', w.pending);
      hide AllReady;
  }

  lemma CreateKeeps(w: World, s: Step)
    requires s.Create? && Enabled(w, s) && Inv(w)
    ensures Inv(Do(w, s))
  {
    var w' := Do(w, s);
    assert Created(w, s.path, w');
    hide Do, Enabled, Shape, Ids, Safe, Spare, Held, Created;
    CreateKeepsShape(w, s.path, w');
    CreateKeepsIds(w, s.path, w');
    CreateKeepsSpare(w, s.path, w');
    CreateKeepsHeld(w, s.path, w');
    assert Listed(w') by { CreatedFrame(w, s.path, w'); }
  }

  lemma CreatedFrame(w: World, p: Path, w': World)
    requires Created(w, p, w')
    ensures w'.pending == w.pending && w'.checkpointing == w.checkpointing && w'.sweepDue == w.sweepDue
  {
  }

  lemma StoreBlobEffect(w: World, s: Step)
    requires s.StoreBlob? && Enabled(w, s)
    ensures Known(w, s.path) && w.names[s.path] !in w.doomed && FilesOf(w, s.path) == Files(None, None)
    ensures Do(w, s) == WithFiles(w, s.path, Files(Some(w.nextKey), None)).(nextKey := w.nextKey + 1)
  {
  }

  lemma StoreBlobKeeps(w: World, s: Step)
    requires s.StoreBlob? && Enabled(w, s) && Inv(w)
    ensures Inv(Do(w, s))
  {
    hide Do, Enabled, Names, Shape, Ids, Safe, Spare, Matters, Unnamed, Injective;
    StoreBlobEffect(w, s);
    var w', dir, f := Do(w, s), s.path, Files(Some(w.nextKey), None);
    FreshIsUnnamed(w);
    NamesOf(f);
    ChangeKeepsFacts(w, dir, f, w');
    NamesAreInjective(w);
    StoringKeepsReady(w, w', dir);
    StoringKeepsUnnamed(w, w', dir);
    hide AllReady, Ready;
  }

  /** A directory without an upgraded key is in nobody's way. */
  lemma StoringKeepsReady(w: World, w': World, dir: Path)
    requires Injective(w.names) && Known(w, dir) && FilesOf(w, dir) == Files(None, None)
    requires w'.names == w.names && w'.doomed == w.doomed && w'.deleted == w.deleted && w.names[dir] in w'.live
    requires w'.live == w.live[w.names[dir] := w'.live[w.names[dir]]]
    ensures forall d :: Ready(w, d) ==> Ready(w', d)
    ensures forall dirs :: AllReady(w, dirs) ==> AllReady(w', dirs)
  {
  }

  lemma StoringKeepsUnnamed(w: World, w': World, dir: Path)
    requires Ids(w) && Known(w, dir) && Changed(w, dir, Files(Some(w.nextKey), None), w')
    ensures forall k: Key :: k < w.nextKey && Unnamed(w, k) ==> Unnamed(w', k)
    ensures forall d, k: Key :: Known(w, d) && WasBlob(w, d, k) ==> Known(w', d) && WasBlob(w', d, k)
  {
    ChangedMatters(w, dir, Files(Some(w.nextKey), None), w');
    hide Matters;
  }

  lemma FreshIsUnnamed(w: World)
    requires Ids(w)
    ensures Unnamed(w, w.nextKey) && w.nextKey !in w.deleted
  {
  }

  lemma NamesOf(f: Files)
    ensures forall k: Key :: Names(f, k) <==> f.blob == Some(k) || f.upgraded == Some(k)
  {
  }

  lemma DeleteLeftoverKeeps(w: World, s: Step)
    requires s.DeleteLeftover? && Enabled(w, s) && Inv(w)
    ensures Inv(Do(w, s))
  {
    var w', dir := Do(w, s), w.holder.dir;
    var i, k := w.names[dir], FilesOf(w, dir).upgraded.value;
    LiveMatters(w, i);
    assert Names(w.live[i], k);
    NotListed(w, dir);
    assert forall v :: Matters(w', v) <==> Matters(w, v);
    forall v | Matters(w, v) && v.files.blob == Some(k) ensures false {
      assert Names(v.files, k);
    }
    DeletingSpares(w, w', dir, k, w.pending);
  }

  /** Deleting a key that this directory names leaves the others ready. */
  lemma DeletingSpares(w: World, w': World, dir: Path, k: Key, dirs: seq<Path>)
    requires Shape(w) && Ids(w) && AllReady(w, dirs) && dir in w.names && dir !in dirs
    requires exists v :: Matters(w, v) && v.ino == w.names[dir] && Names(v.files, k)
    requires w'.names == w.names && w'.doomed == w.doomed && w'.live == w.live && w'.deleted == w.deleted + {k}
    ensures AllReady(w', dirs)
  {
    forall i | 0 <= i < |dirs| ensures Ready(w', dirs[i]) {
      assert Ready(w, dirs[i]) && dirs[i] != dir;
      OthersDoNotName(w, w.names[dir], w.names[dirs[i]], k);
    }
  }

  lemma OthersDoNotName(w: World, i: Ino, j: Ino, k: Key)
    requires Shape(w) && Ids(w) && j in w.live && i != j
    requires exists v :: Matters(w, v) && v.ino == i && Names(v.files, k)
    ensures !Names(w.live[j], k)
  {
    LiveMatters(w, j);
    var v :| Matters(w, v) && v.ino == i && Names(v.files, k);
    assert Matters(w, Version(j, w.live[j]));
  }

  lemma UnlinkLeftoverKeeps(w: World, s: Step)
    requires s.UnlinkLeftover? && Enabled(w, s) && Inv(w)
    ensures Inv(Do(w, s))
  {
    hide Names;
    var w', dir := Do(w, s), w.holder.dir;
    SmallerFiles(w, dir, Files(FilesOf(w, dir).blob, None));
    ChangeKeepsFacts(w, dir, Files(FilesOf(w, dir).blob, None), w');
    NotListed(w, dir);
    ReadyElsewhere(w, w', dir, w.pending);
  }

  /** A directory may go on naming what it names. */
  lemma SmallerFiles(w: World, dir: Path, f: Files)
    requires Shape(w) && Ids(w) && Safe(w) && Known(w, dir) && w.names[dir] !in w.doomed
    requires f.blob == None || f.blob == FilesOf(w, dir).blob || f.blob == FilesOf(w, dir).upgraded
    requires f.upgraded == None || f.upgraded == FilesOf(w, dir).upgraded
    ensures forall k: Key :: Names(f, k) ==> k < w.nextKey && MayName(w, w.names[dir], k)
    ensures f.blob.Some? && f.blob == FilesOf(w, dir).blob ==> f.blob.value !in w.deleted
  {
    var i := w.names[dir];
    LiveMatters(w, i);
    forall k: Key | Names(f, k) ensures k < w.nextKey && MayName(w, i, k) {
      assert Names(Version(i, w.live[i]).files, k);
    }
  }

  lemma GetUpgradedKeeps(w: World, s: Step)
    requires s.GetUpgraded? && Enabled(w, s) && Inv(w)
    ensures Inv(Do(w, s))
  {
    var w', dir := Do(w, s), w.holder.dir;
    FreshIsUnnamed(w);
    NotListed(w, dir);
    assert forall v :: Matters(w', v) <==> Matters(w, v);
  }

  /** Putting a fresh key beside the blob. */
  lemma WritingKeeps(w: World, dir: Path, k: Key, w': World)
    requires Shape(w) && Ids(w) && Safe(w) && Spare(w) && Known(w, dir) && w.names[dir] !in w.doomed
    requires Unnamed(w, k) && k < w'.nextKey && Changed(w, dir, FilesOf(w, dir).(upgraded := Some(k)), w')
    ensures Shape(w') && Ids(w') && Safe(w') && Spare(w')
    ensures forall j: Key :: j != k && Unnamed(w, j) ==> Unnamed(w', j)
  {
    var f := FilesOf(w, dir).(upgraded := Some(k));
    var i := w.names[dir];
    LiveMatters(w, i);
    forall j: Key | Names(f, j) ensures j < w'.nextKey && MayName(w, i, j) {
      if j != k { assert Names(Version(i, w.live[i]).files, j); }
    }
    forall v | Matters(w, v) && v.ino == i ensures v.files.blob != f.upgraded {
      assert !Names(v.files, k);
    }
    ChangeKeepsFacts(w, dir, f, w');
    ChangedMatters(w, dir, f, w');
    forall j: Key | j != k && Unnamed(w, j) ensures Unnamed(w', j) {
      assert !Names(w.live[i], j);
    }
  }

  lemma NamesAreInjective(w: World)
    requires Shape(w)
    ensures Injective(w.names)
  {
  }

  lemma WriteBegunKeeps(w: World, s: Step)
    requires s.WriteBegun? && Enabled(w, s) && Inv(w)
    ensures Inv(Do(w, s))
  {
    hide Names, Matters, Shape, Ids, Safe, Spare, Unnamed;
    var w', dir := Do(w, s), w.holder.dir;
    NamesAreInjective(w);
    FreshIsUnnamed(w);
    WritingKeeps(w, dir, w.nextKey, w');
    ReadyElsewhere(w, w', dir, w.pending);
  }

  lemma WriteDoneKeeps(w: World, s: Step)
    requires s.WriteDone? && Enabled(w, s) && Inv(w)
    ensures Inv(Do(w, s))
  {
    hide Names, Matters, Shape, Ids, Safe, Spare, Unnamed;
    var w', dir := Do(w, s), w.holder.dir;
    NamesAreInjective(w);
    WritingKeeps(w, dir, w.holder.key, w');
    ReadyElsewhere(w, w', dir, w.pending);
  }

  lemma WriteFailedKeeps(w: World, s: Step)
    requires s.WriteFailed? && Enabled(w, s) && Inv(w)
    ensures Inv(Do(w, s))
  {
    hide Names;
    var w', dir := Do(w, s), w.holder.dir;
    SmallerFiles(w, dir, Files(FilesOf(w, dir).blob, None));
    ChangeKeepsFacts(w, dir, Files(FilesOf(w, dir).blob, None), w');
    ReadyElsewhere(w, w', dir, w.pending);
  }

  lemma RenameBlobKeeps(w: World, s: Step)
    requires s.RenameBlob? && Enabled(w, s) && Inv(w)
    ensures Inv(Do(w, s))
  {
    hide Names, Matters, Shape, Ids, Safe, Spare, Unnamed, WasBlob;
    NamesAreInjective(w);
    var w' := Do(w, s);
    var dir := if w.holder.Decided? then w.holder.dir else w.holder.dirs[0];
    var f := FilesOf(w, dir);
    assert Ready(w, dir);
    RenamedFacts(w, dir, w');
    if w.holder.Decided? {
      ReadyElsewhere(w, w', dir, w.pending);
    } else {
      var rest := w.holder.dirs[1..];
      forall i | 0 <= i < |rest| ensures rest[i] != dir && Ready(w, rest[i]) {
        assert rest[i] == w.holder.dirs[i + 1];
      }
      ReadyElsewhere(w, w', dir, rest);
    }
  }

  lemma RenamedFacts(w: World, dir: Path, w': World)
    requires Shape(w) && Ids(w) && Safe(w) && Spare(w) && Ready(w, dir) && FilesOf(w, dir).blob.Some?
    requires Changed(w, dir, Files(FilesOf(w, dir).upgraded, None), w')
    ensures Shape(w') && Ids(w') && Safe(w') && Spare(w')
    ensures Known(w', dir) && WasBlob(w', dir, FilesOf(w, dir).blob.value)
  {
    var f := FilesOf(w, dir);
    var v := Version(w.names[dir], f);
    LiveMatters(w, w.names[dir]);
    assert Names(v.files, f.blob.value);
    assert f.blob != f.upgraded;
    assert WasBlob(w', dir, f.blob.value) by {
      ChangedMatters(w, dir, Files(f.upgraded, None), w');
    }
    hide Shape, Ids, Spare, Names, Matters;
    SmallerFiles(w, dir, Files(f.upgraded, None));
    ChangeKeepsFacts(w, dir, Files(f.upgraded, None), w');
  }

  lemma SyncKeepsFacts(w: World, dir: Path, w': World)
    requires Shape(w) && Ids(w) && Safe(w) && Spare(w) && Known(w, dir)
    requires w' == WithSynced(w, dir).(holder := w'.holder)
    ensures Shape(w') && Ids(w') && Safe(w') && Spare(w')
    ensures w'.durable <= w.durable
  {
    LiveMatters(w, w.names[dir]);
    assert Shape(w') by {
      forall v | v in LiveVersions(w'.live) ensures v in w'.durable {
        LiveMatters(w, v.ino);
      }
    }
    assert w'.durable <= w.durable;
    assert forall v :: Matters(w', v) ==> Matters(w, v);
    hide Shape, Names;
  }

  lemma SyncEffect(w: World, s: Step)
    requires s.SyncDir? && Enabled(w, s)
    ensures w.holder.Renamed? && Known(w, w.holder.dir)
    ensures Do(w, s) == WithSynced(w, w.holder.dir).(holder := Synced(w.holder.was, w.holder.rest))
  {
    hide WithSynced;
  }

  lemma SyncDirKeeps(w: World, s: Step)
    requires s.SyncDir? && Enabled(w, s) && Inv(w)
    ensures Inv(Do(w, s))
  {
    hide Do, Enabled, Shape, Ids, Safe, Spare, Unnamed, AllReady, WasBlob;
    SyncEffect(w, s);
    var w', dir, was := Do(w, s), w.holder.dir, w.holder.was;
    SyncKeepsFacts(w, dir, w');
    OldIsUnnamed(w, dir, was, w');
    SameLists(w, w');
  }

  lemma SyncKeysKeeps(w: World, s: Step)
    requires s.SyncKeys? && Enabled(w, s) && Inv(w)
    ensures Inv(Do(w, s))
  {
    hide Shape, Ids, Safe, Spare, Matters, Names, AllReady, Injective;
    var w' := Do(w, s);
    assert w' == WithSynced(w, s.path) && w'.holder == w.holder && w'.pending == w.pending;
    hide Do, Enabled;
    SyncKeepsFacts(w, s.path, w');
    SameLists(w, w');
    FewerMatter(w, w');
  }

  lemma FewerMatter(w: World, w': World)
    requires w'.durable <= w.durable && w'.saved == w.saved
    ensures forall v :: Matters(w', v) ==> Matters(w, v)
    ensures forall k :: Unnamed(w, k) ==> Unnamed(w', k)
  {
  }

  /** Once the rename is durable nothing names the old key any more. */
  lemma OldIsUnnamed(w: World, dir: Path, was: Key, w': World)
    requires Shape(w) && Ids(w) && Spare(w) && !w.checkpointing && Known(w, dir) && WasBlob(w, dir, was)
    requires w' == WithSynced(w, dir).(holder := w'.holder)
    ensures Unnamed(w', was) && was < w.nextKey
  {
    var i := w.names[dir];
    LiveMatters(w, i);
    forall v | Matters(w', v) ensures !Names(v.files, was) {
      if v == Version(i, w.live[i]) {
      } else {
        assert Matters(w, v) && v.ino != i;
      }
    }
  }

  lemma AllReadyAlike(w: World, w': World, dirs: seq<Path>)
    requires AllReady(w, dirs)
    requires w'.names == w.names && w'.doomed == w.doomed && w'.live == w.live && w'.deleted == w.deleted
    ensures AllReady(w', dirs)
  {
    forall i | 0 <= i < |dirs| ensures Ready(w', dirs[i]) { assert Ready(w, dirs[i]); }
  }

  lemma DeleteOldKeeps(w: World, s: Step)
    requires s.DeleteOld? && Enabled(w, s) && Inv(w)
    ensures Inv(Do(w, s))
  {
    var w', was := Do(w, s), w.holder.was;
    assert forall v :: Matters(w', v) <==> Matters(w, v);
    assert Safe(w') by {
      forall v | Matters(w', v) ensures v.files.blob != Some(was) { assert !Names(v.files, was); }
    }
    forall d | Ready(w, d) ensures Ready(w', d) {
      LiveMatters(w, w.names[d]);
      assert !Names(Version(w.names[d], FilesOf(w, d)).files, was);
    }
  }

  // ----- Steps that leave the directories alone -----

  /** Only the lock holder and the list differ. */
  lemma SameDirectories(w: World, w': World)
    requires w' == w.(holder := w'.holder, pending := w'.pending)
    requires Shape(w) && Ids(w) && Safe(w) && Spare(w)
    ensures Shape(w') && Ids(w') && Safe(w') && Spare(w')
    ensures forall k :: Unnamed(w, k) ==> Unnamed(w', k)
  {
    assert forall v :: Matters(w', v) <==> Matters(w, v);
    hide Names;
  }

  lemma SameLists(w: World, w': World)
    requires w'.names == w.names && w'.doomed == w.doomed && w'.live == w.live && w'.deleted == w.deleted
    ensures forall dirs: seq<Path> :: AllReady(w, dirs) ==> AllReady(w', dirs) && (dirs != [] ==>
        AllReady(w', dirs[1..]))
  {
    forall dirs: seq<Path> | AllReady(w, dirs)
      ensures AllReady(w', dirs) && (dirs != [] ==> AllReady(w', dirs[1..]))
    {
      AllReadyAlike(w, w', dirs);
      if dirs != [] { forall i | 0 <= i < |dirs[1..]| ensures Ready(w', dirs[1..][i]) { assert Ready(w',
          dirs[i + 1]); } }
    }
  }

  lemma QuietKeeps(w: World, s: Step)
    requires s.Acquire? || s.Release? || s.WriteAbandoned? || s.Decide? || s.SkipCommit? || s.SyncFailed? || s.KeepOld?
    requires Enabled(w, s) && Inv(w)
    ensures Inv(Do(w, s))
  {
    hide Shape, Ids, Safe, Spare, Unnamed, AllReady, Injective;
    var w' := Do(w, s);
    SameDirectories(w, w');
    SameLists(w, w');
  }

  lemma ScheduleKeeps(w: World, s: Step)
    requires s.Schedule? && Enabled(w, s) && Inv(w)
    ensures Inv(Do(w, s))
  {
    var w' := Do(w, s);
    SameDirectories(w, w');
    hide Shape, Ids, Safe, Spare, Unnamed;
    forall i | 0 <= i < |w'.pending| ensures Ready(w', w'.pending[i]) {
      assert Ready(w, if i < |w.pending| then w.pending[i] else w.holder.dir);
    }
  }

  lemma SweepKeeps(w: World, s: Step)
    requires s.SweepBegin? || s.SweepEnd?
    requires Enabled(w, s) && Inv(w)
    ensures Inv(Do(w, s))
  {
    var w' := Do(w, s);
    SameDirectories(w, w'.(sweepDue := w.sweepDue));
    assert forall v :: Matters(w', v) <==> Matters(w, v);
    hide Names;
  }

  lemma CommitEffect(w: World, s: Step)
    requires s.CommitCheckpoint? && Enabled(w, s)
    ensures w.checkpointing
    ensures Do(w, s) == w.(checkpointing := false, saved := map[], savedNames := map[], sweepDue := true)
  {
  }

  lemma BeginEffect(w: World, s: Step)
    requires s.BeginCheckpoint? && Enabled(w, s)
    ensures !w.checkpointing && w.holder == Free && !w.sweepDue
    ensures Do(w, s) == w.(checkpointing := true, durable := LiveVersions(w.live), saved := w.live,
        savedNames := w.names)
  {
  }

  /** Versions may stop mattering. */
  lemma FewerFacts(w: World, w': World)
    requires Ids(w) && Safe(w) && Spare(w) && w'.live == w.live && w'.deleted == w.deleted && w'.doomed == w.doomed
    requires w'.nextKey == w.nextKey
    requires forall v :: Matters(w', v) ==> Matters(w, v)
    requires w'.saved == map[] || w'.saved == w.live
    ensures Ids(w') && Safe(w')
    ensures forall k :: Unnamed(w, k) ==> Unnamed(w', k)
  {
    hide Names, Matters;
  }

  lemma CommitKeeps(w: World, s: Step)
    requires s.CommitCheckpoint? && Enabled(w, s) && Inv(w)
    ensures Inv(Do(w, s))
  {
    hide Do, Enabled, Names;
    CommitEffect(w, s);
    var w' := Do(w, s);
    assert forall v :: Matters(w', v) ==> Matters(w, v);
    FewerFacts(w, w');
    assert Shape(w') && Spare(w');
    SameLists(w, w');
    hide Shape, Ids, Safe, Spare, Matters, Unnamed, AllReady;
  }

  lemma BeginKeeps(w: World, s: Step)
    requires s.BeginCheckpoint? && Enabled(w, s) && Inv(w)
    ensures Inv(Do(w, s))
  {
    hide Do, Enabled, Names, Injective;
    BeginEffect(w, s);
    var w' := Do(w, s);
    forall v | Matters(w', v) ensures Matters(w, v) { LiveMatters(w, v.ino); }
    FewerFacts(w, w');
    assert Shape(w') && Spare(w');
    SameLists(w, w');
    hide Shape, Ids, Safe, Spare, Matters, AllReady;
  }

  lemma PowerCutEffect(w: World, s: Step)
    requires s.PowerCut? && Enabled(w, s)
    ensures var w' := Do(w, s);
      && w'.live == s.survivors && w'.names == s.tree && w'.durable == LiveVersions(s.survivors) <= w.durable
      && w'.live.Keys == w.live.Keys && Injective(w'.names) && w'.names.Values <= w'.live.Keys
      && w'.holder == Free && w'.pending == [] && !w'.sweepDue && (w'.checkpointing ==> w.checkpointing)
      && w'.deleted == w.deleted && w'.doomed == w.doomed && w'.nextKey == w.nextKey && w'.nextIno == w.nextIno
      && (if w'.checkpointing then w'.saved == w.saved && w'.savedNames == w.savedNames
          else w'.saved == map[] && w'.savedNames == map[])
  {
    hide LiveVersions, Injective;
  }

  lemma PowerCutKeeps(w: World, s: Step)
    requires s.PowerCut? && Enabled(w, s) && Inv(w)
    ensures Inv(Do(w, s))
  {
    hide Do, Enabled, Names;
    PowerCutEffect(w, s);
    var w' := Do(w, s);
    assert forall v :: Matters(w', v) ==> Matters(w, v);
    assert Shape(w');
    assert Ids(w') && Safe(w');
    assert Spare(w') by {
      forall i, v | i in w'.live && Matters(w', v) && v.ino == i && w'.live[i].upgraded.Some?
        ensures v.files.blob != w'.live[i].upgraded
      {
        assert Version(i, w'.live[i]) in LiveVersions(w'.live);
        assert Matters(w, Version(i, w'.live[i]));
      }
    }
  }

  lemma RollbackKeeps(w: World, s: Step)
    requires s.Rollback? && Enabled(w, s) && Inv(w)
    ensures Inv(Do(w, s))
  {
    hide Names;
    var w' := Do(w, s);
    forall v | Matters(w', v) ensures Matters(w, v) { }
    assert Shape(w') && Ids(w') && Safe(w') && Spare(w');
    hide Shape, Ids, Safe, Spare, Matters;
  }

  // ----- Renaming and destroying directories -----

  lemma {:induction false} RenamedList(w: World, pending: seq<Path>, from: Path, to: Path)
    requires Injective(w.names) && from in w.names && forall i :: 0 <= i < |pending| ==> pending[i] in w.names
    requires forall i, j :: 0 <= i < j < |pending| ==> pending[i] != pending[j]
    ensures forall i :: 0 <= i < |pending| ==>
      WithRenamed(w, pending, from, to)[i] == if pending[i] == from then to else pending[i]
    decreases |pending|
  {
    if pending != [] {
      var r := WithRenamed(w, pending, from, to);
      if SameFile(w, from, pending[0]) {
        assert forall i :: 1 <= i < |pending| ==> r[i] == pending[i];
      } else {
        RenamedList(w, pending[1..], from, to);
        assert forall i :: 1 <= i < |pending| ==> pending[i] == pending[1..][i - 1];
      }
    }
  }

  lemma RenamedFactsKept(w: World, w': World, p: Path, name: Path)
    requires Shape(w) && Ids(w) && Safe(w) && Spare(w) && p in w.names && name !in w.names
    requires w' == w.(names := (w.names - {p})[name := w.names[p]], pending := w'.pending)
    ensures Shape(w') && Ids(w') && Safe(w') && Spare(w')
  {
    assert forall v :: Matters(w', v) <==> Matters(w, v);
    hide Names;
  }

  lemma RenameEffect(w: World, s: Step)
    requires Enabled(w, s) && s.RenameDir?
    ensures w.holder == Free && s.path in w.names && s.name !in w.names
    ensures var w' := Do(w, s);
      && w'.names == (w.names - {s.path})[s.name := w.names[s.path]]
      && w'.pending == WithRenamed(w, w.pending, s.path, s.name)
      && w'.saved == w.saved && w'.savedNames == w.savedNames && w' == w.(names := w'.names, pending := w'.pending)
  {
    hide WithRenamed;
  }

  lemma RenameDirKeeps(w: World, s: Step)
    requires s.RenameDir? && Enabled(w, s) && Inv(w)
    ensures Inv(Do(w, s))
  {
    hide Do, Enabled, Shape, Ids, Safe, Spare, Matters, Names, WithRenamed, SameFile, Injective;
    RenameEffect(w, s);
    var w' := Do(w, s);
    RenamedFactsKept(w, w', s.path, s.name);
    NamesAreInjective(w);
    forall i | 0 <= i < |w.pending|
      ensures w.pending[i] in w.names && w.pending[i] != s.name
    {
      assert Ready(w, w.pending[i]);
    }
    RenamedList(w, w.pending, s.path, s.name);
    forall i | 0 <= i < |w'.pending| ensures Ready(w', w'.pending[i]) { assert Ready(w, w.pending[i]); }
    assert AllReady(w', w'.pending);
  }

  ghost predicate Distinct(s: seq<Path>) {
    forall i, j :: 0 <= i < j < |s| ==> s[i] != s[j]
  }

  lemma {:induction false} ListWithout(w: World, pending: seq<Path>, dir: Path)
    requires Injective(w.names) && dir in w.names && forall i :: 0 <= i < |pending| ==> pending[i] in w.names
    requires Distinct(pending)
    ensures forall p :: p in WithoutDir(w, pending, dir) <==> p in pending && p != dir
    ensures Distinct(WithoutDir(w, pending, dir))
    decreases |pending|
  {
    if pending != [] {
      var first, rest := pending[0], pending[1..];
      assert pending == [first] + rest;
      forall p | p in rest ensures p != first {
        var i :| 0 <= i < |rest| && rest[i] == p;
        assert pending[i + 1] == p;
      }
      if !SameFile(w, first, dir) {
        ListWithout(w, rest, dir);
        DistinctCons(first, WithoutDir(w, rest, dir));
      }
    }
  }

  lemma DistinctCons(p: Path, s: seq<Path>)
    requires Distinct(s) && p !in s
    ensures Distinct([p] + s)
  {
    var t := [p] + s;
    forall i, j | 0 <= i < j < |t| ensures t[i] != t[j] {
      assert t[j] == s[j - 1] && s[j - 1] in s;
    }
  }

  lemma DoomedFactsKept(w: World, w': World, i: Ino)
    requires Shape(w) && Ids(w) && Safe(w) && Spare(w)
    requires w' == w.(doomed := w.doomed + {i}, pending := w'.pending)
    ensures Shape(w') && Ids(w') && Safe(w') && Spare(w')
  {
    assert forall v :: Matters(w', v) <==> Matters(w, v);
    hide Names;
  }

  lemma DestroyEffect(w: World, s: Step)
    requires s.Destroy? && Enabled(w, s)
    ensures w.holder == Free && s.path in w.names
    ensures var w' := Do(w, s);
      && w'.pending == WithoutDir(w, w.pending, s.path) && w'.doomed == w.doomed + {w.names[s.path]}
      && w' == w.(doomed := w'.doomed, pending := w'.pending)
  {
    hide WithoutDir;
  }

  lemma DestroyKeeps(w: World, s: Step)
    requires s.Destroy? && Enabled(w, s) && Inv(w)
    ensures Inv(Do(w, s))
  {
    hide Do, Enabled, Shape, Ids, Safe, Spare, Matters, Names, WithoutDir, SameFile, Distinct;
    DestroyEffect(w, s);
    var w' := Do(w, s);
    DoomedFactsKept(w, w', w.names[s.path]);
    NamesAreInjective(w);
    OthersStayReady(w, w', s.path);
    if w'.pending != [] { assert w'.pending[0] in w.pending; }
  }

  lemma OthersStayReady(w: World, w': World, p: Path)
    requires AllReady(w, w.pending) && Injective(w.names) && p in w.names
    requires w'.names == w.names && w'.live == w.live && w'.deleted == w.deleted && w'.doomed == w.doomed + {w.names[p]}
    requires w'.pending == WithoutDir(w, w.pending, p)
    ensures AllReady(w', w'.pending) && forall q :: q in w'.pending ==> q in w.pending
  {
    hide WithoutDir;
    forall i | 0 <= i < |w.pending| ensures w.pending[i] in w.names { assert Ready(w, w.pending[i]); }
    ListWithout(w, w.pending, p);
    forall i | 0 <= i < |w'.pending| ensures Ready(w', w'.pending[i]) {
      var q := w'.pending[i];
      assert q in w'.pending && q != p;
      var j :| 0 <= j < |w.pending| && w.pending[j] == q;
      assert Ready(w, w.pending[j]) && w.names[q] != w.names[p];
    }
  }

  lemma DestroyKeyEffect(w: World, s: Step)
    requires s.DestroyKey? && Enabled(w, s)
    ensures Known(w, s.path) && w.names[s.path] in w.doomed && Names(FilesOf(w, s.path), s.key)
    ensures Do(w, s) == w.(deleted := w.deleted + {s.key})
  {
  }

  /** The keys of a directory that is being destroyed are no others'. */
  lemma DoomedKeyFacts(w: World, w': World, i: Ino, k: Key)
    requires Shape(w) && Ids(w) && Safe(w) && Spare(w) && i in w.live && i in w.doomed && Names(w.live[i], k)
    requires w' == w.(deleted := w.deleted + {k})
    ensures Shape(w') && Ids(w') && Safe(w') && Spare(w') && !Unnamed(w, k)
  {
    MattersAlike(w, w');
    LiveMatters(w, i);
    assert Names(Version(i, w.live[i]).files, k);
    forall v | Matters(w, v) && v.ino !in w.doomed ensures v.files.blob != Some(k) { assert !Names(v.files, k); }
    hide Matters;
  }

  lemma DestroyKeyKeeps(w: World, s: Step)
    requires s.DestroyKey? && Enabled(w, s) && Inv(w)
    ensures Inv(Do(w, s))
  {
    hide Do, Enabled, Shape, Ids, Safe, Spare, Names, Unnamed, Injective;
    DestroyKeyEffect(w, s);
    var w', i := Do(w, s), w.names[s.path];
    DoomedKeyFacts(w, w', i, s.key);
    MattersAlike(w, w');
    UnnamedAlike(w, w');
    hide Matters;
    forall d | Ready(w, d) ensures Ready(w', d) { DoomedIsNotReady(w, i, s.key, d); }
    assert forall dirs :: AllReady(w, dirs) ==> AllReady(w', dirs);
    hide AllReady, Ready;
  }

  lemma UnnamedAlike(w: World, w': World)
    requires w'.durable == w.durable && w'.saved == w.saved
    ensures forall k :: Unnamed(w', k) <==> Unnamed(w, k)
  {
    MattersAlike(w, w');
    hide Matters, Names;
  }

  lemma DoomedIsNotReady(w: World, i: Ino, k: Key, d: Path)
    requires Shape(w) && Ids(w) && i in w.live && i in w.doomed && Names(w.live[i], k) && Ready(w, d)
    ensures FilesOf(w, d).upgraded != Some(k)
  {
    LiveMatters(w, i);
    assert Matters(w, Version(i, w.live[i])) && Names(Version(i, w.live[i]).files, k);
    OthersDoNotName(w, i, w.names[d], k);
  }

  lemma RemovedFactsKept(w: World, w': World, p: Path)
    requires Shape(w) && Ids(w) && Safe(w) && Spare(w)
    requires w' == w.(names := w.names - {p})
    ensures Shape(w') && Ids(w') && Safe(w') && Spare(w')
    ensures forall k :: Unnamed(w, k) ==> Unnamed(w', k)
  {
    assert forall v :: Matters(w', v) <==> Matters(w, v);
    hide Names;
  }

  lemma RemoveEffect(w: World, s: Step)
    requires Enabled(w, s) && s.RemoveDir?
    ensures s.path in w.names && w.names[s.path] in w.doomed
    ensures Do(w, s) == w.(names := w.names - {s.path})
  {
  }

  lemma RemovingKeepsReady(w: World, w': World, p: Path)
    requires p in w.names && w.names[p] in w.doomed && w' == w.(names := w.names - {p})
    ensures forall d :: Ready(w, d) ==> Ready(w', d)
    ensures forall d :: Known(w, d) && w.names[d] !in w.doomed ==> Known(w', d) && w'.names[d] == w.names[d]
    ensures forall dirs :: AllReady(w, dirs) ==> AllReady(w', dirs)
  {
  }

  lemma RemoveDirKeeps(w: World, s: Step)
    requires s.RemoveDir? && Enabled(w, s) && Inv(w)
    ensures Inv(Do(w, s))
  {
    hide Do, Enabled, Shape, Ids, Safe, Spare, Names, Unnamed, Matters, Injective, AllReady;
    RemoveEffect(w, s);
    var w' := Do(w, s);
    RemovedFactsKept(w, w', s.path);
    RemovingKeepsReady(w, w', s.path);
    MattersAlike(w, w');
  }

  lemma MattersAlike(w: World, w': World)
    requires w'.durable == w.durable && w'.saved == w.saved
    ensures forall v :: Matters(w', v) <==> Matters(w, v)
  {
  }

  /** Steps that leave the lock holder and the list as they are. */
  predicate Bystander(s: Step) {
    || s.Create? || s.StoreBlob? || s.SyncKeys? || s.DeleteLeftover? || s.UnlinkLeftover? || s.WriteBegun?
    || s.CommitCheckpoint? || s.BeginCheckpoint? || s.DestroyKey? || s.RemoveDir?
  }

  /** The counters grow, names keep their meaning, and only a new checkpoint undoes a commit. */
  ghost predicate Framed(w: World, s: Step, w': World) {
    && w'.nextKey >= w.nextKey + (if s.StoreBlob? || s.GetUpgraded? then 1 else 0) && w'.nextIno >= w.nextIno
    && (!s.GetUpgraded? && w'.holder.Upgrading? ==> w'.holder == w.holder)
    && w'.doomed == (if s.Destroy? && s.path in w.names then w.doomed + {w.names[s.path]} else w.doomed)
    && (!s.BeginCheckpoint? && !w.checkpointing ==> !w'.checkpointing && (w'.sweepDue ==> w.sweepDue))
    && (!s.PowerCut? && !s.Rollback? && !s.RenameDir? ==>
          forall p :: p in w'.names && p in w.names ==> w'.names[p] == w.names[p])
  }

  lemma BystanderFrame(w: World, s: Step)
    requires Enabled(w, s) && Bystander(s)
    ensures Framed(w, s, Do(w, s))
    ensures Do(w, s).holder == w.holder && Do(w, s).pending == w.pending
  {
    hide WithRenamed, WithoutDir, LiveVersions, Injective, IsPending, SameFile;
    match s
    case Create(_) =>
    case StoreBlob(_) =>
    case SyncKeys(_) =>
    case DeleteLeftover =>
    case UnlinkLeftover =>
    case WriteBegun =>
    case CommitCheckpoint =>
    case BeginCheckpoint =>
    case DestroyKey(_, _) =>
    case RemoveDir(_) =>
  }

  lemma HolderFrame(w: World, s: Step)
    requires Enabled(w, s) && !Bystander(s)
    ensures Framed(w, s, Do(w, s))
  {
    hide WithRenamed, WithoutDir, LiveVersions, Injective, IsPending, SameFile;
    match s
    case Acquire(_) =>
    case GetUpgraded =>
    case Release =>
    case WriteDone =>
    case WriteFailed =>
    case WriteAbandoned =>
    case Decide =>
    case Schedule =>
    case RenameBlob =>
    case SkipCommit =>
    case SyncDir =>
    case SyncFailed =>
    case DeleteOld =>
    case KeepOld =>
    case SweepBegin =>
    case SweepEnd =>
    case RenameDir(_, _) =>
    case Destroy(_) =>
    case PowerCut(_, _, _) =>
    case Rollback =>
  }

  lemma StepFrame(w: World, s: Step)
    requires Enabled(w, s)
    ensures Framed(w, s, Do(w, s))
    ensures Bystander(s) ==> Do(w, s).holder == w.holder && Do(w, s).pending == w.pending
  {
    hide Do, Enabled, Framed;
    if Bystander(s) { BystanderFrame(w, s); } else { HolderFrame(w, s); }
  }

  // ----- The protocol as a whole -----

  lemma StepKeeps(w: World, s: Step)
    requires Enabled(w, s) && Inv(w)
    ensures Inv(Do(w, s))
  {
    hide Inv, Do, Enabled;
    match s
    case Create(_) => CreateKeeps(w, s);
    case StoreBlob(_) => StoreBlobKeeps(w, s);
    case DeleteLeftover => DeleteLeftoverKeeps(w, s);
    case UnlinkLeftover => UnlinkLeftoverKeeps(w, s);
    case GetUpgraded => GetUpgradedKeeps(w, s);
    case WriteBegun => WriteBegunKeeps(w, s);
    case WriteDone => WriteDoneKeeps(w, s);
    case WriteFailed => WriteFailedKeeps(w, s);
    case RenameBlob => RenameBlobKeeps(w, s);
    case SyncDir => SyncDirKeeps(w, s);
    case SyncKeys(_) => SyncKeysKeeps(w, s);
    case DeleteOld => DeleteOldKeeps(w, s);
    case CommitCheckpoint => CommitKeeps(w, s);
    case Schedule => ScheduleKeeps(w, s);
    case SweepBegin => SweepKeeps(w, s);
    case SweepEnd => SweepKeeps(w, s);
    case BeginCheckpoint => BeginKeeps(w, s);
    case RenameDir(_, _) => RenameDirKeeps(w, s);
    case Destroy(_) => DestroyKeeps(w, s);
    case DestroyKey(_, _) => DestroyKeyKeeps(w, s);
    case RemoveDir(_) => RemoveDirKeeps(w, s);
    case PowerCut(_, _, _) => PowerCutKeeps(w, s);
    case Rollback => RollbackKeeps(w, s);
    case _ => QuietKeeps(w, s);
  }

  ghost predicate Runs(w: World, steps: seq<Step>)
    decreases |steps|
  {
    steps != [] ==> Enabled(w, steps[0]) && Runs(Do(w, steps[0]), steps[1..])
  }

  ghost function After(w: World, steps: seq<Step>): World
    requires Runs(w, steps)
    decreases |steps|
  {
    if steps == [] then w else After(Do(w, steps[0]), steps[1..])
  }

  const EMPTY: World := World(map[], map[], {}, map[], map[], {}, {}, 0, 0, [], false, false, Free)

  lemma EmptyIsFine()
    ensures Inv(EMPTY)
  {
  }

  lemma {:induction false} RunKeeps(w: World, steps: seq<Step>)
    requires Inv(w) && Runs(w, steps)
    ensures Inv(After(w, steps))
    decreases |steps|
  {
    hide Inv, Do, Enabled;
    if steps != [] {
      StepKeeps(w, steps[0]);
      RunKeeps(Do(w, steps[0]), steps[1..]);
    }
  }

  /**
    Upgrade safety.  In every run, whatever was interleaved with what and wherever power was lost, no
    directory that is not being destroyed names a key deleted from Keystore: not in the live tree,
    not in any tree a power cut can leave, and not in the tree a checkpoint rollback restores.
  */
  lemma UpgradeSafety(steps: seq<Step>, i: Ino)
    requires Runs(EMPTY, steps) && i !in After(EMPTY, steps).doomed
    ensures var w := After(EMPTY, steps);
      && (i in w.live && w.live[i].blob.Some? ==> w.live[i].blob.value !in w.deleted)
      && (forall v :: v in w.durable && v.ino == i && v.files.blob.Some? ==> v.files.blob.value !in w.deleted)
      && (i in w.saved && w.saved[i].blob.Some? ==> w.saved[i].blob.value !in w.deleted)
  {
    EmptyIsFine();
    RunKeeps(EMPTY, steps);
    var w := After(EMPTY, steps);
    hide Do, Enabled, After, Runs, Ids, Spare, Held;
    if i in w.live { LiveMatters(w, i); }
    assert i in w.saved ==> Matters(w, Version(i, w.saved[i]));
  }

  /** Each pending directory is listed once and, until the sweep reaches it, has its upgraded key on disk. */
  lemma PendingAreReady(steps: seq<Step>, i: nat, j: nat)
    requires Runs(EMPTY, steps)
    ensures var w := After(EMPTY, steps);
      var dirs := if w.holder.Sweeping? then w.holder.dirs
                  else if (w.holder.Renamed? || w.holder.Synced?) && w.holder.rest.Some? then w.holder.rest.value
                  else w.pending;
      && (i < |dirs| ==> dirs[i] in w.names && w.names[dirs[i]] in w.live && w.live[w.names[dirs[i]]].upgraded.Some?)
      && (i < j < |dirs| ==> !SameFile(w, dirs[i], dirs[j]))
  {
    EmptyIsFine();
    RunKeeps(EMPTY, steps);
    var w := After(EMPTY, steps);
    hide Do, Enabled, After, Runs, Ids, Spare, Safe;
    var dirs := if w.holder.Sweeping? then w.holder.dirs
                else if (w.holder.Renamed? || w.holder.Synced?) && w.holder.rest.Some? then w.holder.rest.value
                else w.pending;
    assert AllReady(w, dirs);
    if i < |dirs| { assert Ready(w, dirs[i]); }
  }

  /** Once a sweep has ended the list stays empty until a new checkpoint begins. */
  lemma {:induction false} ListStaysEmpty(w: World, steps: seq<Step>)
    requires Inv(w) && !w.checkpointing && !w.sweepDue && Runs(w, steps)
    requires forall i :: 0 <= i < |steps| ==> !steps[i].BeginCheckpoint?
    ensures After(w, steps).pending == []
    decreases |steps|
  {
    hide Shape, Ids, Safe, Spare, Held, Do, Enabled;
    if steps != [] {
      StepKeeps(w, steps[0]);
      StepFrame(w, steps[0]);
      ListStaysEmpty(Do(w, steps[0]), steps[1..]);
    }
  }

  lemma SweepEndEmpties(w: World)
    requires Inv(w) && Enabled(w, SweepEnd)
    ensures var w' := Do(w, SweepEnd); Inv(w') && w'.pending == [] && !w'.checkpointing && !w'.sweepDue
  {
    StepKeeps(w, SweepEnd);
    hide Inv, Shape, Ids, Safe, Spare;
  }
}
