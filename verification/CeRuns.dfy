/**
  Runs in which a user's key is lost: where a new binding was not synced, where the key was unlocked
  during a checkpoint, and where the bindings could not be listed.

  The runs are made of moves, in the order in which the operations of `FsCrypt` perform them, and are
  cut off once the key is lost: the last operation in each has not yet renamed the binding it keeps.
*/
module CeRuns {
  import opened Wrappers
  import opened KeyUpgrade
  import opened KeyLineage
  import opened KeyDeletions
  import opened KeyDirectories
  import opened KeyMoves
  import opened CeKeyNames
  import opened CeBindings
  import opened CeChanges
  import opened CeProtection

  // ----- Putting runs together -----

  /** A run up to `st`, where no key operation is under way. */
  ghost predicate Run(trace: seq<Store>, st: Store) {
    trace != [] && IsTrace(trace) && trace[|trace| - 1] == st && Sound(st) && st.w.holder == Free && st.w.pending == []
  }

  /** What only a checkpoint changes. */
  ghost predicate SameCheckpoint(a: Store, b: Store) {
    && b.temps == a.temps && b.w.checkpointing == a.w.checkpointing && b.w.sweepDue == a.w.sweepDue
    && b.savedStored == a.savedStored && b.savedPlace == a.savedPlace && b.savedRest == a.savedRest
    && b.w.saved == a.w.saved
  }

  /** The blobs of the directories there were, except perhaps `j`, are as they were. */
  ghost predicate KeepsFiles(a: Store, b: Store, j: Ino) {
    forall i :: i in a.w.live && i != j ==> i in b.w.live && b.w.live[i] == a.w.live[i]
  }

  /** The directories are what and where they were. */
  ghost predicate SamePlaces(a: Store, b: Store) {
    && b.w.names == a.w.names && b.place == a.place && b.places == a.places && b.stored == a.stored
    && b.w.doomed == a.w.doomed
    && SameCheckpoint(a, b)
  }

  lemma RunGoesOn(trace: seq<Store>, st: Store, m: Move)
    requires Run(trace, st) && Can(st, m)
    ensures Sound(Moved(st, m)) && IsTrace(trace + [Moved(st, m)])
    ensures Moved(st, m).w.holder == Free && Moved(st, m).w.pending == [] ==> Run(trace + [Moved(st, m)], Moved(st, m))
  {
    hide Sound, Can, Moved;
    MoveKeeps(st, m);
    var b := Moved(st, m);
    assert Follows(st, b);
  }

  lemma NewRun(temps: set<Path>)
    ensures Run([NewStore(temps)], NewStore(temps))
  {
    hide Sound;
    NewStoreIsSound(temps);
  }

  lemma CreateMoves(st: Store, tmp: Path)
    requires tmp in st.temps && tmp !in st.w.names && st.w.holder == Free && st.w.pending == []
    ensures Can(st, Keys(Create(tmp)))
    ensures var b := Moved(st, Keys(Create(tmp)));
      b.w.holder == Free && b.w.pending == [] && SameCheckpoint(st, b) && KeepsFiles(st, b, st.w.nextIno)
  {
  }

  lemma MakeTemp(trace: seq<Store>, st: Store, tmp: Path) returns (after: seq<Store>, b: Store)
    requires Run(trace, st) && tmp in st.temps && tmp !in st.w.names
    ensures Run(after, b) && trace <= after && SameCheckpoint(st, b)
    ensures var j := st.w.nextIno;
      && KeepsFiles(st, b, j) && j !in st.w.live && j !in st.place && j !in st.stored && j !in st.w.doomed
      && Filling(b, tmp, j) && FilesOf(b.w, tmp) == Files(None, None) && j !in b.lineage.root
      && b.w.names == st.w.names[tmp := j] && b.place == st.place[j := Some(tmp)]
      && b.places == st.places[j := {None, Some(tmp)}]
      && b.stored == st.stored && b.w.doomed == st.w.doomed
  {
    hide Sound, Can, Moved, IsTrace, Follows;
    FreshFacts(st);
    CreateMoves(st, tmp);
    CreateMove(st, tmp);
    b := Moved(st, Keys(Create(tmp)));
    RunGoesOn(trace, st, Keys(Create(tmp)));
    after := trace + [b];
  }

  lemma StoreBlobMoves(st: Store, tmp: Path, j: Ino)
    requires Filling(st, tmp, j) && FilesOf(st.w, tmp) == Files(None, None) && j !in st.lineage.root
    requires st.w.pending == []
    ensures Can(st, Keys(StoreBlob(tmp)))
    ensures var b := Moved(st, Keys(StoreBlob(tmp)));
      b.w.holder == Free && b.w.pending == [] && SamePlaces(st, b) && j in b.lineage.root && KeepsFiles(st, b, j)
  {
  }

  /** Generates the Keystore key of a directory. */
  lemma GenerateKey(trace: seq<Store>, st: Store, tmp: Path, j: Ino) returns (after: seq<Store>, b: Store)
    requires Run(trace, st) && Filling(st, tmp, j) && FilesOf(st.w, tmp) == Files(None, None) && j !in st.lineage.root
    ensures Run(after, b) && trace <= after && SamePlaces(st, b) && KeepsFiles(st, b, j) && Filling(b, tmp, j)
    ensures FilesOf(b.w, tmp).blob.Some? && j in b.lineage.root
  {
    hide Sound, Can, Moved, IsTrace, Follows;
    StoreBlobMoves(st, tmp, j);
    BlobIsStored(st, tmp, j);
    b := Moved(st, Keys(StoreBlob(tmp)));
    RunGoesOn(trace, st, Keys(StoreBlob(tmp)));
    after := trace + [b];
  }

  /** The files of a directory once it is filled. */
  function Filled(l: Lineage, j: Ino, d: Deposit): Rest {
    var r := Rest(Some(CURRENT_VERSION), if d.auth.UsesKeystore() then Some("") else None, None);
    var under := if d.auth.UsesKeystore() && j in l.root then Some(l.root[j]) else None;
    r.(encrypted := Some(Sealed(under, AppId(r, d.auth, d.seed), d.message)))
  }

  lemma WriteMoves(st: Store, tmp: Path, j: Ino, r: Rest)
    requires Filling(st, tmp, j) && st.w.pending == []
    ensures Can(st, WriteRest(tmp, r))
    ensures var b := Moved(st, WriteRest(tmp, r));
      b.w == st.w && SamePlaces(st, b) && b.lineage == st.lineage && b.rest[j] == r && Filling(b, tmp, j)
  {
  }

  lemma FinishMoves(st: Store, tmp: Path, j: Ino, d: Deposit)
    requires Filling(st, tmp, j) && st.w.pending == [] && Complete(st.rest[j], d, st.lineage, j)
    requires (d.auth.UsesKeystore() ==> FilesOf(st.w, tmp).blob.Some?)
    ensures Can(st, Finish(tmp, d))
    ensures var b := Moved(st, Finish(tmp, d));
      && b.w.holder == Free && b.w.pending == [] && SameCheckpoint(st, b) && b.w.live == st.w.live
      && b.w.names == st.w.names && b.place == st.place && b.places == st.places && b.stored == st.stored[j := d]
      && b.w.doomed == st.w.doomed
  {
    hide Complete;
  }

  /** Writes the files of a directory and syncs it. */
  lemma FillDir(trace: seq<Store>, st: Store, tmp: Path, j: Ino, d: Deposit) returns (after: seq<Store>, b: Store)
    requires Run(trace, st) && Filling(st, tmp, j)
    requires (d.auth.UsesKeystore() ==> FilesOf(st.w, tmp).blob.Some? && j in st.lineage.root)
    ensures Run(after, b) && trace <= after && SameCheckpoint(st, b) && b.w.live == st.w.live
    ensures b.w.names == st.w.names && b.place == st.place && b.places == st.places && b.stored == st.stored[j := d]
    ensures b.w.doomed == st.w.doomed
  {
    hide Sound, Can, Moved, IsTrace, Follows;
    var r := Filled(st.lineage, j, d);
    WriteMoves(st, tmp, j, r);
    var a := Moved(st, WriteRest(tmp, r));
    RunGoesOn(trace, st, WriteRest(tmp, r));
    assert Complete(a.rest[j], d, a.lineage, j);
    FinishMoves(a, tmp, j, d);
    b := Moved(a, Finish(tmp, d));
    RunGoesOn(trace + [a], a, Finish(tmp, d));
    after := trace + [a] + [b];
  }

  lemma RenameMoves(st: Store, from: Path, to: Path)
    requires st.w.holder == Free && st.w.pending == [] && from in st.w.names && to !in st.w.names && to !in st.temps
    requires st.w.names[from] in st.stored && st.w.names[from] in st.places
    ensures Can(st, Keys(RenameDir(from, to)))
    ensures var b := Moved(st, Keys(RenameDir(from, to))); var j := st.w.names[from];
      && b.w.holder == Free && b.w.pending == [] && SameCheckpoint(st, b) && b.w.names == (st.w.names - {from})[to := j]
      && b.place == st.place[j := Some(to)] && b.places == st.places[j := st.places[j] + {Some(to)}]
      && b.stored == st.stored && b.w.doomed == st.w.doomed && b.w.live == st.w.live
  {
  }

  lemma RenameRun(trace: seq<Store>, st: Store, from: Path, to: Path) returns (after: seq<Store>, b: Store)
    requires Run(trace, st) && from in st.w.names && to !in st.w.names && to !in st.temps
    requires st.w.names[from] in st.stored && st.w.names[from] in st.places
    ensures Run(after, b) && trace <= after && SameCheckpoint(st, b)
    ensures var j := st.w.names[from];
      && b.w.names == (st.w.names - {from})[to := j]
      && b.place == st.place[j := Some(to)] && b.places == st.places[j := st.places[j] + {Some(to)}]
      && b.stored == st.stored && b.w.doomed == st.w.doomed && b.w.live == st.w.live
  {
    hide Sound, Can, Moved, IsTrace, Follows;
    RenameMoves(st, from, to);
    b := Moved(st, Keys(RenameDir(from, to)));
    RunGoesOn(trace, st, Keys(RenameDir(from, to)));
    after := trace + [b];
  }

  /** A filled directory `j` was added as `key`, and the directory above not synced. */
  ghost predicate Adds(a: Store, b: Store, tmp: Path, key: Path, j: Ino, d: Deposit) {
    && j !in a.place && j !in a.stored && j !in a.w.doomed && j !in a.w.live && SameCheckpoint(a, b)
    && KeepsFiles(a, b, j)
    && b.w.names == a.w.names[key := j] && b.place == a.place[j := Some(key)]
    && b.places == a.places[j := {None, Some(tmp), Some(key)}]
    && b.stored == a.stored[j := d] && b.w.doomed == a.w.doomed
  }

  /** A filled directory `j` was made under the temporary name. */
  ghost predicate Makes(a: Store, b: Store, tmp: Path, j: Ino, d: Deposit) {
    && j !in a.place && j !in a.stored && j !in a.w.doomed && j !in a.w.live && SameCheckpoint(a, b)
    && KeepsFiles(a, b, j)
    && b.w.names == a.w.names[tmp := j] && b.place == a.place[j := Some(tmp)]
    && b.places == a.places[j := {None, Some(tmp)}]
    && b.stored == a.stored[j := d] && b.w.doomed == a.w.doomed
  }

  /** A new directory `j`, under the temporary name, that holds no deposit yet. */
  ghost predicate Prepares(a: Store, b: Store, tmp: Path, j: Ino) {
    && j !in a.place && j !in a.stored && j !in a.w.doomed && j !in a.w.live && SameCheckpoint(a, b)
    && KeepsFiles(a, b, j)
    && b.w.names == a.w.names[tmp := j] && b.place == a.place[j := Some(tmp)]
    && b.places == a.places[j := {None, Some(tmp)}]
    && b.stored == a.stored && b.w.doomed == a.w.doomed
  }

  lemma PreparedRun(trace: seq<Store>, st: Store, tmp: Path, auth: Auth) returns (after: seq<Store>, b: Store, j: Ino)
    requires Run(trace, st) && tmp in st.temps && tmp !in st.w.names
    ensures Run(after, b) && trace <= after && Prepares(st, b, tmp, j) && Filling(b, tmp, j)
    ensures Known(b.w, tmp) && (auth.UsesKeystore() ==> FilesOf(b.w, tmp).blob.Some? && j in b.lineage.root)
  {
    hide Run, Filling, Sound, FilesOf;
    j := st.w.nextIno;
    after, b := MakeTemp(trace, st, tmp);
    FillingFacts(b, tmp, j);
    if auth.UsesKeystore() {
      after, b := GenerateKey(after, b, tmp, j);
      FillingFacts(b, tmp, j);
    }
  }

  lemma FilledRun(trace: seq<Store>, st: Store, tmp: Path, d: Deposit) returns (after: seq<Store>, b: Store, j: Ino)
    requires Run(trace, st) && tmp in st.temps && tmp !in st.w.names
    ensures Run(after, b) && trace <= after && Makes(st, b, tmp, j, d)
  {
    hide Run, Filling, Sound, FilesOf;
    var t, a;
    t, a, j := PreparedRun(trace, st, tmp, d.auth);
    after, b := FillDir(t, a, tmp, j, d);
  }

  /** Storing a key, but for the sync at the end. */
  lemma AddBinding(trace: seq<Store>, st: Store, tmp: Path, key: Path, d: Deposit)
    returns (after: seq<Store>, b: Store, j: Ino)
    requires Run(trace, st) && tmp in st.temps && tmp !in st.w.names && key !in st.temps && key !in st.w.names
    ensures Run(after, b) && trace <= after && Adds(st, b, tmp, key, j, d)
  {
    hide Run;
    var t, a;
    t, a, j := FilledRun(trace, st, tmp, d);
    after, b := RenameRun(t, a, tmp, key);
    assert st.w.names[tmp := j] - {tmp} == st.w.names;
    assert {None, Some(tmp)} + {Some(key)} == {None, Some(tmp), Some(key)};
  }

  lemma SyncMoves(st: Store, dir: Path)
    requires st.place.Keys == st.places.Keys
    ensures Can(st, SyncNames(dir))
    ensures var b := Moved(st, SyncNames(dir));
      && b.w == st.w && b.stored == st.stored && b.place == st.place && SameCheckpoint(st, b)
      && b.places == map i | i in st.place :: SyncedPlaces(st.place[i], st.places[i], dir)
  {
    assert forall i :: i in st.place ==> PlacesOf(st, i) == st.places[i];
    hide SyncedPlaces;
  }

  lemma SyncRun(trace: seq<Store>, st: Store, dir: Path) returns (after: seq<Store>, b: Store)
    requires Run(trace, st)
    ensures Run(after, b) && trace <= after && SameCheckpoint(st, b) && st.place.Keys == st.places.Keys
    ensures b.w == st.w && b.stored == st.stored && b.place == st.place
    ensures b.places == map i | i in st.place :: SyncedPlaces(st.place[i], st.places[i], dir)
  {
    hide Sound, Can, Moved, IsTrace, Follows, SyncedPlaces;
    PlacesKnown(st);
    SyncMoves(st, dir);
    b := Moved(st, SyncNames(dir));
    RunGoesOn(trace, st, SyncNames(dir));
    after := trace + [b];
  }

  lemma DestroyMoves(st: Store, p: Path)
    requires st.w.holder == Free && st.w.pending == [] && p in st.w.names
    ensures Can(st, Keys(Destroy(p)))
    ensures var b := Moved(st, Keys(Destroy(p)));
      && b.w == st.w.(doomed := st.w.doomed + {st.w.names[p]})
      && b.rest == st.rest && b.place == st.place && b.places == st.places && b.stored == st.stored
      && SameCheckpoint(st, b)
  {
  }

  lemma DeleteMoves(st: Store, p: Path, k: Key)
    requires Known(st.w, p) && st.w.names[p] in st.w.doomed && FilesOf(st.w, p).blob == Some(k)
    ensures Can(st, Keys(DestroyKey(p, k)))
    ensures var b := Moved(st, Keys(DestroyKey(p, k)));
      && b.w == st.w.(deleted := st.w.deleted + {k})
      && b.rest == st.rest && b.place == st.place && b.places == st.places && b.stored == st.stored
      && SameCheckpoint(st, b)
  {
  }

  lemma DiscardMoves(st: Store, p: Path)
    requires p in st.w.names && st.w.names[p] in st.w.doomed && st.w.names[p] in st.rest
    ensures Can(st, Discard(p))
    ensures var b := Moved(st, Discard(p));
      && b.w == st.w && b.place == st.place && b.places == st.places && b.stored == st.stored && SameCheckpoint(st, b)
  {
  }

  lemma RemoveMoves(st: Store, p: Path)
    requires p in st.w.names && st.w.names[p] in st.w.doomed && st.w.names[p] in st.places
    ensures Can(st, Keys(RemoveDir(p)))
    ensures var b := Moved(st, Keys(RemoveDir(p))); var i := st.w.names[p];
      && b.w == st.w.(names := st.w.names - {p}) && b.stored == st.stored && SameCheckpoint(st, b)
      && b.place == st.place[i := None] && b.places == st.places[i := st.places[i] + {None}]
  {
  }

  /** The directory was destroyed, its Keystore key deleted, its files overwritten, and it was removed. */
  ghost predicate Removes(a: Store, b: Store, p: Path) {
    && p in a.w.names && a.w.names[p] in a.places && SameCheckpoint(a, b) && b.w.live == a.w.live
    && var i := a.w.names[p];
       && b.w.names == a.w.names - {p} && b.w.doomed == a.w.doomed + {i} && b.stored == a.stored
       && b.place == a.place[i := None] && b.places == a.places[i := a.places[i] + {None}]
       && (i in a.w.live && a.w.live[i].blob.Some? ==> a.w.live[i].blob.value in b.w.deleted)
  }

  /** The keys of a directory are deleted and its files overwritten. */
  lemma RuinRun(trace: seq<Store>, st: Store, p: Path) returns (after: seq<Store>, b: Store)
    requires Run(trace, st) && p in st.w.names
    ensures Run(after, b) && trace <= after && SameCheckpoint(st, b) && b.place == st.place && b.places == st.places
    ensures b.stored == st.stored
    ensures b.w == st.w.(doomed := st.w.doomed + {st.w.names[p]}, deleted := b.w.deleted)
    ensures var i := st.w.names[p]; i in st.w.live && st.w.live[i].blob.Some? ==> st.w.live[i].blob.value in b.w.deleted
  {
    hide Run, Can, Moved, Sound;
    RunParts(trace, st);
    DestroyMoves(st, p);
    var t, a := StepRun(trace, st, Keys(Destroy(p)));
    var t', a' := DeleteRun(t, a, p);
    RunParts(t', a');
    RestKnown(a', p);
    DiscardMoves(a', p);
    after, b := StepRun(t', a', Discard(p));
  }

  lemma RunParts(trace: seq<Store>, st: Store)
    requires Run(trace, st)
    ensures Sound(st) && st.w.holder == Free && st.w.pending == []
  {
  }

  lemma StepRun(trace: seq<Store>, st: Store, m: Move) returns (after: seq<Store>, b: Store)
    requires Run(trace, st) && Can(st, m) && Moved(st, m).w.holder == Free && Moved(st, m).w.pending == []
    ensures Run(after, b) && trace <= after && b == Moved(st, m)
  {
    hide Sound, Can, Moved, IsTrace, Follows;
    RunGoesOn(trace, st, m);
    b := Moved(st, m);
    after := trace + [b];
  }

  /** Deletes the Keystore key of a directory, if it has one. */
  lemma DeleteRun(trace: seq<Store>, st: Store, p: Path) returns (after: seq<Store>, b: Store)
    requires Run(trace, st) && p in st.w.names && st.w.names[p] in st.w.doomed
    ensures Run(after, b) && trace <= after && SameCheckpoint(st, b) && b.place == st.place && b.places == st.places
    ensures b.stored == st.stored
    ensures b.w == st.w.(deleted := b.w.deleted)
    ensures var i := st.w.names[p]; i in st.w.live && st.w.live[i].blob.Some? ==> st.w.live[i].blob.value in b.w.deleted
  {
    hide Run, Can, Moved, Sound;
    RunParts(trace, st);
    KnownBlob(st, p);
    after, b := trace, st;
    if FilesOf(st.w, p).blob.Some? {
      var k := FilesOf(st.w, p).blob.value;
      DeleteMoves(st, p, k);
      after, b := StepRun(trace, st, Keys(DestroyKey(p, k)));
    }
  }

  lemma KnownBlob(st: Store, p: Path)
    requires Sound(st) && p in st.w.names
    ensures Known(st.w, p) && FilesOf(st.w, p) == st.w.live[st.w.names[p]]
  {
    hide Sound;
    NameFacts(st);
  }

  lemma RemoveRun(trace: seq<Store>, st: Store, p: Path) returns (after: seq<Store>, b: Store)
    requires Run(trace, st) && p in st.w.names
    ensures Run(after, b) && trace <= after && Removes(st, b, p)
  {
    hide Sound, Can, Moved, IsTrace, Follows;
    PlacesKnown(st);
    var t, a := RuinRun(trace, st, p);
    RemoveMoves(a, p);
    b := Moved(a, Keys(RemoveDir(p)));
    RunGoesOn(t, a, Keys(RemoveDir(p)));
    after := t + [b];
  }

  lemma BeginRun(trace: seq<Store>, st: Store) returns (after: seq<Store>, b: Store)
    requires Run(trace, st) && !st.w.checkpointing && !st.w.sweepDue
    ensures Run(after, b) && trace <= after
    ensures b.w.checkpointing && b.w.names == st.w.names && b.w.doomed == st.w.doomed && b.place == st.place
    ensures b.places == Settled(st.place)
    ensures b.stored == st.stored && b.temps == st.temps && b.savedStored == st.stored && b.savedPlace == st.place
    ensures b.savedRest == st.rest
    ensures b.w.live == st.w.live && b.w.saved == st.w.live
  {
    hide Sound, Can, Moved, IsTrace, Follows, Settled;
    CheckpointBegins(st);
    b := Moved(st, Keys(BeginCheckpoint));
    RunGoesOn(trace, st, Keys(BeginCheckpoint));
    after := trace + [b];
  }

  // ----- A key with its first binding -----

  /** The binding `current`, which is synced, and no other. */
  ghost predicate OnlyFirst(st: Store, dir: Path, tmp: Path, i: Ino, key: Message) {
    var p := CurrentPath(dir);
    && st.temps == {tmp} && st.w.names == map[p := i] && st.place == map[i := Some(p)]
    && st.places == map[i := {Some(p)}]
    && st.stored == map[i := Deposit(EMPTY_AUTH, "", key)] && st.w.doomed == {} && !st.w.checkpointing && !st.w.sweepDue
  }

  lemma SyncsCeKeyPath(dir: Path, p: Path, places: set<Place>)
    requires IsCeKeyPath(dir, p)
    ensures SyncedPlaces(Some(p), places, dir) == {Some(p)}
  {
    hide IsCeKeyPath, Parent;
    ParentOfCeKeyPath(dir, p);
  }

  lemma FirstBinding(dir: Path, tmp: Path, key: Message) returns (trace: seq<Store>, st: Store, i: Ino)
    requires NoCeTemps({tmp})
    ensures Run(trace, st) && OnlyFirst(st, dir, tmp, i, key)
  {
    hide Run, IsCeKeyPath, NoCeTemps, SyncedPlaces;
    var p := CurrentPath(dir);
    CurrentIsCeKeyPath(dir);
    NotTemp({tmp}, dir, p);
    NewRun({tmp});
    var t, a;
    t, a, i := AddBinding([NewStore({tmp})], NewStore({tmp}), tmp, p, Deposit(EMPTY_AUTH, "", key));
    trace, st := SyncRun(t, a, dir);
    SyncsCeKeyPath(dir, p, a.places[i]);
  }

  /** A new binding is stored and synced. */
  lemma AddSynced(trace: seq<Store>, st: Store, dir: Path, tmp: Path, p: Path, d: Deposit)
    returns (after: seq<Store>, b: Store, j: Ino)
    requires Run(trace, st) && NoCeTemps({tmp}) && st.temps == {tmp} && IsCeKeyPath(dir, p) && tmp !in st.w.names
    requires p !in st.w.names
    ensures Run(after, b) && trace <= after && SameCheckpoint(st, b) && j !in st.place && j !in st.w.doomed
    ensures b.w.names == st.w.names[p := j] && b.w.doomed == st.w.doomed
    ensures j in b.stored && b.stored[j] == d && j in b.place && j in b.places && b.places[j] == {Some(p)}
    ensures KeepsFiles(st, b, j) && j !in st.w.live
  {
    hide Run, IsCeKeyPath, NoCeTemps, SyncedPlaces;
    NotTemp({tmp}, dir, p);
    var t, a;
    t, a, j := AddBinding(trace, st, tmp, p, d);
    after, b := SyncRun(t, a, dir);
    SyncsCeKeyPath(dir, p, a.places[j]);
  }

  /** Of two directories the first one is destroyed. */
  lemma RemoveFirst(trace: seq<Store>, st: Store, p: Path, i: Ino, q: Path, j: Ino)
    returns (after: seq<Store>, b: Store)
    requires Run(trace, st) && st.w.names == map[p := i, q := j] && p != q && i != j
    ensures Run(after, b) && trace <= after && SameCheckpoint(st, b) && b.w.names == map[q := j]
    ensures b.w.doomed == st.w.doomed + {i}
    ensures b.stored == st.stored && (j in st.place ==> j in b.place && b.place[j] == st.place[j])
    ensures i in st.w.live && st.w.live[i].blob.Some? ==> st.w.live[i].blob.value in b.w.deleted
    ensures j in st.places ==> j in b.places && b.places[j] == st.places[j]
  {
    hide Run;
    after, b := RemoveRun(trace, st, p);
    assert map[p := i, q := j] - {p} == map[q := j];
  }

  lemma FirstIsBound(st: Store, dir: Path, tmp: Path, i: Ino, key: Message)
    requires Sound(st) && st.w.holder == Free && OnlyFirst(st, dir, tmp, i, key)
    ensures Bound(st, i, dir) && Holds(st, dir, key) && AllStay(st, dir) && i in st.w.live && st.w.live[i].blob.Some?
    ensures !Lost(st.w, i)
    ensures i in st.rest && st.rest[i].encrypted.Some?
  {
    hide Sound, Lost, Can, Moved;
    UndoomedIsUsable(st, i);
    FirstKey(st, dir, i);
    CurrentIsCeKeyPath(dir);
    hide IsCeKeyPath;
    assert Bound(st, i, dir);
  }

  lemma FirstKey(st: Store, dir: Path, i: Ino)
    requires Sound(st) && i in st.stored && st.stored[i].auth.UsesKeystore()
    ensures i in st.w.live && st.w.live[i].blob.Some?
  {
    hide LiveIsWorst, Traced, Placed, WholeOrGone, Ids, Safe, Spare, Held, Listed;
    LiveMatters(st.w, i);
  }

  /** The first two numbered names. */
  lemma NextNames(dir: Path, tmp: Path)
    requires NoCeTemps({tmp})
    ensures var c, x, y := CurrentPath(dir), Candidate(dir, 0), Candidate(dir, 1);
      && IsCeKeyPath(dir, c) && IsCeKeyPath(dir, x) && IsCeKeyPath(dir, y)
      && c != x && c != y && x != y && c != tmp && x != tmp && y != tmp && FirstAbove(dir, x, 1)
  {
    hide IsCeKeyPath, Less, Candidate;
    var c, x, y := CurrentPath(dir), Candidate(dir, 0), Candidate(dir, 1);
    CurrentIsCeKeyPath(dir);
    CandidateIsCeKeyPath(dir, 0);
    CandidateIsCeKeyPath(dir, 1);
    CurrentIsOldest(dir, 0);
    CurrentIsOldest(dir, 1);
    CandidatesInOrder(dir, 0, 1);
    LessIsStrict(x);
    LessIsStrict(y);
  }

  // ----- A new binding that is not synced -----

  /**
    A key that was there to stay is lost: its new binding was stored but the sync at the end failed;
    then, unlocking with the new secret, that binding opened and the old one was destroyed; and then
    power was lost, and no binding is left.
  */
  lemma UnsyncedKeyIsLost(dir: Path, tmp: Path, secret: string, key: Message)
    returns (trace: seq<Store>, bound: nat, cut: Move)
    requires secret != "" && NoCeTemps({tmp})
    ensures IsTrace(trace) && bound < |trace| && Holds(trace[bound], dir, key) && AllStay(trace[bound], dir)
    ensures var last := trace[|trace| - 1];
      && Opens(last, dir, Candidate(dir, 0), Auth(secret), "", key)
      && cut.Cut? && Can(last, cut) && (forall p :: p in Moved(last, cut).w.names ==> !IsCeKeyPath(dir, p))
      && !Yields(Moved(last, cut), dir, key)
  {
    hide Sound, IsCeKeyPath, NoCeTemps, IsTrace, Can, Moved, Holds, Candidate, Retrieved, FirstAbove, AllStay, Usable;
    var current, x := CurrentPath(dir), Candidate(dir, 0);
    NextNames(dir, tmp);
    var t1, a, i := FirstBinding(dir, tmp, key);
    FirstIsBound(a, dir, tmp, i, key);
    bound := |t1| - 1;
    var t2, b, j := AddBinding(t1, a, tmp, x, Deposit(Auth(secret), "", key));
    var t3, c := RemoveRun(t2, b, current);
    trace := t3;
    assert c.w.names[x] == j && j !in c.w.doomed;
    UndoomedIsUsable(c, j);
    StoredOpens(c, dir, x);
    cut := WorstCut(c, dir);
    assert c.place[j] == Some(x) && None in c.places[j];
  }

  // ----- Unlocking during a checkpoint -----

  /**
    While a checkpoint is active, protecting a key leaves its old binding to a rollback; but unlocking
    with the new secret then destroys it at once, and a rollback leaves nothing.
  */
  lemma UnlockedKeyIsLost(dir: Path, tmp: Path, secret: string, key: Message)
    returns (trace: seq<Store>, protected: nat)
    requires secret != "" && NoCeTemps({tmp})
    ensures IsTrace(trace) && protected < |trace|
    ensures var st := trace[protected]; Can(st, Keys(Rollback)) && Yields(Moved(st, Keys(Rollback)), dir, key)
    ensures var last := trace[|trace| - 1];
      && Opens(last, dir, Candidate(dir, 0), Auth(secret), "", key)
      && Can(last, Keys(Rollback)) && !Yields(Moved(last, Keys(Rollback)), dir, key)
  {
    hide Sound, IsCeKeyPath, NoCeTemps, IsTrace, Can, Moved, Yields, Candidate, Retrieved, FirstAbove, Usable, Lost,
         AllStay;
    var current, x := CurrentPath(dir), Candidate(dir, 0);
    NextNames(dir, tmp);
    var t1, a, i := FirstBinding(dir, tmp, key);
    FirstIsBound(a, dir, tmp, i, key);
    var t2, b := BeginRun(t1, a);
    var t3, c, t4, d, j := ProtectAndUnlock(t2, b, dir, tmp, i, Deposit(Auth(secret), "", key));
    trace, protected := t4, |t3| - 1;
    RollbackMoves(c);
    RollbackMoves(d);
    SavedIsSafe(c, i);
    assert SavedBinding(c, i, dir, key);
    RollbackYieldsIffSpared(c, dir, key);
    RollbackYieldsIffSpared(d, dir, key);
    UndoomedIsUsable(d, j);
    StoredOpens(d, dir, x);
  }

  lemma SavedIsSafe(st: Store, i: Ino)
    requires Sound(st) && i in st.w.saved && i !in st.w.doomed
    ensures !NamesDeleted(st.w, st.w.saved[i])
  {
    hide LiveIsWorst, Traced, Placed, RestFilled, BlobsFilled, Ids, Spare, Held, Listed, Shape;
    assert Matters(st.w, Version(i, st.w.saved[i]));
  }

  /** A new binding is stored, and then the first one destroyed. */
  lemma ProtectAndUnlock(trace: seq<Store>, st: Store, dir: Path, tmp: Path, i: Ino, d: Deposit)
    returns (t: seq<Store>, a: Store, after: seq<Store>, b: Store, j: Ino)
    requires Run(trace, st) && NoCeTemps({tmp}) && st.temps == {tmp} && st.w.names == map[CurrentPath(dir) := i]
    requires st.w.doomed == {}
    requires i in st.place && i in st.w.live && st.w.live[i].blob.Some?
    ensures Run(t, a) && Run(after, b) && t <= after && SameCheckpoint(st, a) && SameCheckpoint(st, b)
    ensures a.w.doomed == {} && b.w.doomed == {i} && b.w.names == map[Candidate(dir, 0) := j] && j in b.stored
    ensures b.stored[j] == d && j != i
    ensures st.w.live[i].blob.value in b.w.deleted
  {
    hide Run, IsCeKeyPath, NoCeTemps, Candidate, FirstAbove, SyncedPlaces;
    NextNames(dir, tmp);
    t, a, j := AddSynced(trace, st, dir, tmp, Candidate(dir, 0), d);
    after, b := RemoveFirst(t, a, CurrentPath(dir), i, Candidate(dir, 0), j);
  }

  lemma RollbackMoves(st: Store)
    requires st.w.checkpointing
    ensures Can(st, Keys(Rollback))
  {
  }

  // ----- A key that is overlooked -----

  /**
    A key that was there to stay is replaced: the canonical name is missing because renaming the new
    binding failed, and when the directory cannot be read either, a random key is stored under the
    next name and the binding of the old one destroyed.
  */
  lemma OverlookedKeyIsLost(dir: Path, tmp: Path, secret: string, other: string, key: Message, random: Message)
    returns (trace: seq<Store>, before: nat)
    requires secret != "" && other != "" && key != random && NoCeTemps({tmp})
    ensures IsTrace(trace) && before < |trace| && FirstAbove(dir, Candidate(dir, 0), 1)
    ensures var st := trace[before];
      && Holds(st, dir, key) && AllStay(st, dir) && OneKey(st, dir, key)
      && OnDisk(st, dir, true) && !OnDisk(st, dir, false)
    ensures var last := trace[|trace| - 1];
      Opens(last, dir, Candidate(dir, 1), Auth(other), "", random) && !Yields(last, dir, key)
  {
    hide Sound, IsCeKeyPath, NoCeTemps, IsTrace, Yields, Candidate, Retrieved, FirstAbove, Usable, OneKey, AllStay,
         OnDisk;
    var current, x, y := CurrentPath(dir), Candidate(dir, 0), Candidate(dir, 1);
    NextNames(dir, tmp);
    var t1, a, i := FirstBinding(dir, tmp, key);
    var t2, b, j := ReplaceRun(t1, a, dir, tmp, current, x, Deposit(Auth(secret), "", key));
    var t3, c, k := ReplaceRun(t2, b, dir, tmp, x, y, Deposit(Auth(other), "", random));
    trace, before := t3, |t2| - 1;
    UndoomedIsUsable(c, k);
    StoredOpens(c, dir, y);
    OnlyOneLeft(c, dir, y, Auth(other), random, key);
    OneIsBound(b, dir, x, j, key);
  }

  /** A new binding is stored and synced, and the only other one destroyed. */
  lemma ReplaceRun(trace: seq<Store>, st: Store, dir: Path, tmp: Path, p: Path, q: Path, d: Deposit)
    returns (after: seq<Store>, b: Store, j: Ino)
    requires Run(trace, st) && NoCeTemps({tmp}) && st.temps == {tmp} && IsCeKeyPath(dir, p) && IsCeKeyPath(dir, q)
    requires p != q
    requires st.w.names.Keys == {p} && st.w.names[p] in st.place
    ensures Run(after, b) && trace <= after && b.temps == {tmp}
    ensures b.w.names == map[q := j] && j !in b.w.doomed && j in b.stored && b.stored[j] == d
    ensures j in b.place && j in b.places && b.places[j] == {Some(q)}
  {
    hide Run, IsCeKeyPath, NoCeTemps, SyncedPlaces;
    NotTemp({tmp}, dir, p);
    var t, a;
    t, a, j := AddSynced(trace, st, dir, tmp, q, d);
    assert st.w.names == map[p := st.w.names[p]];
    after, b := RemoveFirst(t, a, p, st.w.names[p], q, j);
  }

  /** With one binding left, only its key is. */
  lemma OnlyOneLeft(st: Store, dir: Path, p: Path, auth: Auth, k: Message, m: Message)
    requires Sound(st) && st.w.holder == Free && NoCeTemps(st.temps) && Opens(st, dir, p, auth, "", k) && k != m
    requires forall q :: q in st.w.names ==> q == p
    ensures !Yields(st, dir, m)
  {
    hide Sound, Retrieved, NoCeTemps, IsCeKeyPath;
    OpensItsKey(st, dir, p, auth, "", k);
    if Yields(st, dir, m) {
      var q, auth', seed :| Opens(st, dir, q, auth', seed, m);
      OpensItsKey(st, dir, q, auth', seed, m);
    }
  }

  lemma OneIsBound(st: Store, dir: Path, p: Path, j: Ino, key: Message)
    requires Sound(st) && st.w.holder == Free && NoCeTemps(st.temps) && IsCeKeyPath(dir, p) && st.w.names == map[p := j]
    requires p != CurrentPath(dir)
    requires j !in st.w.doomed && j in st.stored && st.stored[j].message == key && j in st.place && j in st.places
    requires st.places[j] == {Some(p)}
    ensures Holds(st, dir, key) && AllStay(st, dir) && OneKey(st, dir, key) && OnDisk(st, dir, true)
    ensures !OnDisk(st, dir, false)
  {
    hide IsCeKeyPath, Sound, NoCeTemps, Usable, Retrieved;
    UndoomedIsUsable(st, j);
    assert Bound(st, j, dir);
    forall q, auth, seed, k | Opens(st, dir, q, auth, seed, k) ensures k == key {
      OpensItsKey(st, dir, q, auth, seed, k);
    }
  }
}
