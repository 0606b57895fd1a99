/**
  What the moves of a key operation do, and what holds throughout an operation made of them.

  An operation is described from where it began: `before` is the trace and `a` the store at that
  point, `after` and `b` are the trace and the store now.
*/
module KeyMoves {
  import opened Wrappers
  import opened KeyUpgrade
  import opened KeyLineage
  import opened KeyDeletions
  import opened KeyDirectories

  /** Names and the files beside the blobs are as they were, and what could be read can be read. */
  ghost predicate SameTree(a: Store, b: Store) {
    && b.place == a.place && b.places == a.places && b.stored == a.stored && b.rest == a.rest && b.temps == a.temps
    && b.w.names == a.w.names && b.w.doomed == a.w.doomed && b.w.live.Keys == a.w.live.Keys
    && forall i :: Usable(b, i) <==> Usable(a, i)
  }

  /** Blobs stay, and keys trace back to where they did. */
  ghost predicate KeepsKeys(a: Store, b: Store) {
    && (forall i :: i in a.w.live && i in b.w.live && a.w.live[i].blob.Some? ==> b.w.live[i].blob.Some?)
    && (forall i, k :: TracesTo(a.lineage, i, k) ==> TracesTo(b.lineage, i, k))
  }

  /** From `a`, where the trace was `before`, to `b`, where it is `after`, no name was touched. */
  ghost predicate Quietly(before: seq<Store>, a: Store, after: seq<Store>, b: Store) {
    && SameTree(a, b) && KeepsKeys(a, b)
    && before <= after && forall n :: |before| <= n < |after| ==> SameTree(a, after[n])
  }

  lemma QuietlyOn(before: seq<Store>, a: Store, after: seq<Store>, b: Store, c: Store)
    requires Quietly(before, a, after, b) && SameTree(b, c) && KeepsKeys(b, c)
    ensures Quietly(before, a, after + [c], c)
  {
  }

  /** Steps of the upgrade protocol that touch no name. */
  predicate Inner(s: Step) {
    (!Naming(s) || s.CommitCheckpoint?) && !s.Destroy? && !s.DestroyKey? && !s.StoreBlob?
  }

  lemma InnerCan(st: Store, s: Step)
    requires Enabled(st.w, s) && Inner(s)
    ensures Can(st, Keys(s))
  {
    hide Do, Enabled;
  }

  lemma InnerSteps(st: Store, s: Step)
    requires Sound(st) && Can(st, Keys(s)) && Inner(s)
    ensures SameTree(st, Moved(st, Keys(s))) && KeepsKeys(st, Moved(st, Keys(s)))
  {
    hide Inv, Traced, Placed, RestFilled, BlobsFilled, Do, Enabled, Next, Framed, Lost;
    var st' := DoKeys(st, s);
    InnerFrame(st.w, s);
    NextKeepsTraces(st.w, st.lineage, s);
    StoredIsLive(st);
    forall i | i in st.w.live ensures Lost(st'.w, i) <==> Lost(st.w, i) { LostStays(st.w, s, i); }
    assert SameTree(st, st');
  }

  lemma StoredIsLive(st: Store)
    requires Sound(st)
    ensures forall i :: i in st.stored ==> i in st.w.live
  {
    hide Inv, LiveIsWorst, Traced, Placed, BlobsFilled, WholeOrGone;
  }

  lemma InnerFrame(w: World, s: Step)
    requires Inv(w) && Enabled(w, s) && Inner(s)
    ensures var w' := Do(w, s);
      && w'.names == w.names && w'.live.Keys == w.live.Keys && w'.doomed == w.doomed
      && forall i :: i in w.live && i in w'.live && w.live[i].blob.Some? ==> w'.live[i].blob.Some?
  {
    hide Ids, Safe, Spare, Held, Listed, Shape, Do, Enabled, EditOf;
    StepFrame(w, s);
    if s.CommitCheckpoint? { CheckpointEffect(w, s); } else { OthersLeaveNames(w, s); }
    if EditOf(w, s).Some? {
      EditIsChange(w, s);
      EditsKeepBlob(w, s);
    } else {
      OtherStepsAddNothing(w, s);
    }
  }

  // ----- Moves that change names -----

  /** Places that settle: fewer places, or gone; a directory stops being possibly gone only by having one place. */
  predicate Settles(a: set<Place>, b: set<Place>) {
    b <= a + {None} && (None in b || OnePlace(b) || (None !in a && b <= a))
  }

  predicate OnePlace(b: set<Place>) {
    forall p, q :: p in b && q in b ==> p == q
  }

  lemma SettlesAlong(a: set<Place>, b: set<Place>, c: set<Place>)
    requires Settles(a, b) && Settles(b, c)
    ensures Settles(a, c)
  {
  }

  /** The directory is where it was and no less certain to be there, and what it stores is the same. */
  ghost predicate Undisturbed(a: Store, b: Store, i: Ino) {
    i in a.place && i in a.places ==>
      && i in b.place && i in b.places && b.place[i] == a.place[i] && b.places[i] <= a.places[i]
      && Settles(a.places[i], b.places[i])
      && (i in b.stored <==> i in a.stored) && (i in a.stored ==> b.stored[i] == a.stored[i])
      && (i in b.w.doomed <==> i in a.w.doomed) && (Usable(b, i) <==> Usable(a, i))
  }

  lemma UndisturbedAlong(a: Store, b: Store, c: Store, i: Ino)
    requires Undisturbed(a, b, i) && Undisturbed(b, c, i)
    ensures Undisturbed(a, c, i)
  {
    if i in a.place && i in a.places { SettlesAlong(a.places[i], b.places[i], c.places[i]); }
  }

  /** No directory but `i` is disturbed, and that one may have been removed, from `a` on. */
  ghost predicate Destroys(a: Store, b: Store, i: Ino) {
    && b.place.Keys == a.place.Keys && b.places.Keys == a.places.Keys && b.stored == a.stored && b.temps == a.temps
    && (forall j :: j != i && j in a.rest ==> j in b.rest && b.rest[j] == a.rest[j])
    && (forall p :: p in b.w.names ==> p in a.w.names && b.w.names[p] == a.w.names[p])
    && (b.w.names == a.w.names ==> b.places == a.places)
    && (forall j :: j != i ==> Undisturbed(a, b, j))
    && (i in a.places ==> Settles(a.places[i], b.places[i])) && (a.w.pending == [] ==> b.w.pending == [])
    && b.w.live == a.w.live
    && b.w.checkpointing == a.w.checkpointing
  }

  ghost predicate Destroying(before: seq<Store>, a: Store, after: seq<Store>, b: Store, i: Ino) {
    && Destroys(a, b, i)
    && before <= after && forall n :: |before| <= n < |after| ==> Destroys(a, after[n], i)
  }

  lemma DestroyMove(st: Store, dir: Path)
    requires st.w.holder == Free && dir in st.w.names
    ensures Can(st, Keys(Destroy(dir)))
    ensures Do(st.w, Destroy(dir)) == st.w.(pending := WithoutDir(st.w, st.w.pending, dir),
        doomed := st.w.doomed + {st.w.names[dir]})
  {
    hide WithoutDir;
  }

  lemma DoomingDestroys(a: Store, b: Store, i: Ino)
    requires b.w.live == a.w.live && (a.w.pending == [] ==> b.w.pending == []) && b.w.checkpointing == a.w.checkpointing
    requires b.place == a.place && b.places == a.places && b.stored == a.stored && b.temps == a.temps
    requires b.rest == a.rest
    requires b.w.names == a.w.names && b.w.deleted == a.w.deleted && b.w.doomed == a.w.doomed + {i}
    ensures Destroys(a, b, i)
  {
  }

  lemma RemovingDestroys(a: Store, b: Store, i: Ino)
    requires b.w.live == a.w.live && (a.w.pending == [] ==> b.w.pending == []) && b.w.checkpointing == a.w.checkpointing
    requires i in a.place && i in a.places && b.place == a.place[i := None]
    requires b.places == a.places[i := a.places[i] + {None}]
    requires b.stored == a.stored && b.temps == a.temps && b.rest == a.rest
    requires (forall p :: p in b.w.names ==> p in a.w.names && b.w.names[p] == a.w.names[p]) && b.w.names != a.w.names
    requires b.w.deleted == a.w.deleted && b.w.doomed == a.w.doomed
    ensures Destroys(a, b, i)
  {
  }

  lemma DestroyStarts(st: Store, dir: Path)
    requires Sound(st) && st.w.holder == Free && dir in st.w.names
    ensures Can(st, Keys(Destroy(dir)))
    ensures var st' := Moved(st, Keys(Destroy(dir)));
      && Destroys(st, st', st.w.names[dir]) && st'.w.names == st.w.names && st'.w.holder == Free
      && st'.w.live == st.w.live
      && st'.w.doomed == st.w.doomed + {st.w.names[dir]} && st'.w.pending == WithoutDir(st.w, st.w.pending, dir)
  {
    hide Sound, DoKeys, Enabled, Next, Can, Destroys;
    DestroyMove(st, dir);
    QuietParts(st, Destroy(dir));
    DoomingDestroys(st, Moved(st, Keys(Destroy(dir))), st.w.names[dir]);
  }

  lemma DestroyKeyMove(st: Store, dir: Path, k: Key)
    requires Known(st.w, dir) && st.w.names[dir] in st.w.doomed && Names(FilesOf(st.w, dir), k)
    ensures Can(st, Keys(DestroyKey(dir, k))) && Do(st.w, DestroyKey(dir, k)) == st.w.(deleted := st.w.deleted + {k})
  {
  }

  lemma KeyIsDestroyed(st: Store, dir: Path, k: Key)
    requires Sound(st) && Known(st.w, dir) && st.w.names[dir] in st.w.doomed && Names(FilesOf(st.w, dir), k)
    ensures Can(st, Keys(DestroyKey(dir, k)))
    ensures var st' := Moved(st, Keys(DestroyKey(dir, k)));
      && Destroys(st, st', st.w.names[dir]) && SameFiles(st.w, st'.w) && st'.w.holder == st.w.holder
      && st'.w.deleted == st.w.deleted + {k}
  {
    hide DoKeys, Enabled, Next, Can, Sound, Destroys, Lost, Names;
    DestroyKeyMove(st, dir, k);
    QuietParts(st, DestroyKey(dir, k));
    DeletingDestroys(st, Moved(st, Keys(DestroyKey(dir, k))), dir, k);
  }

  lemma DeletingDestroys(a: Store, b: Store, dir: Path, k: Key)
    requires Sound(a) && dir in a.w.names && Enabled(a.w, DestroyKey(dir, k)) && b.w == Do(a.w, DestroyKey(dir, k))
    requires b == a.(w := a.w.(deleted := a.w.deleted + {k}), lineage := b.lineage)
    ensures Destroys(a, b, a.w.names[dir])
  {
    hide Sound, Enabled, Do, Names, Lost;
    StoredIsLive(a);
    forall j | j != a.w.names[dir] ensures Usable(b, j) <==> Usable(a, j) {
      if j in a.w.live { OnlyThisIsLost(a, dir, k, j); }
      hide Destroys;
    }
    hide Usable;
  }

  lemma OnlyThisIsLost(st: Store, dir: Path, k: Key, j: Ino)
    requires Sound(st) && Enabled(st.w, DestroyKey(dir, k)) && j in st.w.live && dir in st.w.names
    requires j != st.w.names[dir]
    ensures Lost(Do(st.w, DestroyKey(dir, k)), j) <==> Lost(st.w, j)
  {
    hide Inv, LiveIsWorst, Traced, Placed, RestFilled, BlobsFilled, Enabled, Do, Lost;
    LostStays(st.w, DestroyKey(dir, k), j);
  }

  /** Every key the files name is deleted. */
  predicate DeletedAll(f: Files, deleted: set<Key>) {
    (f.blob.Some? ==> f.blob.value in deleted) && (f.upgraded.Some? ==> f.upgraded.value in deleted)
  }

  lemma RestKnown(st: Store, dir: Path)
    requires Sound(st) && dir in st.w.names
    ensures st.w.names[dir] in st.rest
  {
    hide Inv, LiveIsWorst, Traced, BlobsFilled, WholeOrGone;
    NameFacts(st);
  }

  /** The ciphertext is gone. */
  predicate Overwritten(st: Store, i: Ino) {
    i in st.rest && st.rest[i].encrypted.None?
  }

  /** Overwriting what the directory holds. */
  lemma DirIsDiscarded(st: Store, dir: Path)
    requires dir in st.w.names && st.w.names[dir] in st.w.doomed && st.w.names[dir] in st.rest
    ensures Can(st, Discard(dir))
    ensures var st' := Moved(st, Discard(dir));
      Destroys(st, st', st.w.names[dir]) && st'.w == st.w && Overwritten(st', st.w.names[dir])
  {
    hide Undisturbed, Destroys, Settles;
    var st' := Moved(st, Discard(dir));
    var i := st.w.names[dir];
    assert st' == st.(rest := st'.rest, mayRest := st'.mayRest) && forall j :: j != i && j in st.rest ==>
        j in st'.rest && st'.rest[j] == st.rest[j];
    assert forall j :: j != i ==> (j in st.rest <==> j in st'.rest);
    hide Can, Moved;
    OverwritingDestroys(st, st', i);
  }

  lemma OverwritingDestroys(a: Store, b: Store, i: Ino)
    requires b == a.(rest := b.rest, mayRest := b.mayRest)
    requires forall j :: j != i ==> (j in a.rest <==> j in b.rest) && (j in a.rest ==> b.rest[j] == a.rest[j])
    ensures Destroys(a, b, i)
  {
    hide Lost;
  }

  lemma RemoveDirMove(st: Store, dir: Path)
    requires dir in st.w.names && st.w.names[dir] in st.w.doomed
    ensures Can(st, Keys(RemoveDir(dir))) && Do(st.w, RemoveDir(dir)) == st.w.(names := st.w.names - {dir})
  {
  }

  lemma PlacesKnown(st: Store)
    requires Sound(st)
    ensures st.place.Keys == st.places.Keys == st.w.live.Keys
    ensures forall p :: p in st.w.names ==> st.w.names[p] in st.places && st.w.names[p] in st.place
    ensures forall i :: i in st.place ==> st.place[i] in st.places[i]
  {
    hide Traced, RestFilled, BlobsFilled, Ids, Safe, Spare, Held, Listed, Injective;
  }

  lemma DirIsRemoved(st: Store, dir: Path)
    requires Sound(st) && dir in st.w.names && st.w.names[dir] in st.w.doomed
    ensures Can(st, Keys(RemoveDir(dir)))
    ensures var st' := Moved(st, Keys(RemoveDir(dir)));
      && Destroys(st, st', st.w.names[dir]) && st'.w.names == st.w.names - {dir} && st'.w.holder == st.w.holder
      && st'.w.doomed == st.w.doomed && st'.w.deleted == st.w.deleted && st'.w.pending == st.w.pending
      && st'.rest == st.rest
  {
    hide Sound, Enabled, Next, Agree, Injective, Do, Destroys;
    RemoveDirMove(st, dir);
    PlacesKnown(st);
    RemovingDestroys(st, Moved(st, Keys(RemoveDir(dir))), st.w.names[dir]);
  }

  lemma DestroyingFrom(before: seq<Store>, a: Store, i: Ino, c: Store)
    requires Destroys(a, c, i)
    ensures Destroying(before, a, before + [c], c, i)
  {
    hide Destroys;
  }

  lemma DestroyingParts(before: seq<Store>, a: Store, after: seq<Store>, b: Store, i: Ino)
    requires Destroying(before, a, after, b, i)
    ensures b.stored == a.stored && b.temps == a.temps && b.w.live == a.w.live && b.w.checkpointing == a.w.checkpointing
    ensures forall j :: j != i && j in a.rest ==> j in b.rest && b.rest[j] == a.rest[j]
    ensures b.w.names == a.w.names ==> b.places == a.places
    ensures a.w.pending == [] ==> b.w.pending == []
  {
  }

  lemma DestroyingOn(before: seq<Store>, a: Store, after: seq<Store>, b: Store, i: Ino, c: Store)
    requires Destroying(before, a, after, b, i) && Destroys(b, c, i)
    ensures Destroying(before, a, after + [c], c, i)
  {
    forall j | j != i ensures Undisturbed(a, c, j) {
      UndisturbedAlong(a, b, c, j);
    }
    if i in a.places { SettlesAlong(a.places[i], b.places[i], c.places[i]); }
    assert Destroys(a, c, i) by { hide Undisturbed; }
    hide Destroys;
  }

  /** Only the name of one directory has changed. */
  ghost predicate Renames(a: Store, b: Store, from: Path, to: Path) {
    && from in a.w.names && a.w.names[from] in a.places && to !in a.w.names
    && var i := a.w.names[from];
       && b.w.names == (a.w.names - {from})[to := i] && b.place == a.place[i := Some(to)]
       && b.places == a.places[i := a.places[i] + {Some(to)}]
       && b.stored == a.stored && b.temps == a.temps && b.w.doomed == a.w.doomed && b.w.live == a.w.live
       && b.rest == a.rest
       && b.w.deleted == a.w.deleted
       && (a.w.pending == [] ==> b.w.pending == []) && b.w.checkpointing == a.w.checkpointing
  }

  lemma RenameDirMove(st: Store, from: Path, to: Path)
    requires st.w.holder == Free && from in st.w.names && to !in st.w.names && to !in st.temps
    requires st.w.names[from] in st.stored
    ensures Can(st, Keys(RenameDir(from, to)))
    ensures Do(st.w, RenameDir(from, to)) ==
      st.w.(names := (st.w.names - {from})[to := st.w.names[from]], pending := WithRenamed(st.w, st.w.pending, from,
          to))
  {
    hide WithRenamed;
  }

  lemma DirIsRenamed(st: Store, from: Path, to: Path)
    requires Sound(st) && st.w.holder == Free && from in st.w.names && to !in st.w.names && to !in st.temps
    requires st.w.names[from] in st.stored
    ensures Can(st, Keys(RenameDir(from, to)))
    ensures var st' := Moved(st, Keys(RenameDir(from, to)));
      Renames(st, st', from, to) && st'.w.holder == Free && st'.w.pending == WithRenamed(st.w, st.w.pending, from, to)
  {
    hide Sound, Enabled, Next, Do, WithRenamed;
    RenameDirMove(st, from, to);
    PlacesKnown(st);
  }

  // ----- Storing a key under a temporary name and renaming it -----

  /** What storing deposit `d` as `key` by way of `tmp` may have done since `a`. */
  ghost predicate Stores(a: Store, b: Store, tmp: Path, key: Path, d: Deposit) {
    && b.temps == a.temps && a.place.Keys <= b.place.Keys && b.place.Keys == b.places.Keys
    && a.place.Keys == a.places.Keys
    && (forall i :: i in a.place ==>
          if a.place[i] == Some(tmp) then Settles(a.places[i], b.places[i]) else Undisturbed(a, b, i))
    && (forall i :: i in b.place && i !in a.place ==> NewPlaces(b, i, tmp, key, d))
  }

  /** A new directory turns up under its final name only when it holds the deposit. */
  ghost predicate NewPlaces(b: Store, i: Ino, tmp: Path, key: Path, d: Deposit)
    requires i in b.places
  {
    && b.places[i] <= {None, Some(tmp), Some(key)}
    && (Some(key) in b.places[i] ==> i in b.stored && b.stored[i] == d)
    && (None in b.places[i] || b.places[i] <= {Some(key)} || b.places[i] <= {Some(tmp)})
  }

  ghost predicate Storing(before: seq<Store>, a: Store, after: seq<Store>, b: Store, tmp: Path, key: Path, d: Deposit) {
    && Stores(a, b, tmp, key, d)
    && before <= after && forall n :: |before| <= n < |after| ==> Stores(a, after[n], tmp, key, d)
  }

  /** Nothing is disturbed except, perhaps, the new directory `j`. */
  ghost predicate StoresOne(b: Store, c: Store, j: Ino, tmp: Path, key: Path, d: Deposit) {
    && c.temps == b.temps && b.place.Keys <= c.place.Keys <= b.place.Keys + {j} && c.places.Keys == c.place.Keys
    && (forall i :: i in b.place && i != j ==> Undisturbed(b, c, i))
    && (j in c.place ==> NewPlaces(c, j, tmp, key, d))
  }

  lemma StoresOn(a: Store, b: Store, c: Store, j: Ino, tmp: Path, key: Path, d: Deposit)
    requires Stores(a, b, tmp, key, d) && j !in a.place && StoresOne(b, c, j, tmp, key, d)
    ensures Stores(a, c, tmp, key, d)
  {
    forall i | i in a.place
      ensures if a.place[i] == Some(tmp) then Settles(a.places[i], c.places[i]) else Undisturbed(a, c, i)
    {
      assert Undisturbed(b, c, i);
      SettlesAlong(a.places[i], b.places[i], c.places[i]);
    }
    forall i | i in c.place && i !in a.place ensures NewPlaces(c, i, tmp, key, d) {
      if i != j { assert NewPlaces(b, i, tmp, key, d) && Undisturbed(b, c, i); }
    }
  }

  lemma StoringOn(before: seq<Store>, a: Store, after: seq<Store>, b: Store, c: Store, j: Ino, tmp: Path, key: Path,
                  d: Deposit)
    requires Storing(before, a, after, b, tmp, key, d) && j !in a.place && StoresOne(b, c, j, tmp, key, d)
    ensures Storing(before, a, after + [c], c, tmp, key, d)
  {
    hide Stores, StoresOne;
    StoresOn(a, b, c, j, tmp, key, d);
  }

  /** Every directory has the same places, and stores the same. */
  ghost predicate SameNames(a: Store, b: Store) {
    && b.place == a.place && b.places == a.places && b.stored == a.stored && b.temps == a.temps
    && b.w.names == a.w.names && b.w.doomed == a.w.doomed && b.w.holder == a.w.holder && b.w.live.Keys == a.w.live.Keys
    && forall i :: Usable(b, i) <==> Usable(a, i)
  }

  lemma StoresAlike(a: Store, b: Store, c: Store, tmp: Path, key: Path, d: Deposit)
    requires Stores(a, b, tmp, key, d)
    requires c.place == b.place && c.places == b.places && c.stored == b.stored && c.temps == b.temps
    requires c.w.doomed == b.w.doomed
    requires forall i :: Usable(c, i) <==> Usable(b, i)
    ensures Stores(a, c, tmp, key, d)
  {
    forall i | i in a.place
      ensures if a.place[i] == Some(tmp) then Settles(a.places[i], c.places[i]) else Undisturbed(a, c, i)
    {
      assert a.place[i] != Some(tmp) ==> Undisturbed(a, b, i);
    }
    forall i | i in c.place && i !in a.place ensures NewPlaces(c, i, tmp, key, d) {
      assert NewPlaces(b, i, tmp, key, d);
    }
  }

  lemma StoringAlike(before: seq<Store>, a: Store, after: seq<Store>, b: Store, c: Store, tmp: Path, key: Path,
                     d: Deposit)
    requires Storing(before, a, after, b, tmp, key, d) && SameNames(b, c)
    ensures Storing(before, a, after + [c], c, tmp, key, d)
  {
    hide Stores;
    StoresAlike(a, b, c, tmp, key, d);
  }

  /** An operation that touches no name does not disturb anything. */
  lemma StoringQuietly(before: seq<Store>, a: Store, mid: seq<Store>, b: Store, after: seq<Store>, c: Store, tmp: Path,
                       key: Path, d: Deposit)
    requires Storing(before, a, mid, b, tmp, key, d) && Quietly(mid, b, after, c)
    ensures Storing(before, a, after, c, tmp, key, d)
  {
    hide KeepsKeys, Stores;
    forall x: Store | SameTree(b, x) ensures Stores(a, x, tmp, key, d) {
      StoresAlike(a, b, x, tmp, key, d);
    }
    hide SameTree;
    assert forall n :: |before| <= n < |mid| ==> after[n] == mid[n];
  }

  lemma StoringAfterDestroying(before: seq<Store>, a: Store, after: seq<Store>, b: Store, i: Ino, tmp: Path, key: Path,
                               d: Deposit)
    requires Destroying(before, a, after, b, i) && i in a.place && a.place[i] == Some(tmp)
    requires a.place.Keys == a.places.Keys
    requires forall j :: j in a.place && a.place[j] == Some(tmp) ==> j == i
    ensures Storing(before, a, after, b, tmp, key, d)
  {
    forall c: Store | Destroys(a, c, i) ensures Stores(a, c, tmp, key, d) {
      forall j | j in a.place
        ensures if a.place[j] == Some(tmp) then Settles(a.places[j], c.places[j]) else Undisturbed(a, c, j)
      {
        assert j != i ==> Undisturbed(a, c, j);
      }
    }
    hide Stores, Destroys;
  }

  lemma StoringFrom(trace: seq<Store>, st: Store, tmp: Path, key: Path, d: Deposit)
    requires st.place.Keys == st.places.Keys
    ensures Storing(trace, st, trace, st, tmp, key, d)
  {
  }

  /** Directory `j` is being filled under the name `dir`. */
  ghost predicate Filling(st: Store, dir: Path, j: Ino) {
    && Known(st.w, dir) && st.w.names[dir] == j && j !in st.w.doomed && j in st.rest && j !in st.stored
    && j in st.place && j in st.places && st.place[j] == Some(dir) && None in st.places[j] && st.w.holder == Free
  }

  lemma FillingName(st: Store, dir: Path, j: Ino)
    requires Filling(st, dir, j)
    ensures dir in st.w.names && st.w.names[dir] == j
  {
  }

  lemma FillingFacts(st: Store, dir: Path, j: Ino)
    requires Filling(st, dir, j)
    ensures Known(st.w, dir) && st.w.names[dir] == j && j !in st.w.doomed && st.w.holder == Free && j in st.rest
    ensures j in st.places && None in st.places[j]
  {
  }

  lemma TmpIsAlone(st: Store, tmp: Path)
    requires Sound(st) && tmp in st.w.names
    ensures var i := st.w.names[tmp];
      i in st.place && st.place[i] == Some(tmp) && forall j :: j in st.place && st.place[j] == Some(tmp) ==> j == i
    ensures st.place.Keys == st.places.Keys
  {
    hide Inv, Traced, RestFilled, BlobsFilled;
  }

  lemma StoringTemps(before: seq<Store>, a: Store, after: seq<Store>, b: Store, tmp: Path, key: Path, d: Deposit)
    requires Storing(before, a, after, b, tmp, key, d)
    ensures b.temps == a.temps
  {
  }

  lemma StoringNewPlaces(before: seq<Store>, a: Store, after: seq<Store>, b: Store, tmp: Path, key: Path, d: Deposit,
                         j: Ino)
    requires Storing(before, a, after, b, tmp, key, d) && j in b.place && j !in a.place
    ensures b.place.Keys == b.places.Keys && NewPlaces(b, j, tmp, key, d) && b.temps == a.temps
  {
  }

  lemma StoringKeepsOld(before: seq<Store>, a: Store, after: seq<Store>, b: Store, tmp: Path, key: Path, d: Deposit)
    requires Storing(before, a, after, b, tmp, key, d)
    ensures forall i :: i in a.place ==> i in b.place
  {
  }

  lemma FillingQuietly(before: seq<Store>, a: Store, after: seq<Store>, b: Store, dir: Path, j: Ino)
    requires Filling(a, dir, j) && Quietly(before, a, after, b) && b.w.holder == Free
    ensures Filling(b, dir, j) && b.rest == a.rest && b.w.names == a.w.names
    ensures FilesOf(a.w, dir).blob.Some? ==> FilesOf(b.w, dir).blob.Some?
  {
  }

  /** The key an operation used traces back to the directory's key, then and now. */
  lemma OpenedKeyTraces(before: seq<Store>, a: Store, after: seq<Store>, b: Store, dir: Path, j: Ino)
    requires Sound(a) && Filling(a, dir, j) && FilesOf(a.w, dir).blob.Some? && Quietly(before, a, after, b)
    ensures OpeningKey(a.w, dir).Some? && TracesTo(b.lineage, j, OpeningKey(a.w, dir))
  {
    hide Inv, Traced, Placed, RestFilled, BlobsFilled, SameTree, OpeningKey;
    OpeningKeyTraces(a.w, a.lineage, dir);
  }

  /** The key an operation uses has not been deleted. */
  lemma UsableKey(st: Store, dir: Path)
    requires Sound(st) && st.w.holder == Free && Known(st.w, dir) && st.w.names[dir] !in st.w.doomed
    ensures var k := OpeningKey(st.w, dir); k.Some? ==> k.value !in st.w.deleted
  {
    hide Inv, Traced, Placed, RestFilled, BlobsFilled, IsPending;
    if OpeningKey(st.w, dir).Some? { OpeningKeyTraces(st.w, st.lineage, dir); }
  }

  lemma FreshFacts(st: Store)
    requires Sound(st)
    ensures var j := st.w.nextIno;
      && j !in st.place && j !in st.places && j !in st.stored && j !in st.w.doomed && j !in st.lineage.root
      && j !in st.w.live
    ensures st.place.Keys == st.places.Keys
  {
    hide Ids, Safe, Spare, Held, Listed, Injective, Agree, BlobsTrace, UpgradesTrace, Complete, BlobsFilled;
  }

  lemma CreateStep(w: World, p: Path)
    requires p !in w.names
    ensures Enabled(w, Create(p))
    ensures var w' := Do(w, Create(p));
      && w'.names == w.names[p := w.nextIno] && w'.live == w.live[w.nextIno := Files(None, None)]
      && w'.doomed == w.doomed && w'.deleted == w.deleted && w'.holder == w.holder
  {
  }

  lemma CreateMove(st: Store, p: Path)
    requires p in st.temps && p !in st.w.names
    ensures Can(st, Keys(Create(p)))
    ensures var j := st.w.nextIno; var st' := Moved(st, Keys(Create(p)));
      && st'.place == st.place[j := Some(p)] && st'.places == st.places[j := {None, Some(p)}] && st'.stored == st.stored
      && st'.temps == st.temps && st'.lineage == st.lineage && st'.rest == st.rest[j := Rest(None, None, None)]
      && st'.w.names == st.w.names[p := j] && st'.w.live == st.w.live[j := Files(None, None)]
      && st'.w.doomed == st.w.doomed && st'.w.deleted == st.w.deleted && st'.w.holder == st.w.holder
  {
    hide Do, Enabled;
    CreateStep(st.w, p);
  }

  lemma DirIsCreated(st: Store, p: Path, key: Path, d: Deposit)
    requires Sound(st) && st.w.holder == Free && p in st.temps && p !in st.w.names && key != p
    ensures Can(st, Keys(Create(p))) && st.w.nextIno !in st.place
    ensures var j := st.w.nextIno; var st' := Moved(st, Keys(Create(p)));
      && StoresOne(st, st', j, p, key, d) && Filling(st', p, j) && FilesOf(st'.w, p) == Files(None, None)
      && j !in st'.lineage.root && st'.w.names == st.w.names[p := j]
  {
    hide Sound, Moved, Can, StoresOne;
    CreateMove(st, p);
    FreshFacts(st);
    StoredIsLive(st);
    CreatingStores(st, Moved(st, Keys(Create(p))), p, key, d);
  }

  lemma CreatingStores(st: Store, st': Store, p: Path, key: Path, d: Deposit)
    requires var j := st.w.nextIno;
      && j !in st.place && j !in st.places && j !in st.stored && j !in st.w.live && st.place.Keys == st.places.Keys
      && st'.place == st.place[j := Some(p)] && st'.places == st.places[j := {None, Some(p)}] && st'.stored == st.stored
      && st'.temps == st.temps && st'.rest == st.rest[j := Rest(None, None, None)]
      && st'.w.live == st.w.live[j := Files(None, None)]
      && st'.w.doomed == st.w.doomed && st'.w.deleted == st.w.deleted && key != p
    ensures StoresOne(st, st', st.w.nextIno, p, key, d)
  {
  }

  lemma RestIsWritten(st: Store, dir: Path, j: Ino, r: Rest)
    requires Filling(st, dir, j)
    ensures Can(st, WriteRest(dir, r))
    ensures var st' := Moved(st, WriteRest(dir, r));
      SameNames(st, st') && Filling(st', dir, j) && st'.rest[j] == r && st'.w == st.w && st'.lineage == st.lineage
  {
  }

  lemma StoreBlobStep(w: World, p: Path)
    requires Known(w, p) && w.names[p] !in w.doomed && FilesOf(w, p) == Files(None, None) && w.holder == Free
    ensures Enabled(w, StoreBlob(p))
    ensures var w' := Do(w, StoreBlob(p));
      && w'.names == w.names && w'.live == w.live[w.names[p] := Files(Some(w.nextKey), None)]
      && w'.doomed == w.doomed && w'.holder == w.holder
  {
  }

  lemma BlobIsStored(st: Store, dir: Path, j: Ino)
    requires Sound(st) && Filling(st, dir, j) && FilesOf(st.w, dir) == Files(None, None) && j !in st.lineage.root
    ensures Can(st, Keys(StoreBlob(dir)))
    ensures var st' := Moved(st, Keys(StoreBlob(dir)));
      SameNames(st, st') && Filling(st', dir, j) && st'.rest == st.rest && FilesOf(st'.w, dir).blob.Some?
  {
    hide Do, Enabled, Next, Inv, LiveIsWorst, Traced, Placed, RestFilled, BlobsFilled, Lost;
    StoreBlobStep(st.w, dir);
    QuietParts(st, StoreBlob(dir));
    StoredIsLive(st);
    forall i | i in st.w.live
      ensures Lost(Do(st.w, StoreBlob(dir)), i) <==> Lost(st.w, i)
    {
      LostStays(st.w, StoreBlob(dir), i);
    }
  }

  lemma SyncKeysStep(w: World, p: Path)
    requires Known(w, p)
    ensures Enabled(w, SyncKeys(p))
    ensures var w' := Do(w, SyncKeys(p));
      && w'.names == w.names && w'.live == w.live && w'.doomed == w.doomed && w'.deleted == w.deleted
      && w'.holder == w.holder
  {
  }

  lemma DirIsFinished(st: Store, dir: Path, j: Ino, d: Deposit, key: Path)
    requires Filling(st, dir, j) && Complete(st.rest[j], d, st.lineage, j)
    requires (d.auth.UsesKeystore() ==> FilesOf(st.w, dir).blob.Some?)
    requires NewPlaces(st, j, dir, key, d) && st.place.Keys == st.places.Keys
    ensures Can(st, Finish(dir, d))
    ensures var st' := Moved(st, Finish(dir, d));
      && StoresOne(st, st', j, dir, key, d) && st'.stored == st.stored[j := d] && st'.place == st.place
      && st'.places == st.places
      && st'.w.names == st.w.names && st'.w.doomed == st.w.doomed && st'.w.holder == Free && st'.temps == st.temps
  {
    hide Do, Enabled, Complete;
    SyncKeysStep(st.w, dir);
  }

  lemma RenameStores(st: Store, st': Store, from: Path, to: Path, d: Deposit)
    requires Renames(st, st', from, to) && st.place.Keys == st.places.Keys && st.w.names[from] in st.place
    requires var j := st.w.names[from];
      j in st.stored && st.stored[j] == d && NewPlaces(st, j, from, to, d) && None in st.places[j]
    ensures StoresOne(st, st', st.w.names[from], from, to, d)
  {
  }

  /** Syncing the directory above settles where a directory is. */
  lemma NamesAreSynced(st: Store, dir: Path)
    requires st.place.Keys == st.places.Keys && forall i :: i in st.place ==> st.place[i] in st.places[i]
    ensures Can(st, SyncNames(dir))
    ensures var st' := Moved(st, SyncNames(dir));
      && st' == st.(places := st'.places) && st'.places.Keys == st.places.Keys
      && (forall i :: Undisturbed(st, st', i))
      && (forall i :: i in st.place && st.place[i].Some? && Parent(st.place[i].value) == dir ==>
          st'.places[i] == {st.place[i]})
  {
    hide Parent;
  }

  /** Every directory below `dir` is certain to be found under its name. */
  ghost predicate SyncedBelow(st: Store, dir: Path) {
    forall p :: p in st.w.names && Parent(p) == dir ==>
        st.w.names[p] in st.places && st.places[st.w.names[p]] == {Some(p)}
  }

  lemma SyncSettlesNames(st: Store, dir: Path)
    requires Sound(st)
    ensures Can(st, SyncNames(dir)) && SyncedBelow(Moved(st, SyncNames(dir)), dir)
  {
    hide Inv, LiveIsWorst, Traced, RestFilled, BlobsFilled, Parent;
    NameFacts(st);
  }

  lemma SyncStores(st: Store, j: Ino, tmp: Path, key: Path, d: Deposit, st': Store)
    requires st' == st.(places := st'.places) && st'.places.Keys == st.places.Keys == st.place.Keys
    requires (forall i :: Undisturbed(st, st', i))
    requires j in st.place && NewPlaces(st, j, tmp, key, d)
    ensures StoresOne(st, st', j, tmp, key, d)
  {
    assert Undisturbed(st, st', j);
  }

  lemma CutPlaces(st: Store, cut: Move, dir: Path)
    requires Can(st, cut) && cut.Cut? && dir in Moved(st, cut).w.names
    ensures var i := Moved(st, cut).w.names[dir]; i in st.places && Some(dir) in st.places[i]
    ensures Moved(st, cut).stored == st.stored && Moved(st, cut).temps == st.temps
  {
    hide Do, Enabled;
    CutEffect(st.w, cut.s);
  }

  /**
    Wherever power is lost while a key is being stored, the final name is absent, or a directory that
    might have been there before, or a complete one from which the key is retrieved.
  */
  lemma StoreCutOff(before: seq<Store>, a: Store, after: seq<Store>, b: Store, tmp: Path, key: Path, d: Deposit, n: nat,
                    cut: Move)
    requires Storing(before, a, after, b, tmp, key, d) && IsTrace(after) && |before| <= n < |after| && key !in a.temps
    requires cut.Cut? && Can(after[n], cut)
    ensures var st := Moved(after[n], cut);
      key in st.w.names && st.w.names[key] !in st.w.doomed ==>
        var i := st.w.names[key];
        || (i in a.places && Some(key) in a.places[i])
        || (i in st.stored && st.stored[i] == d && Retrieved(st, key, d.auth, d.seed) == Some(d.message))
  {
    hide Sound, Can, Moved, Retrieved, IsTrace, Storing;
    var mid := after[n];
    var st := Moved(mid, cut);
    TraceIsSound(after, n);
    MoveKeeps(mid, cut);
    LossFreesTheLock(mid, cut);
    assert Stores(a, mid, tmp, key, d) by { StoringAt(before, a, after, b, tmp, key, d, n); }
    if key in st.w.names && st.w.names[key] !in st.w.doomed {
      CutPlaces(mid, cut, key);
      var i := st.w.names[key];
      assert i in a.place ==> a.place[i] == Some(tmp) || Undisturbed(a, mid, i);
      assert i !in a.place ==> NewPlaces(mid, i, tmp, key, d);
      StoredIsRetrievable(st, key);
    }
  }

  lemma StoringAt(before: seq<Store>, a: Store, after: seq<Store>, b: Store, tmp: Path, key: Path, d: Deposit, n: nat)
    requires Storing(before, a, after, b, tmp, key, d) && |before| <= n < |after|
    ensures Stores(a, after[n], tmp, key, d)
  {
  }

  /** A checkpoint saves what there is, and nothing of that is undone by a power cut. */
  lemma CheckpointBegins(st: Store)
    requires st.w.holder == Free && !st.w.checkpointing && !st.w.sweepDue
    ensures Can(st, Keys(BeginCheckpoint))
    ensures var b := Moved(st, Keys(BeginCheckpoint));
      && b.w.holder == Free && b.w.pending == st.w.pending && b.w.checkpointing && b.w.names == st.w.names
      && b.w.doomed == st.w.doomed && b.w.deleted == st.w.deleted && b.w.live == st.w.live && b.w.saved == st.w.live
      && b.place == st.place && b.places == Settled(st.place) && b.stored == st.stored && b.rest == st.rest
      && b.temps == st.temps && b.savedStored == st.stored && b.savedPlace == st.place && b.savedRest == st.rest
  {
    hide Settled, RestVersions, LiveVersions;
  }

  // ----- What the steps of an operation do -----

  /** The list, the lock and the directory's blob are as they were. */
  ghost predicate SameOp(w: World, w': World, dir: Path) {
    && w'.holder == w.holder && w'.pending == w.pending && w'.names == w.names && Known(w, dir) && Known(w', dir)
    && FilesOf(w', dir).blob == FilesOf(w, dir).blob
  }

  lemma LeftoverDeleted(w: World, dir: Path)
    requires w.holder == Opening(dir) && Known(w, dir) && !IsPending(w, dir) && FilesOf(w, dir).upgraded.Some?
    ensures Enabled(w, DeleteLeftover) && SameOp(w, Do(w, DeleteLeftover), dir)
    ensures FilesOf(Do(w, DeleteLeftover), dir) == FilesOf(w, dir)
    ensures Do(w, DeleteLeftover).deleted == w.deleted + {FilesOf(w, dir).upgraded.value}
    ensures Do(w, DeleteLeftover).nextKey == w.nextKey
  {
    hide IsPending;
  }

  lemma LeftoverUnlinked(w: World, dir: Path)
    requires w.holder == Opening(dir) && Known(w, dir) && !IsPending(w, dir) && FilesOf(w, dir).upgraded.Some?
    ensures Enabled(w, UnlinkLeftover) && SameOp(w, Do(w, UnlinkLeftover), dir)
    ensures FilesOf(Do(w, UnlinkLeftover), dir).upgraded == None && Do(w, UnlinkLeftover).deleted == w.deleted
    ensures Do(w, UnlinkLeftover).nextKey == w.nextKey
  {
    hide IsPending;
  }

  /** `w'` differs from `w` at most in the lock holder and in what is durable. */
  ghost predicate SameFiles(w: World, w': World) {
    w'.names == w.names && w'.live == w.live && w'.pending == w.pending && w'.doomed == w.doomed
  }

  lemma LockTaken(w: World, dir: Path)
    requires w.holder == Free && Known(w, dir) && w.names[dir] !in w.doomed
    ensures Enabled(w, Acquire(dir)) && Do(w, Acquire(dir)) == w.(holder := Opening(dir))
  {
  }

  lemma LockReleased(w: World)
    requires w.holder.Opening?
    ensures Enabled(w, Release) && Do(w, Release) == w.(holder := Free)
  {
  }

  lemma CommitLeavesFiles(w: World)
    requires w.checkpointing
    ensures Enabled(w, CommitCheckpoint)
    ensures var w' := Do(w, CommitCheckpoint); SameFiles(w, w') && w'.holder == w.holder && w'.deleted == w.deleted
  {
  }

  lemma UpgradeBegun(w: World, dir: Path)
    requires w.holder == Opening(dir) && Known(w, dir) && !IsPending(w, dir) && FilesOf(w, dir).blob.Some?
    ensures Enabled(w, GetUpgraded)
    ensures var w' := Do(w, GetUpgraded); SameFiles(w, w') && w'.holder == Upgrading(dir, w.nextKey)
  {
    hide IsPending;
  }

  /** The new key has replaced the old one, or is on disk beside it and listed to do so. */
  ghost predicate Upgraded(w: World, w': World, dir: Path, k: Key)
    requires Known(w, dir) && Known(w', dir)
  {
    || (w'.pending == w.pending + [dir] && FilesOf(w', dir) == Files(FilesOf(w, dir).blob, Some(k)))
    || (w'.pending == w.pending && FilesOf(w', dir) == Files(Some(k), None))
  }

  lemma WriteIsAbandoned(w: World)
    requires w.holder.Upgrading?
    ensures Enabled(w, WriteAbandoned) && Do(w, WriteAbandoned).holder == Free && SameFiles(w, Do(w, WriteAbandoned))
  {
  }

  lemma WriteBegins(w: World, dir: Path)
    requires w.holder.Upgrading? && w.holder.dir == dir && Known(w, dir)
    ensures Enabled(w, WriteBegun) && SameOp(w, Do(w, WriteBegun), dir)
  {
  }

  lemma WriteEnds(w: World, dir: Path)
    requires w.holder.Upgrading? && w.holder.dir == dir && Known(w, dir)
    ensures Enabled(w, WriteDone) && Do(w, WriteDone).holder == Written(dir) && Known(Do(w, WriteDone), dir)
    ensures FilesOf(Do(w, WriteDone), dir) == FilesOf(w, dir).(upgraded := Some(w.holder.key))
    ensures Do(w, WriteDone).pending == w.pending
    ensures Do(w, WriteDone).names == w.names
    ensures Enabled(w, WriteFailed) && Do(w, WriteFailed).holder == Free && Known(Do(w, WriteFailed), dir)
    ensures FilesOf(Do(w, WriteFailed), dir) == FilesOf(w, dir).(upgraded := None)
    ensures Do(w, WriteFailed).pending == w.pending
    ensures Do(w, WriteFailed).names == w.names
  {
  }

  lemma UpgradeDecided(w: World)
    requires w.holder.Written?
    ensures Enabled(w, Decide)
    ensures var w' := Do(w, Decide); SameFiles(w, w') && w'.holder == Decided(w.holder.dir, w.checkpointing)
  {
  }

  lemma UpgradeScheduled(w: World)
    requires w.holder.Decided? && w.holder.defer
    ensures Enabled(w, Schedule)
    ensures var w' := Do(w, Schedule);
      w'.holder == Free && w'.pending == w.pending + [w.holder.dir] && w'.live == w.live && w'.names == w.names
  {
  }

  lemma DecidedIsReady(st: Store, dir: Path)
    requires Sound(st) && st.w.holder.Decided? && st.w.holder.dir == dir && Known(st.w, dir)
    ensures FilesOf(st.w, dir).upgraded.Some?
  {
    hide Shape, Ids, Safe, Spare, Listed, Traced, Placed, RestFilled, BlobsFilled;
    assert Ready(st.w, dir);
  }

  /** The holder is about to commit this directory, and then does `rest`. */
  ghost predicate Committing(w: World, dir: Path, rest: Option<seq<Path>>) {
    || (w.holder == Decided(dir, false) && rest == None)
    || (w.holder.Sweeping? && w.holder.dirs != [] && w.holder.dirs[0] == dir && rest == Some(w.holder.dirs[1..]))
  }

  lemma BlobRenamed(w: World, dir: Path, rest: Option<seq<Path>>)
    requires Committing(w, dir, rest) && CommitTarget(w, dir)
    ensures Enabled(w, RenameBlob)
    ensures var w' := Do(w, RenameBlob);
      && w'.holder == Renamed(dir, FilesOf(w, dir).blob.value, rest) && w'.names == w.names && w'.deleted == w.deleted
      && w'.pending == w.pending && w'.live == w.live[w.names[dir] := Files(FilesOf(w, dir).upgraded, None)]
  {
  }

  lemma CommitSkipped(w: World, dir: Path, rest: Option<seq<Path>>)
    requires Committing(w, dir, rest)
    ensures Enabled(w, SkipCommit)
    ensures var w' := Do(w, SkipCommit); SameFiles(w, w') && w'.deleted == w.deleted && w'.holder == NextHolder(rest)
  {
  }

  lemma RenameSynced(w: World)
    requires w.holder.Renamed? && Known(w, w.holder.dir)
    ensures Enabled(w, SyncDir) && Enabled(w, SyncFailed)
    ensures var w' := Do(w, SyncDir);
      SameFiles(w, w') && w'.deleted == w.deleted && w'.holder == Synced(w.holder.was, w.holder.rest)
    ensures var w' := Do(w, SyncFailed);
      SameFiles(w, w') && w'.deleted == w.deleted && w'.holder == NextHolder(w.holder.rest)
  {
  }

  lemma OldKeyDeleted(w: World)
    requires w.holder.Synced?
    ensures Enabled(w, DeleteOld) && Enabled(w, KeepOld)
    ensures var w' := Do(w, DeleteOld);
      SameFiles(w, w') && w'.deleted == w.deleted + {w.holder.was} && w'.holder == NextHolder(w.holder.rest)
    ensures var w' := Do(w, KeepOld);
      SameFiles(w, w') && w'.deleted == w.deleted && w'.holder == NextHolder(w.holder.rest)
  {
  }

  lemma SamePending(w: World, w': World, dir: Path)
    requires w'.pending == w.pending && w'.names == w.names
    ensures IsPending(w', dir) == IsPending(w, dir)
  {
  }

  lemma SweepBegun(st: Store)
    requires Sound(st) && st.w.holder == Free && st.w.sweepDue
    ensures Enabled(st.w, SweepBegin) && Do(st.w, SweepBegin) == st.w.(holder := Sweeping(st.w.pending))
    ensures forall n :: 0 <= n < |st.w.pending| ==>
        Known(st.w, st.w.pending[n]) && FilesOf(st.w, st.w.pending[n]).upgraded.Some?
    ensures forall m, n :: 0 <= m < n < |st.w.pending| ==> st.w.names[st.w.pending[m]] != st.w.names[st.w.pending[n]]
  {
    hide Ids, Safe, Spare, Listed, Traced, Placed, RestFilled, BlobsFilled;
    assert forall n :: 0 <= n < |st.w.pending| ==> Ready(st.w, st.w.pending[n]);
  }

  /** The first `n` directories of a sweep are dealt with; if nothing failed they have their new keys. */
  ghost predicate Swept(a: World, w: World, dirs: seq<Path>, n: nat, clean: bool)
    requires n <= |dirs|
  {
    && w.names == a.names
    && (forall k :: 0 <= k < |dirs| ==> Known(a, dirs[k]) && Known(w, dirs[k]))
    && (forall m, k :: 0 <= m < k < |dirs| ==> a.names[dirs[m]] != a.names[dirs[k]])
    && (forall k :: n <= k < |dirs| ==> FilesOf(w, dirs[k]) == FilesOf(a, dirs[k]))
    && (clean ==> forall k :: 0 <= k < n && CommitTarget(a, dirs[k]) ==>
        FilesOf(w, dirs[k]) == Files(FilesOf(a, dirs[k]).upgraded, None))
  }

  lemma SweptFrom(a: World, w: World, dirs: seq<Path>)
    requires w.names == a.names && w.live == a.live
    requires (forall k :: 0 <= k < |dirs| ==> dirs[k] in a.names && Known(a, dirs[k]))
    requires forall m, k :: 0 <= m < k < |dirs| ==> a.names[dirs[m]] != a.names[dirs[k]]
    ensures Swept(a, w, dirs, 0, true)
  {
  }

  lemma SweptKnown(a: World, w: World, dirs: seq<Path>, n: nat, clean: bool)
    requires n <= |dirs| && Swept(a, w, dirs, n, clean)
    ensures w.names == a.names && (n < |dirs| ==> Known(w, dirs[n]))
    ensures n == |dirs| && clean ==> forall k :: 0 <= k < n && CommitTarget(a, dirs[k]) ==>
      Known(w, dirs[k]) && FilesOf(w, dirs[k]) == Files(FilesOf(a, dirs[k]).upgraded, None)
  {
  }

  lemma SweptOn(a: World, w: World, w': World, dirs: seq<Path>, n: nat, clean: bool, clean': bool)
    requires n < |dirs| && Swept(a, w, dirs, n, clean) && (clean' ==> clean) && w'.names == w.names
    requires Known(w', dirs[n])
    requires forall i :: i in w.live && i != w.names[dirs[n]] ==> i in w'.live && w'.live[i] == w.live[i]
    requires clean' && CommitTarget(w, dirs[n]) ==> FilesOf(w', dirs[n]) == Files(FilesOf(w, dirs[n]).upgraded, None)
    ensures Swept(a, w', dirs, n + 1, clean')
  {
  }

  lemma RenamedKey(a: Store, b: Store, from: Path, to: Path)
    requires Renames(a, b, from, to) && a.w.names[from] in a.stored
    ensures var i := a.w.names[from];
      i in b.place && b.place[i] == Some(to) && to in b.w.names && b.w.names[to] == i && i in b.stored
    ensures b.stored == a.stored && b.w.doomed == a.w.doomed && b.temps == a.temps && to !in a.w.names
    ensures forall p :: p != from && p != to ==>
      (p in b.w.names <==> p in a.w.names) && (p in b.w.names ==> b.w.names[p] == a.w.names[p])
  {
  }

  lemma SweepEnded(w: World)
    requires w.holder == Sweeping([])
    ensures Enabled(w, SweepEnd) && Do(w, SweepEnd) == w.(pending := [], sweepDue := false, holder := Free)
  {
  }

  lemma QuietlyFrom(trace: seq<Store>, st: Store)
    ensures Quietly(trace, st, trace, st)
  {
  }
}
