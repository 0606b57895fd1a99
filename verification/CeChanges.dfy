/**
  What operations keep of the bindings of users' keys: which of them stay bound at every moment, which
  keys are never lost, and what is left of what was put off.
*/
module CeChanges {
  import opened Wrappers
  import opened KeyUpgrade
  import opened KeyLineage
  import opened KeyDeletions
  import opened KeyDirectories
  import opened KeyMoves
  import opened CeKeyNames
  import opened CeBindings

  /** Bindings stay bound, except the directories in `gone`. */
  ghost predicate Spares(a: Store, b: Store, gone: set<Ino>) {
    forall i, dir: Path :: i !in gone && Bound(a, i, dir) ==> Bound(b, i, dir) && b.stored[i] == a.stored[i]
  }

  ghost predicate Guarding(before: seq<Store>, a: Store, after: seq<Store>, b: Store, gone: set<Ino>) {
    && Spares(a, b, gone)
    && before <= after && forall n :: |before| <= n < |after| ==> Spares(a, after[n], gone)
  }

  lemma GuardFrom(trace: seq<Store>, st: Store)
    ensures Guarding(trace, st, trace, st, {})
  {
  }

  lemma SparesAlong(a: Store, b: Store, c: Store, d: set<Ino>, e: set<Ino>)
    requires Spares(a, b, d) && Spares(b, c, e)
    ensures Spares(a, c, d + e)
  {
    hide AllBelow;
    forall i, dir: Path | i !in d + e && Bound(a, i, dir) ensures Bound(c, i, dir) && c.stored[i] == a.stored[i] {
      assert Bound(b, i, dir);
    }
  }

  lemma GuardAlong(before: seq<Store>, a: Store, mid: seq<Store>, b: Store, after: seq<Store>, c: Store, d: set<Ino>,
                   e: set<Ino>)
    requires Guarding(before, a, mid, b, d) && Guarding(mid, b, after, c, e)
    ensures Guarding(before, a, after, c, d + e)
  {
    hide Bound;
    SparesAlong(a, b, c, d, e);
    forall n | |before| <= n < |after| ensures Spares(a, after[n], d + e) {
      if n < |mid| {
        assert after[n] == mid[n] && Spares(a, mid[n], d);
      } else {
        SparesAlong(a, b, after[n], d, e);
      }
    }
  }

  lemma GuardParts(before: seq<Store>, a: Store, after: seq<Store>, b: Store, gone: set<Ino>)
    requires Guarding(before, a, after, b, gone)
    ensures Spares(a, b, gone) && before <= after
  {
  }

  lemma UndisturbedStaysBound(a: Store, b: Store, i: Ino, dir: Path)
    requires Undisturbed(a, b, i) && Bound(a, i, dir)
    ensures Bound(b, i, dir) && b.stored[i] == a.stored[i]
  {
  }

  lemma GuardQuietly(before: seq<Store>, a: Store, after: seq<Store>, b: Store)
    requires Quietly(before, a, after, b)
    ensures Guarding(before, a, after, b, {})
  {
    hide KeepsKeys;
    forall c: Store | SameTree(a, c) ensures Spares(a, c, {}) { }
    hide SameTree, Spares;
  }

  lemma GuardDestroying(before: seq<Store>, a: Store, after: seq<Store>, b: Store, i: Ino)
    requires Destroying(before, a, after, b, i)
    ensures Guarding(before, a, after, b, {i})
  {
    forall c: Store | Destroys(a, c, i) ensures Spares(a, c, {i}) {
      forall j, dir: Path | j !in {i} && Bound(a, j, dir) ensures Bound(c, j, dir) && c.stored[j] == a.stored[j] {
        UndisturbedStaysBound(a, c, j, dir);
      }
    }
    hide Destroys, Spares;
  }

  lemma GuardStoring(before: seq<Store>, a: Store, after: seq<Store>, b: Store, tmp: Path, key: Path, d: Deposit)
    requires Storing(before, a, after, b, tmp, key, d) && tmp in a.temps && NoCeTemps(a.temps)
    requires forall i :: i in a.place && i in a.places ==> a.place[i] in a.places[i]
    ensures Guarding(before, a, after, b, {})
  {
    forall c: Store | Stores(a, c, tmp, key, d) ensures Spares(a, c, {}) {
      forall i, dir: Path | i !in {} && Bound(a, i, dir) ensures Bound(c, i, dir) && c.stored[i] == a.stored[i] {
        assert a.place[i] != Some(tmp);
        UndisturbedStaysBound(a, c, i, dir);
      }
    }
    hide Stores, Spares;
  }

  /** A binding may be renamed to another name of a binding of the same user. */
  lemma GuardRename(trace: seq<Store>, a: Store, b: Store, from: Path, to: Path, dir: Path)
    requires Renames(a, b, from, to) && IsCeKeyPath(dir, from) && IsCeKeyPath(dir, to)
    requires a.w.names[from] in a.place && a.place[a.w.names[from]] == Some(from)
    requires Some(from) in a.places[a.w.names[from]]
    ensures Guarding(trace, a, trace + [b], b, {})
  {
    var i := a.w.names[from];
    forall j, d: Path | j !in {} && Bound(a, j, d) ensures Bound(b, j, d) && b.stored[j] == a.stored[j] {
      if j == i { CeKeyPathHasOneDir(d, dir, from); }
    }
  }

  lemma GuardSync(trace: seq<Store>, a: Store, b: Store)
    requires b == a.(places := b.places) && forall i :: Undisturbed(a, b, i)
    ensures Guarding(trace, a, trace + [b], b, {})
  {
    forall j, d: Path | j !in {} && Bound(a, j, d) ensures Bound(b, j, d) && b.stored[j] == a.stored[j] {
      UndisturbedStaysBound(a, b, j, d);
    }
  }

  // ----- Fixating -----

  /** The directories that fixating `toFix` destroys. */
  ghost function Others(a: Store, toFix: Path, paths: seq<Path>): set<Ino> {
    set p | p in paths && p != toFix && p in a.w.names :: a.w.names[p]
  }

  /** `a` has become `b` by destroying the paths other than `toFix`, and perhaps renaming that one. */
  ghost predicate Fixated(a: Store, b: Store, dir: Path, toFix: Path, paths: seq<Path>) {
    && toFix in a.w.names
    && b.stored == a.stored && b.temps == a.temps
    && b.w.live == a.w.live && (a.w.pending == [] ==> b.w.pending == []) && b.w.checkpointing == a.w.checkpointing
    && var i := a.w.names[toFix];
       && (i in a.rest ==> i in b.rest && b.rest[i] == a.rest[i]) && (Usable(a, i) ==> Usable(b, i))
       && (|| (toFix in b.w.names && b.w.names[toFix] == i)
           || (CurrentPath(dir) in b.w.names && b.w.names[CurrentPath(dir)] == i))
       && (forall p :: p in b.w.names ==>
           (p in a.w.names && a.w.names[p] == b.w.names[p]) || (p == CurrentPath(dir) && b.w.names[p] == i))
       && (forall p :: p in a.w.names && p !in paths && p != toFix ==> p in b.w.names && b.w.names[p] == a.w.names[p])
  }

  /** The paths and `toFix` are all bindings there are below `dir`. */
  ghost predicate AllListed(st: Store, dir: Path, toFix: Path, paths: seq<Path>) {
    forall q :: q in st.w.names && IsCeKeyPath(dir, q) ==> q == toFix || q in paths
  }

  /** There is no binding but, perhaps, the canonical one. */
  ghost predicate OnlyCurrent(st: Store, dir: Path) {
    forall q :: q in st.w.names && IsCeKeyPath(dir, q) ==> q == CurrentPath(dir)
  }

  lemma CurrentIsListed(st: Store, dir: Path, toFix: Path, paths: seq<Path>)
    requires AllListed(st, dir, toFix, paths)
    ensures CurrentPath(dir) in st.w.names ==> CurrentPath(dir) == toFix || CurrentPath(dir) in paths
  {
    CurrentIsCeKeyPath(dir);
  }

  lemma SyncedBindings(a: Store, b: Store, dir: Path)
    requires Sound(a) && b.w == a.w
    requires forall i :: i in a.place && a.place[i].Some? && Parent(a.place[i].value) == dir ==>
        i in b.places && b.places[i] == {a.place[i]}
    ensures forall p :: p in b.w.names && IsCeKeyPath(dir, p) ==>
        b.w.names[p] in b.places && b.places[b.w.names[p]] == {Some(p)}
  {
    hide Sound, IsCeKeyPath, Parent;
    forall p | p in b.w.names && IsCeKeyPath(dir, p)
      ensures b.w.names[p] in b.places && b.places[b.w.names[p]] == {Some(p)}
    {
      PlaceOfName(a, p);
      ParentOfCeKeyPath(dir, p);
    }
  }

  lemma OthersAreGone(a: Store, b: Store, c: Store, dir: Path, toFix: Path, paths: seq<Path>)
    requires AllListed(a, dir, toFix, paths) && (forall q :: q in b.w.names ==> q in a.w.names)
    requires forall p :: p in paths && p != toFix ==> p !in b.w.names
    requires if toFix == CurrentPath(dir) then c.w.names == b.w.names else Renames(b, c, toFix, CurrentPath(dir))
    ensures OnlyCurrent(c, dir)
  {
    hide IsCeKeyPath;
  }

  lemma OnlyCurrentStays(a: Store, b: Store, dir: Path, toFix: Path, paths: seq<Path>, other: Path)
    requires Fixated(a, b, dir, toFix, paths) && OnlyCurrent(a, other) && other != dir
    ensures OnlyCurrent(b, other)
  {
    CurrentIsCeKeyPath(dir);
    forall q | q in b.w.names && IsCeKeyPath(other, q) ensures q == CurrentPath(other) {
      if q == CurrentPath(dir) { CeKeyPathHasOneDir(dir, other, q); }
    }
  }

  /** Halfway through fixating `toFix`: the paths in `done` are dealt with. */
  ghost predicate Fixing(before: seq<Store>, a: Store, after: seq<Store>, b: Store, dir: Path, toFix: Path,
                         done: seq<Path>) {
    && Guarding(before, a, after, b, Others(a, toFix, done)) && Fixated(a, b, dir, toFix, done)
    && toFix in b.w.names && b.w.names[toFix] == a.w.names[toFix]
    && forall q :: q in b.w.names ==> q in a.w.names && b.w.names[q] == a.w.names[q]
  }

  lemma FixingFrom(trace: seq<Store>, st: Store, dir: Path, toFix: Path)
    requires toFix in st.w.names
    ensures Fixing(trace, st, trace, st, dir, toFix, [])
  {
    GuardFrom(trace, st);
    assert Others(st, toFix, []) == {};
    hide Guarding;
  }

  lemma FixingParts(before: seq<Store>, a: Store, after: seq<Store>, b: Store, dir: Path, toFix: Path, done: seq<Path>)
    requires Fixing(before, a, after, b, dir, toFix, done)
    ensures Guarding(before, a, after, b, Others(a, toFix, done)) && Fixated(a, b, dir, toFix, done)
    ensures b.temps == a.temps
    ensures toFix in b.w.names && b.w.names[toFix] == a.w.names[toFix]
    ensures forall q :: q in b.w.names ==> q in a.w.names && b.w.names[q] == a.w.names[q]
  {
  }

  lemma FixingSkips(before: seq<Store>, a: Store, after: seq<Store>, b: Store, dir: Path, toFix: Path, done: seq<Path>,
                    p: Path)
    requires Fixing(before, a, after, b, dir, toFix, done) && (p == toFix || p !in b.w.names)
    ensures Fixing(before, a, after, b, dir, toFix, done + [p])
  {
    hide Guarding;
    assert Others(a, toFix, done + [p]) == Others(a, toFix, done);
  }

  lemma FixingDestroys(before: seq<Store>, a: Store, mid: seq<Store>, b: Store, after: seq<Store>, c: Store,
                       dir: Path, toFix: Path, done: seq<Path>, p: Path)
    requires Fixing(before, a, mid, b, dir, toFix, done) && p != toFix && p in b.w.names
    requires Destroying(mid, b, after, c, b.w.names[p]) && Sound(b)
    requires c.w.names == b.w.names || c.w.names == b.w.names - {p}
    ensures Fixing(before, a, after, c, dir, toFix, done + [p])
  {
    hide Guarding, Destroying, Sound, Usable, Fixated;
    var i := b.w.names[p];
    FixatedDestroys(a, mid, b, after, c, dir, toFix, done, p);
    GuardDestroying(mid, b, after, c, i);
    GuardAlong(before, a, mid, b, after, c, Others(a, toFix, done), {i});
    assert Others(a, toFix, done + [p]) == Others(a, toFix, done) + {i};
  }

  lemma FixatedDestroys(a: Store, mid: seq<Store>, b: Store, after: seq<Store>, c: Store, dir: Path, toFix: Path,
                        done: seq<Path>, p: Path)
    requires Fixated(a, b, dir, toFix, done) && p != toFix && p in b.w.names
    requires Destroying(mid, b, after, c, b.w.names[p]) && Sound(b)
    requires toFix in b.w.names && b.w.names[toFix] == a.w.names[toFix]
    requires c.w.names == b.w.names || c.w.names == b.w.names - {p}
    ensures Fixated(a, c, dir, toFix, done + [p])
  {
    hide Destroying, Sound, Usable;
    var i, kept := b.w.names[p], a.w.names[toFix];
    NameFacts(b);
    PlacesKnown(b);
    DestroyingSpares(mid, b, after, c, i, kept);
    DestroyingParts(mid, b, after, c, i);
    assert p in done + [p] && forall q :: q in done ==> q in done + [p];
  }

  lemma DestroyingSpares(before: seq<Store>, a: Store, after: seq<Store>, b: Store, i: Ino, j: Ino)
    requires Destroying(before, a, after, b, i) && j != i && j in a.place && j in a.places
    ensures Usable(b, j) <==> Usable(a, j)
  {
    assert Undisturbed(a, b, j);
  }

  lemma FixingRenames(before: seq<Store>, a: Store, mid: seq<Store>, b: Store, c: Store, dir: Path, toFix: Path,
                      paths: seq<Path>)
    requires Fixing(before, a, mid, b, dir, toFix, paths) && Sound(b) && NoCeTemps(b.temps) && IsCeKeyPath(dir, toFix)
    requires Renames(b, c, toFix, CurrentPath(dir))
    ensures Guarding(before, a, mid + [c], c, Others(a, toFix, paths)) && Fixated(a, c, dir, toFix, paths)
    ensures CurrentPath(dir) in c.w.names && c.w.names[CurrentPath(dir)] == a.w.names[toFix] && c.temps == b.temps
  {
    hide Guarding, Sound, NoCeTemps, IsCeKeyPath;
    CeKeyPathIsStored(b, dir, toFix);
    CurrentIsCeKeyPath(dir);
    GuardRename(mid, b, c, toFix, CurrentPath(dir), dir);
    GuardAlong(before, a, mid, b, mid + [c], c, Others(a, toFix, paths), {});
    assert Others(a, toFix, paths) + {} == Others(a, toFix, paths);
  }

  lemma FixingSyncs(before: seq<Store>, a: Store, mid: seq<Store>, b: Store, c: Store, dir: Path, toFix: Path,
                    paths: seq<Path>)
    requires Guarding(before, a, mid, b, Others(a, toFix, paths)) && Fixated(a, b, dir, toFix, paths)
    requires c == b.(places := c.places) && forall i :: Undisturbed(b, c, i)
    ensures Guarding(before, a, mid + [c], c, Others(a, toFix, paths)) && Fixated(a, c, dir, toFix, paths)
  {
    hide Guarding;
    GuardSync(mid, b, c);
    GuardAlong(before, a, mid, b, mid + [c], c, Others(a, toFix, paths), {});
    assert Others(a, toFix, paths) + {} == Others(a, toFix, paths);
  }

  lemma KeptIsNoOther(a: Store, toFix: Path, paths: seq<Path>, q: Path)
    requires Injective(a.w.names) && q in a.w.names && (q == toFix || q !in paths)
    ensures a.w.names[q] !in Others(a, toFix, paths)
  {
  }

  // ----- Certainty -----

  /** Where all bindings were there to stay, all are. */
  ghost predicate NoLessCertain(a: Store, b: Store) {
    forall d :: AllStay(a, d) ==> AllStay(b, d)
  }

  /** The same, except below `dir`. */
  ghost predicate NoLessCertainBut(a: Store, b: Store, dir: Path) {
    forall d :: d != dir && AllStay(a, d) ==> AllStay(b, d)
  }

  lemma CertainFrom(st: Store, dir: Path)
    ensures NoLessCertain(st, st) && NoLessCertainBut(st, st, dir)
  {
  }

  lemma CertainAlong(a: Store, b: Store, c: Store)
    requires NoLessCertain(a, b) && NoLessCertain(b, c)
    ensures NoLessCertain(a, c)
  {
    hide AllStay;
  }

  lemma CertainBut(a: Store, b: Store, dir: Path)
    requires NoLessCertain(a, b)
    ensures NoLessCertainBut(a, b, dir)
  {
    hide AllStay;
  }

  lemma CertainButAlong(a: Store, b: Store, c: Store, dir: Path)
    requires NoLessCertainBut(a, b, dir) && (NoLessCertain(b, c) || NoLessCertainBut(b, c, dir))
    ensures NoLessCertainBut(a, c, dir)
  {
    hide AllStay;
  }

  lemma StillStays(a: Store, b: Store, dir: Path)
    requires NoLessCertain(a, b) && AllStay(a, dir)
    ensures AllStay(b, dir)
  {
    hide AllStay;
  }

  lemma CertainTree(a: Store, b: Store)
    requires SameTree(a, b)
    ensures NoLessCertain(a, b)
  {
    hide IsCeKeyPath;
  }

  lemma DestroyingStays(before: seq<Store>, a: Store, after: seq<Store>, b: Store, p: Path)
    requires Sound(a) && p in a.w.names && Destroying(before, a, after, b, a.w.names[p])
    requires b.w.names == a.w.names || b.w.names == a.w.names - {p}
    ensures NoLessCertain(a, b)
  {
    hide Sound, IsCeKeyPath;
    NameFacts(a);
    PlacesKnown(a);
    forall d, q | AllStay(a, d) && q in b.w.names && IsCeKeyPath(d, q)
      ensures b.w.names[q] in b.places && AllBelow(b.places[b.w.names[q]], d)
    {
      assert b.w.names == a.w.names ==> b.places == a.places;
      assert q != p ==> Undisturbed(a, b, a.w.names[q]);
    }
  }

  lemma RenamingStays(a: Store, b: Store, dir: Path, from: Path)
    requires Sound(a) && IsCeKeyPath(dir, from) && Renames(a, b, from, CurrentPath(dir))
    ensures NoLessCertain(a, b)
  {
    hide Sound, IsCeKeyPath;
    NameFacts(a);
    CurrentIsCeKeyPath(dir);
    forall d, q | AllStay(a, d) && q in b.w.names && IsCeKeyPath(d, q)
      ensures b.w.names[q] in b.places && AllBelow(b.places[b.w.names[q]], d)
    {
      if q == CurrentPath(dir) { CeKeyPathHasOneDir(d, dir, q); }
    }
  }

  lemma SyncingStays(a: Store, b: Store)
    requires Sound(a) && b == a.(places := b.places) && forall i :: Undisturbed(a, b, i)
    ensures NoLessCertain(a, b)
  {
    hide Sound, IsCeKeyPath;
    PlacesKnown(a);
    forall d, q | AllStay(a, d) && q in b.w.names && IsCeKeyPath(d, q)
      ensures b.w.names[q] in b.places && AllBelow(b.places[b.w.names[q]], d)
    {
      assert Undisturbed(a, b, a.w.names[q]);
    }
  }

  /** After its directory was synced, every binding is there to stay. */
  lemma SyncedStays(st: Store, dir: Path)
    requires SyncedBelow(st, dir)
    ensures AllStay(st, dir)
  {
    hide IsCeKeyPath, Parent;
    forall p | p in st.w.names && IsCeKeyPath(dir, p)
      ensures st.w.names[p] in st.places && AllBelow(st.places[st.w.names[p]], dir)
    {
      ParentOfCeKeyPath(dir, p);
    }
  }

  /** A fixation put off until the checkpoint is committed: the binding to keep is there to stay. */
  ghost predicate Entry(st: Store, dir: Path, toFix: Path) {
    IsCeKeyPath(dir, toFix) && toFix in st.w.names && Bound(st, st.w.names[toFix], dir)
  }

  /** Fixating one user's binding leaves what was put off for other users. */
  lemma FixatingKeepsEntry(a: Store, b: Store, dir: Path, toFix: Path, paths: seq<Path>, other: Path, p: Path)
    requires Sound(a) && Fixated(a, b, dir, toFix, paths) && Spares(a, b, Others(a, toFix, paths))
    requires IsCeKeyPath(dir, toFix) && (forall q :: q in paths ==> IsCeKeyPath(dir, q))
    requires other != dir && Entry(a, other, p)
    ensures Entry(b, other, p)
  {
    hide Sound, Bound;
    NameFacts(a);
    if p == toFix || p in paths { CeKeyPathHasOneDir(dir, other, p); }
    KeptIsNoOther(a, toFix, paths, p);
    assert Bound(a, a.w.names[p], other);
  }

  // ----- Bindings that are kept -----

  /** The binding is there to stay at every moment. */
  ghost predicate Throughout(before: seq<Store>, after: seq<Store>, b: Store, i: Ino, dir: Path) {
    && Bound(b, i, dir)
    && before <= after && forall n :: |before| <= n < |after| ==> Bound(after[n], i, dir)
  }

  lemma ThroughoutAlong(before: seq<Store>, mid: seq<Store>, b: Store, after: seq<Store>, c: Store, gone: set<Ino>,
                        i: Ino, dir: Path)
    requires Throughout(before, mid, b, i, dir) && Guarding(mid, b, after, c, gone) && i !in gone
    ensures Throughout(before, after, c, i, dir)
  {
    hide Bound;
    forall n | |before| <= n < |after| ensures Bound(after[n], i, dir) {
      if n < |mid| { assert after[n] == mid[n]; } else { assert Spares(b, after[n], gone); }
    }
  }

  // ----- Never losing a user's key -----

  /** Below `dir` only these keys are kept. */
  function Keeping(dir: Path, keys: set<Message>): map<Path, set<Message>> {
    map[dir := keys]
  }

  /** Users have the keys they had, except that below the directories in `keeps` only those named there are kept. */
  ghost predicate Preserves(a: Store, b: Store, keeps: map<Path, set<Message>>) {
    forall d, m :: Holds(a, d, m) && (d in keeps ==> m in keeps[d]) ==> Holds(b, d, m)
  }

  ghost predicate NeverLoses(before: seq<Store>, a: Store, after: seq<Store>, b: Store, keeps: map<Path,
                             set<Message>>) {
    && Preserves(a, b, keeps)
    && before <= after && forall n :: |before| <= n < |after| ==> Preserves(a, after[n], keeps)
  }

  lemma NothingLost(trace: seq<Store>, st: Store, keeps: map<Path, set<Message>>)
    ensures NeverLoses(trace, st, trace, st, keeps)
  {
  }

  lemma PreservesAlong(a: Store, b: Store, c: Store, keeps: map<Path, set<Message>>)
    requires Preserves(a, b, keeps) && Preserves(b, c, keeps)
    ensures Preserves(a, c, keeps)
  {
    hide Holds;
  }

  lemma NeverLosesAlong(before: seq<Store>, a: Store, mid: seq<Store>, b: Store, after: seq<Store>, c: Store,
                        keeps: map<Path, set<Message>>)
    requires NeverLoses(before, a, mid, b, keeps) && NeverLoses(mid, b, after, c, keeps)
    ensures NeverLoses(before, a, after, c, keeps)
  {
    hide Preserves;
    PreservesAlong(a, b, c, keeps);
    forall n | |before| <= n < |after| ensures Preserves(a, after[n], keeps) {
      if n < |mid| { assert after[n] == mid[n]; } else { PreservesAlong(a, b, after[n], keeps); }
    }
  }

  /** Promising to keep less. */
  ghost predicate KeepsLess(some: map<Path, set<Message>>, fewer: map<Path, set<Message>>) {
    forall d :: d in some ==> d in fewer && fewer[d] <= some[d]
  }

  lemma NeverLosesLess(before: seq<Store>, a: Store, after: seq<Store>, b: Store, some: map<Path, set<Message>>,
                       fewer: map<Path, set<Message>>)
    requires NeverLoses(before, a, after, b, some) && KeepsLess(some, fewer)
    ensures NeverLoses(before, a, after, b, fewer)
  {
    hide Holds;
    forall c: Store | Preserves(a, c, some) ensures Preserves(a, c, fewer) { }
    hide Preserves;
  }

  lemma GuardNeverLoses(before: seq<Store>, a: Store, after: seq<Store>, b: Store)
    requires Guarding(before, a, after, b, {})
    ensures NeverLoses(before, a, after, b, map[])
  {
    forall c: Store | Spares(a, c, {}) ensures Preserves(a, c, map[]) {
      forall d, m | Holds(a, d, m) ensures Holds(c, d, m) {
        var i :| Bound(a, i, d) && a.stored[i].message == m;
        assert i !in {} && Bound(c, i, d);
      }
    }
    hide Spares, Preserves;
  }

  /** What is bound elsewhere stays when bindings below `dir` go. */
  lemma SparedElsewhere(a: Store, b: Store, gone: set<Ino>, dir: Path, other: Path, m: Message)
    requires Sound(a) && Spares(a, b, gone) && other != dir && Holds(a, other, m)
    requires forall i :: i in gone && i in a.place && a.place[i].Some? ==> IsCeKeyPath(dir, a.place[i].value)
    ensures Holds(b, other, m)
  {
    hide Sound;
    var i :| Bound(a, i, other) && a.stored[i].message == m;
    BoundHasName(a, i, other);
    if i in gone { CeKeyPathHasOneDir(dir, other, a.place[i].value); }
    assert Bound(b, i, other);
  }

  lemma OthersAreBelow(a: Store, dir: Path, toFix: Path, paths: seq<Path>)
    requires Sound(a) && (forall q :: q in paths ==> IsCeKeyPath(dir, q))
    ensures forall i :: i in Others(a, toFix, paths) && i in a.place && a.place[i].Some? ==>
        IsCeKeyPath(dir, a.place[i].value)
  {
    hide Sound, IsCeKeyPath;
    forall i | i in Others(a, toFix, paths) && i in a.place && a.place[i].Some?
      ensures IsCeKeyPath(dir, a.place[i].value)
    {
      var p :| p in paths && p in a.w.names && a.w.names[p] == i;
      PlaceOfName(a, p);
    }
  }

  /** Fixating keeps the key of the binding that is kept, and every other user's, at every moment. */
  lemma FixatingPreserves(a: Store, c: Store, dir: Path, toFix: Path, paths: seq<Path>)
    requires Sound(a) && Spares(a, c, Others(a, toFix, paths)) && (forall q :: q in paths ==> IsCeKeyPath(dir, q))
    requires toFix in a.w.names && Bound(a, a.w.names[toFix], dir)
    ensures Preserves(a, c, Keeping(dir, {a.stored[a.w.names[toFix]].message}))
  {
    hide Sound, AllBelow, IsCeKeyPath;
    NameFacts(a);
    KeptIsNoOther(a, toFix, paths, toFix);
    OthersAreBelow(a, dir, toFix, paths);
    var key := a.stored[a.w.names[toFix]].message;
    forall d, m | Holds(a, d, m) && (d in Keeping(dir, {key}) ==> m in Keeping(dir, {key})[d]) ensures Holds(c, d, m) {
      if d != dir { SparedElsewhere(a, c, Others(a, toFix, paths), dir, d, m); }
    }
  }

  lemma FixatingNeverLoses(before: seq<Store>, a: Store, after: seq<Store>, b: Store, dir: Path, toFix: Path,
                           paths: seq<Path>)
    requires Guarding(before, a, after, b, Others(a, toFix, paths)) && Sound(a)
    requires (forall q :: q in paths ==> IsCeKeyPath(dir, q))
    requires toFix in a.w.names && Bound(a, a.w.names[toFix], dir)
    ensures NeverLoses(before, a, after, b, Keeping(dir, {a.stored[a.w.names[toFix]].message}))
  {
    hide Sound, AllBelow, IsCeKeyPath, Preserves;
    forall c: Store | Spares(a, c, Others(a, toFix, paths))
      ensures Preserves(a, c, Keeping(dir, {a.stored[a.w.names[toFix]].message}))
    {
      FixatingPreserves(a, c, dir, toFix, paths);
    }
    hide Spares;
  }

  /** A user whose key is kept has it wherever power is lost in such an operation: some binding opens and yields it. */
  lemma UserKeySurvives(before: seq<Store>, a: Store, after: seq<Store>, b: Store, keeps: map<Path, set<Message>>,
                        n: nat, cut: Move, dir: Path, key: Message)
    requires NeverLoses(before, a, after, b, keeps) && IsTrace(after) && |before| <= n < |after|
    requires NoCeTemps(after[n].temps)
    requires Holds(a, dir, key) && (dir in keeps ==> key in keeps[dir]) && cut.Cut? && Can(after[n], cut)
    ensures Yields(Moved(after[n], cut), dir, key)
  {
    hide Sound, IsTrace, Can, Moved, Yields, Holds, NoCeTemps;
    TraceIsSound(after, n);
    HeldIsYielded(after[n], cut, dir, key);
  }

  /**
    Once no other binding can be read, the key of the one that is kept is safe if and only if that one is
    there to stay.
  */
  lemma OnlyKeptIsSafe(st: Store, dir: Path, toFix: Path, key: Message)
    requires Sound(st) && NoCeTemps(st.temps) && OwnNames(st) && IsCeKeyPath(dir, toFix) && toFix in st.w.names
    requires forall q :: q in st.w.names && IsCeKeyPath(dir, q) && q != toFix ==> !Usable(st, st.w.names[q])
    ensures Holds(st, dir, key) <==>
      Bound(st, st.w.names[toFix], dir) && st.stored[st.w.names[toFix]].message == key
    ensures (forall cut: Move :: cut.Cut? && Can(st, cut) ==> Yields(Moved(st, cut), dir, key)) <==>
      Bound(st, st.w.names[toFix], dir) && st.stored[st.w.names[toFix]].message == key
  {
    hide Sound, Can, Moved, Yields, NoCeTemps, OwnNames, IsCeKeyPath;
    KeySurvivesIffHeld(st, dir, key);
    if Holds(st, dir, key) {
      var i :| Bound(st, i, dir) && st.stored[i].message == key;
      BoundHasName(st, i, dir);
    }
  }

  lemma QuietlyAlong(before: seq<Store>, a: Store, mid: seq<Store>, b: Store, after: seq<Store>, c: Store)
    requires Quietly(before, a, mid, b) && Quietly(mid, b, after, c)
    ensures Quietly(before, a, after, c)
  {
    assert KeepsKeys(a, c);
    hide KeepsKeys;
    assert forall n :: |before| <= n < |mid| ==> after[n] == mid[n];
  }

  lemma QuietTree(before: seq<Store>, a: Store, after: seq<Store>, b: Store)
    requires Quietly(before, a, after, b)
    ensures SameTree(a, b)
  {
  }

  lemma QuietKeepsBindings(a: Store, b: Store)
    requires SameTree(a, b)
    ensures forall d, p :: Entry(a, d, p) ==> Entry(b, d, p)
  {
    assert forall i, d: Path :: Bound(a, i, d) ==> Bound(b, i, d);
    hide Bound;
  }

  /** Every fixation put off names a binding that is there to stay. */
  ghost predicate Entries(st: Store, deferred: map<Path, Path>) {
    forall d :: d in deferred ==> Entry(st, d, deferred[d])
  }

  lemma FixatingKeepsEntries(a: Store, b: Store, dir: Path, toFix: Path, paths: seq<Path>, deferred: map<Path, Path>)
    requires Sound(a) && Fixated(a, b, dir, toFix, paths) && Spares(a, b, Others(a, toFix, paths))
    requires IsCeKeyPath(dir, toFix) && (forall q :: q in paths ==> IsCeKeyPath(dir, q))
    requires dir !in deferred && Entries(a, deferred)
    ensures Entries(b, deferred)
  {
    hide Sound, Entry, Fixated, Spares, IsCeKeyPath;
    forall d | d in deferred ensures Entry(b, d, deferred[d]) {
      FixatingKeepsEntry(a, b, dir, toFix, paths, d, deferred[d]);
    }
  }

  /** The binding that is kept still opens, under the old or the canonical name. */
  lemma FixatedOpens(a: Store, b: Store, dir: Path, toFix: Path, paths: seq<Path>, auth: Auth, seed: string,
                     message: Message)
    requires Sound(a) && Sound(b) && a.w.holder == Free && b.w.holder == Free && NoCeTemps(a.temps)
    requires Fixated(a, b, dir, toFix, paths) && Opens(a, dir, toFix, auth, seed, message)
    ensures exists p :: Opens(b, dir, p, auth, seed, message)
  {
    hide Sound, Retrieved, AppId, NoCeTemps, IsCeKeyPath, Usable;
    var i := a.w.names[toFix];
    OpensItsKey(a, dir, toFix, auth, seed, message);
    CurrentIsCeKeyPath(dir);
    var p := if toFix in b.w.names && b.w.names[toFix] == i then toFix else CurrentPath(dir);
    RetrievedExactly(a, toFix, auth, seed);
    RetrievedExactly(b, p, auth, seed);
    assert Opens(b, dir, p, auth, seed, message);
  }

  /** What an operation that touches no name keeps of the bindings. */
  lemma QuietOpKeeps(before: seq<Store>, a: Store, after: seq<Store>, b: Store, deferred: map<Path, Path>)
    requires Quietly(before, a, after, b)
    ensures NeverLoses(before, a, after, b, map[]) && (Entries(a, deferred) ==> Entries(b, deferred))
    ensures NoLessCertain(a, b)
    ensures SameTree(a, b) && Guarding(before, a, after, b, {}) && (OwnNames(a) ==> OwnNames(b))
  {
    hide SameTree, KeepsKeys, Guarding, NoLessCertain, Entry, NeverLoses;
    assert NoLessCertain(a, b) by { QuietTree(before, a, after, b); CertainTree(a, b); }
    QuietTree(before, a, after, b);
    GuardQuietly(before, a, after, b);
    GuardNeverLoses(before, a, after, b);
    QuietKeepsBindings(a, b);
  }

  // ----- Storing a new binding -----

  /** Names other than the temporary and the new one mean what they did. */
  ghost predicate SameNamesBut(a: Store, b: Store, tmp: Path, key: Path) {
    forall p :: p != tmp && p != key ==> (p in b.w.names <==> p in a.w.names) && (p in b.w.names ==>
        b.w.names[p] == a.w.names[p])
  }

  lemma StoringKeepsEntries(a: Store, b: Store, tmp: Path, key: Path, deferred: map<Path, Path>)
    requires Spares(a, b, {}) && SameNamesBut(a, b, tmp, key) && key !in a.w.names && tmp in a.temps
    requires NoCeTemps(a.temps)
    requires Entries(a, deferred)
    ensures Entries(b, deferred)
  {
    hide Bound;
    forall d | d in deferred ensures Entry(b, d, deferred[d]) {
      var p := deferred[d];
      assert Entry(a, d, p);
      NotTemp(a.temps, d, p);
      assert Bound(a, a.w.names[p], d);
    }
  }

  /** Storing leaves the bindings below other directories as certain as they were. */
  lemma StoringStays(before: seq<Store>, a: Store, after: seq<Store>, b: Store, tmp: Path, key: Path, d: Deposit,
                     dir: Path)
    requires Storing(before, a, after, b, tmp, key, d) && Sound(a) && SameNamesBut(a, b, tmp, key)
    requires tmp in a.temps && NoCeTemps(a.temps) && IsCeKeyPath(dir, key)
    ensures NoLessCertainBut(a, b, dir)
    ensures key !in b.w.names ==> NoLessCertain(a, b)
  {
    hide Sound, IsCeKeyPath;
    NameFacts(a);
    PlacesKnown(a);
    forall e: Path, p | AllStay(a, e) && p in b.w.names && IsCeKeyPath(e, p)
        && (e != dir || p != key)
      ensures b.w.names[p] in b.places && AllBelow(b.places[b.w.names[p]], e)
    {
      NotTemp(a.temps, e, p);
      if p == key && e != dir {
        CeKeyPathHasOneDir(e, dir, p);
        assert false;
      } else {
        var i := a.w.names[p];
        assert a.place[i] == Some(p);
        assert Undisturbed(a, b, i);
      }
    }
  }

  lemma NewIsBound(st: Store, dir: Path, key: Path)
    requires Sound(st) && IsCeKeyPath(dir, key) && key in st.w.names
    requires var i := st.w.names[key];
      i !in st.w.doomed && i in st.stored && i in st.places && st.places[i] == {Some(key)}
    ensures Bound(st, st.w.names[key], dir) && Entry(st, dir, key)
  {
    hide Sound, Usable;
    PlacesKnown(st);
    UndoomedIsUsable(st, st.w.names[key]);
  }

  // ----- Destroying a user's bindings -----

  /** Destroying a binding below `dir` leaves what is put off elsewhere. */
  lemma DestroyingKeepsEntries(before: seq<Store>, a: Store, after: seq<Store>, b: Store, dir: Path, p: Path,
                               deferred: map<Path, Path>)
    requires Sound(a) && p in a.w.names && IsCeKeyPath(dir, p) && Destroying(before, a, after, b, a.w.names[p])
    requires b.w.names == a.w.names || b.w.names == a.w.names - {p}
    requires dir !in deferred && Entries(a, deferred)
    ensures Entries(b, deferred)
  {
    hide Sound, Bound, Destroying, Guarding;
    NameFacts(a);
    GuardDestroying(before, a, after, b, a.w.names[p]);
    GuardParts(before, a, after, b, {a.w.names[p]});
    forall d | d in deferred ensures Entry(b, d, deferred[d]) {
      var q := deferred[d];
      assert Entry(a, d, q);
      if q == p { CeKeyPathHasOneDir(d, dir, p); }
      assert a.w.names[q] !in {a.w.names[p]} && Bound(a, a.w.names[q], d);
    }
  }

  /** Destroying bindings below `dir` loses no other user's key. */
  lemma GuardLosesOne(before: seq<Store>, a: Store, after: seq<Store>, b: Store, gone: set<Ino>, dir: Path)
    requires Guarding(before, a, after, b, gone) && Sound(a)
    requires forall i :: i in gone && i in a.place && a.place[i].Some? ==> IsCeKeyPath(dir, a.place[i].value)
    ensures NeverLoses(before, a, after, b, Keeping(dir, {}))
  {
    hide Sound, Bound, IsCeKeyPath;
    forall c: Store | Spares(a, c, gone) ensures Preserves(a, c, Keeping(dir, {})) {
      forall d, m | Holds(a, d, m) && (d in Keeping(dir, {}) ==> m in Keeping(dir, {})[d]) ensures Holds(c, d, m) {
        SparedElsewhere(a, c, gone, dir, d, m);
      }
    }
    hide Spares, Preserves;
  }

  lemma DestroyingLosesOne(before: seq<Store>, a: Store, after: seq<Store>, b: Store, dir: Path, p: Path)
    requires Sound(a) && p in a.w.names && IsCeKeyPath(dir, p) && Destroying(before, a, after, b, a.w.names[p])
    ensures NeverLoses(before, a, after, b, Keeping(dir, {}))
  {
    hide Sound, Guarding, Destroying, IsCeKeyPath, NeverLoses;
    PlaceOfName(a, p);
    GuardDestroying(before, a, after, b, a.w.names[p]);
    GuardLosesOne(before, a, after, b, {a.w.names[p]}, dir);
  }

  // ----- Names stay a user's own -----

  lemma OwnQuietly(a: Store, b: Store)
    requires SameTree(a, b) && OwnNames(a)
    ensures OwnNames(b)
  {
    hide Own;
  }

  lemma OwnDestroying(before: seq<Store>, a: Store, after: seq<Store>, b: Store, i: Ino)
    requires Destroying(before, a, after, b, i) && OwnNames(a) && a.place.Keys == a.places.Keys
    ensures OwnNames(b)
  {
    hide Own, Settles;
    forall j | j in b.places ensures Own(b.places[j]) {
      assert j != i ==> Undisturbed(a, b, j);
      OwnSettles(a.places[j], b.places[j]);
    }
  }

  lemma OwnSyncs(a: Store, b: Store)
    requires b == a.(places := b.places) && b.places.Keys == a.places.Keys == a.place.Keys
    requires (forall i :: Undisturbed(a, b, i)) && OwnNames(a)
    ensures OwnNames(b)
  {
    hide Own, Settles;
    forall j | j in b.places ensures Own(b.places[j]) {
      assert Undisturbed(a, b, j);
      OwnSettles(a.places[j], b.places[j]);
    }
  }

  lemma OwnRenames(a: Store, b: Store, from: Path, to: Path, dir: Path)
    requires Renames(a, b, from, to) && IsCeKeyPath(dir, from) && IsCeKeyPath(dir, to) && OwnNames(a)
    requires Some(from) in a.places[a.w.names[from]]
    ensures OwnNames(b)
  {
    var i := a.w.names[from];
    assert Own(a.places[i]);
    forall p, d: Path | Some(p) in b.places[i] && IsCeKeyPath(d, p) && None !in b.places[i]
      ensures AllBelow(b.places[i], d)
    {
      assert AllBelow(a.places[i], dir);
      CeKeyPathHasOneDir(d, dir, p);
    }
    hide Own;
  }

  lemma OwnStoring(before: seq<Store>, a: Store, after: seq<Store>, b: Store, tmp: Path, key: Path, d: Deposit)
    requires Storing(before, a, after, b, tmp, key, d) && OwnNames(a) && tmp in a.temps && NoCeTemps(a.temps)
    ensures OwnNames(b)
  {
    hide Settles;
    forall j | j in b.places ensures Own(b.places[j]) {
      if j in a.place {
        assert a.place[j] == Some(tmp) || Undisturbed(a, b, j);
        OwnSettles(a.places[j], b.places[j]);
      } else {
        assert NewPlaces(b, j, tmp, key, d);
      }
    }
  }

  lemma RenameIsOwn(a: Store, b: Store, dir: Path, from: Path)
    requires Sound(a) && NoCeTemps(a.temps) && OwnNames(a) && IsCeKeyPath(dir, from)
    requires Renames(a, b, from, CurrentPath(dir))
    ensures OwnNames(b)
  {
    hide Sound, NoCeTemps, OwnNames;
    CeKeyPathIsStored(a, dir, from);
    CurrentIsCeKeyPath(dir);
    OwnRenames(a, b, from, CurrentPath(dir), dir);
  }

  // ----- Checkpoints -----

  /** When a checkpoint begins every name is settled, and a rollback would yield every key there is. */
  lemma BeginningSpares(st: Store, b: Store)
    requires Sound(st) && NoCeTemps(st.temps) && st.w.holder == Free && !st.w.checkpointing && !st.w.sweepDue
    requires Can(st, Keys(BeginCheckpoint)) && b == Moved(st, Keys(BeginCheckpoint)) && Sound(b)
    ensures Spares(st, b, {}) && NoLessCertain(st, b) && OwnNames(b)
    ensures forall d, m :: Holds(st, d, m) ==> exists i :: SavedBinding(b, i, d, m)
  {
    hide Sound, Can, Moved, IsCeKeyPath, NoCeTemps, AllStay, OwnNames;
    CheckpointBegins(st);
    PlacesKnown(st);
    SettledIsAllStay(b);
    StoredIsLive(st);
    forall d, m | Holds(st, d, m) ensures exists i :: SavedBinding(b, i, d, m) {
      var i :| Bound(st, i, d) && st.stored[i].message == m;
      BoundHasName(st, i, d);
      assert SavedBinding(b, i, d, m);
    }
  }

  lemma BeginningKeeps(trace: seq<Store>, st: Store, b: Store, deferred: map<Path, Path>)
    requires Spares(st, b, {}) && b.w.names == st.w.names && Entries(st, deferred)
    ensures NeverLoses(trace, st, trace + [b], b, map[]) && Entries(b, deferred)
  {
    GuardNeverLoses(trace, st, trace + [b], b);
    hide Bound, NeverLoses;
    forall d | d in deferred ensures Entry(b, d, deferred[d]) {
      assert Entry(st, d, deferred[d]) && Bound(st, st.w.names[deferred[d]], d);
    }
  }
}
