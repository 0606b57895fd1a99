/**
  The bindings of users' keys among the key directories, and what is left of them when power is lost
  or a checkpoint is rolled back.
*/
module CeBindings {
  import opened Wrappers
  import opened KeyUpgrade
  import opened KeyLineage
  import opened KeyDeletions
  import opened KeyDirectories
  import opened KeyMoves
  import opened CeKeyNames

  /** All places are names of bindings below `dir`. */
  ghost predicate AllBelow(places: set<Place>, dir: Path) {
    forall q :: q in places ==> q.Some? && IsCeKeyPath(dir, q.value)
  }

  /** Directory `i` holds a key that can be read and, wherever power is lost, turns up as a binding below `dir`. */
  ghost predicate Bound(st: Store, i: Ino, dir: Path) {
    Usable(st, i) && i in st.place && i in st.places && AllBelow(st.places[i], dir)
  }

  /** A binding of this key is there to stay below `dir`. */
  ghost predicate Holds(st: Store, dir: Path, key: Message) {
    exists i :: Bound(st, i, dir) && st.stored[i].message == key
  }

  /** Every binding below `dir` is there to stay. */
  ghost predicate AllStay(st: Store, dir: Path) {
    forall p :: p in st.w.names && IsCeKeyPath(dir, p) ==>
        st.w.names[p] in st.places && AllBelow(st.places[st.w.names[p]], dir)
  }

  /** No temporary name looks like a binding. */
  ghost predicate NoCeTemps(temps: set<Path>) {
    forall p, dir: Path :: p in temps ==> !IsCeKeyPath(dir, p)
  }

  lemma NotTemp(temps: set<Path>, dir: Path, p: Path)
    requires NoCeTemps(temps) && IsCeKeyPath(dir, p)
    ensures p !in temps
  {
  }

  /** What may turn up as a binding may be gone, or turns up as a binding of the same user. */
  ghost predicate Own(places: set<Place>) {
    forall p, dir: Path :: Some(p) in places && IsCeKeyPath(dir, p) ==> None in places || AllBelow(places, dir)
  }

  ghost predicate OwnNames(st: Store) {
    forall i :: i in st.places ==> Own(st.places[i])
  }

  lemma OwnSettles(a: set<Place>, b: set<Place>)
    requires Own(a) && Settles(a, b)
    ensures Own(b)
  {
    hide IsCeKeyPath;
    forall p, dir: Path | Some(p) in b && IsCeKeyPath(dir, p) && None !in b ensures AllBelow(b, dir) {
      if !OnePlace(b) { assert Some(p) in a && AllBelow(a, dir); }
    }
  }

  /** A bound directory has a name below its user's directory, and nobody else's. */
  lemma BoundHasName(st: Store, i: Ino, dir: Path)
    requires Sound(st) && Bound(st, i, dir)
    ensures st.place[i].Some?
    ensures var p := st.place[i].value; IsCeKeyPath(dir, p) && p in st.w.names && st.w.names[p] == i
  {
    hide Inv, Traced, RestFilled, BlobsFilled;
    assert st.place[i] in st.places[i];
  }

  lemma CeKeyPathIsStored(st: Store, dir: Path, p: Path)
    requires Sound(st) && NoCeTemps(st.temps) && IsCeKeyPath(dir, p) && p in st.w.names
    ensures var i := st.w.names[p];
      i in st.stored && i in st.place && i in st.places && st.place[i] == Some(p) && Some(p) in st.places[i]
  {
    hide Inv, Traced, RestFilled, BlobsFilled;
    NameFacts(st);
  }

  lemma PlaceOfName(st: Store, p: Path)
    requires Sound(st) && p in st.w.names
    ensures st.w.names[p] in st.place && st.place[st.w.names[p]] == Some(p)
  {
    hide Inv, Traced, RestFilled, BlobsFilled;
  }

  lemma {:induction false} ParentOf(dir: Path, p: Path)
    requires |p| > |dir| && p[..|dir|] == dir && p[|dir|] == '/' && forall k :: |dir| < k < |p| ==> p[k] != '/'
    ensures Parent(p) == dir
    decreases |p|
  {
    var q := p[..|p| - 1];
    if |p| == |dir| + 1 {
      assert q == dir;
    } else {
      assert q[..|dir|] == dir;
      ParentOf(dir, q);
    }
  }

  lemma ParentOfCeKeyPath(dir: Path, p: Path)
    requires IsCeKeyPath(dir, p)
    ensures Parent(p) == dir
  {
    LastSlash(dir, p);
    ParentOf(dir, p);
  }

  lemma BoundOfAll(st: Store, dir: Path, p: Path)
    requires Sound(st) && AllStay(st, dir) && p in st.w.names && IsCeKeyPath(dir, p) && Usable(st, st.w.names[p])
    ensures Bound(st, st.w.names[p], dir)
  {
    hide Sound, Usable, IsCeKeyPath;
    PlacesKnown(st);
  }

  // ----- What retrieving yields -----

  /** An operation that touches no name leaves what can be retrieved. */
  lemma RetrievedAlike(a: Store, b: Store, dir: Path, auth: Auth, seed: string)
    requires Sound(a) && Sound(b) && SameTree(a, b) && a.w.holder == Free && b.w.holder == Free
    requires dir in a.w.names && a.w.names[dir] in a.stored
    ensures Retrieved(b, dir, auth, seed) == Retrieved(a, dir, auth, seed)
  {
    hide Sound, Retrieved, AppId, Usable;
    RetrievedExactly(a, dir, auth, seed);
    RetrievedExactly(b, dir, auth, seed);
  }

  /** A binding below `dir` that opens with the authentication. */
  ghost predicate Opens(st: Store, dir: Path, p: Path, auth: Auth, seed: string, message: Message) {
    IsCeKeyPath(dir, p) && p in st.w.names && Retrieved(st, p, auth, seed) == Some(message)
  }

  lemma OpensAlike(a: Store, b: Store, dir: Path, p: Path, auth: Auth, seed: string, message: Message)
    requires Sound(a) && Sound(b) && SameTree(a, b) && a.w.holder == Free && b.w.holder == Free && NoCeTemps(a.temps)
    requires Opens(a, dir, p, auth, seed, message)
    ensures Opens(b, dir, p, auth, seed, message)
  {
    hide Sound, Retrieved, NoCeTemps, IsCeKeyPath;
    CeKeyPathIsStored(a, dir, p);
    RetrievedAlike(a, b, p, auth, seed);
  }

  /** What opens is the key that was stored. */
  lemma OpensItsKey(st: Store, dir: Path, p: Path, auth: Auth, seed: string, m: Message)
    requires Sound(st) && st.w.holder == Free && NoCeTemps(st.temps) && Opens(st, dir, p, auth, seed, m)
    ensures st.w.names[p] in st.stored && st.stored[st.w.names[p]].message == m && Usable(st, st.w.names[p])
  {
    hide Sound, Retrieved, NoCeTemps, IsCeKeyPath, AppId, Usable;
    CeKeyPathIsStored(st, dir, p);
    RetrievedExactly(st, p, auth, seed);
  }

  /** What was stored opens with what it was stored with, as long as it can be read. */
  lemma StoredOpens(st: Store, dir: Path, p: Path)
    requires Sound(st) && st.w.holder == Free && NoCeTemps(st.temps) && IsCeKeyPath(dir, p) && p in st.w.names
    requires Usable(st, st.w.names[p])
    ensures st.w.names[p] in st.stored
    ensures var d := st.stored[st.w.names[p]]; Opens(st, dir, p, d.auth, d.seed, d.message)
  {
    hide Sound, Retrieved, AppId;
    var d := st.stored[st.w.names[p]];
    RetrievedExactly(st, p, d.auth, d.seed);
  }

  /** The binding does not open. */
  ghost predicate Closed(st: Store, p: Path, auth: Auth, seed: string) {
    p in st.w.names && Retrieved(st, p, auth, seed) == None
  }

  // ----- Losing power -----

  /** Wherever power is lost, a bound directory is found below its user's directory, with its key. */
  lemma BoundSurvives(st: Store, cut: Move, i: Ino, dir: Path)
    requires Sound(st) && Bound(st, i, dir) && NoCeTemps(st.temps) && cut.Cut? && Can(st, cut)
    ensures var st' := Moved(st, cut);
      && Bound(st', i, dir) && st'.place[i].Some?
      && var p := st'.place[i].value;
         && IsCeKeyPath(dir, p) && p in st'.w.names && st'.w.names[p] == i
         && Retrieved(st', p, st.stored[i].auth, st.stored[i].seed) == Some(st.stored[i].message)
  {
    hide Sound, Retrieved, AppId, Usable;
    MoveKeeps(st, cut);
    LossFreesTheLock(st, cut);
    var st' := Moved(st, cut);
    CutBound(st, cut, i, dir);
    hide Moved, Can;
    BoundHasName(st', i, dir);
    assert i in st.stored && i in st'.stored by {
      assert Usable(st, i) && Usable(st', i);
      UsableIsStored(st, i);
      UsableIsStored(st', i);
    }
    RetrievedExactly(st', st'.place[i].value, st.stored[i].auth, st.stored[i].seed);
  }

  lemma UsableIsStored(st: Store, i: Ino)
    requires Usable(st, i)
    ensures i in st.stored
  {
  }

  /** What can be read now can be read after any power cut. */
  lemma CutLeavesUsable(st: Store, cut: Move, i: Ino)
    requires Sound(st) && Usable(st, i) && cut.Cut? && Can(st, cut)
    ensures Usable(Moved(st, cut), i)
  {
    hide Inv, Traced, Placed, BlobsFilled, Agree, Injective, Do, Enabled, WholeOrGone;
    var st' := Moved(st, cut);
    CutEffect(st.w, cut.s);
    CutDeletesNothing(st.w, cut.s);
    assert RestVersion(i, cut.kept[i]) in RestVersions(cut.kept);
    if Lost(st'.w, i) { assert Version(i, st'.w.live[i]) in st.w.durable by { SurvivorIsDurable(st.w, cut.s, i); } }
  }

  lemma CutDeletesNothing(w: World, s: Step)
    requires Enabled(w, s) && s.PowerCut?
    ensures Do(w, s).deleted == w.deleted
  {
  }

  lemma SurvivorIsDurable(w: World, s: Step, i: Ino)
    requires Enabled(w, s) && s.PowerCut? && i in s.survivors
    ensures Version(i, s.survivors[i]) in w.durable
  {
    assert Version(i, s.survivors[i]) in LiveVersions(s.survivors);
  }

  lemma CutBound(st: Store, cut: Move, i: Ino, dir: Path)
    requires Sound(st) && Bound(st, i, dir) && cut.Cut? && Can(st, cut)
    ensures var st' := Moved(st, cut); Bound(st', i, dir) && st'.stored == st.stored && st'.temps == st.temps
  {
    hide Sound, Do, Enabled, RestVersions, Agree, Usable;
    CutLeavesUsable(st, cut, i);
  }

  /** After a power cut every name is settled. */
  lemma CutSettles(st: Store, cut: Move)
    requires Sound(st) && NoCeTemps(st.temps) && cut.Cut? && Can(st, cut)
    ensures (forall dir :: AllStay(Moved(st, cut), dir)) && OwnNames(Moved(st, cut))
  {
    hide Sound, NoCeTemps, Do, Enabled, RestVersions, Agree, AllStay;
    MoveKeeps(st, cut);
    SettledIsAllStay(Moved(st, cut));
  }

  /** Some binding below `dir` opens and yields the key. */
  ghost predicate Yields(st: Store, dir: Path, key: Message) {
    exists p, auth, seed :: Opens(st, dir, p, auth, seed, key)
  }

  lemma HeldIsYielded(st: Store, cut: Move, dir: Path, key: Message)
    requires Sound(st) && NoCeTemps(st.temps) && Holds(st, dir, key) && cut.Cut? && Can(st, cut)
    ensures Yields(Moved(st, cut), dir, key)
  {
    hide Sound, Retrieved, Can, Moved, IsCeKeyPath, NoCeTemps;
    var i :| Bound(st, i, dir) && st.stored[i].message == key;
    BoundSurvives(st, cut, i, dir);
    var st' := Moved(st, cut);
    assert Opens(st', dir, st'.place[i].value, st.stored[i].auth, st.stored[i].seed, key);
  }

  // ----- The worst cut -----

  /** The bindings below `dir` that may be gone. */
  ghost function Uncertain(st: Store, dir: Path): set<Ino>
    requires st.place.Keys == st.places.Keys
  {
    set i | i in st.place && st.place[i].Some? && IsCeKeyPath(dir, st.place[i].value) && None in st.places[i]
  }

  function NamesWithout(names: map<Path, Ino>, gone: set<Ino>): map<Path, Ino> {
    map p | p in names && names[p] !in gone :: names[p]
  }

  function PlacesWithout(place: map<Ino, Place>, gone: set<Ino>): map<Ino, Place> {
    map i | i in place :: if i in gone then None else place[i]
  }

  lemma WithoutAgrees(names: map<Path, Ino>, place: map<Ino, Place>, gone: set<Ino>)
    requires Agree(names, place) && Injective(names)
    ensures Agree(NamesWithout(names, gone), PlacesWithout(place, gone)) && Injective(NamesWithout(names, gone))
    ensures NamesWithout(names, gone).Values <= names.Values
  {
  }

  lemma CutIsEnabled(st: Store, tree: map<Path, Ino>)
    requires Sound(st) && Injective(tree) && tree.Values <= st.w.live.Keys
    ensures Enabled(st.w, PowerCut(st.w.live, tree, false))
    ensures RestVersions(st.rest) <= st.mayRest
  {
    hide Traced, BlobsFilled, Placed, Ids, Safe, Spare, Held, Listed, Injective;
  }

  /** A power cut can take all uncertain bindings of a user at once. */
  lemma WorstCut(st: Store, dir: Path) returns (cut: Move)
    requires Sound(st)
    ensures st.place.Keys == st.places.Keys
    ensures cut.Cut? && Can(st, cut)
    ensures var st' := Moved(st, cut);
      && st'.w.names == NamesWithout(st.w.names, Uncertain(st, dir)) && st'.w.doomed == st.w.doomed
      && st'.stored == st.stored && st'.temps == st.temps && st'.w.holder == Free
      && st'.rest == st.rest && st'.w.live == st.w.live && st'.w.deleted == st.w.deleted
  {
    hide Sound, Agree, Injective, Enabled, Do, IsCeKeyPath, RestVersions;
    NameFacts(st);
    PlacesKnown(st);
    var gone := Uncertain(st, dir);
    var tree, at := NamesWithout(st.w.names, gone), PlacesWithout(st.place, gone);
    WithoutAgrees(st.w.names, st.place, gone);
    assert tree.Values <= st.w.live.Keys;
    CutIsEnabled(st, tree);
    var s := PowerCut(st.w.live, tree, false);
    cut := Cut(s, st.rest, at);
    assert Can(st, cut);
    CutEffect(st.w, s);
    CutDeletesNothing(st.w, s);
    StepFrame(st.w, s);
    LossFreesTheLock(st, cut);
  }

  /** A binding that is not uncertain is there to stay. */
  lemma CertainIsBound(st: Store, dir: Path, p: Path)
    requires Sound(st) && NoCeTemps(st.temps) && OwnNames(st) && IsCeKeyPath(dir, p) && p in st.w.names
    requires Usable(st, st.w.names[p])
    requires st.place.Keys == st.places.Keys && st.w.names[p] !in Uncertain(st, dir)
    ensures Bound(st, st.w.names[p], dir)
  {
    hide Sound, IsCeKeyPath, NoCeTemps, Usable;
    CeKeyPathIsStored(st, dir, p);
    assert Own(st.places[st.w.names[p]]);
  }

  /** What opens after the worst cut was there to stay. */
  lemma WorstCutLeavesHeld(st: Store, cut: Move, dir: Path, key: Message)
    requires Sound(st) && NoCeTemps(st.temps) && OwnNames(st) && cut.Cut? && Can(st, cut)
    requires st.place.Keys == st.places.Keys
    requires var st' := Moved(st, cut);
      && st'.w.names == NamesWithout(st.w.names, Uncertain(st, dir)) && st'.w.doomed == st.w.doomed
      && st'.stored == st.stored && st'.temps == st.temps && st'.w.holder == Free
      && st'.rest == st.rest && st'.w.live == st.w.live && st'.w.deleted == st.w.deleted
    requires Yields(Moved(st, cut), dir, key)
    ensures Holds(st, dir, key)
  {
    hide Sound, Can, Moved, Uncertain, Retrieved, IsCeKeyPath, NoCeTemps, AppId;
    MoveKeeps(st, cut);
    var st' := Moved(st, cut);
    var p, auth, seed :| Opens(st', dir, p, auth, seed, key);
    OpensItsKey(st', dir, p, auth, seed, key);
    assert Usable(st, st.w.names[p]);
    CertainIsBound(st, dir, p);
  }

  /**
    A user's key is safe if and only if one of its bindings is there to stay: then every power cut
    leaves a binding that opens and yields it, and otherwise some power cut leaves none.
  */
  lemma KeySurvivesIffHeld(st: Store, dir: Path, key: Message)
    requires Sound(st) && NoCeTemps(st.temps) && OwnNames(st)
    ensures Holds(st, dir, key) <==> forall cut: Move :: cut.Cut? && Can(st, cut) ==> Yields(Moved(st, cut), dir, key)
  {
    hide Sound, Can, Moved, Holds, Yields, NoCeTemps, OwnNames, Uncertain;
    if Holds(st, dir, key) {
      forall cut: Move | cut.Cut? && Can(st, cut) ensures Yields(Moved(st, cut), dir, key) {
        HeldIsYielded(st, cut, dir, key);
      }
    } else {
      var cut := WorstCut(st, dir);
      if Yields(Moved(st, cut), dir, key) { WorstCutLeavesHeld(st, cut, dir, key); }
    }
  }

  // ----- Rolling back -----

  /** The checkpoint saved a binding of the key that can be read: its Keystore key, if any, was not deleted since. */
  ghost predicate SavedBinding(st: Store, i: Ino, dir: Path, key: Message) {
    && i in st.savedStored && st.savedStored[i].message == key
    && i in st.savedPlace && st.savedPlace[i].Some? && IsCeKeyPath(dir, st.savedPlace[i].value)
    && i in st.savedRest && st.savedRest[i].encrypted.Some?
    && (st.savedStored[i].auth.UsesKeystore() ==> i in st.w.saved && !NamesDeleted(st.w, st.w.saved[i]))
  }

  lemma RollbackMove(st: Store)
    requires Can(st, Keys(Rollback))
    ensures var st' := Moved(st, Keys(Rollback));
      && st'.place == st.savedPlace && st'.places == Settled(st.savedPlace) && st'.stored == st.savedStored
      && st'.rest == st.savedRest
      && st'.w.live == st.w.saved && st'.w.deleted == st.w.deleted && st'.temps == st.temps && st'.w.holder == Free
  {
  }

  /**
    What a rollback leaves of a user's key: it yields the key if and only if the checkpoint saved a
    binding of it that needs no Keystore key, or whose Keystore key has not been deleted.
  */
  lemma RollbackYieldsIffSpared(st: Store, dir: Path, key: Message)
    requires Sound(st) && NoCeTemps(st.temps) && Can(st, Keys(Rollback))
    ensures Yields(Moved(st, Keys(Rollback)), dir, key) <==> exists i :: SavedBinding(st, i, dir, key)
    ensures (forall d :: AllStay(Moved(st, Keys(Rollback)), d)) && OwnNames(Moved(st, Keys(Rollback)))
  {
    hide Sound, Can, Moved, Retrieved, IsCeKeyPath, NoCeTemps, AppId, AllStay, OwnNames;
    MoveKeeps(st, Keys(Rollback));
    RollbackMove(st);
    var st' := Moved(st, Keys(Rollback));
    SettledIsAllStay(st');
    StoredIsLive(st');
    if Yields(st', dir, key) {
      var p, auth, seed :| Opens(st', dir, p, auth, seed, key);
      CeKeyPathIsStored(st', dir, p);
      OpensItsKey(st', dir, p, auth, seed, key);
      assert SavedBinding(st, st'.w.names[p], dir, key);
    }
    if i :| SavedBinding(st, i, dir, key) {
      var p := st.savedPlace[i].value;
      PlaceHasName(st', i);
      StoredOpens(st', dir, p);
      assert Opens(st', dir, p, st.savedStored[i].auth, st.savedStored[i].seed, key);
    }
  }

  /** Wherever a run is cut off or rolled back, the next boot finds every binding there is settled. */
  lemma BootIsReady(trace: seq<Store>, loss: Move)
    requires IsTrace(trace) && Can(trace[|trace| - 1], loss) && (loss.Cut? || loss == Keys(Rollback))
    requires NoCeTemps(trace[|trace| - 1].temps)
    ensures var b := Moved(trace[|trace| - 1], loss);
      && IsTrace(trace + [b]) && b.w.holder == Free && b.w.pending == [] && b.temps == trace[|trace| - 1].temps
      && OwnNames(b) && forall dir :: AllStay(b, dir)
  {
    hide Sound, Can, Moved, NoCeTemps, OwnNames, AllStay;
    var last := trace[|trace| - 1];
    var b := Moved(last, loss);
    TraceIsSound(trace, |trace| - 1);
    assert Follows(last, b);
    LossIsCalm(last, loss);
    if loss.Cut? { CutSettles(last, loss); } else { RollbackYieldsIffSpared(last, "", ""); }
  }

  lemma LossIsCalm(st: Store, loss: Move)
    requires Can(st, loss) && (loss.Cut? || loss == Keys(Rollback))
    ensures var b := Moved(st, loss); b.w.holder == Free && b.w.pending == [] && b.temps == st.temps
  {
    hide LiveVersions, Injective, Agree, RestVersions, Settled;
  }

  lemma PlaceHasName(st: Store, i: Ino)
    requires Sound(st) && i in st.place && st.place[i].Some?
    ensures st.place[i].value in st.w.names && st.w.names[st.place[i].value] == i
  {
    hide Inv, Traced, RestFilled, BlobsFilled;
  }

  lemma SettledIsAllStay(st: Store)
    requires Sound(st) && NoCeTemps(st.temps) && st.places == Settled(st.place)
    ensures (forall dir :: AllStay(st, dir)) && OwnNames(st)
  {
    hide Sound, IsCeKeyPath, NoCeTemps;
    forall p, dir: Path | p in st.w.names && IsCeKeyPath(dir, p)
      ensures st.w.names[p] in st.places && AllBelow(st.places[st.w.names[p]], dir)
    {
      CeKeyPathIsStored(st, dir, p);
    }
  }
}
