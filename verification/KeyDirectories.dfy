/**
  Whole key directories: every file in them, the names they go by, and what a power cut or a rollback
  leaves of both.

  A directory is filled under a temporary name, synced, and only then renamed to its final name.  A
  rename or removal that has not been synced may or may not survive a power cut, so a directory has a
  set of places where it may turn up.
*/
module KeyDirectories {
  import opened Wrappers
  import opened KeyUpgrade
  import opened KeyLineage
  import opened KeyDeletions

  type Message = string

  const CURRENT_VERSION := "1"

  /** Without a secret the key is protected by Keystore. */
  datatype Auth = Auth(secret: string) {
    predicate UsesKeystore() { secret == "" }
  }

  /** A message sealed by a Keystore key, traced to its origin, or by the application id alone. */
  datatype Cipher = Sealed(under: Option<Key>, app: string, message: Message)

  /** The files of a key directory beside the two blobs. */
  datatype Rest = Rest(version: Option<string>, secdiscardable: Option<string>, encrypted: Option<Cipher>)

  datatype RestVersion = RestVersion(ino: Ino, rest: Rest)

  /** What was stored: a message, and what it takes to get it back. */
  datatype Deposit = Deposit(auth: Auth, seed: string, message: Message)

  type Place = Option<Path>

  datatype Store = Store(
    w: World,
    lineage: Lineage,
    rest: map<Ino, Rest>,
    mayRest: set<RestVersion>,            // every version a power cut can leave
    stored: map<Ino, Deposit>,            // the directories that were filled and synced
    place: map<Ino, Place>,               // where each directory is
    places: map<Ino, set<Place>>,         // where it may be after a power cut
    savedRest: map<Ino, Rest>,            // what a checkpoint rollback restores
    savedStored: map<Ino, Deposit>,
    savedPlace: map<Ino, Place>,
    temps: set<Path>)                     // the temporary names

  function AppId(rest: Rest, auth: Auth, seed: string): string {
    (if rest.secdiscardable.Some? then rest.secdiscardable.value else "") + auth.secret + seed
  }

  /** The directory above a path. */
  function Parent(p: Path): Path {
    if p == "" then "" else if p[|p| - 1] == '/' then p[..|p| - 1] else Parent(p[..|p| - 1])
  }

  /** The key an operation on the directory uses: the upgraded one while its commit is pending. */
  function OpeningKey(w: World, dir: Path): Option<Key>
    requires Known(w, dir)
  {
    if IsPending(w, dir) then FilesOf(w, dir).upgraded else FilesOf(w, dir).blob
  }

  /** What retrieving the key from the directory yields when every file can be read. */
  function Retrieved(st: Store, dir: Path, auth: Auth, seed: string): Option<Message> {
    if !Known(st.w, dir) || st.w.names[dir] !in st.rest then None else
    var r := st.rest[st.w.names[dir]];
    if r.version != Some(CURRENT_VERSION) || r.encrypted.None? then None else
    var c := r.encrypted.value;
    if c.app != AppId(r, auth, seed) then None
    else if auth.UsesKeystore() then
      var k := OpeningKey(st.w, dir);
      if k.Some? && k.value in st.lineage.origin && k.value !in st.w.deleted
         && c.under == Some(st.lineage.origin[k.value])
      then Some(c.message) else None
    else if c.under.None? then Some(c.message) else None
  }

  datatype Move =
    | Keys(s: Step)                                   // a step of the upgrade protocol
    | WriteRest(path: Path, rest: Rest)               // writing, wholly or partly, one of the other files
    | Discard(path: Path)                             // overwriting what a directory holds before it is removed
    | Finish(path: Path, deposit: Deposit)            // syncing the filled directory
    | SyncNames(dir: Path)                            // syncing the directory above
    | Cut(s: Step, kept: map<Ino, Rest>, at: map<Ino, Place>)   // losing power

  /** The names and the places describe the same tree. */
  ghost predicate Agree(names: map<Path, Ino>, place: map<Ino, Place>) {
    && (forall p :: p in names ==> names[p] in place && place[names[p]] == Some(p))
    && (forall i :: i in place && place[i].Some? ==> place[i].value in names && names[place[i].value] == i)
  }

  /** The directory holds all it takes to retrieve the deposit, given the key generated for it. */
  predicate Complete(r: Rest, d: Deposit, l: Lineage, i: Ino) {
    && r.version == Some(CURRENT_VERSION)
    && (d.auth.UsesKeystore() ==> i in l.root)
    && var under := if d.auth.UsesKeystore() then Some(l.root[i]) else None;
       r.encrypted == Some(Sealed(under, AppId(r, d.auth, d.seed), d.message))
  }

  /** Complete, or overwritten because the directory is being destroyed. */
  predicate WholeOrGone(r: Rest, d: Deposit, l: Lineage, i: Ino, doomed: set<Ino>) {
    Complete(r, d, l, i) || (i in doomed && r.encrypted.None?)
  }

  function RestVersions(rest: map<Ino, Rest>): set<RestVersion> {
    set i | i in rest :: RestVersion(i, rest[i])
  }

  ghost predicate Can(st: Store, m: Move) {
    match m
    case Keys(s) =>
      && Enabled(st.w, s) && MayGenerate(st.w, st.lineage, s) && !s.PowerCut?
      && (s.Create? ==> s.path in st.temps)
      && (s.RenameDir? ==> st.w.names[s.path] in st.stored && s.name !in st.temps)
    case WriteRest(p, _) => p in st.w.names && st.w.names[p] !in st.stored
    case Discard(p) => p in st.w.names && st.w.names[p] in st.rest && st.w.names[p] in st.w.doomed
    case Finish(p, d) =>
      && Known(st.w, p) && st.w.names[p] in st.rest && st.w.names[p] !in st.stored
      && Complete(st.rest[st.w.names[p]], d, st.lineage, st.w.names[p])
      && (d.auth.UsesKeystore() ==> FilesOf(st.w, p).blob.Some?)
    case SyncNames(_) => true
    case Cut(s, kept, at) =>
      && s.PowerCut? && Enabled(st.w, s)
      && kept.Keys == st.rest.Keys && RestVersions(kept) <= st.mayRest
      && at.Keys == st.places.Keys && (forall i :: i in at ==> at[i] in st.places[i]) && Agree(s.tree, at)
  }

  /** Where a directory may be after the directory `dir` above it was synced. */
  function SyncedPlaces(place: Place, places: set<Place>, dir: Path): set<Place> {
    if place.Some? && Parent(place.value) == dir then {place}
    else set q | q in places && (q.Some? ==> Parent(q.value) != dir)
  }

  function Settled(place: map<Ino, Place>): map<Ino, set<Place>> {
    map i | i in place :: {place[i]}
  }

  function PlacesOf(st: Store, i: Ino): set<Place> {
    if i in st.places then st.places[i] else {}
  }

  /** The names and the snapshot after a step of the upgrade protocol. */
  function DoKeys(st: Store, s: Step): Store
    requires Enabled(st.w, s) && !s.PowerCut?
  {
    var st' := st.(w := Do(st.w, s), lineage := Next(st.w, st.lineage, s));
    match s
    case Create(p) =>
      var i, r := st.w.nextIno, Rest(None, None, None);
      st'.(rest := st.rest[i := r], mayRest := st.mayRest + {RestVersion(i, r)},
           place := st.place[i := Some(p)], places := st.places[i := {None, Some(p)}])
    case RenameDir(p, q) =>
      var i := st.w.names[p];
      st'.(place := st.place[i := Some(q)], places := st.places[i := PlacesOf(st, i) + {Some(q)}])
    case RemoveDir(p) =>
      var i := st.w.names[p];
      st'.(place := st.place[i := None], places := st.places[i := PlacesOf(st, i) + {None}])
    case BeginCheckpoint =>
      st'.(mayRest := RestVersions(st.rest), places := Settled(st.place),
           savedRest := st.rest, savedStored := st.stored, savedPlace := st.place)
    case CommitCheckpoint => st'.(savedRest := map[], savedStored := map[], savedPlace := map[])
    case Rollback =>
      st'.(rest := st.savedRest, mayRest := RestVersions(st.savedRest), stored := st.savedStored,
           place := st.savedPlace, places := Settled(st.savedPlace),
           savedRest := map[], savedStored := map[], savedPlace := map[])
    case _ => st'
  }

  function Moved(st: Store, m: Move): Store
    requires Can(st, m)
  {
    match m
    case Keys(s) => DoKeys(st, s)
    case WriteRest(p, r) =>
      var i := st.w.names[p];
      st.(rest := st.rest[i := r], mayRest := st.mayRest + {RestVersion(i, r)})
    case Discard(p) =>
      var i := st.w.names[p];
      var r := Rest(st.rest[i].version, None, None);
      st.(rest := st.rest[i := r], mayRest := st.mayRest + {RestVersion(i, r)})
    case Finish(p, d) =>
      var i := st.w.names[p];
      st.(w := Do(st.w, SyncKeys(p)), stored := st.stored[i := d],
          mayRest := (set v | v in st.mayRest && v.ino != i) + {RestVersion(i, st.rest[i])})
    case SyncNames(dir) =>
      st.(places := map i | i in st.place :: SyncedPlaces(st.place[i], PlacesOf(st, i), dir))
    case Cut(s, kept, at) =>
      st.(w := Do(st.w, s), rest := kept, mayRest := RestVersions(kept), place := at, places := Settled(at),
          savedRest := if s.resume then st.savedRest else map[],
          savedStored := if s.resume then st.savedStored else map[],
          savedPlace := if s.resume then st.savedPlace else map[])
  }

  // ----- What every move keeps -----

  /** Only a directory that was filled and synced can turn up under a name that is not temporary. */
  ghost predicate Placed(st: Store) {
    && Agree(st.w.names, st.place) && st.place.Keys == st.places.Keys == st.w.live.Keys
    && (forall i :: i in st.place ==> st.place[i] in st.places[i])
    && (forall i, p: Path :: i in st.places && Some(p) in st.places[i] && p !in st.temps ==> i in st.stored)
    && Agree(st.w.savedNames, st.savedPlace) && st.savedPlace.Keys == st.w.saved.Keys
    && (forall i :: i in st.savedPlace && st.savedPlace[i].Some? && st.savedPlace[i].value !in st.temps ==>
        i in st.savedStored)
  }

  /**
    Every version of a filled directory is complete, unless it was overwritten to be destroyed; and
    then the live version was.
  */
  ghost predicate RestFilled(st: Store) {
    && st.rest.Keys == st.w.live.Keys && RestVersions(st.rest) <= st.mayRest
    && st.savedRest.Keys == st.w.saved.Keys
    && st.stored.Keys <= st.w.live.Keys && st.savedStored.Keys <= st.w.saved.Keys
    && (forall v :: v in st.mayRest && v.ino in st.stored ==>
        WholeOrGone(v.rest, st.stored[v.ino], st.lineage, v.ino, st.w.doomed))
    && (forall v :: v in st.mayRest && v.ino in st.stored && v.rest.encrypted.None? ==>
        v.ino in st.rest && st.rest[v.ino].encrypted.None?)
    && (forall i :: i in st.savedStored ==> WholeOrGone(st.savedRest[i], st.savedStored[i], st.lineage, i, st.w.doomed))
  }

  ghost predicate BlobsFilled(st: Store) {
    && (forall v :: v in st.w.durable && v.ino in st.stored && st.stored[v.ino].auth.UsesKeystore() ==>
        v.files.blob.Some?)
    && (forall i :: i in st.savedStored && i in st.w.saved && st.savedStored[i].auth.UsesKeystore() ==>
        st.w.saved[i].blob.Some?)
  }

  ghost predicate Sound(st: Store) {
    Inv(st.w) && LiveIsWorst(st.w) && Traced(st.w, st.lineage) && Placed(st) && RestFilled(st) && BlobsFilled(st)
  }

  lemma CompleteStays(w: World, l: Lineage, s: Step)
    requires Enabled(w, s) && MayGenerate(w, l, s)
    ensures forall r, d, i :: Complete(r, d, l, i) ==> Complete(r, d, Next(w, l, s), i)
  {
    hide IsPending, Injective, LiveVersions, Do, AppId;
  }

  // ----- Steps of the upgrade protocol -----

  /** Steps that change names, or what is saved. */
  predicate Naming(s: Step) {
    s.Create? || s.RenameDir? || s.RemoveDir? || s.BeginCheckpoint? || s.CommitCheckpoint? || s.Rollback? || s.PowerCut?
  }

  lemma OthersLeaveNames(w: World, s: Step)
    requires Enabled(w, s) && !Naming(s)
    ensures var w' := Do(w, s);
      w'.names == w.names && w'.live.Keys == w.live.Keys && w'.saved == w.saved && w'.savedNames == w.savedNames
  {
    if EditOf(w, s).Some? {
      EditIsChange(w, s);
      hide Do, Enabled, EditOf;
    } else if !Sorts(s) {
      hide Do, Enabled, EditOf;
      OtherStepsLeaveVersions(w, s);
    }
  }

  /** Only the protocol's own state changes, and that without touching names or what is saved. */
  ghost predicate SameSurroundings(st: Store, st': Store) {
    && st' == st.(w := st'.w, lineage := st'.lineage)
    && st'.w.names == st.w.names && st'.w.live.Keys == st.w.live.Keys && st'.w.saved == st.w.saved
    && st'.w.savedNames == st.w.savedNames
    && st.w.doomed <= st'.w.doomed
  }

  lemma SurroundingsKeepPlaces(st: Store, st': Store)
    requires Placed(st) && SameSurroundings(st, st')
    ensures Placed(st')
  {
    hide Agree;
  }

  lemma SurroundingsKeepRest(st: Store, st': Store)
    requires RestFilled(st) && SameSurroundings(st, st')
    requires forall r, d, i :: Complete(r, d, st.lineage, i) ==> Complete(r, d, st'.lineage, i)
    ensures RestFilled(st')
  {
    hide Complete, RestVersions;
  }

  lemma QuietParts(st: Store, s: Step)
    requires Can(st, Keys(s)) && !Naming(s)
    ensures DoKeys(st, s) == st.(w := Do(st.w, s), lineage := Next(st.w, st.lineage, s))
  {
    hide Do, Enabled, Next;
  }

  lemma QuietStepKeeps(st: Store, s: Step)
    requires Sound(st) && Can(st, Keys(s)) && !Naming(s)
    ensures Placed(DoKeys(st, s)) && RestFilled(DoKeys(st, s))
  {
    hide Inv, LiveIsWorst, Traced, Placed, RestFilled, BlobsFilled, Do, Enabled, Next, Complete, DoKeys, MayGenerate;
    QuietParts(st, s);
    OthersLeaveNames(st.w, s);
    StepFrame(st.w, s);
    CompleteStays(st.w, st.lineage, s);
    var st' := DoKeys(st, s);
    assert SameSurroundings(st, st');
    SurroundingsKeepPlaces(st, st');
    SurroundingsKeepRest(st, st');
  }

  lemma AgreeMoved(names: map<Path, Ino>, place: map<Ino, Place>, from: set<Path>, to: Path, i: Ino)
    requires Agree(names, place) && to !in names && Injective(names)
    requires forall p :: p in names && p !in from ==> names[p] != i
    requires forall p :: p in from && p in names ==> names[p] == i
    ensures Agree((names - from)[to := i], place[i := Some(to)])
  {
  }

  lemma AgreeRemoved(names: map<Path, Ino>, place: map<Ino, Place>, p: Path)
    requires Agree(names, place) && p in names && Injective(names)
    ensures Agree(names - {p}, place[names[p] := None])
  {
  }

  /** The fields of the places change as a renamed or new directory `i` demands. */
  ghost predicate Relocates(st: Store, st': Store, i: Ino, place: Place, added: set<Place>) {
    && st'.place == st.place[i := place] && st'.places == st.places[i := PlacesOf(st, i) + added] && place in added
    && st'.temps == st.temps && st'.stored == st.stored && st'.savedStored == st.savedStored
    && st'.savedPlace == st.savedPlace
    && st'.w.savedNames == st.w.savedNames && st'.w.saved == st.w.saved
    && Agree(st'.w.names, st'.place) && st'.w.live.Keys == st.w.live.Keys + {i}
    && (forall p: Path :: Some(p) in added && p !in st.temps ==> i in st.stored)
  }

  lemma RelocatingKeepsPlaces(st: Store, st': Store, i: Ino, place: Place, added: set<Place>)
    requires Placed(st) && Relocates(st, st', i, place, added)
    ensures Placed(st')
  {
    hide Agree;
  }

  lemma CreateEffect(w: World, s: Step)
    requires Enabled(w, s) && s.Create?
    ensures s.path !in w.names && Do(w, s).names == w.names[s.path := w.nextIno]
    ensures Do(w, s).live.Keys == w.live.Keys + {w.nextIno}
    ensures Do(w, s).saved == w.saved && Do(w, s).savedNames == w.savedNames && Do(w, s).doomed == w.doomed
  {
  }

  lemma FreshIsNowhere(st: Store)
    requires Sound(st)
    ensures st.w.nextIno !in st.place && st.w.nextIno !in st.places && st.w.nextIno !in st.w.live
    ensures forall p :: p in st.w.names ==> st.w.names[p] != st.w.nextIno
  {
    hide RestFilled, Traced, BlobsFilled, Ids, Safe, Spare, Held, Listed, Injective, Agree;
  }

  /** A new, empty directory under a temporary name. */
  lemma CreateKeepsPlaces(st: Store, s: Step)
    requires Sound(st) && Can(st, Keys(s)) && s.Create?
    ensures Placed(DoKeys(st, s))
  {
    hide Sound, Placed, Do, Enabled, Next, MayGenerate, Agree, Injective;
    NameFacts(st);
    FreshIsNowhere(st);
    CreateEffect(st.w, s);
    var i, p, st' := st.w.nextIno, s.path, DoKeys(st, s);
    assert PlacesOf(st, i) + {None, Some(p)} == {None, Some(p)} && st.w.names - {} == st.w.names;
    AgreeMoved(st.w.names, st.place, {}, p, i);
    assert Relocates(st, st', i, Some(p), {None, Some(p)});
    RelocatingKeepsPlaces(st, st', i, Some(p), {None, Some(p)});
  }

  lemma CreateKeepsRest(st: Store, s: Step)
    requires Sound(st) && Can(st, Keys(s)) && s.Create?
    ensures RestFilled(DoKeys(st, s))
  {
    hide Placed, Traced, BlobsFilled, Complete, Ids, Safe, Spare, Held, Listed, Injective, LiveVersions, MayGenerate;
    hide Do, Enabled;
    CreateEffect(st.w, s);
    var i, st' := st.w.nextIno, DoKeys(st, s);
    assert i !in st.w.live && i !in st.w.saved;
    hide Shape;
  }

  lemma NameFacts(st: Store)
    requires Sound(st)
    ensures Placed(st) && Agree(st.w.names, st.place) && Injective(st.w.names)
    ensures forall p :: p in st.w.names ==>
        st.w.names[p] in st.w.live && st.w.live.Keys + {st.w.names[p]} == st.w.live.Keys
  {
    hide RestFilled, Traced, BlobsFilled, Ids, Safe, Spare, Held, Listed;
  }

  lemma RenameKeepsPlaces(st: Store, s: Step)
    requires Sound(st) && Can(st, Keys(s)) && s.RenameDir?
    ensures Placed(DoKeys(st, s))
  {
    hide Sound, Placed, Do, Enabled, Next, MayGenerate, Agree;
    NameFacts(st);
    RenameEffect(st.w, s);
    var i, st' := st.w.names[s.path], DoKeys(st, s);
    AgreeMoved(st.w.names, st.place, {s.path}, s.name, i);
    assert Relocates(st, st', i, Some(s.name), {Some(s.name)});
    RelocatingKeepsPlaces(st, st', i, Some(s.name), {Some(s.name)});
  }

  lemma RemoveKeepsPlaces(st: Store, s: Step)
    requires Sound(st) && Can(st, Keys(s)) && s.RemoveDir?
    ensures Placed(DoKeys(st, s))
  {
    hide Sound, Placed, Do, Enabled, Next, MayGenerate, Agree, Injective;
    NameFacts(st);
    RemoveEffect(st.w, s);
    var i, st' := st.w.names[s.path], DoKeys(st, s);
    AgreeRemoved(st.w.names, st.place, s.path);
    assert Relocates(st, st', i, None, {None});
    RelocatingKeepsPlaces(st, st', i, None, {None});
  }

  lemma RenameKeepsRest(st: Store, s: Step)
    requires Sound(st) && Can(st, Keys(s)) && (s.RenameDir? || s.RemoveDir?)
    ensures RestFilled(DoKeys(st, s))
  {
    hide Inv, Placed, Traced, BlobsFilled, Complete, Injective, WithRenamed, RestVersions;
  }

  lemma CheckpointEffect(w: World, s: Step)
    requires Enabled(w, s) && (s.BeginCheckpoint? || s.CommitCheckpoint?)
    ensures Do(w, s).names == w.names && Do(w, s).live == w.live && Do(w, s).doomed == w.doomed
    ensures s.BeginCheckpoint? ==> Do(w, s).saved == w.live && Do(w, s).savedNames == w.names
    ensures s.CommitCheckpoint? ==> Do(w, s).saved == map[] && Do(w, s).savedNames == map[]
  {
  }

  lemma RollbackEffect(w: World, s: Step)
    requires Enabled(w, s) && s.Rollback?
    ensures Do(w, s).names == w.savedNames && Do(w, s).live == w.saved && Do(w, s).saved == map[]
    ensures Do(w, s).savedNames == map[]
    ensures Do(w, s).doomed == w.doomed
  {
  }

  lemma CheckpointKeepsPlaces(st: Store, s: Step)
    requires Sound(st) && Can(st, Keys(s)) && (s.BeginCheckpoint? || s.CommitCheckpoint?)
    ensures Placed(DoKeys(st, s))
  {
    hide Inv, LiveIsWorst, Traced, RestFilled, BlobsFilled, Do, Enabled, Next, MayGenerate, RestVersions;
    CheckpointEffect(st.w, s);
  }

  lemma CheckpointKeepsRest(st: Store, s: Step)
    requires Sound(st) && Can(st, Keys(s)) && (s.BeginCheckpoint? || s.CommitCheckpoint?)
    ensures RestFilled(DoKeys(st, s))
  {
    hide Inv, LiveIsWorst, Traced, Placed, BlobsFilled, Complete, Do, Enabled, Next, MayGenerate, Settled;
    CheckpointEffect(st.w, s);
    CompleteStays(st.w, st.lineage, s);
    var st' := DoKeys(st, s);
    if s.BeginCheckpoint? {
      forall i | i in st'.savedStored
        ensures WholeOrGone(st'.savedRest[i], st'.savedStored[i], st'.lineage, i, st'.w.doomed)
      {
        assert RestVersion(i, st.rest[i]) in RestVersions(st.rest);
      }
    }
  }

  lemma RollbackKeepsPlaces(st: Store, s: Step)
    requires Sound(st) && Can(st, Keys(s)) && s.Rollback?
    ensures Placed(DoKeys(st, s))
  {
    hide Inv, LiveIsWorst, Traced, RestFilled, BlobsFilled, Do, Enabled, Next, MayGenerate, RestVersions;
    RollbackEffect(st.w, s);
  }

  lemma RollbackKeepsRest(st: Store, s: Step)
    requires Sound(st) && Can(st, Keys(s)) && s.Rollback?
    ensures RestFilled(DoKeys(st, s))
  {
    hide Inv, LiveIsWorst, Traced, Placed, BlobsFilled, Complete, Do, Enabled, Next, MayGenerate, Settled;
    RollbackEffect(st.w, s);
    CompleteStays(st.w, st.lineage, s);
  }

  /** An edit never takes the blob away. */
  lemma EditsKeepBlob(w: World, s: Step)
    requires Enabled(w, s) && EditOf(w, s).Some?
    ensures var e := EditOf(w, s).value; Known(w, e.dir) && (FilesOf(w, e.dir).blob.Some? ==> e.files.blob.Some?)
  {
    hide IsPending, Injective, LiveVersions, Do;
  }

  lemma SavedStays(w: World, s: Step)
    requires Enabled(w, s) && !s.PowerCut?
    ensures Do(w, s).saved == if s.BeginCheckpoint? then w.live
        else if s.CommitCheckpoint? || s.Rollback? then map[] else w.saved
  {
    hide Do, Enabled;
    if !Naming(s) { OthersLeaveNames(w, s); }
    else if s.Create? { CreateEffect(w, s); }
    else if s.RenameDir? { RenameEffect(w, s); }
    else if s.RemoveDir? { RemoveEffect(w, s); }
    else if s.Rollback? { RollbackEffect(w, s); }
    else { CheckpointEffect(w, s); }
  }

  lemma StepKeepsBlobs(st: Store, s: Step)
    requires Sound(st) && Can(st, Keys(s))
    ensures BlobsFilled(DoKeys(st, s))
  {
    hide Traced, Placed, Complete, Ids, Safe, Spare, Held, Listed, Shape, Do, Enabled, Next, EditOf, DoKeys, Can;
    KeyStepParts(st, s);
    SavedStays(st.w, s);
    if s.Rollback? {
      RollbackIsSaved(st.w, s);
    } else if EditOf(st.w, s).None? {
      DurableShrinks(st.w, s);
      FreshIsNotLive(st.w);
      LiveIsDurable(st.w);
    } else {
      EditIsChange(st.w, s);
      EditsKeepBlob(st.w, s);
      LiveIsDurable(st.w);
    }
  }

  lemma RollbackIsSaved(w: World, s: Step)
    requires Enabled(w, s) && s.Rollback?
    ensures forall v :: v in Do(w, s).durable ==> v.ino in w.saved && w.saved[v.ino] == v.files
  {
  }

  lemma FreshIsNotLive(w: World)
    requires Shape(w)
    ensures w.nextIno !in w.live
  {
  }

  lemma LiveIsDurable(w: World)
    requires Shape(w)
    ensures forall i :: i in w.live ==> Version(i, w.live[i]) in w.durable
  {
    forall i | i in w.live ensures Version(i, w.live[i]) in w.durable { LiveMatters(w, i); }
  }

  lemma KeyStepKeeps(st: Store, s: Step)
    requires Sound(st) && Can(st, Keys(s))
    ensures Sound(DoKeys(st, s))
  {
    hide Placed, RestFilled, BlobsFilled, Inv, LiveIsWorst, Traced, Do, Next, Enabled, DoKeys;
    KeyStepParts(st, s);
    StepKeeps(st.w, s);
    StepKeepsLiveIsWorst(st.w, s);
    StepTraces(st.w, st.lineage, s);
    StepKeepsBlobs(st, s);
    if !Naming(s) { QuietStepKeeps(st, s); }
    else if s.Create? { CreateKeepsPlaces(st, s); CreateKeepsRest(st, s); }
    else if s.RenameDir? { RenameKeepsPlaces(st, s); RenameKeepsRest(st, s); }
    else if s.RemoveDir? { RemoveKeepsPlaces(st, s); RenameKeepsRest(st, s); }
    else if s.Rollback? { RollbackKeepsPlaces(st, s); RollbackKeepsRest(st, s); }
    else { CheckpointKeepsPlaces(st, s); CheckpointKeepsRest(st, s); }
  }

  lemma KeyStepParts(st: Store, s: Step)
    requires Can(st, Keys(s))
    ensures Enabled(st.w, s) && MayGenerate(st.w, st.lineage, s) && !s.PowerCut?
    ensures DoKeys(st, s).w == Do(st.w, s) && DoKeys(st, s).lineage == Next(st.w, st.lineage, s)
    ensures DoKeys(st, s).stored == if s.Rollback? then st.savedStored else st.stored
    ensures DoKeys(st, s).savedStored ==
      if s.BeginCheckpoint? then st.stored else if s.CommitCheckpoint? || s.Rollback? then map[] else st.savedStored
  {
    hide Do, Enabled, Next;
  }

  // ----- The other moves -----

  lemma WriteKeeps(st: Store, m: Move)
    requires Sound(st) && Can(st, m) && m.WriteRest?
    ensures Sound(Moved(st, m))
  {
    hide Inv, LiveIsWorst, Traced, Complete, Agree, RestFilled, BlobsFilled;
    assert Placed(Moved(st, m)) && BlobsFilled(Moved(st, m)) by { SameBlobs(st, Moved(st, m)); }
    WriteKeepsRest(st, m);
  }

  lemma DiscardKeeps(st: Store, m: Move)
    requires Sound(st) && Can(st, m) && m.Discard?
    ensures Sound(Moved(st, m))
  {
    hide Inv, LiveIsWorst, Traced, Complete, Agree, RestFilled, BlobsFilled;
    assert Placed(Moved(st, m)) && BlobsFilled(Moved(st, m)) by { SameBlobs(st, Moved(st, m)); }
    DiscardKeepsRest(st, m);
  }

  lemma DiscardKeepsRest(st: Store, m: Move)
    requires Sound(st) && Can(st, m) && m.Discard?
    ensures RestFilled(Moved(st, m))
  {
    hide Inv, LiveIsWorst, Traced, Placed, BlobsFilled, Complete;
    NameFacts(st);
  }

  lemma SameBlobs(st: Store, st': Store)
    requires BlobsFilled(st) && st' == st.(rest := st'.rest, mayRest := st'.mayRest)
    ensures BlobsFilled(st')
  {
  }

  lemma WriteKeepsRest(st: Store, m: Move)
    requires Sound(st) && Can(st, m) && m.WriteRest?
    ensures RestFilled(Moved(st, m))
  {
    hide Inv, LiveIsWorst, Traced, Placed, BlobsFilled, Complete;
    NameFacts(st);
  }

  lemma SyncedMatters(w: World, p: Path)
    requires Inv(w) && Known(w, p)
    ensures Enabled(w, SyncKeys(p))
    ensures var w' := Do(w, SyncKeys(p));
      && w'.names == w.names && w'.live == w.live && w'.saved == w.saved && w'.savedNames == w.savedNames
      && w'.doomed == w.doomed
      && (forall v :: v in w'.durable ==> v in w.durable)
      && (forall v :: v in w'.durable && v.ino == w.names[p] ==> v.files == FilesOf(w, p))
  {
    hide Ids, Safe, Spare, Held, Listed, Injective;
    LiveMatters(w, w.names[p]);
  }

  lemma FinishKeepsPlaces(st: Store, m: Move)
    requires Sound(st) && Can(st, m) && m.Finish?
    ensures Placed(Moved(st, m))
  {
    hide Inv, LiveIsWorst, Traced, Complete, Agree, Do, Enabled, RestFilled, BlobsFilled, RestVersions;
    SyncedMatters(st.w, m.path);
  }

  lemma FinishKeepsRest(st: Store, m: Move)
    requires Sound(st) && Can(st, m) && m.Finish?
    ensures RestFilled(Moved(st, m))
  {
    hide Inv, LiveIsWorst, Traced, Complete, Agree, Do, Enabled, Placed, BlobsFilled;
    SyncedMatters(st.w, m.path);
  }

  lemma FinishKeepsBlobs(st: Store, m: Move)
    requires Sound(st) && Can(st, m) && m.Finish?
    ensures BlobsFilled(Moved(st, m))
  {
    hide Inv, LiveIsWorst, Traced, Complete, Agree, Do, Enabled, Placed, WholeOrGone;
    SyncedMatters(st.w, m.path);
  }

  lemma FinishKeeps(st: Store, m: Move)
    requires Sound(st) && Can(st, m) && m.Finish?
    ensures Sound(Moved(st, m))
  {
    hide Inv, LiveIsWorst, Traced, Complete, Agree, Do, Enabled, Placed, RestFilled, BlobsFilled;
    SyncedMatters(st.w, m.path);
    StepKeeps(st.w, SyncKeys(m.path));
    StepKeepsLiveIsWorst(st.w, SyncKeys(m.path));
    StepTraces(st.w, st.lineage, SyncKeys(m.path));
    FinishKeepsPlaces(st, m);
    FinishKeepsRest(st, m);
    FinishKeepsBlobs(st, m);
  }

  lemma SyncNamesKeeps(st: Store, m: Move)
    requires Sound(st) && Can(st, m) && m.SyncNames?
    ensures Sound(Moved(st, m))
  {
    hide Inv, LiveIsWorst, Traced, Complete, Agree, RestFilled, BlobsFilled, Parent;
    var st' := Moved(st, m);
    assert Placed(st');
    hide Placed;
    assert RestFilled(st') && BlobsFilled(st') by { SameFilled(st, st'); }
  }

  lemma SameFilled(st: Store, st': Store)
    requires RestFilled(st) && BlobsFilled(st) && st' == st.(places := st'.places)
    ensures RestFilled(st') && BlobsFilled(st')
  {
    hide Complete;
  }

  lemma CutEffect(w: World, s: Step)
    requires Enabled(w, s) && s.PowerCut?
    ensures var w' := Do(w, s);
      && w'.names == s.tree && w'.live == s.survivors && w'.live.Keys == w.live.Keys && w'.doomed == w.doomed
      && (forall v :: v in w'.durable ==> v in w.durable)
      && w'.saved == (if s.resume then w.saved else map[])
      && w'.savedNames == (if s.resume then w.savedNames else map[])
  {
  }

  lemma CutKeepsPlaces(st: Store, m: Move)
    requires Sound(st) && Can(st, m) && m.Cut?
    ensures Placed(Moved(st, m))
  {
    hide Inv, LiveIsWorst, Traced, Complete, Agree, Do, Enabled, RestFilled, BlobsFilled, RestVersions;
    CutEffect(st.w, m.s);
    AgreeEmpty();
  }

  lemma CutKeepsRest(st: Store, m: Move)
    requires Sound(st) && Can(st, m) && m.Cut?
    ensures RestFilled(Moved(st, m)) && BlobsFilled(Moved(st, m))
  {
    hide Inv, LiveIsWorst, Traced, Complete, Agree, Do, Enabled, Placed, Settled;
    CutEffect(st.w, m.s);
  }

  lemma CutKeeps(st: Store, m: Move)
    requires Sound(st) && Can(st, m) && m.Cut?
    ensures Sound(Moved(st, m))
  {
    hide Inv, LiveIsWorst, Traced, Complete, Agree, Do, Enabled, Placed, RestFilled, BlobsFilled;
    StepKeeps(st.w, m.s);
    StepKeepsLiveIsWorst(st.w, m.s);
    StepTraces(st.w, st.lineage, m.s);
    CutKeepsPlaces(st, m);
    CutKeepsRest(st, m);
  }

  lemma AgreeEmpty()
    ensures Agree(map[], map[])
  {
  }

  lemma MoveKeeps(st: Store, m: Move)
    requires Sound(st) && Can(st, m)
    ensures Sound(Moved(st, m))
  {
    hide Sound, Can;
    match m
    case Keys(s) => KeyStepKeeps(st, s);
    case WriteRest(_, _) => WriteKeeps(st, m);
    case Discard(_) => DiscardKeeps(st, m);
    case Finish(_, _) => FinishKeeps(st, m);
    case SyncNames(_) => SyncNamesKeeps(st, m);
    case Cut(_, _, _) => CutKeeps(st, m);
  }

  // ----- What is not synced may be undone -----

  /** Moves that make something durable, or lose what is not. */
  predicate Settling(m: Move) {
    m.Finish? || m.SyncNames? || m.Cut?
    || (m.Keys? && (m.s.SyncKeys? || m.s.SyncDir? || m.s.BeginCheckpoint? || m.s.Rollback?))
  }

  /** Losing power right after `st` became `b` undoes what was done: only a new directory is left, without a name. */
  function Undoing(st: Store, b: Store): Move {
    Cut(PowerCut(b.w.live + st.w.live, st.w.names, false), b.rest + st.rest,
        map i | i in b.places :: if i in st.place then st.place[i] else None)
  }

  lemma KeptVersions(w: World, s: Step)
    requires Enabled(w, s) && !s.SyncKeys? && !s.SyncDir? && !s.BeginCheckpoint? && !s.Rollback? && !s.PowerCut?
    ensures w.live.Keys <= Do(w, s).live.Keys && w.durable <= Do(w, s).durable
  {
    hide IsPending, LiveVersions, WithoutDir, WithRenamed, Enabled, NextHolder;
  }

  lemma UndoingKeys(a: World, b: World)
    requires Inv(a) && Inv(b) && a.live.Keys <= b.live.Keys && a.durable <= b.durable
    ensures Enabled(b, PowerCut(b.live + a.live, a.names, false))
  {
    hide Ids, Safe, Spare, Held, Listed;
    forall v | v in LiveVersions(b.live + a.live) ensures v in b.durable {
      if v.ino in a.live { LiveMatters(a, v.ino); } else { LiveMatters(b, v.ino); }
    }
  }

  /** What is on disk now is among what can be left of it. */
  ghost predicate NowIsPossible(st: Store) {
    && st.place.Keys == st.places.Keys == st.rest.Keys == st.w.live.Keys && st.w.nextIno !in st.w.live
    && st.w.names.Values <= st.place.Keys
    && (forall i :: i in st.place ==> st.place[i] in st.places[i])
    && (forall i :: i in st.rest ==> RestVersion(i, st.rest[i]) in st.mayRest)
    && Agree(st.w.names, st.place)
  }

  lemma SoundIsPossible(st: Store)
    requires Sound(st)
    ensures NowIsPossible(st)
  {
    hide LiveIsWorst, Traced, BlobsFilled, Agree, Ids, Safe, Spare, Held, Listed, WholeOrGone;
    forall i | i in st.rest ensures RestVersion(i, st.rest[i]) in st.mayRest {
      assert RestVersion(i, st.rest[i]) in RestVersions(st.rest);
    }
  }

  /** What could be on disk before still can. */
  ghost predicate NothingSettled(st: Store, b: Store) {
    && st.mayRest <= b.mayRest && st.w.live.Keys <= b.w.live.Keys
    && (forall i :: i in st.places ==> i in b.places && st.places[i] <= b.places[i])
    && (forall i :: i in b.places && i !in st.places ==> None in b.places[i])
  }

  lemma UnsyncedSettlesNothing(st: Store, m: Move)
    requires NowIsPossible(st) && Can(st, m) && !Settling(m)
    requires m.Keys? ==> st.w.live.Keys <= Do(st.w, m.s).live.Keys
    ensures NothingSettled(st, Moved(st, m))
  {
    hide Do, Enabled, MayGenerate, Next, Complete, Agree, RestVersions, DoKeys, NothingSettled;
    match m
    case Keys(s) => StepSettlesNothing(st, s);
    case _ => AlikeSettlesNothing(st, Moved(st, m));
  }

  lemma AlikeSettlesNothing(st: Store, b: Store)
    requires st.mayRest <= b.mayRest && st.w == b.w && st.places == b.places
    ensures NothingSettled(st, b)
  {
  }

  lemma StepSettlesNothing(st: Store, s: Step)
    requires NowIsPossible(st) && Enabled(st.w, s) && !s.PowerCut? && !s.BeginCheckpoint? && !s.Rollback?
    requires st.w.live.Keys <= Do(st.w, s).live.Keys
    ensures NothingSettled(st, DoKeys(st, s))
  {
    hide Do, Enabled, MayGenerate, Next, Agree, RestVersions;
    PathsAreNames(st.w, s);
  }

  lemma PathsAreNames(w: World, s: Step)
    requires Enabled(w, s)
    ensures s.RenameDir? || s.RemoveDir? ==> s.path in w.names
  {
  }

  lemma UndoneAgrees(st: Store, at: map<Ino, Place>)
    requires Agree(st.w.names, st.place) && forall i :: i in at ==> at[i] == if i in st.place then st.place[i] else None
    requires st.place.Keys <= at.Keys
    ensures Agree(st.w.names, at)
  {
  }

  lemma CutIsPossible(st: Store, s: Step, kept: map<Ino, Rest>, at: map<Ino, Place>)
    requires s.PowerCut? && Enabled(st.w, s) && kept.Keys == st.rest.Keys && RestVersions(kept) <= st.mayRest
    requires at.Keys == st.places.Keys && (forall i :: i in at ==> at[i] in st.places[i]) && Agree(s.tree, at)
    ensures Can(st, Cut(s, kept, at))
  {
  }

  lemma UndoingIsPossible(st: Store, b: Store)
    requires NowIsPossible(st) && NowIsPossible(b) && NothingSettled(st, b)
    requires Enabled(b.w, PowerCut(b.w.live + st.w.live, st.w.names, false))
    ensures Can(b, Undoing(st, b))
  {
    hide Enabled, Agree, RestVersions, Can, NowIsPossible, NothingSettled;
    UndonePlacesArePossible(st, b);
    UndoneRestIsPossible(st, b);
    CutIsPossible(b, PowerCut(b.w.live + st.w.live, st.w.names, false), b.rest + st.rest, Undoing(st, b).at);
  }

  lemma UndoneRestIsPossible(st: Store, b: Store)
    requires NowIsPossible(st) && NowIsPossible(b) && NothingSettled(st, b)
    ensures RestVersions(b.rest + st.rest) <= b.mayRest && (b.rest + st.rest).Keys == b.rest.Keys
  {
    hide Agree;
  }

  lemma UndonePlacesArePossible(st: Store, b: Store)
    requires NowIsPossible(st) && NowIsPossible(b) && NothingSettled(st, b)
    ensures var at := Undoing(st, b).at;
      at.Keys == b.places.Keys && (forall i :: i in at ==> at[i] in b.places[i]) && Agree(st.w.names, at)
  {
    hide Agree, RestVersions;
    var at := Undoing(st, b).at;
    UndoneAgrees(st, at);
    forall i | i in at ensures at[i] in b.places[i] {
      if i in st.place { assert st.place[i] in st.places[i] && st.places[i] <= b.places[i]; }
    }
  }

  /** Files and names are as they were; a directory made since is left without a name. */
  ghost predicate Undone(st: Store, left: Store) {
    && left.w.names == st.w.names
    && forall i :: i in st.rest && i in st.w.live ==>
         i in left.w.live && left.w.live[i] == st.w.live[i] && i in left.rest && left.rest[i] == st.rest[i]
  }

  /** Whatever does not sync may be undone by losing power right after it. */
  lemma UnsyncedMayBeUndone(st: Store, m: Move, b: Store)
    requires Sound(st) && Can(st, m) && !Settling(m) && b == Moved(st, m)
    ensures Can(b, Undoing(st, b)) && Undone(st, Moved(b, Undoing(st, b)))
  {
    hide Sound, Can, NothingSettled, Enabled, NowIsPossible, Moved, Undoing, Undone;
    MoveKeeps(st, m);
    SoundIsPossible(st);
    SoundIsPossible(b);
    UnsyncedKeepsVersions(st, m);
    UnsyncedSettlesNothing(st, m);
    SoundHasInv(st);
    SoundHasInv(b);
    UndoingKeys(st.w, b.w);
    UndoingIsPossible(st, b);
    LeftAfterUndoing(st, b);
  }

  lemma SoundHasInv(st: Store)
    requires Sound(st)
    ensures Inv(st.w)
  {
    hide Inv, LiveIsWorst, Traced, Placed, RestFilled, BlobsFilled;
  }

  lemma UnsyncedKeepsVersions(st: Store, m: Move)
    requires Can(st, m) && !Settling(m)
    ensures st.w.live.Keys <= Moved(st, m).w.live.Keys && st.w.durable <= Moved(st, m).w.durable
    ensures m.Keys? ==> st.w.live.Keys <= Do(st.w, m.s).live.Keys
  {
    hide Do, Enabled, MayGenerate, Next, Complete;
    if m.Keys? { KeptVersions(st.w, m.s); }
  }

  lemma LeftAfterUndoing(st: Store, b: Store)
    requires Can(b, Undoing(st, b))
    ensures Undone(st, Moved(b, Undoing(st, b)))
  {
    hide Agree, Enabled, RestVersions, Complete, MayGenerate, Do;
    var s := PowerCut(b.w.live + st.w.live, st.w.names, false);
    assert Undoing(st, b).s == s;
    LeftAfterCut(b.w, s);
  }

  lemma LeftAfterCut(w: World, s: Step)
    requires Enabled(w, s) && s.PowerCut?
    ensures Do(w, s).names == s.tree && Do(w, s).live == s.survivors
  {
  }

  // ----- What is stored can be retrieved -----

  lemma OpeningKeyTraces(w: World, l: Lineage, dir: Path)
    requires Inv(w) && Traced(w, l) && Known(w, dir) && w.names[dir] !in w.doomed && w.holder == Free
    requires FilesOf(w, dir).blob.Some? || IsPending(w, dir)
    ensures var k := OpeningKey(w, dir);
      k.Some? && k.value !in w.deleted && TracesTo(l, w.names[dir], k)
  {
    hide Ids, Spare, Listed, Injective;
    LiveMatters(w, w.names[dir]);
    if IsPending(w, dir) {
      var n :| 0 <= n < |w.pending| && SameFile(w, dir, w.pending[n]);
      assert Ready(w, w.pending[n]) && Queue(w)[n] == w.pending[n];
      assert ToCommit(w, w.names[dir]);
    }
  }

  /**
    Every directory found under a name that is not temporary, unless its destruction has begun, is
    complete: with the authentication and the seed it was stored with, its key can be retrieved.
  */
  lemma StoredIsRetrievable(st: Store, dir: Path)
    requires Sound(st) && dir in st.w.names && dir !in st.temps && st.w.names[dir] !in st.w.doomed
    requires st.w.holder == Free
    ensures var i := st.w.names[dir];
      && i in st.stored
      && Retrieved(st, dir, st.stored[i].auth, st.stored[i].seed) == Some(st.stored[i].message)
    ensures var i := st.w.names[dir];
      && i in st.rest && st.rest[i].version == Some("1") && st.rest[i].encrypted.Some?
      && (st.stored[i].auth.secret == "" <==> st.rest[i].encrypted.value.under.Some?)
      && (st.stored[i].auth.secret == "" ==> FilesOf(st.w, dir).blob.Some?)
  {
    hide Inv, LiveIsWorst, Traced;
    NameFacts(st);
    var i := st.w.names[dir];
    assert st.place[i] == Some(dir) && Some(dir) in st.places[i];
    assert RestVersion(i, st.rest[i]) in RestVersions(st.rest);
    if st.stored[i].auth.UsesKeystore() {
      assert FilesOf(st.w, dir).blob.Some? by { InvLive(st.w, i); }
      OpeningKeyTraces(st.w, st.lineage, dir);
    }
  }

  /** What was stored can still be read: it was not overwritten, and its Keystore key, if any, not deleted. */
  predicate Usable(st: Store, i: Ino) {
    i in st.stored && i in st.rest && st.rest[i].encrypted.Some? && (st.stored[i].auth.UsesKeystore() ==>
        !Lost(st.w, i))
  }

  lemma UndoomedIsUsable(st: Store, i: Ino)
    requires Sound(st) && i in st.stored && i !in st.w.doomed
    ensures Usable(st, i)
  {
    hide LiveIsWorst, Traced, Ids, Spare, Held, Listed, Placed, BlobsFilled;
    assert RestVersion(i, st.rest[i]) in RestVersions(st.rest);
    LiveMatters(st.w, i);
  }

  /** The key in a directory that is being destroyed is the one in its blob file. */
  lemma DoomedIsNotPending(w: World, dir: Path)
    requires Inv(w) && w.holder == Free && dir in w.names && w.names[dir] in w.doomed
    ensures !IsPending(w, dir)
  {
    hide Shape, Ids, Safe, Spare, Listed;
    forall n | 0 <= n < |w.pending| ensures !SameFile(w, dir, w.pending[n]) { assert Ready(w, w.pending[n]); }
  }

  lemma BlobTraces(w: World, l: Lineage, i: Ino)
    requires Inv(w) && Traced(w, l) && i in w.live && w.live[i].blob.Some?
    ensures TracesTo(l, i, w.live[i].blob)
  {
    hide Ids, Safe, Spare, Held, Listed;
    LiveMatters(w, i);
  }

  /** The key an operation uses traces back, and is deleted exactly if the directory has lost it. */
  lemma StoredKey(st: Store, dir: Path)
    requires Sound(st) && st.w.holder == Free && dir in st.w.names && st.w.names[dir] in st.stored
    requires st.stored[st.w.names[dir]].auth.UsesKeystore()
    ensures var i, k := st.w.names[dir], OpeningKey(st.w, dir);
      Known(st.w, dir) && k.Some? && TracesTo(st.lineage, i, k) && (k.value in st.w.deleted <==> Lost(st.w, i))
  {
    hide Inv, LiveIsWorst, Traced, Placed, RestFilled, IsPending;
    NameFacts(st);
    var i := st.w.names[dir];
    InvLive(st.w, i);
    if i in st.w.doomed {
      DoomedIsNotPending(st.w, dir);
      BlobTraces(st.w, st.lineage, i);
    } else {
      OpeningKeyTraces(st.w, st.lineage, dir);
      UndoomedIsUsable(st, i);
    }
  }

  lemma SamePrefix(x: string, y: string, z: string)
    ensures x + y == x + z <==> y == z
    ensures y + x == z + x <==> y == z
  {
    if x + y == x + z { assert (x + y)[|x|..] == y && (x + z)[|x|..] == z; }
    if y + x == z + x { assert |y| == |z| && (y + x)[..|y|] == y && (z + x)[..|z|] == z; }
  }

  /** The application id depends on the secret and the seed behind it, and on the salt before them. */
  lemma AppIdsAgree(r: Rest, auth: Auth, seed: string, q: Rest, other: Auth, otherSeed: string)
    ensures r.secdiscardable == q.secdiscardable ==>
      (AppId(r, auth, seed) == AppId(q, other, otherSeed) <==> auth.secret + seed == other.secret + otherSeed)
    ensures auth.secret + seed == other.secret + otherSeed && r.secdiscardable.Some? && q.secdiscardable.Some? ==>
      (AppId(r, auth, seed) == AppId(q, other, otherSeed) <==> r.secdiscardable == q.secdiscardable)
  {
    var salt := if r.secdiscardable.Some? then r.secdiscardable.value else "";
    var salt' := if q.secdiscardable.Some? then q.secdiscardable.value else "";
    assert AppId(r, auth, seed) == salt + (auth.secret + seed);
    assert AppId(q, other, otherSeed) == salt' + (other.secret + otherSeed);
    SamePrefix(salt, auth.secret + seed, other.secret + otherSeed);
    SamePrefix(auth.secret + seed, salt, salt');
  }

  /**
    Retrieving works exactly when what was stored can still be read and is asked for with what it was
    stored with.
  */
  lemma RetrievedExactly(st: Store, dir: Path, auth: Auth, seed: string)
    requires Sound(st) && st.w.holder == Free && dir in st.w.names && st.w.names[dir] in st.stored
    ensures var i := st.w.names[dir]; var d := st.stored[i];
      && i in st.rest
      && Retrieved(st, dir, auth, seed) ==
           if Usable(st, i) && (auth.secret == "") == (d.auth.secret == "")
              && auth.secret + seed == d.auth.secret + d.seed
           then Some(d.message) else None
  {
    hide Inv, LiveIsWorst, Traced, Placed, BlobsFilled, AppId, Lost, OpeningKey;
    NameFacts(st);
    var i := st.w.names[dir];
    AppIdsAgree(st.rest[i], auth, seed, st.rest[i], st.stored[i].auth, st.stored[i].seed);
    assert RestVersion(i, st.rest[i]) in RestVersions(st.rest);
    if st.stored[i].auth.UsesKeystore() { StoredKey(st, dir); }
  }

  /** With the seed it was stored with, a key is retrieved with its own secret and with no other. */
  lemma OnlyItsSecretOpens(st: Store, dir: Path, auth: Auth)
    requires Sound(st) && st.w.holder == Free && dir in st.w.names && Usable(st, st.w.names[dir])
    ensures var d := st.stored[st.w.names[dir]];
      Retrieved(st, dir, auth, d.seed) == if auth.secret == d.auth.secret then Some(d.message) else None
  {
    hide Sound, Retrieved;
    var d := st.stored[st.w.names[dir]];
    RetrievedExactly(st, dir, auth, d.seed);
    SamePrefix(d.seed, auth.secret, d.auth.secret);
  }

  /** Once another salt stands in the directory, what was stored in it is not retrieved. */
  lemma OtherSaltOpensNothing(st: Store, dir: Path, salt: string)
    requires Sound(st) && st.w.holder == Free && dir in st.w.names && st.w.names[dir] in st.stored
    requires var r := st.rest[st.w.names[dir]]; r.secdiscardable.Some? && r.secdiscardable.value != salt
    ensures var i := st.w.names[dir]; var d := st.stored[i];
      Retrieved(st.(rest := st.rest[i := st.rest[i].(secdiscardable := Some(salt))]), dir, d.auth, d.seed).None?
  {
    hide Inv, LiveIsWorst, Traced, Placed, BlobsFilled, AppId, Lost, OpeningKey;
    NameFacts(st);
    var i := st.w.names[dir];
    var d, r := st.stored[i], st.rest[i];
    assert RestVersion(i, r) in RestVersions(st.rest);
    AppIdsAgree(r, d.auth, d.seed, r.(secdiscardable := Some(salt)), d.auth, d.seed);
  }

  lemma InvLive(w: World, i: Ino)
    requires Inv(w) && i in w.live
    ensures Version(i, w.live[i]) in w.durable
  {
    hide Ids, Safe, Spare, Held, Listed;
    LiveMatters(w, i);
  }

  // ----- Runs -----

  /** Nothing stored yet; `temps` are the temporary names. */
  function NewStore(temps: set<Path>): Store {
    Store(EMPTY, Lineage(map[], map[]), map[], {}, map[], map[], map[], map[], map[], map[], temps)
  }

  lemma NewStoreIsSound(temps: set<Path>)
    ensures Sound(NewStore(temps))
  {
    hide Inv;
    EmptyIsFine();
    AgreeEmpty();
    var st := NewStore(temps);
    assert Traced(st.w, st.lineage);
    hide Traced;
  }

  ghost predicate Follows(a: Store, b: Store) {
    exists m :: Can(a, m) && b == Moved(a, m)
  }

  /** The stores a run goes through, one move at a time. */
  ghost predicate IsTrace(trace: seq<Store>) {
    && trace != [] && trace[0] == NewStore(trace[0].temps)
    && forall n :: 0 < n < |trace| ==> Follows(trace[n - 1], trace[n])
  }

  lemma {:induction false} TraceIsSound(trace: seq<Store>, n: nat)
    requires IsTrace(trace) && n < |trace|
    ensures Sound(trace[n])
  {
    hide Sound, Can, Moved;
    if n == 0 {
      NewStoreIsSound(trace[0].temps);
    } else {
      TraceIsSound(trace, n - 1);
      assert Follows(trace[n - 1], trace[n]);
      var m :| Can(trace[n - 1], m) && trace[n] == Moved(trace[n - 1], m);
      MoveKeeps(trace[n - 1], m);
    }
  }

  /**
    Keys are stored all or nothing.  Wherever a run is cut off, or rolled back to its checkpoint, a
    name that is not temporary is absent, or being destroyed, or a complete directory from which the
    key is retrieved with the authentication it was stored with.
  */
  lemma StoreIsAtomic(trace: seq<Store>, loss: Move, dir: Path)
    requires IsTrace(trace) && Can(trace[|trace| - 1], loss) && (loss.Cut? || loss == Keys(Rollback))
    ensures var st := Moved(trace[|trace| - 1], loss);
      dir in st.w.names && dir !in st.temps && st.w.names[dir] !in st.w.doomed ==>
        && st.w.names[dir] in st.stored
        && var d := st.stored[st.w.names[dir]];
           Retrieved(st, dir, d.auth, d.seed) == Some(d.message)
  {
    hide Sound, Can, Moved, Retrieved;
    var last := trace[|trace| - 1];
    TraceIsSound(trace, |trace| - 1);
    MoveKeeps(last, loss);
    LossFreesTheLock(last, loss);
    var st := Moved(last, loss);
    if dir in st.w.names && dir !in st.temps && st.w.names[dir] !in st.w.doomed { StoredIsRetrievable(st, dir); }
  }

  lemma LossFreesTheLock(st: Store, loss: Move)
    requires Can(st, loss) && (loss.Cut? || loss == Keys(Rollback))
    ensures Moved(st, loss).w.holder == Free
  {
    hide LiveVersions, Injective, Agree, RestVersions, Settled;
  }
}
