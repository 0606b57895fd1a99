/**
  What the operations on users' keys look for and promise: which key is on disk, whether there is a
  name left for a new binding, and whether all bindings are of one key.
*/
module CeProtection {
  import opened Wrappers
  import opened KeyUpgrade
  import opened KeyLineage
  import opened KeyDirectories
  import opened KeyMoves
  import opened CeKeyNames
  import opened CeBindings
  import opened CeChanges

  const EMPTY_AUTH := Auth("")

  /** What can be seen of a key on disk: the canonical binding, or any binding if the directory can be read. */
  ghost predicate OnDisk(st: Store, dir: Path, readable: bool) {
    CurrentPath(dir) in st.w.names || (readable && exists p :: p in st.w.names && IsCeKeyPath(dir, p))
  }

  /** Some binding opens with the authentication. */
  ghost predicate OpensWith(st: Store, dir: Path, auth: Auth, seed: string) {
    exists p, m :: Opens(st, dir, p, auth, seed, m)
  }

  /** A key that opened with the authentication still does, and was kept all the time. */
  ghost predicate StillOpens(before: seq<Store>, a: Store, after: seq<Store>, b: Store, dir: Path, auth: Auth,
                             seed: string) {
    exists p, q, m ::
      && Opens(a, dir, p, auth, seed, m) && Opens(b, dir, q, auth, seed, m)
      && (AllStay(a, dir) ==> NeverLoses(before, a, after, b, Keeping(dir, {m})))
  }

  /** A key that was found on disk was there, and only other keys below `dir` were given up. */
  ghost predicate Recovers(before: seq<Store>, a: Store, after: seq<Store>, b: Store, dir: Path, auth: Auth,
                           seed: string,
                           key: Option<Message>, done: bool) {
    && (key.Some? ==>
          && (exists p :: Opens(a, dir, p, EMPTY_AUTH, seed, key.value))
          && (AllStay(a, dir) ==> NeverLoses(before, a, after, b, Keeping(dir, {key.value}))))
    && (done ==> StillOpens(before, a, after, b, dir, auth, seed))
    && (key.None? && !done ==> NeverLoses(before, a, after, b, map[]))
  }

  lemma SameOpenings(a: Store, b: Store, dir: Path, auth: Auth, seed: string)
    requires Sound(a) && Sound(b) && SameTree(a, b) && a.w.holder == Free && b.w.holder == Free && NoCeTemps(a.temps)
    ensures forall p, m :: Opens(a, dir, p, auth, seed, m) <==> Opens(b, dir, p, auth, seed, m)
  {
    hide Sound, Retrieved, NoCeTemps, IsCeKeyPath, SameTree;
    TreeTurned(a, b);
    forall p, m | Opens(a, dir, p, auth, seed, m)
      ensures Opens(b, dir, p, auth, seed, m)
    {
      OpensAlike(a, b, dir, p, auth, seed, m);
    }
    forall p, m | Opens(b, dir, p, auth, seed, m)
      ensures Opens(a, dir, p, auth, seed, m)
    {
      OpensAlike(b, a, dir, p, auth, seed, m);
    }
  }

  lemma TreeTurned(a: Store, b: Store)
    requires SameTree(a, b)
    ensures SameTree(b, a) && b.temps == a.temps
  {
  }

  lemma EntryParts(st: Store, dir: Path, p: Path)
    requires Entry(st, dir, p)
    ensures IsCeKeyPath(dir, p) && p in st.w.names && Bound(st, st.w.names[p], dir)
  {
  }

  lemma MoreEntries(st: Store, deferred: map<Path, Path>, dir: Path, p: Path)
    requires Entries(st, deferred) && Entry(st, dir, p)
    ensures Entries(st, deferred[dir := p])
  {
    hide Entry;
  }

  lemma NewPathIsCeKeyPath(dir: Path, paths: seq<Path>, path: Path)
    requires if paths == [] then path == CurrentPath(dir)
        else exists n :: FirstAbove(dir, paths[0], n) && path == Candidate(dir, n)
    ensures IsCeKeyPath(dir, path)
  {
    if paths == [] {
      CurrentIsCeKeyPath(dir);
    } else {
      var n :| FirstAbove(dir, paths[0], n) && path == Candidate(dir, n);
      CandidateIsCeKeyPath(dir, n);
    }
  }

  /** No newer binding opens. */
  ghost predicate NewestOpen(st: Store, dir: Path, p: Path, auth: Auth, seed: string) {
    forall q :: q in st.w.names && IsCeKeyPath(dir, q) && Less(p, q) ==> Closed(st, q, auth, seed)
  }

  lemma FewerEntries(st: Store, deferred: map<Path, Path>, dir: Path)
    requires Entries(st, deferred)
    ensures Entries(st, deferred - {dir})
  {
  }

  lemma OnlyEarlierAreNewer(paths: seq<Path>, n: nat)
    requires NewestFirst(paths) && n < |paths|
    ensures forall k :: 0 <= k < |paths| && Less(paths[n], paths[k]) ==> k < n
  {
    forall k | n <= k < |paths| ensures !Less(paths[n], paths[k]) {
      if k == n { LessIsStrict(paths[n]); } else { LessIsAsymmetric(paths[k], paths[n]); }
    }
  }

  lemma TreeNames(a: Store, b: Store)
    requires SameTree(a, b)
    ensures b.w.names == a.w.names && b.temps == a.temps
  {
  }

  lemma AllAreListed(st: Store, dir: Path, toFix: Path, paths: seq<Path>)
    requires forall p :: p in st.w.names && IsCeKeyPath(dir, p) ==> p in paths
    ensures AllListed(st, dir, toFix, paths)
  {
  }

  lemma NewIsListed(a: Store, b: Store, tmp: Path, dir: Path, path: Path, paths: seq<Path>)
    requires SameNamesBut(a, b, tmp, path) && tmp in a.temps && NoCeTemps(a.temps)
    requires forall p :: p in a.w.names && IsCeKeyPath(dir, p) ==> p in paths
    ensures AllListed(b, dir, path, paths)
  {
    hide IsCeKeyPath;
  }

  lemma OneEntry(st: Store, deferred: map<Path, Path>, dir: Path)
    requires Entries(st, deferred) && dir in deferred
    ensures Entry(st, dir, deferred[dir])
  {
  }

  lemma NoEntries(st: Store)
    ensures Entries(st, map[])
  {
  }

  // ----- Which names are left -----

  /** A binding has the last name there is, or one above it. */
  ghost predicate Exhausted(st: Store, dir: Path) {
    exists p :: p in st.w.names && IsCeKeyPath(dir, p) && !Less(p, Candidate(dir, UINT_MAX - 1))
  }

  lemma CurrentDoesNotExhaust(st: Store, dir: Path)
    requires OnlyCurrent(st, dir)
    ensures !Exhausted(st, dir)
  {
    hide IsCeKeyPath, Less;
    CurrentIsOldest(dir, UINT_MAX - 1);
  }

  /** The path `GetCeKeyNewPath` found, or that there is none. */
  ghost predicate NewPath(dir: Path, paths: seq<Path>, path: Option<Path>) {
    && (paths == [] ==> path == Some(CurrentPath(dir)))
    && (paths != [] && path.Some? ==> exists n :: FirstAbove(dir, paths[0], n) && path.value == Candidate(dir, n))
    && (path.None? <==> paths != [] && forall n: nat :: n < UINT_MAX ==> !Less(paths[0], Candidate(dir, n)))
  }

  lemma NoneMeansExhausted(st: Store, dir: Path, paths: seq<Path>, path: Option<Path>)
    requires NewestFirst(paths) && NewPath(dir, paths, path)
    requires forall p :: p in paths <==> p in st.w.names && IsCeKeyPath(dir, p)
    ensures path.None? <==> Exhausted(st, dir)
  {
    hide IsCeKeyPath, Less, FirstAbove, Candidate;
    NoNameLeft(dir, paths);
  }

  // ----- Which keys there are -----

  /** All bindings below `dir` that open are of this key. */
  ghost predicate OneKey(st: Store, dir: Path, m: Message) {
    forall p, auth, seed, k :: Opens(st, dir, p, auth, seed, k) ==> k == m
  }

  /**
    What a key is to be protected with, the key of a new user if there is one, whether the directory
    can be read, and the random key that takes the place of a missing one.
  */
  datatype Request = Request(dir: Path, auth: Auth, seed: string, newKey: Option<Message>, readable: bool,
      random: Message)

  /** A binding opens with no secret, or with the secret that is asked for. */
  ghost predicate OpensEither(st: Store, r: Request, m: Message) {
    exists p :: Opens(st, r.dir, p, EMPTY_AUTH, r.seed, m) || Opens(st, r.dir, p, r.auth, r.seed, m)
  }

  /** The key to protect: a new user's, or one found on disk, or a random one when none is seen there. */
  ghost predicate Chooses(st: Store, r: Request, m: Message) {
    if r.newKey.Some? then m == r.newKey.value
    else if OnDisk(st, r.dir, r.readable) then OpensEither(st, r, m)
    else m == r.random
  }

  /** When all bindings are of the key `m`, that is the one to protect. */
  ghost predicate Prefers(st: Store, r: Request, m: Message) {
    if r.newKey.Some? then r.newKey.value == m else OnDisk(st, r.dir, r.readable) || r.random == m
  }

  /** What can be protected: any new or unseen key while there is a name left, and a key on disk that opens. */
  ghost predicate CanProtect(st: Store, r: Request) {
    if r.newKey.Some? || !OnDisk(st, r.dir, r.readable) then !Exhausted(st, r.dir)
        else exists m :: OpensEither(st, r, m)
  }

  /** When all bindings are of one key, that one is protected exactly when it is preferred. */
  lemma ChosenIsTheOne(st: Store, r: Request, k: Message, m: Message)
    requires OneKey(st, r.dir, m) && Chooses(st, r, k)
    ensures Prefers(st, r, m) <==> k == m
  {
    hide Opens, OnDisk;
  }

  /** With only the canonical binding left, no key but the one it opens to is left. */
  lemma OnlyOneYields(st: Store, dir: Path, p: Path, auth: Auth, seed: string, k: Message, m: Message)
    requires Sound(st) && st.w.holder == Free && NoCeTemps(st.temps) && OnlyCurrent(st, dir)
    requires Opens(st, dir, p, auth, seed, k)
    ensures Yields(st, dir, m) <==> k == m
  {
    hide Sound, Retrieved, NoCeTemps, IsCeKeyPath;
    OpensItsKey(st, dir, p, auth, seed, k);
    if Yields(st, dir, m) {
      var q, auth', seed' :| Opens(st, dir, q, auth', seed', m);
      OpensItsKey(st, dir, q, auth', seed', m);
    }
  }

  /** The user's key, all bindings being of that one, is kept at every moment if it is the one to protect. */
  ghost predicate KeepsPreferred(before: seq<Store>, a: Store, after: seq<Store>, b: Store, r: Request) {
    forall m :: OneKey(a, r.dir, m) && Prefers(a, r, m) ==> NeverLoses(before, a, after, b, Keeping(r.dir, {m}))
  }

  /** Only the chosen key is left; so a user's key is left exactly if it was the one to protect. */
  ghost predicate OnlyPreferredIsLeft(a: Store, b: Store, r: Request) {
    && OnlyCurrent(b, r.dir)
    && forall m :: OneKey(a, r.dir, m) ==> (Yields(b, r.dir, m) <==> Prefers(a, r, m))
  }

  /** A chosen key has a binding with what was asked for; if fixating was put off, that is the binding to keep. */
  ghost predicate Protected(a: Store, b: Store, r: Request, deferred: map<Path, Path>) {
    exists p, m ::
      && Opens(b, r.dir, p, r.auth, r.seed, m) && Chooses(a, r, m)
      && (r.dir in deferred ==> b.w.checkpointing && p == deferred[r.dir])
  }

  lemma NothingLostOfPreferred(trace: seq<Store>, st: Store, r: Request)
    ensures KeepsPreferred(trace, st, trace, st, r)
  {
    hide OneKey, Prefers, NeverLoses;
    forall m { NothingLost(trace, st, Keeping(r.dir, {m})); }
  }

  lemma OnlyChosenIsLeft(a: Store, b: Store, r: Request, p: Path, k: Message)
    requires Sound(a) && a.w.holder == Free && NoCeTemps(a.temps) && Chooses(a, r, k)
    requires Sound(b) && b.w.holder == Free && NoCeTemps(b.temps) && OnlyCurrent(b, r.dir)
    requires Opens(b, r.dir, p, r.auth, r.seed, k)
    ensures OnlyPreferredIsLeft(a, b, r)
  {
    hide Sound, NoCeTemps, OneKey, Prefers, Chooses, Opens, OnlyCurrent, Yields;
    forall m | OneKey(a, r.dir, m) ensures Yields(b, r.dir, m) <==> Prefers(a, r, m) {
      ChosenIsTheOne(a, r, k, m);
      OnlyOneYields(b, r.dir, p, r.auth, r.seed, k, m);
    }
  }

  /** What looking for the key to protect came to: a key, or that it is protected already, or neither. */
  ghost predicate Found(before: seq<Store>, a: Store, after: seq<Store>, b: Store, r: Request, key: Option<Message>,
                        done: bool) {
    && (key.Some? ==> Chooses(a, r, key.value) && (AllStay(a, r.dir) ==>
        NeverLoses(before, a, after, b, Keeping(r.dir, {key.value}))))
    && (done ==> exists q, m ::
          && Chooses(a, r, m) && Opens(b, r.dir, q, r.auth, r.seed, m)
          && (AllStay(a, r.dir) ==> NeverLoses(before, a, after, b, Keeping(r.dir, {m}))))
    && (key.None? && !done ==> NeverLoses(before, a, after, b, map[]))
  }

  lemma RecoveredIsFound(before: seq<Store>, a: Store, after: seq<Store>, b: Store, r: Request, key: Option<Message>,
                         done: bool)
    requires Recovers(before, a, after, b, r.dir, r.auth, r.seed, key, done) && r.newKey.None?
    requires OnDisk(a, r.dir, r.readable)
    ensures Found(before, a, after, b, r, key, done)
  {
    hide NeverLoses, AllStay, Opens, OnDisk;
    if key.Some? { assert OpensEither(a, r, key.value); }
    if done {
      var p, q, m :|
        && Opens(a, r.dir, p, r.auth, r.seed, m) && Opens(b, r.dir, q, r.auth, r.seed, m)
        && (AllStay(a, r.dir) ==> NeverLoses(before, a, after, b, Keeping(r.dir, {m})));
      assert OpensEither(a, r, m);
    }
  }

  lemma EitherOpens(st: Store, r: Request)
    ensures (exists m :: OpensEither(st, r, m)) <==>
      || (exists p, m :: Opens(st, r.dir, p, EMPTY_AUTH, r.seed, m))
      || (exists p, m :: Opens(st, r.dir, p, r.auth, r.seed, m))
  {
    hide Opens;
    if p, m :| Opens(st, r.dir, p, EMPTY_AUTH, r.seed, m) { assert OpensEither(st, r, m); }
    if p, m :| Opens(st, r.dir, p, r.auth, r.seed, m) { assert OpensEither(st, r, m); }
  }

  lemma NewIsFound(trace: seq<Store>, st: Store, r: Request, key: Option<Message>)
    requires key.Some? ==> Chooses(st, r, key.value)
    ensures Found(trace, st, trace, st, r, key, false)
  {
    hide NeverLoses;
    NothingLost(trace, st, map[]);
    if key.Some? { NothingLost(trace, st, Keeping(r.dir, {key.value})); }
  }

  /** Nothing is left to be done. */
  lemma FoundIsKept(before: seq<Store>, a: Store, after: seq<Store>, b: Store, r: Request, done: bool,
                    deferred: map<Path, Path>)
    requires Found(before, a, after, b, r, None, done) && Sound(a) && a.w.holder == Free && NoCeTemps(a.temps)
    ensures AllStay(a, r.dir) ==> KeepsPreferred(before, a, after, b, r)
    ensures done && r.dir !in deferred ==> Protected(a, b, r, deferred)
    ensures done && Sound(b) && b.w.holder == Free && NoCeTemps(b.temps) && OnlyCurrent(b, r.dir) ==>
      OnlyPreferredIsLeft(a, b, r)
  {
    hide Sound, NoCeTemps, NeverLoses, AllStay, Opens, Chooses, KeepsPreferred, OnlyCurrent, OnlyPreferredIsLeft;
    if done {
      var q, m :|
        && Chooses(a, r, m) && Opens(b, r.dir, q, r.auth, r.seed, m)
        && (AllStay(a, r.dir) ==> NeverLoses(before, a, after, b, Keeping(r.dir, {m})));
      if AllStay(a, r.dir) {
        NothingLost(after, b, Keeping(r.dir, {m}));
        ChosenIsKept(before, a, after, b, after, b, r, m);
      }
      if Sound(b) && b.w.holder == Free && NoCeTemps(b.temps) && OnlyCurrent(b, r.dir) {
        OnlyChosenIsLeft(a, b, r, q, m);
      }
    } else {
      NothingIsKept(before, a, after, b, r);
    }
  }

  /** The chosen key was looked for up to `b`, and then protected. */
  lemma ChosenIsKept(before: seq<Store>, a: Store, mid: seq<Store>, b: Store, after: seq<Store>, c: Store, r: Request,
                     k: Message)
    requires Sound(a) && a.w.holder == Free && NoCeTemps(a.temps) && Chooses(a, r, k)
    requires NeverLoses(before, a, mid, b, Keeping(r.dir, {k})) && NeverLoses(mid, b, after, c, Keeping(r.dir, {k}))
    ensures KeepsPreferred(before, a, after, c, r)
  {
    hide Sound, NoCeTemps, OneKey, Prefers, Chooses, NeverLoses;
    NeverLosesAlong(before, a, mid, b, after, c, Keeping(r.dir, {k}));
    forall m | OneKey(a, r.dir, m) && Prefers(a, r, m) ensures NeverLoses(before, a, after, c, Keeping(r.dir, {m})) {
      ChosenIsTheOne(a, r, k, m);
    }
  }

  /** The key found was protected. */
  lemma FoundIsProtected(before: seq<Store>, a: Store, mid: seq<Store>, b: Store, after: seq<Store>, c: Store,
                         r: Request, k: Message)
    requires Sound(a) && a.w.holder == Free && NoCeTemps(a.temps) && Found(before, a, mid, b, r, Some(k), false)
    requires NeverLoses(mid, b, after, c, Keeping(r.dir, {k}))
    ensures Chooses(a, r, k) && (AllStay(a, r.dir) ==> KeepsPreferred(before, a, after, c, r))
    ensures
      (&& Sound(c) && c.w.holder == Free && NoCeTemps(c.temps) && OnlyCurrent(c, r.dir)
       && exists p :: Opens(c, r.dir, p, r.auth, r.seed, k))
      ==> OnlyPreferredIsLeft(a, c, r)
  {
    hide Sound, NoCeTemps, Prefers, Chooses, NeverLoses, AllStay, KeepsPreferred, OnlyCurrent, OnlyPreferredIsLeft,
         Opens;
    if AllStay(a, r.dir) { ChosenIsKept(before, a, mid, b, after, c, r, k); }
    if Sound(c) && c.w.holder == Free && NoCeTemps(c.temps) && OnlyCurrent(c, r.dir) {
      if p :| Opens(c, r.dir, p, r.auth, r.seed, k) { OnlyChosenIsLeft(a, c, r, p, k); }
    }
  }

  /** Nothing was chosen, and nothing lost. */
  lemma NothingIsKept(before: seq<Store>, a: Store, after: seq<Store>, b: Store, r: Request)
    requires NeverLoses(before, a, after, b, map[])
    ensures KeepsPreferred(before, a, after, b, r)
  {
    hide OneKey, Prefers, NeverLoses;
    forall m { NeverLosesLess(before, a, after, b, map[], Keeping(r.dir, {m})); }
  }

  // ----- Fixations that were put off -----

  /** The keys of the bindings to keep. */
  ghost function KeepsOf(st: Store, deferred: map<Path, Path>): map<Path, set<Message>> {
    map d | d in deferred && deferred[d] in st.w.names && st.w.names[deferred[d]] in st.stored ::
      {st.stored[st.w.names[deferred[d]]].message}
  }

  /** The bindings to keep stay where they were put at every moment. */
  ghost predicate Kept(before: seq<Store>, a: Store, after: seq<Store>, b: Store, deferred: map<Path, Path>) {
    forall d :: d in deferred ==> deferred[d] in a.w.names && Throughout(before, after, b, a.w.names[deferred[d]], d)
  }

  /** Of the fixations put off, those in `todo` are still to be done. */
  ghost predicate Tidying(before: seq<Store>, a: Store, after: seq<Store>, b: Store, deferred: map<Path, Path>,
                          todo: map<Path, Path>) {
    && Kept(before, a, after, b, deferred) && NeverLoses(before, a, after, b, KeepsOf(a, deferred))
    && b.stored == a.stored && b.w.live == a.w.live && (a.w.pending == [] ==> b.w.pending == [])
    && forall d :: d in todo ==>
         && d in deferred && todo[d] == deferred[d] && todo[d] in a.w.names && todo[d] in b.w.names
         && b.w.names[todo[d]] == a.w.names[todo[d]]
  }

  /** The binding to keep is the canonical one, and the only one. */
  ghost predicate Tidied(a: Store, b: Store, deferred: map<Path, Path>, d: Path) {
    && d in deferred && deferred[d] in a.w.names && OnlyCurrent(b, d)
    && CurrentPath(d) in b.w.names && b.w.names[CurrentPath(d)] == a.w.names[deferred[d]]
  }

  lemma TidyingFrom(trace: seq<Store>, st: Store, deferred: map<Path, Path>)
    requires Entries(st, deferred)
    ensures Tidying(trace, st, trace, st, deferred, deferred)
  {
    hide Bound, IsCeKeyPath, NeverLoses;
    NothingLost(trace, st, KeepsOf(st, deferred));
  }

  lemma TidyingEnds(before: seq<Store>, a: Store, after: seq<Store>, b: Store, deferred: map<Path, Path>,
                    todo: map<Path, Path>)
    requires Tidying(before, a, after, b, deferred, todo)
    ensures Kept(before, a, after, b, deferred) && NeverLoses(before, a, after, b, KeepsOf(a, deferred))
    ensures b.w.live == a.w.live && (a.w.pending == [] ==> b.w.pending == [])
  {
    hide Kept, NeverLoses, KeepsOf;
  }

  /** What fixating one binding leaves of the others to keep. */
  lemma TidyingOn(before: seq<Store>, a: Store, mid: seq<Store>, b: Store, after: seq<Store>, c: Store,
                  deferred: map<Path, Path>, todo: map<Path, Path>, dir: Path, paths: seq<Path>)
    requires Tidying(before, a, mid, b, deferred, todo) && dir in todo && Sound(b)
    requires IsCeKeyPath(dir, todo[dir]) && (forall q :: q in paths ==> IsCeKeyPath(dir, q)) && Entries(b, todo)
    requires Guarding(mid, b, after, c, Others(b, todo[dir], paths)) && Fixated(b, c, dir, todo[dir], paths)
    requires NeverLoses(mid, b, after, c, Keeping(dir, {b.stored[b.w.names[todo[dir]]].message}))
    ensures Tidying(before, a, after, c, deferred, todo - {dir})
  {
    hide Sound, IsCeKeyPath, NeverLoses, Guarding, Throughout, Bound;
    var toFix := todo[dir];
    assert Entry(b, dir, toFix);
    BoundIsStored(b, b.w.names[toFix], dir);
    assert KeepsLess(Keeping(dir, {b.stored[b.w.names[toFix]].message}), KeepsOf(a, deferred)) by { hide Kept; }
    NeverLosesLess(mid, b, after, c, Keeping(dir, {b.stored[b.w.names[toFix]].message}), KeepsOf(a, deferred));
    NeverLosesAlong(before, a, mid, b, after, c, KeepsOf(a, deferred));
    forall d | d in deferred ensures Throughout(before, after, c, a.w.names[deferred[d]], d) {
      KeptGoesOn(before, mid, b, after, c, dir, toFix, paths, a.w.names[deferred[d]], d);
    }
    forall d | d in todo - {dir}
      ensures todo[d] in c.w.names && c.w.names[todo[d]] == a.w.names[todo[d]]
    {
      assert Entry(b, d, todo[d]);
      if todo[d] == toFix || todo[d] in paths { CeKeyPathHasOneDir(d, dir, todo[d]); }
    }
  }

  lemma BoundIsStored(st: Store, i: Ino, dir: Path)
    requires Bound(st, i, dir)
    ensures i in st.stored
  {
  }

  lemma KeptGoesOn(before: seq<Store>, mid: seq<Store>, b: Store, after: seq<Store>, c: Store,
                   dir: Path, toFix: Path, paths: seq<Path>, i: Ino, d: Path)
    requires Sound(b) && Throughout(before, mid, b, i, d) && toFix in b.w.names
    requires (forall q :: q in paths ==> IsCeKeyPath(dir, q))
    requires Guarding(mid, b, after, c, Others(b, toFix, paths)) && (d == dir ==> i == b.w.names[toFix])
    ensures Throughout(before, after, c, i, d)
  {
    hide Sound, IsCeKeyPath, Guarding;
    NameFacts(b);
    if d == dir {
      KeptIsNoOther(b, toFix, paths, toFix);
    } else {
      OthersAreBelow(b, dir, toFix, paths);
      BoundHasName(b, i, d);
      if i in Others(b, toFix, paths) { CeKeyPathHasOneDir(d, dir, b.place[i].value); }
    }
    ThroughoutAlong(before, mid, b, after, c, Others(b, toFix, paths), i, d);
  }

  lemma TidiedStays(a: Store, b: Store, c: Store, deferred: map<Path, Path>, d: Path, dir: Path, toFix: Path,
                    paths: seq<Path>)
    requires Tidied(a, b, deferred, d) && Fixated(b, c, dir, toFix, paths) && d != dir
    requires IsCeKeyPath(dir, toFix) && forall q :: q in paths ==> IsCeKeyPath(dir, q)
    ensures Tidied(a, c, deferred, d)
  {
    hide IsCeKeyPath, OnlyCurrent;
    OnlyCurrentStays(b, c, dir, toFix, paths, d);
    CurrentIsCeKeyPath(d);
    var p := CurrentPath(d);
    if p == toFix || p in paths { CeKeyPathHasOneDir(d, dir, p); }
  }

  /** What was promised from `b` on holds from `a` on, when nothing happened to names in between. */
  lemma KeptSince(before: seq<Store>, a: Store, mid: seq<Store>, b: Store, after: seq<Store>, c: Store,
                  deferred: map<Path, Path>)
    requires Guarding(before, a, mid, b, {}) && SameTree(a, b) && Entries(a, deferred)
    requires Kept(mid, b, after, c, deferred)
    ensures Kept(before, a, after, c, deferred) && KeepsOf(a, deferred) == KeepsOf(b, deferred)
  {
    hide IsCeKeyPath;
    forall d | d in deferred
      ensures deferred[d] in a.w.names && Throughout(before, after, c, a.w.names[deferred[d]], d)
    {
      assert Entry(a, d, deferred[d]);
      var i := a.w.names[deferred[d]];
      assert Throughout(mid, after, c, i, d);
      forall n | |before| <= n < |after| ensures Bound(after[n], i, d) {
        if n < |mid| { assert after[n] == mid[n] && Spares(a, mid[n], {}) && i !in {}; }
      }
    }
  }

  lemma TidiedSince(a: Store, b: Store, c: Store, deferred: map<Path, Path>)
    requires b.w.names == a.w.names
    ensures forall d :: Tidied(b, c, deferred, d) <==> Tidied(a, c, deferred, d)
  {
    hide OnlyCurrent;
  }

  /** The upgraded keys that waited have replaced the old ones, wherever their directories are now. */
  ghost predicate Committed(w: World, w': World) {
    forall p :: p in w.pending && CommitTarget(w, p) ==>
      w.names[p] in w'.live && w'.live[w.names[p]] == Files(FilesOf(w, p).upgraded, None)
  }

  lemma SweptIsCommitted(a: World, b: World)
    requires b.names == a.names
    requires forall n :: 0 <= n < |a.pending| && CommitTarget(a, a.pending[n]) ==>
      Known(b, a.pending[n]) && FilesOf(b, a.pending[n]) == Files(FilesOf(a, a.pending[n]).upgraded, None)
    ensures Committed(a, b)
  {
  }

  lemma StillCommitted(a: World, b: World, c: World)
    requires Committed(a, b) && c.live == b.live
    ensures Committed(a, c)
  {
  }
}
