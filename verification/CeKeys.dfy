/**
  Bindings of users' keys: protecting a key with a secret, unlocking, destroying, and fixating, which
  destroys all bindings of a key but one.

  Destroying a binding cannot be rolled back, so while a checkpoint is active fixating is put off
  until it is committed.
*/
module CeKeys {
  import opened Wrappers
  import opened KeyUpgrade
  import opened KeyLineage
  import opened KeyDirectories
  import opened KeyMoves
  import opened KeyStorage
  import opened CeKeyNames
  import opened CeBindings
  import opened CeChanges
  import opened CeProtection
  import RetryFile

  type User = nat

  class FsCrypt {
    const ks: KeyStorage
    const base: Path              // the directory of user keys
    const temp: Path              // where keys are put together
    var newKeys: map<User, Message>     // keys that are not on disk yet
    var ephemeral: set<User>
    var loaded: set<User>               // users whose key is installed
    var deferred: map<Path, Path>       // fixations put off: which binding to keep, by directory

    function CeDir(user: User): Path {
      base + "/ce/" + RetryFile.ToString(user)
    }

    /** Users have different directories, so no binding is that of two users. */
    lemma UsersHaveTheirOwn(u: User, v: User, p: Path)
      requires u != v
      ensures CeDir(u) == base + "/ce/" + RetryFile.ToString(u) && CeDir(u) != CeDir(v)
      ensures !(IsCeKeyPath(CeDir(u), p) && IsCeKeyPath(CeDir(v), p))
    {
      var start, x, y := base + "/ce/", RetryFile.ToString(u), RetryFile.ToString(v);
      RetryFile.ParsesDigitsBack(u);
      RetryFile.ParsesDigitsBack(v);
      assert (start + x)[|start|..] == x && (start + y)[|start|..] == y;
      hide IsCeKeyPath, Parent;
      if IsCeKeyPath(CeDir(u), p) && IsCeKeyPath(CeDir(v), p) {
        ParentOfCeKeyPath(CeDir(u), p);
        ParentOfCeKeyPath(CeDir(v), p);
      }
    }

    /** Every user but this one has, at every moment, the keys it had. */
    ghost predicate OthersKeep(user: User, before: seq<Store>, a: Store, after: seq<Store>, b: Store) {
      && before <= after
      && forall v: User, m :: v != user && Holds(a, CeDir(v), m) ==>
           Holds(b, CeDir(v), m) && forall n :: |before| <= n < |after| ==> Holds(after[n], CeDir(v), m)
    }

    lemma OnlyOneIsTouched(user: User, keys: set<Message>, before: seq<Store>, a: Store, after: seq<Store>, b: Store)
      requires NeverLoses(before, a, after, b, Keeping(CeDir(user), keys))
      ensures OthersKeep(user, before, a, after, b)
    {
      hide Holds;
      forall v: User | v != user ensures CeDir(v) != CeDir(user) { UsersHaveTheirOwn(user, v, ""); }
      hide CeDir;
    }

    ghost predicate Ready()
      reads this, ks`st, ks`trace
    {
      ks.Valid() && ks.st.w.holder == Free && temp in ks.st.temps && NoCeTemps(ks.st.temps) && OwnNames(ks.st)
    }

    /** Every fixation put off names a binding that is there to stay. */
    ghost predicate Valid()
      reads this, ks`st, ks`trace
    {
      Ready() && Entries(ks.st, deferred)
    }

    /** As after boot, when every name is settled. */
    constructor (storage: KeyStorage, dir: Path, tmp: Path)
      requires storage.Valid() && storage.st.w.holder == Free && tmp in storage.st.temps && NoCeTemps(storage.st.temps)
      requires OwnNames(storage.st)
      ensures Valid() && ks == storage && base == dir && temp == tmp && newKeys == map[] && ephemeral == {}
      ensures loaded == {}
      ensures deferred == map[]
    {
      ks, base, temp := storage, dir, tmp;
      newKeys, ephemeral, loaded, deferred := map[], {}, {}, map[];
    }

    /** A checkpoint begins, in which every key that is there to stay would survive a rollback. */
    method BeginCheckpoint()
      requires Valid() && !ks.st.w.checkpointing && !ks.st.w.sweepDue
      modifies ks`st, ks`trace
      ensures Valid() && ks.st.w.checkpointing && ks.trace == old(ks.trace) + [ks.st]
      ensures NeverLoses(old(ks.trace), old(ks.st), ks.trace, ks.st, map[]) && NoLessCertain(old(ks.st), ks.st)
      ensures forall d, m :: Holds(old(ks.st), d, m) ==> exists i :: SavedBinding(ks.st, i, d, m)
    {
      hide NoCeTemps, OwnNames, IsTrace, Sound, Can, Moved, Entries, NoLessCertain, NeverLoses, Holds, SavedBinding,
           Spares;
      ghost var before, a := ks.trace, ks.st;
      CheckpointBegins(a);
      ks.Perform(Keys(KeyUpgrade.Step.BeginCheckpoint));
      BeginningSpares(a, ks.st);
      BeginningKeeps(before, a, ks.st, deferred);
    }

    /** The checkpoint is committed; what waited for that is due. */
    method CommitCheckpoint()
      requires Valid() && ks.st.w.checkpointing
      modifies ks`st, ks`trace
      ensures Valid() && !ks.st.w.checkpointing && ks.st.w.sweepDue && SameFiles(old(ks.st).w, ks.st.w)
      ensures Quietly(old(ks.trace), old(ks.st), ks.trace, ks.st) && NoLessCertain(old(ks.st), ks.st)
      ensures NeverLoses(old(ks.trace), old(ks.st), ks.trace, ks.st, map[])
    {
      hide NoCeTemps, OwnNames, IsTrace, Sound, Entries, NoLessCertain, NeverLoses, Quietly, SameTree, Do, Enabled,
           Guarding;
      ghost var before, a := ks.trace, ks.st;
      QuietlyFrom(before, a);
      CommitLeavesFiles(a.w);
      CommitEffect(a.w, KeyUpgrade.Step.CommitCheckpoint);
      ks.Take(KeyUpgrade.Step.CommitCheckpoint, before, a);
      QuietOpKeeps(before, a, ks.trace, ks.st, deferred);
      TreeNames(a, ks.st);
    }

    /** The bindings below a directory, newest first; none when the directory cannot be read. */
    method GetCeKeyPaths(dir: Path) returns (paths: seq<Path>)
      modifies ks`faults
      ensures old(ks.faults) <= ks.faults && NewestFirst(paths)
      ensures forall p :: p in paths ==> p in ks.st.w.names && IsCeKeyPath(dir, p)
      ensures ks.faults == old(ks.faults) ==> forall p :: p in ks.st.w.names && IsCeKeyPath(dir, p) ==> p in paths
    {
      var failed := ks.Fault();
      if failed { return []; }
      paths := SortedCeKeyPaths(dir, ks.st.w.names.Keys);
    }

    /** Destroys every path but `toFix`. */
    method DestroyOthers(dir: Path, toFix: Path, paths: seq<Path>) returns (any: bool)
      requires Ready() && toFix in ks.st.w.names
      modifies ks`st, ks`trace, ks`faults
      ensures Ready() && old(ks.faults) <= ks.faults && NoLessCertain(old(ks.st), ks.st)
      ensures Fixing(old(ks.trace), old(ks.st), ks.trace, ks.st, dir, toFix, paths)
      ensures ks.faults == old(ks.faults) ==> forall p :: p in paths && p != toFix ==> p !in ks.st.w.names
      ensures any == exists n :: 0 <= n < |paths| && paths[n] != toFix
      ensures !any ==> ks.st == old(ks.st)
    {
      hide Fixing, NoCeTemps, OwnNames, Destroying, IsTrace, Sound, AllStay;
      ghost var before, a := ks.trace, ks.st;
      FixingFrom(before, a, dir, toFix);
      any := false;
      var n: nat := 0;
      while n < |paths|
        invariant n <= |paths| && Ready() && old(ks.faults) <= ks.faults && NoLessCertain(a, ks.st)
        invariant Fixing(before, a, ks.trace, ks.st, dir, toFix, paths[..n])
        invariant ks.faults == old(ks.faults) ==> forall k :: 0 <= k < n && paths[k] != toFix ==>
            paths[k] !in ks.st.w.names
        invariant any == exists k :: 0 <= k < n && paths[k] != toFix
        invariant !any ==> ks.st == a
      {
        var p := paths[n];
        assert paths[..n + 1] == paths[..n] + [p];
        ghost var mid, b := ks.trace, ks.st;
        if p != toFix {
          var _ := ks.DestroyKey(p);
          any := true;
        }
        if p == toFix || p !in b.w.names {
          FixingSkips(before, a, mid, b, dir, toFix, paths[..n], p);
        } else {
          DestroyingParts(mid, b, ks.trace, ks.st, b.w.names[p]);
          FixingDestroys(before, a, mid, b, ks.trace, ks.st, dir, toFix, paths[..n], p);
          PlacesKnown(b);
          OwnDestroying(mid, b, ks.trace, ks.st, b.w.names[p]);
          DestroyingStays(mid, b, ks.trace, ks.st, p);
        }
        n := n + 1;
      }
      assert paths[..n] == paths;
    }
  
    /**
      Destroys all bindings but one and gives that one the canonical name.  At every moment in
      between, and wherever power is lost, the binding to keep is in place.
    */
    method FixateUserCeKey(dir: Path, toFix: Path, paths: seq<Path>) returns (ok: bool)
      requires Ready() && IsCeKeyPath(dir, toFix) && toFix in ks.st.w.names
      modifies ks`st, ks`trace, ks`faults
      ensures Ready() && old(ks.faults) <= ks.faults
      ensures NoLessCertain(old(ks.st), ks.st) && (ok && ks.st != old(ks.st) ==> AllStay(ks.st, dir))
      ensures Guarding(old(ks.trace), old(ks.st), ks.trace, ks.st, Others(old(ks.st), toFix, paths))
      ensures Fixated(old(ks.st), ks.st, dir, toFix, paths)
      ensures ok ==> CurrentPath(dir) in ks.st.w.names && ks.st.w.names[CurrentPath(dir)] == old(ks.st).w.names[toFix]
      ensures ok && ks.st != old(ks.st) ==>
        var i := old(ks.st).w.names[toFix]; i in ks.st.places && ks.st.places[i] == {Some(CurrentPath(dir))}
      ensures ks.faults == old(ks.faults) && AllListed(old(ks.st), dir, toFix, paths) ==> ok && OnlyCurrent(ks.st, dir)
    {
      hide Fixing, Guarding, NoCeTemps, OwnNames, IsTrace, Sound, Fixated, Renames, IsCeKeyPath, AllListed, AllStay,
           NoLessCertain, Usable;
      ghost var before, a := ks.trace, ks.st;
      var any := DestroyOthers(dir, toFix, paths);
      FixingParts(before, a, ks.trace, ks.st, dir, toFix, paths);
      ghost var clean := ks.faults == old(ks.faults) && AllListed(a, dir, toFix, paths);
      ghost var b := ks.st;
      CurrentIsCeKeyPath(dir);
      if clean { CurrentIsListed(a, dir, toFix, paths); }
      if toFix != CurrentPath(dir) {
        var renamed := RenameFixed(dir, toFix, paths, before, a);
        CertainAlong(a, b, ks.st);
        if !renamed { return false; }
        any := true;
      }
      ghost var c := ks.st;
      if clean { OthersAreGone(a, b, c, dir, toFix, paths); }
      ok := true;
      if any {
        ok := SyncFixed(dir, toFix, paths, before, a);
        CertainAlong(a, c, ks.st);
      }
    }

    /** Gives the binding that is kept the canonical name. */
    method RenameFixed(dir: Path, toFix: Path, paths: seq<Path>, ghost before: seq<Store>, ghost a: Store)
      returns (ok: bool)
      requires Ready() && IsCeKeyPath(dir, toFix) && Fixing(before, a, ks.trace, ks.st, dir, toFix, paths)
      requires toFix != CurrentPath(dir)
      modifies ks`st, ks`trace, ks`faults
      ensures Ready() && old(ks.faults) <= ks.faults && NoLessCertain(old(ks.st), ks.st)
      ensures Guarding(before, a, ks.trace, ks.st, Others(a, toFix, paths)) && Fixated(a, ks.st, dir, toFix, paths)
      ensures !ok ==> ks.st == old(ks.st)
      ensures ok ==> Renames(old(ks.st), ks.st, toFix, CurrentPath(dir)) && CurrentPath(dir) in ks.st.w.names
      ensures ok ==> toFix in a.w.names && ks.st.w.names[CurrentPath(dir)] == a.w.names[toFix] && ks.st != old(ks.st)
      ensures ks.faults == old(ks.faults) && CurrentPath(dir) !in old(ks.st).w.names ==> ok
    {
      hide Fixing, Guarding, NoCeTemps, OwnNames, IsTrace, Sound, Fixated, Renames, IsCeKeyPath, AllStay, NoLessCertain,
           Usable;
      ghost var mid, b := ks.trace, ks.st;
      var current := CurrentPath(dir);
      CertainFrom(b, dir);
      FixingParts(before, a, mid, b, dir, toFix, paths);
      CurrentIsCeKeyPath(dir);
      CeKeyPathIsStored(b, dir, toFix);
      NotTemp(b.temps, dir, current);
      ok := ks.RenameKeyDir(toFix, current);
      if ok {
        FixingRenames(before, a, mid, b, ks.st, dir, toFix, paths);
        RenameIsOwn(b, ks.st, dir, toFix);
        RenamingStays(b, ks.st, dir, toFix);
        RenamedKey(b, ks.st, toFix, current);
      }
    }

    method SyncFixed(dir: Path, toFix: Path, paths: seq<Path>, ghost before: seq<Store>, ghost a: Store)
      returns (ok: bool)
      requires Ready() && Guarding(before, a, ks.trace, ks.st, Others(a, toFix, paths))
      requires Fixated(a, ks.st, dir, toFix, paths)
      modifies ks`st, ks`trace, ks`faults
      ensures Ready() && Guarding(before, a, ks.trace, ks.st, Others(a, toFix, paths))
      ensures Fixated(a, ks.st, dir, toFix, paths)
      ensures old(ks.faults) <= ks.faults && ok == (ks.faults == old(ks.faults)) && ks.st.w == old(ks.st).w
      ensures NoLessCertain(old(ks.st), ks.st) && (ok ==> AllStay(ks.st, dir))
      ensures ok ==> forall p :: p in ks.st.w.names && IsCeKeyPath(dir, p) ==>
        ks.st.w.names[p] in ks.st.places && ks.st.places[ks.st.w.names[p]] == {Some(p)}
    {
      hide Guarding, NoCeTemps, OwnNames, IsTrace, Sound, Fixated, Moved, Can, AllStay, SyncedBelow;
      var failed := ks.Fault();
      if failed { return false; }
      PlacesKnown(ks.st);
      NamesAreSynced(ks.st, dir);
      FixingSyncs(before, a, ks.trace, ks.st, Moved(ks.st, SyncNames(dir)), dir, toFix, paths);
      ghost var b := ks.st;
      OwnSyncs(b, Moved(b, SyncNames(dir)));
      ks.Perform(SyncNames(dir));
      SyncedBindings(b, ks.st, dir);
      SyncingStays(b, ks.st);
      SyncSettlesNames(b, dir);
      SyncedStays(ks.st, dir);
      ok := true;
    }
  
    /** Fixates without harm to other users and to what is put off in `todo`. */
    method KeepOnly(dir: Path, toFix: Path, paths: seq<Path>, ghost todo: map<Path, Path>) returns (ok: bool)
      requires Ready() && IsCeKeyPath(dir, toFix) && toFix in ks.st.w.names
      requires (forall p :: p in paths ==> IsCeKeyPath(dir, p)) && dir !in todo && Entries(ks.st, todo)
      modifies ks`st, ks`trace, ks`faults
      ensures Ready() && old(ks.faults) <= ks.faults && Fixated(old(ks.st), ks.st, dir, toFix, paths)
      ensures Entries(ks.st, todo)
      ensures Guarding(old(ks.trace), old(ks.st), ks.trace, ks.st, Others(old(ks.st), toFix, paths))
      ensures NoLessCertain(old(ks.st), ks.st) && (ok && ks.st != old(ks.st) ==> AllStay(ks.st, dir))
      ensures NeverLoses(old(ks.trace), old(ks.st), ks.trace, ks.st, Keeping(dir, {}))
      ensures Bound(old(ks.st), old(ks.st).w.names[toFix], dir) ==>
        var key := old(ks.st).stored[old(ks.st).w.names[toFix]].message;
        NeverLoses(old(ks.trace), old(ks.st), ks.trace, ks.st, Keeping(dir, {key}))
      ensures ok ==> CurrentPath(dir) in ks.st.w.names && ks.st.w.names[CurrentPath(dir)] == old(ks.st).w.names[toFix]
      ensures ks.faults == old(ks.faults) && AllListed(old(ks.st), dir, toFix, paths) ==> ok && OnlyCurrent(ks.st, dir)
    {
      hide Guarding, NoCeTemps, OwnNames, IsTrace, Sound, Fixated, IsCeKeyPath, Entries, AllStay, NoLessCertain,
           AllBelow, NeverLoses, Spares, AllListed,
           OnlyCurrent, Usable;
      ghost var before, a := ks.trace, ks.st;
      ok := FixateUserCeKey(dir, toFix, paths);
      GuardParts(before, a, ks.trace, ks.st, Others(a, toFix, paths));
      FixatingKeepsEntries(a, ks.st, dir, toFix, paths, todo);
      OthersAreBelow(a, dir, toFix, paths);
      GuardLosesOne(before, a, ks.trace, ks.st, Others(a, toFix, paths), dir);
      if Bound(a, a.w.names[toFix], dir) { FixatingNeverLoses(before, a, ks.trace, ks.st, dir, toFix, paths); }
    }

    /** The newest of the paths that opens with the authentication. */
    method FindKey(dir: Path, auth: Auth, paths: seq<Path>) returns (found: Option<Path>, message: Message)
      requires Ready() && NewestFirst(paths) && forall p :: p in paths ==> p in ks.st.w.names && IsCeKeyPath(dir, p)
      modifies ks`st, ks`trace, ks`faults, ks`binding
      ensures Ready() && ks.Seed() == old(ks.Seed()) && old(ks.faults) <= ks.faults
      ensures Quietly(old(ks.trace), old(ks.st), ks.trace, ks.st)
      ensures found.Some? ==>
        && found.value in paths && Retrieved(old(ks.st), found.value, auth, ks.Seed()) == Some(message)
      ensures ks.faults == old(ks.faults) ==>
        forall p :: p in paths && (found.None? || Less(found.value, p)) ==> Closed(old(ks.st), p, auth, ks.Seed())
    {
      hide Quietly, NoCeTemps, OwnNames, IsTrace, Sound, SameTree, Retrieved, IsCeKeyPath, Less;
      ghost var before, a, seed := ks.trace, ks.st, ks.Seed();
      QuietlyFrom(before, a);
      var n: nat := 0;
      while n < |paths|
        invariant n <= |paths| && Ready() && ks.Seed() == seed && old(ks.faults) <= ks.faults
        invariant Quietly(before, a, ks.trace, ks.st)
        invariant ks.faults == old(ks.faults) ==> forall k :: 0 <= k < n ==> Closed(a, paths[k], auth, seed)
      {
        var result := TryKey(dir, paths[n], auth, before, a);
        if result.Some? {
          OnlyEarlierAreNewer(paths, n);
          return Some(paths[n]), result.value;
        }
        n := n + 1;
      }
      found, message := None, "";
    }

    method TryKey(dir: Path, p: Path, auth: Auth, ghost before: seq<Store>, ghost a: Store)
      returns (result: Option<Message>)
      requires Ready() && Quietly(before, a, ks.trace, ks.st) && Sound(a) && a.w.holder == Free && p in a.w.names
      requires IsCeKeyPath(dir, p)
      modifies ks`st, ks`trace, ks`faults, ks`binding
      ensures Ready() && ks.Seed() == old(ks.Seed()) && old(ks.faults) <= ks.faults
      ensures Quietly(before, a, ks.trace, ks.st)
      ensures result.Some? ==> Retrieved(a, p, auth, ks.Seed()) == result
      ensures ks.faults == old(ks.faults) && result.None? ==> Closed(a, p, auth, ks.Seed())
    {
      hide Quietly, NoCeTemps, OwnNames, IsTrace, Sound, Retrieved, IsCeKeyPath;
      ghost var mid, b := ks.trace, ks.st;
      QuietTree(before, a, mid, b);
      CeKeyPathIsStored(b, dir, p);
      RetrievedAlike(a, b, p, auth, ks.Seed());
      result := ks.RetrieveKey(p, auth);
      QuietTree(mid, b, ks.trace, ks.st);
      OwnQuietly(b, ks.st);
      QuietlyAlong(before, a, mid, b, ks.trace, ks.st);
    }

    /** Finds the newest binding that opens, keeps that one and destroys the others. */
    method ReadAndFixateUserCeKey(user: User, auth: Auth) returns (key: Option<Message>)
      requires Valid()
      modifies this`deferred, ks`st, ks`trace, ks`faults, ks`binding
      ensures Valid() && ks.Seed() == old(ks.Seed()) && old(ks.faults) <= ks.faults
      ensures deferred == if key.Some? then old(deferred) - {CeDir(user)} else old(deferred)
      ensures NoLessCertain(old(ks.st), ks.st)
      ensures NeverLoses(old(ks.trace), old(ks.st), ks.trace, ks.st, Keeping(CeDir(user), {}))
      ensures OthersKeep(user, old(ks.trace), old(ks.st), ks.trace, ks.st)
      ensures key.None? ==> SameTree(old(ks.st), ks.st) && NeverLoses(old(ks.trace), old(ks.st), ks.trace, ks.st, map[])
      ensures key.Some? && AllStay(old(ks.st), CeDir(user)) ==>
        NeverLoses(old(ks.trace), old(ks.st), ks.trace, ks.st, Keeping(CeDir(user), {key.value}))
      ensures key.Some? ==>
        && (exists p :: Opens(old(ks.st), CeDir(user), p, auth, ks.Seed(), key.value))
        && (exists p :: Opens(ks.st, CeDir(user), p, auth, ks.Seed(), key.value))
      ensures ks.faults == old(ks.faults) ==>
        (key.Some? <==> exists p, m :: Opens(old(ks.st), CeDir(user), p, auth, ks.Seed(), m))
      ensures ks.faults == old(ks.faults) && key.Some? ==>
        && OnlyCurrent(ks.st, CeDir(user))
        && exists p ::
             && Opens(old(ks.st), CeDir(user), p, auth, ks.Seed(), key.value)
             && NewestOpen(old(ks.st), CeDir(user), p, auth, ks.Seed())
    {
      hide OthersKeep;
      hide NoCeTemps, OwnNames, IsTrace, Sound, IsCeKeyPath, Entries, AllStay, NoLessCertain, NeverLoses, Retrieved,
           SameTree, Fixated, Quietly,
           OnlyCurrent, AllListed, Guarding, AllBelow, Usable;
      var dir := CeDir(user);
      ghost var before, a := ks.trace, ks.st;
      var paths := GetCeKeyPaths(dir);
      var found, m := FindKey(dir, auth, paths);
      ghost var mid, b := ks.trace, ks.st;
      QuietOpKeeps(before, a, mid, b, deferred);
      NeverLosesLess(before, a, mid, b, map[], Keeping(dir, {}));
      OnlyOneIsTouched(user, {}, before, a, mid, b);
      if found.None? { return None; }
      var p := found.value;
      assert Opens(a, dir, p, auth, ks.Seed(), m);
      OpensAlike(a, b, dir, p, auth, ks.Seed(), m);
      OpensItsKey(b, dir, p, auth, ks.Seed(), m);
      FewerEntries(b, deferred, dir);
      deferred := deferred - {dir};
      TreeNames(a, b);
      if ks.faults == old(ks.faults) { AllAreListed(b, dir, p, paths); }
      var _ := KeepOnly(dir, p, paths, deferred);
      FixatedOpens(b, ks.st, dir, p, paths, auth, ks.Seed(), m);
      NeverLosesAlong(before, a, mid, b, ks.trace, ks.st, Keeping(dir, {}));
      OnlyOneIsTouched(user, {}, before, a, ks.trace, ks.st);
      CertainAlong(a, b, ks.st);
      if AllStay(a, dir) {
        StillStays(a, b, dir);
        BoundOfAll(b, dir, p);
        NeverLosesLess(before, a, mid, b, map[], Keeping(dir, {m}));
        NeverLosesAlong(before, a, mid, b, ks.trace, ks.st, Keeping(dir, {m}));
      }
      key := Some(m);
    }

    /** Stores a new binding; without success everything else is as it was. */
    method StoreBinding(dir: Path, path: Path, auth: Auth, message: Message) returns (ok: bool)
      requires Valid() && IsCeKeyPath(dir, path)
      modifies ks`st, ks`trace, ks`faults, ks`binding
      ensures Valid() && ks.Seed() == old(ks.Seed()) && old(ks.faults) <= ks.faults
      ensures NeverLoses(old(ks.trace), old(ks.st), ks.trace, ks.st, map[])
      ensures NoLessCertainBut(old(ks.st), ks.st, dir) && (ok ==> AllStay(ks.st, dir))
      ensures ok ==>
        && path !in old(ks.st).w.names && Entry(ks.st, dir, path)
        && ks.st.stored[ks.st.w.names[path]].message == message
        && Opens(ks.st, dir, path, auth, ks.Seed(), message) && SameNamesBut(old(ks.st), ks.st, temp, path)
      ensures ks.faults == old(ks.faults) ==> ok == (path !in old(ks.st).w.names)
    {
      hide NoCeTemps, OwnNames, IsTrace, Sound, IsCeKeyPath, Entries, AllStay, NoLessCertain, NoLessCertainBut,
           NeverLoses, Opens, Storing, Spares,
           Guarding, AllBelow, SyncedBelow, Parent;
      ghost var before, a, d := ks.trace, ks.st, Deposit(auth, ks.Seed(), message);
      NotTemp(ks.st.temps, dir, path);
      PlacesKnown(ks.st);
      NothingLost(before, a, map[]);
      CertainFrom(a, dir);
      var existed := path in ks.st.w.names;
      ok := ks.StoreKeyAtomically(path, temp, auth, message);
      if existed { return false; }
      StoringTemps(before, a, ks.trace, ks.st, temp, path, d);
      GuardStoring(before, a, ks.trace, ks.st, temp, path, d);
      GuardNeverLoses(before, a, ks.trace, ks.st);
      GuardParts(before, a, ks.trace, ks.st, {});
      OwnStoring(before, a, ks.trace, ks.st, temp, path, d);
      StoringKeepsEntries(a, ks.st, temp, path, deferred);
      if ok {
        NewIsBound(ks.st, dir, path);
        StoredOpens(ks.st, dir, path);
      }
      StoringStays(before, a, ks.trace, ks.st, temp, path, d, dir);
      if ok {
        ParentOfCeKeyPath(dir, path);
        SyncedStays(ks.st, dir);
      }
    }

    /** Whether there is a key on disk for the user, as far as can be seen if the directory is not readable. */
    method CeKeyExists(user: User, readable: bool) returns (found: bool)
      ensures found == OnDisk(ks.st, CeDir(user), readable)
    {
      var dir := CeDir(user);
      CurrentIsCeKeyPath(dir);
      if CurrentPath(dir) in ks.st.w.names { return true; }
      if !readable { return false; }
      var paths := SortedCeKeyPaths(dir, ks.st.w.names.Keys);
      if paths != [] { assert paths[0] in paths; }
      return paths != [];
    }

    /** A key for a new user, kept in memory until there is a secret to store it with. */
    method CreateCeKey(user: User, isEphemeral: bool, random: Message) returns (ok: bool)
      modifies this`newKeys, this`loaded, ks`faults
      ensures old(ks.faults) <= ks.faults
      ensures
        || newKeys == old(newKeys)
        || (!isEphemeral && user !in old(newKeys) && newKeys == old(newKeys)[user := random])
      ensures ok && !isEphemeral ==> user in newKeys
      ensures loaded == if ok then old(loaded) + {user} else old(loaded)
      ensures ks.faults == old(ks.faults) ==> ok
    {
      var failed := ks.Fault();
      if failed { return false; }
      if !isEphemeral && user !in newKeys { newKeys := newKeys[user := random]; }
      failed := ks.Fault();       // installing it, which leaves it in memory
      if failed { return false; }
      loaded := loaded + {user};
      ok := true;
    }

    /** Creates a user's key, unless there is one installed. */
    method CreateUserKeys(user: User, isEphemeral: bool, random: Message) returns (ok: bool)
      requires Valid()
      modifies this`newKeys, this`ephemeral, this`loaded, ks`faults
      ensures Valid() && ks.st == old(ks.st) && old(ks.faults) <= ks.faults && (ks.faults == old(ks.faults) ==> ok)
      ensures user in old(loaded) ==> ok && newKeys == old(newKeys) && ephemeral == old(ephemeral)
      ensures user !in old(loaded) ==>
        && (ok && !isEphemeral ==> user in newKeys)
        && (|| newKeys == old(newKeys)
            || (!isEphemeral && user !in old(newKeys) && newKeys == old(newKeys)[user := random]))
        && ephemeral == if ok && isEphemeral then old(ephemeral) + {user} else old(ephemeral)
      ensures loaded == if ok then old(loaded) + {user} else old(loaded)
    {
      hide Entries, OwnNames, NoCeTemps, Sound, IsTrace;
      if user in loaded { return true; }
      ok := CreateCeKey(user, isEphemeral, random);
      if ok && isEphemeral { ephemeral := ephemeral + {user}; }
    }

    /** Removes the installed key, and forgets a key that was not stored yet. */
    method EvictCeKey(user: User)
      modifies this`newKeys, this`loaded
      ensures newKeys == old(newKeys) - {user} && loaded == old(loaded) - {user}
    {
      loaded := loaded - {user};
      newKeys := newKeys - {user};
    }

    /** Installs the user's key, read from the newest binding that opens; the other bindings go. */
    method UnlockUserKey(user: User, auth: Auth) returns (ok: bool)
      requires Valid()
      modifies this`deferred, this`loaded, ks`st, ks`trace, ks`faults, ks`binding
      ensures Valid() && ks.Seed() == old(ks.Seed()) && old(ks.faults) <= ks.faults
      ensures loaded == if ok then old(loaded) + {user} else old(loaded)
      ensures user in old(loaded) ==>
        ok && ks.st == old(ks.st) && ks.trace == old(ks.trace) && deferred == old(deferred)
      ensures NeverLoses(old(ks.trace), old(ks.st), ks.trace, ks.st, Keeping(CeDir(user), {}))
      ensures OthersKeep(user, old(ks.trace), old(ks.st), ks.trace, ks.st)
      ensures NoLessCertain(old(ks.st), ks.st)
      ensures user !in old(loaded) && ok ==>
        && StillOpens(old(ks.trace), old(ks.st), ks.trace, ks.st, CeDir(user), auth, ks.Seed())
        && deferred == old(deferred) - {CeDir(user)}
      ensures ks.faults == old(ks.faults) ==>
        && (ok <==> user in old(loaded) || OpensWith(old(ks.st), CeDir(user), auth, ks.Seed()))
        && (user !in old(loaded) && ok ==> OnlyCurrent(ks.st, CeDir(user)))
    {
      hide OthersKeep;
      hide NoCeTemps, OwnNames, IsTrace, Sound, IsCeKeyPath, Entries, AllStay, NoLessCertain, NeverLoses;
      hide Opens, NewestOpen, OnlyCurrent, SameTree;
      NothingLost(ks.trace, ks.st, Keeping(CeDir(user), {}));
      OnlyOneIsTouched(user, {}, ks.trace, ks.st, ks.trace, ks.st);
      CertainFrom(ks.st, CeDir(user));
      if user in loaded { return true; }
      var key := ReadAndFixateUserCeKey(user, auth);
      if key.None? { return false; }
      var failed := ks.Fault();   // installing it
      if failed { return false; }
      loaded := loaded + {user};
      ok := true;
    }

    /**
      The key to protect: the new user's, or the one on disk, or a fresh one if none is seen there; or
      none, when the one on disk opens with the authentication already.
    */
    method KeyToProtect(user: User, auth: Auth, readable: bool, random: Message)
      returns (key: Option<Message>, done: bool)
      requires Valid()
      modifies this`deferred, this`newKeys, this`loaded, ks`st, ks`trace, ks`faults, ks`binding
      ensures Valid() && ks.Seed() == old(ks.Seed()) && old(ks.faults) <= ks.faults
      ensures (done ==> key.None? && OpensWith(old(ks.st), CeDir(user), auth, ks.Seed()))
      ensures NoLessCertain(old(ks.st), ks.st)
      ensures NeverLoses(old(ks.trace), old(ks.st), ks.trace, ks.st, Keeping(CeDir(user), {}))
      ensures OthersKeep(user, old(ks.trace), old(ks.st), ks.trace, ks.st)
      ensures Found(old(ks.trace), old(ks.st), ks.trace, ks.st, old(Asked(user, auth, readable, random)), key, done)
      ensures newKeys - {user} == old(newKeys) - {user} && deferred - {CeDir(user)} == old(deferred) - {CeDir(user)}
      ensures loaded == old(loaded) || loaded == old(loaded) + {user}
      ensures ks.faults == old(ks.faults) ==>
        var able := CanProtect(old(ks.st), old(Asked(user, auth, readable, random)));
        if key.Some? then !Exhausted(ks.st, CeDir(user)) <==> able
        else (done <==> able) && (done ==> OnlyCurrent(ks.st, CeDir(user)))
      ensures user in old(newKeys) ==>
        && key == Some(old(newKeys)[user]) && newKeys == old(newKeys) && ks.st == old(ks.st)
        && ks.trace == old(ks.trace) && deferred == old(deferred)
      ensures user !in old(newKeys) && !OnDisk(old(ks.st), CeDir(user), readable) ==>
        && (newKeys == old(newKeys) || newKeys == old(newKeys)[user := random]) && !done
        && (ks.faults == old(ks.faults) ==> key.Some?)
        && ks.st == old(ks.st) && ks.trace == old(ks.trace) && deferred == old(deferred)
      ensures user !in old(newKeys) && OnDisk(old(ks.st), CeDir(user), readable) ==>
        && newKeys == old(newKeys)
        && Recovers(old(ks.trace), old(ks.st), ks.trace, ks.st, CeDir(user), auth, ks.Seed(), key, done)
        && (ks.faults == old(ks.faults) ==>
              && (key.Some? || done <==>
                  exists m :: OpensEither(old(ks.st), old(Asked(user, auth, readable, random)), m))
              && (key.Some? || done ==> OnlyCurrent(ks.st, CeDir(user))))
        && (key.Some? || done ==> CeDir(user) !in deferred)
    {
      hide OthersKeep;
      hide NoCeTemps, OwnNames, IsTrace, Sound, IsCeKeyPath, Entries, AllStay, NoLessCertain, NeverLoses, Opens,
           NewestOpen, OnlyCurrent, OnDisk, SameTree,
           Found, Recovers, OpensEither, Exhausted;
      ghost var before, a, r := ks.trace, ks.st, Asked(user, auth, readable, random);
      NothingLost(before, a, Keeping(r.dir, {}));
      OnlyOneIsTouched(user, {}, before, a, before, a);
      CertainFrom(a, r.dir);
      if user in newKeys {
        NewIsFound(before, a, r, Some(newKeys[user]));
        return Some(newKeys[user]), false;
      }
      var onDisk := CeKeyExists(user, readable);
      if onDisk {
        key, done := KeyOnDisk(user, auth);
        EitherOpens(a, r);
        if OnlyCurrent(ks.st, r.dir) { CurrentDoesNotExhaust(ks.st, r.dir); }
        RecoveredIsFound(before, a, ks.trace, ks.st, r, key, done);
      } else {
        var created := CreateCeKey(user, false, random);
        key, done := if created then Some(newKeys[user]) else None, false;
        NewIsFound(before, a, r, key);
      }
    }

    /** What is asked for when a key is to be protected. */
    ghost function Asked(user: User, auth: Auth, readable: bool, random: Message): Request
      reads this, ks
    {
      Request(CeDir(user), auth, ks.Seed(), if user in newKeys then Some(newKeys[user]) else None, readable, random)
    }

    /** The key on disk, which is stored without a secret, or already with this one. */
    method KeyOnDisk(user: User, auth: Auth) returns (key: Option<Message>, done: bool)
      requires Valid()
      modifies this`deferred, ks`st, ks`trace, ks`faults, ks`binding
      ensures Valid() && ks.Seed() == old(ks.Seed()) && old(ks.faults) <= ks.faults
      ensures (done ==> key.None? && OpensWith(old(ks.st), CeDir(user), auth, ks.Seed()))
      ensures NoLessCertain(old(ks.st), ks.st)
      ensures NeverLoses(old(ks.trace), old(ks.st), ks.trace, ks.st, Keeping(CeDir(user), {}))
      ensures OthersKeep(user, old(ks.trace), old(ks.st), ks.trace, ks.st)
      ensures Recovers(old(ks.trace), old(ks.st), ks.trace, ks.st, CeDir(user), auth, ks.Seed(), key, done)
      ensures deferred - {CeDir(user)} == old(deferred) - {CeDir(user)}
      ensures ks.faults == old(ks.faults) ==>
        && (key.Some? <==> exists p, m :: Opens(old(ks.st), CeDir(user), p, Auth(""), ks.Seed(), m))
        && (done <==> key.None? && exists p, m :: Opens(old(ks.st), CeDir(user), p, auth, ks.Seed(), m))
        && (key.Some? || done ==> OnlyCurrent(ks.st, CeDir(user)))
      ensures key.Some? || done ==> CeDir(user) !in deferred
    {
      hide OthersKeep;
      hide NoCeTemps, OwnNames, IsTrace, Sound, IsCeKeyPath, Entries, AllStay, NoLessCertain, NeverLoses, Opens,
           NewestOpen, OnlyCurrent, SameTree;
      ghost var before, a := ks.trace, ks.st;
      key := ReadAndFixateUserCeKey(user, EMPTY_AUTH);
      if key.Some? { return key, false; }
      ghost var mid, b := ks.trace, ks.st;
      var already := ReadAndFixateUserCeKey(user, auth);
      SameOpenings(a, b, CeDir(user), auth, ks.Seed());
      CertainAlong(a, b, ks.st);
      NeverLosesAlong(before, a, mid, b, ks.trace, ks.st, Keeping(CeDir(user), {}));
      OnlyOneIsTouched(user, {}, before, a, ks.trace, ks.st);
      if AllStay(a, CeDir(user)) { StillStays(a, b, CeDir(user)); }
      if already.Some? && AllStay(a, CeDir(user)) {
        NeverLosesLess(before, a, mid, b, map[], Keeping(CeDir(user), {already.value}));
        NeverLosesAlong(before, a, mid, b, ks.trace, ks.st, Keeping(CeDir(user), {already.value}));
      } else if already.None? {
        NeverLosesAlong(before, a, mid, b, ks.trace, ks.st, map[]);
      }
      return None, already.Some?;
    }

    /** A new name for a binding, above those there are. */
    method FindNewPath(dir: Path) returns (path: Option<Path>, paths: seq<Path>)
      modifies ks`faults
      ensures old(ks.faults) <= ks.faults && NewestFirst(paths)
      ensures forall p :: p in paths ==> p in ks.st.w.names && IsCeKeyPath(dir, p)
      ensures ks.faults == old(ks.faults) ==>
        && (forall p :: p in ks.st.w.names && IsCeKeyPath(dir, p) ==> p in paths)
        && (path.None? <==> Exhausted(ks.st, dir)) && (path.Some? ==> path.value !in ks.st.w.names)
      ensures path.Some? ==> IsCeKeyPath(dir, path.value)
    {
      hide IsCeKeyPath, Exhausted, Less, FirstAbove;
      paths := GetCeKeyPaths(dir);
      path := GetCeKeyNewPath(dir, paths);
      if ks.faults == old(ks.faults) { NoneMeansExhausted(ks.st, dir, paths, path); }
      if path.Some? { NewPathIsCeKeyPath(dir, paths, path.value); }
    }

    /**
      Stores the key with the secret under a new name, and destroys all other bindings: at once, or,
      during a checkpoint, when that is committed.  Either way the key is never without a binding once
      it has one.
    */
    method ProtectKey(user: User, auth: Auth, key: Message) returns (ok: bool)
      requires Valid()
      modifies this`deferred, ks`st, ks`trace, ks`faults, ks`binding
      ensures Valid() && ks.Seed() == old(ks.Seed()) && old(ks.faults) <= ks.faults
      ensures NeverLoses(old(ks.trace), old(ks.st), ks.trace, ks.st, Keeping(CeDir(user), {key}))
      ensures OthersKeep(user, old(ks.trace), old(ks.st), ks.trace, ks.st)
      ensures NoLessCertainBut(old(ks.st), ks.st, CeDir(user)) && (ok ==> AllStay(ks.st, CeDir(user)))
      ensures ok ==> exists p :: Opens(ks.st, CeDir(user), p, auth, ks.Seed(), key)
      ensures ok ==> (CeDir(user) in deferred <==> ks.st.w.checkpointing)
      ensures ok && CeDir(user) in deferred ==> Opens(ks.st, CeDir(user), deferred[CeDir(user)], auth, ks.Seed(), key)
      ensures deferred - {CeDir(user)} == old(deferred) - {CeDir(user)}
      ensures (ok && CeDir(user) in deferred) || !(exists p :: Opens(ks.st, CeDir(user), p, auth, ks.Seed(), key)) ==>
        NeverLoses(old(ks.trace), old(ks.st), ks.trace, ks.st, map[])
      ensures ok && CeDir(user) !in deferred && ks.faults == old(ks.faults) ==> OnlyCurrent(ks.st, CeDir(user))
      ensures ks.faults == old(ks.faults) ==> (ok <==> !Exhausted(old(ks.st), CeDir(user)))
    {
      hide OthersKeep;
      hide NoCeTemps, OwnNames, IsTrace, Sound, IsCeKeyPath, Entries, AllStay, NoLessCertain, NoLessCertainBut,
           NeverLoses, Opens, Entry, OnlyCurrent,
           Exhausted;
      var dir := CeDir(user);
      ghost var before, a := ks.trace, ks.st;
      NothingLost(before, a, map[]);
      NothingLost(before, a, Keeping(dir, {key}));
      OnlyOneIsTouched(user, {key}, before, a, before, a);
      CertainFrom(a, dir);
      var path, paths := FindNewPath(dir);
      if path.None? { return false; }
      ghost var listed := ks.faults == old(ks.faults);
      ok := StoreBinding(dir, path.value, auth, key);
      NeverLosesLess(before, a, ks.trace, ks.st, map[], Keeping(dir, {key}));
      OnlyOneIsTouched(user, {key}, before, a, ks.trace, ks.st);
      if !ok { return false; }
      ghost var mid, b := ks.trace, ks.st;
      if ks.st.w.checkpointing {
        MoreEntries(ks.st, deferred, dir, path.value);
        deferred := deferred[dir := path.value];
      } else {
        ok := FixateNew(dir, path.value, paths, auth, key, a, listed);
        NeverLosesAlong(before, a, mid, b, ks.trace, ks.st, Keeping(dir, {key}));
        OnlyOneIsTouched(user, {key}, before, a, ks.trace, ks.st);
        CertainButAlong(a, b, ks.st, dir);
        StillStays(b, ks.st, dir);
      }
    }

    /** Fixates a binding that was just stored. */
    method FixateNew(dir: Path, path: Path, paths: seq<Path>, auth: Auth, key: Message, ghost a: Store,
                     ghost listed: bool) returns (ok: bool)
      requires Valid() && Entry(ks.st, dir, path) && Opens(ks.st, dir, path, auth, ks.Seed(), key)
      requires ks.st.stored[ks.st.w.names[path]].message == key && SameNamesBut(a, ks.st, temp, path)
      requires forall p :: p in paths ==> IsCeKeyPath(dir, p)
      requires listed ==>
        (forall p :: p in a.w.names && IsCeKeyPath(dir, p) ==> p in paths) && temp in a.temps && NoCeTemps(a.temps)
      modifies this`deferred, ks`st, ks`trace, ks`faults
      ensures Valid() && old(ks.faults) <= ks.faults && deferred == old(deferred) - {dir}
      ensures NeverLoses(old(ks.trace), old(ks.st), ks.trace, ks.st, Keeping(dir, {key}))
      ensures NoLessCertain(old(ks.st), ks.st) && (ok && ks.st != old(ks.st) ==> AllStay(ks.st, dir))
      ensures ks.st.w.checkpointing == old(ks.st).w.checkpointing
      ensures exists p :: Opens(ks.st, dir, p, auth, ks.Seed(), key)
      ensures listed && ks.faults == old(ks.faults) ==> ok && OnlyCurrent(ks.st, dir)
    {
      hide NoCeTemps, OwnNames, IsTrace, Sound, IsCeKeyPath, Entries, AllStay, NoLessCertain, NeverLoses, Opens,
           OnlyCurrent, AllListed, Bound,
           Guarding, SameNamesBut;
      ghost var b := ks.st;
      EntryParts(b, dir, path);
      FewerEntries(b, deferred, dir);
      deferred := deferred - {dir};
      if listed { NewIsListed(a, b, temp, dir, path, paths); }
      ok := KeepOnly(dir, path, paths, deferred);
      FixatedOpens(b, ks.st, dir, path, paths, auth, ks.Seed(), key);
    }

    /**
      Protects the user's key with the secret.  A key with bindings on disk is the one that is kept if
      and only if they are seen: if there is no canonical binding and the directory cannot be read, it
      is taken for missing and a random key takes its place.
    */
    method SetUserKeyProtection(user: User, secret: string, readable: bool, random: Message) returns (ok: bool)
      requires Valid()
      modifies this`deferred, this`newKeys, this`loaded, ks`st, ks`trace, ks`faults, ks`binding
      ensures Valid() && ks.Seed() == old(ks.Seed()) && old(ks.faults) <= ks.faults
      ensures newKeys - {user} == old(newKeys) - {user} && deferred - {CeDir(user)} == old(deferred) - {CeDir(user)}
      ensures loaded == old(loaded) || loaded == old(loaded) + {user}
      ensures secret == "" || user in ephemeral ==>
        ks.st == old(ks.st) && ks.trace == old(ks.trace) && newKeys == old(newKeys) && deferred == old(deferred)
      ensures NeverLoses(old(ks.trace), old(ks.st), ks.trace, ks.st, Keeping(CeDir(user), {}))
      ensures OthersKeep(user, old(ks.trace), old(ks.st), ks.trace, ks.st)
      ensures AllStay(old(ks.st), CeDir(user)) ==>
        KeepsPreferred(old(ks.trace), old(ks.st), ks.trace, ks.st, old(Asked(user, Auth(secret), readable, random)))
      ensures NoLessCertainBut(old(ks.st), ks.st, CeDir(user))
      ensures ok && user !in ephemeral && !AllStay(ks.st, CeDir(user)) ==>
        !AllStay(old(ks.st), CeDir(user)) && OpensWith(old(ks.st), CeDir(user), Auth(secret), ks.Seed())
      ensures ok && user !in ephemeral ==>
        user !in newKeys && Protected(old(ks.st), ks.st, old(Asked(user, Auth(secret), readable, random)), deferred)
      ensures ok && user !in ephemeral && CeDir(user) !in deferred && ks.faults == old(ks.faults) ==>
        OnlyPreferredIsLeft(old(ks.st), ks.st, old(Asked(user, Auth(secret), readable, random)))
      ensures ks.faults == old(ks.faults) ==>
        var able := CanProtect(old(ks.st), old(Asked(user, Auth(secret), readable, random)));
        ok <==> secret != "" && (user in ephemeral || able)
    {
      hide OthersKeep;
      hide NoCeTemps, OwnNames, IsTrace, Sound, Entries, AllStay, NoLessCertainBut, NeverLoses, KeepsPreferred,
           OnlyPreferredIsLeft, Protected, CanProtect, OpensWith;
      ghost var before, a, r := ks.trace, ks.st, Asked(user, Auth(secret), readable, random);
      NothingLostOfPreferred(before, a, r);
      NothingLost(before, a, Keeping(r.dir, {}));
      OnlyOneIsTouched(user, {}, before, a, before, a);
      CertainFrom(a, r.dir);
      if secret == "" { return false; }
      if user in ephemeral { return true; }
      ok := ProtectChosen(user, Auth(secret), readable, random);
    }

    /** Finds out which key to protect, and protects it. */
    method ProtectChosen(user: User, auth: Auth, readable: bool, random: Message) returns (ok: bool)
      requires Valid()
      modifies this`deferred, this`newKeys, this`loaded, ks`st, ks`trace, ks`faults, ks`binding
      ensures Valid() && ks.Seed() == old(ks.Seed()) && old(ks.faults) <= ks.faults
      ensures newKeys - {user} == old(newKeys) - {user} && deferred - {CeDir(user)} == old(deferred) - {CeDir(user)}
      ensures loaded == old(loaded) || loaded == old(loaded) + {user}
      ensures NeverLoses(old(ks.trace), old(ks.st), ks.trace, ks.st, Keeping(CeDir(user), {}))
      ensures OthersKeep(user, old(ks.trace), old(ks.st), ks.trace, ks.st)
      ensures AllStay(old(ks.st), CeDir(user)) ==>
        KeepsPreferred(old(ks.trace), old(ks.st), ks.trace, ks.st, old(Asked(user, auth, readable, random)))
      ensures NoLessCertainBut(old(ks.st), ks.st, CeDir(user))
      ensures ok && !AllStay(ks.st, CeDir(user)) ==>
        !AllStay(old(ks.st), CeDir(user)) && OpensWith(old(ks.st), CeDir(user), auth, ks.Seed())
      ensures ok ==>
        user !in newKeys && Protected(old(ks.st), ks.st, old(Asked(user, auth, readable, random)), deferred)
      ensures ok && CeDir(user) !in deferred && ks.faults == old(ks.faults) ==>
        OnlyPreferredIsLeft(old(ks.st), ks.st, old(Asked(user, auth, readable, random)))
      ensures ks.faults == old(ks.faults) ==> (ok <==> CanProtect(old(ks.st), old(Asked(user, auth, readable, random))))
    {
      hide OthersKeep;
      hide NoCeTemps, OwnNames, IsTrace, Sound, Entries, AllStay, NoLessCertain, NoLessCertainBut, NeverLoses,
           OnlyCurrent, OnDisk, Exhausted,
           KeepsPreferred, OnlyPreferredIsLeft, Found, Recovers, Protected, CanProtect, OpensEither, OpensWith,
           IsCeKeyPath;
      ghost var before, a, r := ks.trace, ks.st, Asked(user, auth, readable, random);
      var key, done := KeyToProtect(user, auth, readable, random);
      ghost var mid, b := ks.trace, ks.st;
      CertainBut(a, b, r.dir);
      if key.None? {
        if AllStay(a, r.dir) { StillStays(a, b, r.dir); }
        FoundIsKept(before, a, ks.trace, b, r, done, deferred);
        return done;
      }
      ok := ProtectFound(user, auth, key.value, r, before, a);
      NeverLosesAlong(before, a, mid, b, ks.trace, ks.st, Keeping(r.dir, {}));
      OnlyOneIsTouched(user, {}, before, a, ks.trace, ks.st);
      CertainButAlong(a, b, ks.st, r.dir);
      if ok { newKeys := newKeys - {user}; }
    }

    method ProtectFound(user: User, auth: Auth, key: Message, ghost r: Request, ghost before: seq<Store>,
                        ghost a: Store) returns (ok: bool)
      requires Valid() && Sound(a) && a.w.holder == Free && NoCeTemps(a.temps)
      requires Found(before, a, ks.trace, ks.st, r, Some(key), false)
      requires r.dir == CeDir(user) && r.auth == auth && r.seed == ks.Seed()
      modifies this`deferred, ks`st, ks`trace, ks`faults, ks`binding
      ensures Valid() && ks.Seed() == old(ks.Seed()) && old(ks.faults) <= ks.faults
      ensures deferred - {r.dir} == old(deferred) - {r.dir}
      ensures NeverLoses(old(ks.trace), old(ks.st), ks.trace, ks.st, Keeping(r.dir, {}))
      ensures AllStay(a, r.dir) ==> KeepsPreferred(before, a, ks.trace, ks.st, r)
      ensures NoLessCertainBut(old(ks.st), ks.st, r.dir) && (ok ==> AllStay(ks.st, r.dir))
      ensures ok ==> Protected(a, ks.st, r, deferred)
      ensures ok && r.dir !in deferred && ks.faults == old(ks.faults) ==> OnlyPreferredIsLeft(a, ks.st, r)
      ensures ks.faults == old(ks.faults) ==> (ok <==> !Exhausted(old(ks.st), r.dir))
    {
      hide NoCeTemps, OwnNames, IsTrace, Sound, IsCeKeyPath, Entries, AllStay, NoLessCertain, NoLessCertainBut,
           NeverLoses, Opens, OnlyCurrent, Exhausted,
           KeepsPreferred, OnlyPreferredIsLeft, Found, Chooses;
      ghost var mid, b := ks.trace, ks.st;
      ok := ProtectKey(user, auth, key);
      FoundIsProtected(before, a, mid, b, ks.trace, ks.st, r, key);
      NeverLosesLess(mid, b, ks.trace, ks.st, Keeping(r.dir, {key}), Keeping(r.dir, {}));
    }

    /** Destroys everything kept of the user; other users keep what they have. */
    method DestroyUserKey(user: User)
      requires Valid()
      modifies this`deferred, this`newKeys, this`ephemeral, this`loaded, ks`st, ks`trace, ks`faults
      ensures Valid() && old(ks.faults) <= ks.faults && NoLessCertain(old(ks.st), ks.st)
      ensures NeverLoses(old(ks.trace), old(ks.st), ks.trace, ks.st, Keeping(CeDir(user), {}))
      ensures OthersKeep(user, old(ks.trace), old(ks.st), ks.trace, ks.st)
      ensures newKeys == old(newKeys) - {user} && ephemeral == old(ephemeral) - {user} && loaded == old(loaded) - {user}
      ensures user in old(ephemeral) ==> ks.st == old(ks.st) && deferred == old(deferred)
      ensures user !in old(ephemeral) ==> deferred == old(deferred) - {CeDir(user)}
      ensures user !in old(ephemeral) && ks.faults == old(ks.faults) ==> forall p :: p in ks.st.w.names ==>
          !IsCeKeyPath(CeDir(user), p)
    {
      hide OthersKeep;
      hide NoCeTemps, OwnNames, IsTrace, Sound, IsCeKeyPath, Entries, AllStay, NeverLoses, Destroying;
      var dir := CeDir(user);
      ghost var before, a := ks.trace, ks.st;
      NothingLost(before, a, Keeping(dir, {}));
      OnlyOneIsTouched(user, {}, before, a, before, a);
      EvictCeKey(user);           // so that no new key is left to keep the bindings from being destroyed
      if user in ephemeral {
        ephemeral := ephemeral - {user};
        return;
      }
      var paths := GetCeKeyPaths(dir);
      FewerEntries(ks.st, deferred, dir);
      ghost var todo, listed := deferred - {dir}, ks.faults;
      var n: nat := 0;
      while n < |paths|
        invariant n <= |paths| && Ready() && Entries(ks.st, todo) && NoLessCertain(a, ks.st) && listed <= ks.faults
        invariant NeverLoses(before, a, ks.trace, ks.st, Keeping(dir, {}))
        invariant forall p :: p in ks.st.w.names ==> p in a.w.names
        invariant ks.faults == old(ks.faults) ==> forall k :: 0 <= k < n ==> paths[k] !in ks.st.w.names
        modifies ks`st, ks`trace, ks`faults
      {
        DestroyBinding(dir, paths[n], todo, before, a);
        n := n + 1;
      }
      OnlyOneIsTouched(user, {}, before, a, ks.trace, ks.st);
      deferred := deferred - {dir};
    }

    method DestroyBinding(dir: Path, p: Path, ghost todo: map<Path, Path>, ghost before: seq<Store>, ghost a: Store)
      requires Ready() && Entries(ks.st, todo) && IsCeKeyPath(dir, p) && dir !in todo
      requires NeverLoses(before, a, ks.trace, ks.st, Keeping(dir, {}))
      modifies ks`st, ks`trace, ks`faults
      ensures Ready() && Entries(ks.st, todo) && NoLessCertain(old(ks.st), ks.st) && old(ks.faults) <= ks.faults
      ensures NeverLoses(before, a, ks.trace, ks.st, Keeping(dir, {}))
      ensures forall q :: q in ks.st.w.names ==> q in old(ks.st).w.names
      ensures ks.faults == old(ks.faults) ==> p !in ks.st.w.names
    {
      hide NoCeTemps, OwnNames, IsTrace, Sound, IsCeKeyPath, Entries, AllStay, NeverLoses, Destroying;
      ghost var mid, b := ks.trace, ks.st;
      var _ := ks.DestroyKey(p);
      if p in b.w.names {
        PlacesKnown(b);
        DestroyingParts(mid, b, ks.trace, ks.st, b.w.names[p]);
        OwnDestroying(mid, b, ks.trace, ks.st, b.w.names[p]);
        DestroyingKeepsEntries(mid, b, ks.trace, ks.st, dir, p, todo);
        DestroyingStays(mid, b, ks.trace, ks.st, p);
        DestroyingLosesOne(mid, b, ks.trace, ks.st, dir, p);
        NeverLosesAlong(before, a, mid, b, ks.trace, ks.st, Keeping(dir, {}));
      }
    }

    /**
      After a checkpoint was committed: the fixations that were put off.  The binding that was chosen
      is there at every moment, and is the one that is left.
    */
    method DeferredFixateCeKeys()
      requires Valid()
      modifies this`deferred, ks`st, ks`trace, ks`faults
      ensures Valid() && deferred == map[] && old(ks.faults) <= ks.faults && NoLessCertain(old(ks.st), ks.st)
      ensures Kept(old(ks.trace), old(ks.st), ks.trace, ks.st, old(deferred))
      ensures NeverLoses(old(ks.trace), old(ks.st), ks.trace, ks.st, KeepsOf(old(ks.st), old(deferred)))
      ensures ks.faults == old(ks.faults) ==> forall d :: d in old(deferred) ==>
          Tidied(old(ks.st), ks.st, old(deferred), d)
      ensures ks.st.w.live == old(ks.st).w.live && (old(ks.st).w.pending == [] ==> ks.st.w.pending == [])
    {
      hide NoCeTemps, OwnNames, IsTrace, Sound, Entries, NoLessCertain, NeverLoses, Kept, Tidied, Tidying, KeepsOf;
      ghost var before, a := ks.trace, ks.st;
      var todo := deferred;
      TidyingFrom(before, a, deferred);
      CertainFrom(a, "");
      while todo != map[]
        invariant Ready() && Entries(ks.st, todo) && NoLessCertain(a, ks.st) && old(ks.faults) <= ks.faults
        invariant Tidying(before, a, ks.trace, ks.st, deferred, todo)
        invariant ks.faults == old(ks.faults) ==> forall d :: d in deferred && d !in todo ==>
            Tidied(a, ks.st, deferred, d)
        modifies ks`st, ks`trace, ks`faults
        decreases |todo|
      {
        var dir :| dir in todo;
        ghost var b := ks.st;
        FixateDeferred(dir, todo, before, a);
        CertainAlong(a, b, ks.st);
        todo := todo - {dir};
      }
      TidyingEnds(before, a, ks.trace, ks.st, deferred, todo);
      deferred := map[];
      NoEntries(ks.st);
    }

    method FixateDeferred(dir: Path, todo: map<Path, Path>, ghost before: seq<Store>, ghost a: Store)
      requires Ready() && Entries(ks.st, todo) && dir in todo && Tidying(before, a, ks.trace, ks.st, deferred, todo)
      modifies ks`st, ks`trace, ks`faults
      ensures Ready() && Entries(ks.st, todo - {dir}) && NoLessCertain(old(ks.st), ks.st) && old(ks.faults) <= ks.faults
      ensures Tidying(before, a, ks.trace, ks.st, deferred, todo - {dir})
      ensures ks.faults == old(ks.faults) ==> Tidied(a, ks.st, deferred, dir)
      ensures forall d :: d != dir && Tidied(a, old(ks.st), deferred, d) ==> Tidied(a, ks.st, deferred, d)
    {
      hide NoCeTemps, OwnNames, IsTrace, Sound, IsCeKeyPath, Entries, AllStay, NeverLoses, Kept, Fixated, Entry, Bound,
           OnlyCurrent, AllListed, Guarding;
      ghost var mid, b := ks.trace, ks.st;
      var toFix := todo[dir];
      OneEntry(b, todo, dir);
      EntryParts(b, dir, toFix);
      FewerEntries(b, todo, dir);
      var paths := GetCeKeyPaths(dir);
      if ks.faults == old(ks.faults) { AllAreListed(b, dir, toFix, paths); }
      var _ := KeepOnly(dir, toFix, paths, todo - {dir});
      TidyingOn(before, a, mid, b, ks.trace, ks.st, deferred, todo, dir, paths);
      forall d | d != dir && Tidied(a, b, deferred, d) ensures Tidied(a, ks.st, deferred, d) {
        TidiedStays(a, b, ks.st, deferred, d, dir, toFix, paths);
      }
    }

    /** The upgraded keys that waited for a checkpoint to be committed. */
    method CommitKeys()
      requires Valid() && ks.st.w.sweepDue
      modifies ks`st, ks`trace, ks`faults
      ensures Valid() && old(ks.faults) <= ks.faults && Quietly(old(ks.trace), old(ks.st), ks.trace, ks.st)
      ensures ks.st.w.pending == [] && (ks.faults == old(ks.faults) ==> Committed(old(ks.st).w, ks.st.w))
    {
      hide NoCeTemps, OwnNames, IsTrace, Sound, Entries, AllStay, NeverLoses, Quietly, Guarding, SameTree, Committed;
      ghost var before, a := ks.trace, ks.st;
      ks.DeferredCommitKeystoreKeys();
      QuietOpKeeps(before, a, ks.trace, ks.st, deferred);
      TreeNames(a, ks.st);
      if ks.faults == old(ks.faults) { SweptIsCommitted(a.w, ks.st.w); }
    }

    /** What waited for the checkpoint to be committed: first the upgraded keys, then the fixations. */
    method DoCheckpointCommittedWork()
      requires Valid() && ks.st.w.sweepDue
      modifies this`deferred, ks`st, ks`trace, ks`faults
      ensures Valid() && deferred == map[] && old(ks.faults) <= ks.faults && NoLessCertain(old(ks.st), ks.st)
      ensures ks.st.w.pending == []
      ensures ks.faults == old(ks.faults) ==> Committed(old(ks.st).w, ks.st.w)
      ensures Kept(old(ks.trace), old(ks.st), ks.trace, ks.st, old(deferred))
      ensures NeverLoses(old(ks.trace), old(ks.st), ks.trace, ks.st, KeepsOf(old(ks.st), old(deferred)))
      ensures ks.faults == old(ks.faults) ==> forall d :: d in old(deferred) ==>
          Tidied(old(ks.st), ks.st, old(deferred), d)
    {
      hide NoCeTemps, OwnNames, IsTrace, Sound, Entries, AllStay, NeverLoses, Quietly, Kept, Guarding, Tidied, SameTree,
           Committed, KeepsOf;
      ghost var before, a := ks.trace, ks.st;
      CommitKeys();
      ghost var mid, b := ks.trace, ks.st;
      QuietOpKeeps(before, a, mid, b, deferred);
      DeferredFixateCeKeys();
      KeptSince(before, a, mid, b, ks.trace, ks.st, old(deferred));
      NeverLosesLess(before, a, mid, b, map[], KeepsOf(a, old(deferred)));
      NeverLosesAlong(before, a, mid, b, ks.trace, ks.st, KeepsOf(a, old(deferred)));
      TreeNames(a, b);
      TidiedSince(a, b, ks.st, old(deferred));
      if ks.faults == old(ks.faults) { StillCommitted(a.w, b.w, ks.st.w); }
    }
  }
}
