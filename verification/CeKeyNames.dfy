/**
  Names of the directories that hold the bindings of a user's key.

  The first binding is called `current`, later ones `cx` and a ten-digit number.  Names are compared
  as strings, so that a scan in descending order meets the newest binding first.
*/
module CeKeyNames {
  import opened Wrappers
  import RetryFile

  const UINT_MAX := 0xFFFF_FFFF

  // ----- Comparing strings -----

  predicate Less(a: string, b: string) {
    b != "" && (a == "" || a[0] < b[0] || (a[0] == b[0] && Less(a[1..], b[1..])))
  }

  lemma {:induction false} LessIsTransitive(a: string, b: string, c: string)
    requires Less(a, b) && Less(b, c)
    ensures Less(a, c)
  {
    if a != "" && a[0] == b[0] == c[0] { LessIsTransitive(a[1..], b[1..], c[1..]); }
  }

  lemma {:induction false} LessIsStrict(a: string)
    ensures !Less(a, a)
  {
    if a != "" { LessIsStrict(a[1..]); }
  }

  lemma {:induction false} LessIsTotal(a: string, b: string)
    ensures Less(a, b) || a == b || Less(b, a)
  {
    if a != "" && b != "" && a[0] == b[0] {
      LessIsTotal(a[1..], b[1..]);
      assert a == [a[0]] + a[1..] && b == [b[0]] + b[1..];
    }
  }

  lemma LessIsAsymmetric(a: string, b: string)
    requires Less(a, b)
    ensures !Less(b, a) && a != b
  {
    LessIsStrict(a);
    if Less(b, a) { LessIsTransitive(a, b, a); }
  }

  /** A common prefix does not matter. */
  lemma {:induction false} LessBehindPrefix(p: string, a: string, b: string)
    ensures Less(p + a, p + b) <==> Less(a, b)
  {
    if p == "" {
      assert p + a == a && p + b == b;
    } else {
      LessBehindPrefix(p[1..], a, b);
      assert (p + a)[1..] == p[1..] + a && (p + b)[1..] == p[1..] + b;
    }
  }

  lemma {:induction false} LessByPrefix(a: string, b: string, c: string, d: string)
    requires Less(a, b) && |a| == |b|
    ensures Less(a + c, b + d)
  {
    if a[0] == b[0] {
      LessByPrefix(a[1..], b[1..], c, d);
      assert (a + c)[1..] == a[1..] + c && (b + d)[1..] == b[1..] + d;
    }
  }

  // ----- Ten-digit numbers -----

  function Zeros(n: nat): (s: string)
    ensures |s| == n
  {
    if n == 0 then "" else ['0'] + Zeros(n - 1)
  }

  /** At least `width` digits, filled up with zeros. */
  function Padded(n: nat, width: nat): string {
    var digits := RetryFile.ToString(n);
    if |digits| < width then Zeros(width - |digits|) + digits else digits
  }

  /** The last `width` digits. */
  function LastDigits(n: nat, width: nat): (s: string)
    ensures |s| == width
  {
    if width == 0 then "" else LastDigits(n / 10, width - 1) + [RetryFile.Digit(n % 10)]
  }

  function PowerOfTen(width: nat): (p: nat)
    ensures p > 0
  {
    if width == 0 then 1 else 10 * PowerOfTen(width - 1)
  }

  lemma {:induction false} ZerosAppend(n: nat)
    ensures Zeros(n) + ['0'] == Zeros(n + 1)
  {
    if n > 0 {
      ZerosAppend(n - 1);
      assert Zeros(n) + ['0'] == ['0'] + (Zeros(n - 1) + ['0']);
    }
  }

  lemma {:induction false} LastDigitsOfZero(width: nat)
    ensures LastDigits(0, width) == Zeros(width)
  {
    if width > 0 {
      LastDigitsOfZero(width - 1);
      ZerosAppend(width - 1);
    }
  }

  lemma {:induction false} PaddedIsLastDigits(n: nat, width: nat)
    requires 0 < width && n < PowerOfTen(width)
    ensures Padded(n, width) == LastDigits(n, width) && |RetryFile.ToString(n)| <= width
  {
    var last := [RetryFile.Digit(n % 10)];
    if n < 10 {
      LastDigitsOfZero(width - 1);
      assert RetryFile.ToString(n) == last;
    } else {
      assert n / 10 < PowerOfTen(width - 1);
      PaddedIsLastDigits(n / 10, width - 1);
      var high := RetryFile.ToString(n / 10);
      assert RetryFile.ToString(n) == high + last;
      assert Zeros(width - 1 - |high|) + (high + last) == (Zeros(width - 1 - |high|) + high) + last;
    }
  }

  lemma {:induction false} LastDigitsOrder(m: nat, n: nat, width: nat)
    requires m < n < PowerOfTen(width)
    ensures Less(LastDigits(m, width), LastDigits(n, width))
  {
    var x, y := [RetryFile.Digit(m % 10)], [RetryFile.Digit(n % 10)];
    if m / 10 == n / 10 {
      assert m % 10 < n % 10;
      assert Less(x, y);
      LessBehindPrefix(LastDigits(m / 10, width - 1), x, y);
    } else {
      LastDigitsOrder(m / 10, n / 10, width - 1);
      LessByPrefix(LastDigits(m / 10, width - 1), LastDigits(n / 10, width - 1), x, y);
    }
  }

  /** Zero padding keeps the numeric order for all 32-bit counters. */
  lemma PaddingKeepsOrder(m: nat, n: nat)
    requires m <= 0xFFFF_FFFF && n <= 0xFFFF_FFFF
    ensures Less(Padded(m, 10), Padded(n, 10)) <==> m < n
  {
    assert PowerOfTen(10) == 10_000_000_000 by { assert PowerOfTen(5) == 100_000; }
    PaddedIsLastDigits(m, 10);
    PaddedIsLastDigits(n, 10);
    if m < n { LastDigitsOrder(m, n, 10); }
    else if n < m { LastDigitsOrder(n, m, 10); LessIsAsymmetric(Padded(n, 10), Padded(m, 10)); }
    else { LessIsStrict(Padded(m, 10)); }
  }

  // ----- The names -----

  function CurrentPath(dir: string): string {
    dir + "/current"
  }

  function Candidate(dir: string, n: nat): string {
    dir + "/cx" + Padded(n, 10)
  }

  lemma CandidatesInOrder(dir: string, m: nat, n: nat)
    requires m <= UINT_MAX && n <= UINT_MAX
    ensures Less(Candidate(dir, m), Candidate(dir, n)) <==> m < n
  {
    LessBehindPrefix(dir + "/cx", Padded(m, 10), Padded(n, 10));
    PaddingKeepsOrder(m, n);
  }

  lemma CurrentIsOldest(dir: string, n: nat)
    ensures Less(CurrentPath(dir), Candidate(dir, n))
  {
    hide Padded;
    var digits := Padded(n, 10);
    assert dir + "/cx" + digits == dir + ("/cx" + digits);
    assert Less("urrent", "x" + digits);
    assert Less("current", "cx" + digits) by {
      assert ("cx" + digits)[1..] == "x" + digits && "current"[1..] == "urrent";
    }
    assert Less("/current", "/cx" + digits) by {
      assert ("/cx" + digits)[1..] == "cx" + digits && "/current"[1..] == "current";
    }
    LessBehindPrefix(dir, "/current", "/cx" + digits);
  }

  /** The least number whose name lies above the newest one. */
  ghost predicate FirstAbove(dir: string, newest: string, n: nat) {
    n < UINT_MAX && Less(newest, Candidate(dir, n)) && forall k: nat :: k < n ==> !Less(newest, Candidate(dir, k))
  }

  /** Newest first. */
  ghost predicate NewestFirst(paths: seq<string>) {
    forall i, j :: 0 <= i < j < |paths| ==> Less(paths[j], paths[i])
  }

  /** The name for a new binding, given those there are, newest first. */
  method GetCeKeyNewPath(dir: string, paths: seq<string>) returns (path: Option<string>)
    ensures paths == [] ==> path == Some(dir + "/current")
    ensures paths != [] && path.Some? ==>
      exists n :: FirstAbove(dir, paths[0], n) && path.value == Candidate(dir, n) == dir + "/cx" + Padded(n, 10)
    ensures path.None? <==> paths != [] && forall n: nat :: n < 0xFFFF_FFFF ==> !Less(paths[0], Candidate(dir, n))
    ensures path.Some? && NewestFirst(paths) ==> path.value !in paths && forall p :: p in paths ==> Less(p, path.value)
  {
    if paths == [] { return Some(CurrentPath(dir)); }
    var n: nat := 0;
    while n < UINT_MAX
      invariant n <= UINT_MAX
      invariant forall k: nat :: k < n ==> !Less(paths[0], Candidate(dir, k))
    {
      var candidate := Candidate(dir, n);
      if Less(paths[0], candidate) {
        assert FirstAbove(dir, paths[0], n);
        if NewestFirst(paths) { FirstIsNewest(paths, candidate); }
        return Some(candidate);
      }
      n := n + 1;
    }
    return None;
  }

  lemma FirstIsNewest(paths: seq<string>, path: string)
    requires paths != [] && NewestFirst(paths) && Less(paths[0], path)
    ensures path !in paths && forall p :: p in paths ==> Less(p, path)
  {
    forall i | 0 <= i < |paths| ensures Less(paths[i], path) {
      if i > 0 { LessIsTransitive(paths[i], paths[0], path); }
    }
    LessIsStrict(path);
  }

  /** After binding number `m` comes number `m + 1`, and after the first one number 0. */
  lemma NewNames(dir: string, newest: string, n: nat)
    requires FirstAbove(dir, newest, n)
    ensures newest == CurrentPath(dir) ==> n == 0
    ensures forall m: nat :: m <= 0xFFFF_FFFF && newest == Candidate(dir, m) ==> n == m + 1
  {
    if newest == CurrentPath(dir) && n > 0 {
      CurrentIsOldest(dir, 0);
    }
    forall m: nat | m <= UINT_MAX && newest == Candidate(dir, m) ensures n == m + 1 {
      CandidatesInOrder(dir, m, n);
      if m + 1 < n { CandidatesInOrder(dir, m, m + 1); }
    }
  }

  /** No name is left exactly when some path is at or above the last one. */
  lemma NoNameLeft(dir: string, paths: seq<string>)
    requires NewestFirst(paths)
    ensures (paths != [] && forall n: nat :: n < 0xFFFF_FFFF ==> !Less(paths[0], Candidate(dir, n)))
      <==> exists p :: p in paths && !Less(p, Candidate(dir, 0xFFFF_FFFE))
  {
    hide Candidate;
    var last := Candidate(dir, UINT_MAX - 1);
    if p :| p in paths && !Less(p, last) {
      var i :| 0 <= i < |paths| && paths[i] == p;
      forall n: nat | n < UINT_MAX ensures !Less(paths[0], Candidate(dir, n)) {
        if Less(paths[0], Candidate(dir, n)) {
          if n < UINT_MAX - 1 {
            CandidatesInOrder(dir, n, UINT_MAX - 1);
            LessIsTransitive(paths[0], Candidate(dir, n), last);
          }
          if i > 0 { LessIsTransitive(paths[i], paths[0], last); }
        }
      }
    } else if paths != [] {
      assert paths[0] in paths;
    }
  }

  // ----- Listing a user's bindings -----

  /** A path directly below `dir` whose last part starts with `c`. */
  predicate IsCeKeyPath(dir: string, p: string) {
    |p| > |dir| + 1 && p[..|dir|] == dir && p[|dir|] == '/' && p[|dir| + 1] == 'c' && '/' !in p[|dir| + 1..]
  }

  /** The bindings below a directory are the names in it, not those further down, that begin with `c`. */
  lemma BindingsByName(dir: string, p: string)
    ensures IsCeKeyPath(dir, p) <==> exists name: string ::
        name != "" && name[0] == 'c' && '/' !in name && p == dir + "/" + name
  {
    if IsCeKeyPath(dir, p) {
      var name := p[|dir| + 1..];
      assert p == dir + "/" + name && name[0] == 'c';
    }
    forall name: string | name != "" && name[0] == 'c' && '/' !in name && p == dir + "/" + name
      ensures IsCeKeyPath(dir, p)
    {
      assert p[..|dir|] == dir && p[|dir| + 1..] == name;
    }
  }

  lemma LastSlash(dir: string, p: string)
    requires IsCeKeyPath(dir, p)
    ensures p[|dir|] == '/' && forall k :: |dir| < k < |p| ==> p[k] != '/'
  {
    forall k | |dir| < k < |p| ensures p[k] != '/' {
      assert p[|dir| + 1..][k - |dir| - 1] == p[k];
    }
  }

  /** Such a path belongs to one directory only. */
  lemma CeKeyPathHasOneDir(d: string, e: string, p: string)
    requires IsCeKeyPath(d, p) && IsCeKeyPath(e, p)
    ensures d == e
  {
    LastSlash(d, p);
    LastSlash(e, p);
  }

  lemma CurrentIsCeKeyPath(dir: string)
    ensures IsCeKeyPath(dir, CurrentPath(dir))
  {
    assert CurrentPath(dir)[|dir| + 1..] == "current";
  }

  lemma {:induction false} ZerosAreDigits(n: nat)
    ensures '/' !in Zeros(n)
  {
    if n > 0 { ZerosAreDigits(n - 1); }
  }

  lemma CandidateIsCeKeyPath(dir: string, n: nat)
    ensures IsCeKeyPath(dir, Candidate(dir, n))
  {
    var digits := RetryFile.ToString(n);
    if |digits| < 10 { ZerosAreDigits(10 - |digits|); }
    assert Candidate(dir, n)[|dir| + 1..] == "cx" + Padded(n, 10);
  }

  /** A new path goes where it keeps the list in order. */
  method InsertNewestFirst(paths: seq<string>, p: string) returns (r: seq<string>)
    requires NewestFirst(paths) && p !in paths
    ensures NewestFirst(r) && forall q :: q in r <==> q in paths || q == p
  {
    var n: nat := 0;
    while n < |paths| && Less(p, paths[n])
      invariant n <= |paths| && forall k :: 0 <= k < n ==> Less(p, paths[k])
    {
      n := n + 1;
    }
    r := paths[..n] + [p] + paths[n..];
    InsertedInOrder(paths, p, n);
    assert paths == paths[..n] + paths[n..];
  }

  lemma InsertedInOrder(paths: seq<string>, p: string, n: nat)
    requires NewestFirst(paths) && p !in paths && n <= |paths| && (forall k :: 0 <= k < n ==> Less(p, paths[k]))
    requires n < |paths| ==> !Less(p, paths[n])
    ensures NewestFirst(paths[..n] + [p] + paths[n..])
  {
    var r := paths[..n] + [p] + paths[n..];
    if n < |paths| { LessIsTotal(p, paths[n]); }
    forall k | n <= k < |paths| ensures Less(paths[k], p) {
      if n < k { LessIsTransitive(paths[k], paths[n], p); }
    }
    forall i, j | 0 <= i < j < |r| ensures Less(r[j], r[i]) {
      var x := if i < n then i else i - 1;
      var y := if j < n then j else j - 1;
      assert i != n ==> r[i] == paths[x];
      assert j != n ==> r[j] == paths[y];
    }
  }

  /** The bindings among the entries of a directory, newest first. */
  method SortedCeKeyPaths(dir: string, entries: set<string>) returns (paths: seq<string>)
    ensures NewestFirst(paths) && forall p :: p in paths <==> p in entries && IsCeKeyPath(dir, p)
  {
    paths := [];
    var todo := entries;
    while todo != {}
      invariant todo <= entries && NewestFirst(paths)
      invariant forall p :: p in paths <==> p in entries - todo && IsCeKeyPath(dir, p)
      decreases |todo|
    {
      var p :| p in todo;
      todo := todo - {p};
      if IsCeKeyPath(dir, p) { paths := InsertNewestFirst(paths, p); }
    }
  }
}
