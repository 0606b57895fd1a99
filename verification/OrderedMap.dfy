/** Ordered lookup in a finite map that has an entry at 0, as `--upper_bound(x)` finds it. */
module OrderedMap {

  /** The greatest key not above `x`. */
  function Floor<T>(m: map<nat, T>, x: nat): (k: nat)
    requires 0 in m
    ensures k <= x && k in m
    ensures forall j :: k < j <= x ==> j !in m
  {
    if x in m then x else Floor(m, x - 1)
  }

  lemma FloorIs<T>(m: map<nat, T>, x: nat, k: nat)
    requires 0 in m
    requires k <= x && k in m
    requires forall j :: k < j <= x ==> j !in m
    ensures Floor(m, x) == k
  {
  }

  /** `k` is the next key above `x`. */
  predicate IsNext<T>(m: map<nat, T>, x: nat, k: nat) {
    x < k && k in m && forall j :: x < j < k ==> j !in m
  }

  lemma {:induction false} NextExists<T>(m: map<nat, T>, x: nat, bound: nat) returns (k: nat)
    requires x < bound && bound in m
    ensures IsNext(m, x, k) && k <= bound
    decreases bound - x
  {
    if x + 1 in m { k := x + 1; } else { k := NextExists(m, x + 1, bound); }
  }
}
