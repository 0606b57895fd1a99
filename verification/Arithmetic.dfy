/** Quotients and remainders. */
module Arithmetic {

  lemma Quotient(q: int, r: nat, d: nat)
    requires r < d
    ensures (q * d + r) / d == q && (q * d + r) % d == r
  {
    var v := q * d + r;
    var e := q - v / d;
    assert v == v / d * d + v % d;
    assert e * d == v % d - r;
    assert e >= 1 ==> e * d >= d;
    assert e <= -1 ==> e * d + d <= 0;
  }
}
