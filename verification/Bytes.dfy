/** Numbers as bytes. */
module Bytes {
  import opened Arithmetic

  function FromByte(b: bv8): (n: nat)
    ensures n < 0x100
  {
    b as int
  }

  /** The lowest byte, made of its two halves. */
  function ToByte(n: nat): bv8 {
    ((n / 0x10 % 0x10) as bv8 << 4) | (n % 0x10) as bv8
  }

  lemma HalfRoundTrip(n: nat)
    requires n < 0x10
    ensures (n as bv8) as int == n
  {
  }

  lemma TwoHalves(high: bv8, low: bv8)
    requires high < 0x10 && low < 0x10
    ensures ((high << 4) | low) as int == 0x10 * (high as int) + low as int
  {
  }

  lemma ByteRoundTrip(n: nat)
    ensures FromByte(ToByte(n)) == n % 0x100
  {
    var high, low := n / 0x10 % 0x10, n % 0x10;
    HalfRoundTrip(high);
    HalfRoundTrip(low);
    SmallHalf(high);
    SmallHalf(low);
    TwoHalves(high as bv8, low as bv8);
    TwoDigits(n);
  }

  lemma SmallHalf(n: nat)
    requires n < 0x10
    ensures n as bv8 < 0x10
  {
    HalfRoundTrip(n);
  }

  lemma TwoDigits(n: nat)
    ensures n % 0x100 == 0x10 * (n / 0x10 % 0x10) + n % 0x10
  {
    var high := n / 0x10;
    assert n == 0x100 * (high / 0x10) + (0x10 * (high % 0x10) + n % 0x10);
    Quotient(high / 0x10, 0x10 * (high % 0x10) + n % 0x10, 0x100);
  }

  lemma DividedAgain(n: nat)
    ensures n / 0x1_0000 == n / 0x100 / 0x100
  {
  }

  lemma BytesOf(n: nat)
    requires n < 0x1_0000_0000
    ensures n == n % 0x100 + 0x100 * (n / 0x100 % 0x100)
              + 0x1_0000 * (n / 0x1_0000 % 0x100 + 0x100 * (n / 0x100_0000 % 0x100))
  {
    DividedAgain(n);
    DividedAgain(n / 0x100);
    var high := n / 0x1_0000;
    assert high / 0x100 == n / 0x100_0000 && high / 0x100 < 0x100;
  }
}
