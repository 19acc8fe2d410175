/** Java's `BigInteger.intValue()`: keep the low-order 32 bits of the
    two's-complement representation and read them back as a signed `int`. */
module Int32 {

  const TWO_32: int := 0x1_0000_0000
  const MIN_INT: int := -0x8000_0000
  const MAX_INT: int := 0x7fff_ffff

  /** `x` fits a Java `int`. */
  predicate InRange(x: int) {
    MIN_INT <= x <= MAX_INT
  }

  /** `x` and `y` agree in their low-order 32 bits. */
  predicate SameLowBits(x: int, y: int) {
    (x - y) % TWO_32 == 0
  }

  /** The 32-bit narrowing of an arbitrary-precision integer. Dafny's `%` is
      Euclidean, so `x % TWO_32` is exactly the unsigned reading of the low
      32 bits, also for negative `x`. */
  function IntValue(x: int): (r: int)
    ensures InRange(r)
    ensures SameLowBits(r, x)
    ensures InRange(x) ==> r == x
  {
    var low := x % TWO_32;
    if low > MAX_INT then low - TWO_32 else low
  }

  /** Two in-range values with the same low bits are equal. */
  lemma InRangeSameLowBitsEqual(a: int, b: int)
    requires InRange(a) && InRange(b)
    requires SameLowBits(a, b)
    ensures a == b
  {
    var d := a - b;
    assert -TWO_32 < d < TWO_32;
    assert d == TWO_32 * (d / TWO_32) + d % TWO_32;
  }

  /** The narrowing is the ONLY in-range value sharing the wire value's low
      32 bits, so the three facts in `IntValue`'s contract pin it down. */
  lemma IntValueUnique(x: int, y: int)
    requires InRange(y) && SameLowBits(y, x)
    ensures y == IntValue(x)
  {
    var r := IntValue(x);
    assert SameLowBits(y, r) by {
      var k1 := (y - x) / TWO_32;
      var k2 := (r - x) / TWO_32;
      assert y - x == TWO_32 * k1;
      assert r - x == TWO_32 * k2;
      assert y - r == TWO_32 * (k1 - k2);
      assert (TWO_32 * (k1 - k2)) % TWO_32 == 0;
    }
    InRangeSameLowBitsEqual(y, r);
  }

  /** Adding a multiple of 2^32 to the wire value is invisible after narrowing. */
  lemma IntValuePeriodic(x: int, k: int)
    ensures IntValue(x + k * TWO_32) == IntValue(x)
  {
    var r := IntValue(x);
    assert SameLowBits(r, x + k * TWO_32) by {
      var q := (r - x) / TWO_32;
      assert r - x == TWO_32 * q;
      assert r - (x + k * TWO_32) == TWO_32 * (q - k);
      assert (TWO_32 * (q - k)) % TWO_32 == 0;
    }
    IntValueUnique(x + k * TWO_32, r);
  }
}
