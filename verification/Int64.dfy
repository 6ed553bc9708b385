/** Go's int64: amounts of money are kobo in this type, and its sums wrap silently. */
module Int64 {
  const MIN := -0x8000_0000_0000_0000
  const MAX := 0x7FFF_FFFF_FFFF_FFFF
  const MODULUS := 0x1_0000_0000_0000_0000

  type int64 = x: int | MIN <= x <= MAX

  /** Two's-complement wrap-around of an exact integer. */
  function Wrap(x: int): (r: int64)
    ensures MIN <= x <= MAX <==> r == x
  {
    (x - MIN) % MODULUS + MIN
  }

  /** Wrapping an intermediate value never changes a later wrap of a sum of multiples of it. */
  lemma WrapAbsorbs(x: int, factor: int, term: int)
    requires 0 <= factor <= 100
    ensures Wrap(factor * Wrap(x) + term) == Wrap(factor * x + term)
  {
    var q := (x - MIN) / MODULUS;
    assert Wrap(x) == x - MODULUS * q;
    assert factor * Wrap(x) + term == factor * x + term - MODULUS * (factor * q) by {
      assert factor * (x - MODULUS * q) == factor * x - factor * (MODULUS * q);
      assert factor * (MODULUS * q) == MODULUS * (factor * q);
    }
    WrapPeriod(factor * x + term, -(factor * q));
  }

  lemma WrapPeriod(x: int, q: int)
    ensures Wrap(x + MODULUS * q) == Wrap(x)
  {
    var y := x - MIN;
    assert (y + MODULUS * q) % MODULUS == y % MODULUS;
    assert x + MODULUS * q - MIN == y + MODULUS * q;
  }
}
