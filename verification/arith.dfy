/**
 * Integer facts about multiplication and floor division that the page
 * figures (a percentage, averages) rest on.
 */
module Arith {

  /** Multiplying by the same positive factor preserves strict order backwards. */
  lemma FactorBelow(a: int, b: int, n: int)
    requires n > 0 && a * n < b * n
    ensures a < b
  {
    assert (b - a) * n == b * n - a * n;
  }

  /** The quotient times the divisor never exceeds the dividend, and one more divisor does. */
  lemma DivBounds(x: int, n: int)
    requires n > 0
    ensures (x / n) * n <= x < (x / n + 1) * n
  {
    assert x == (x / n) * n + x % n;
  }

  /** A dividend below `q` divisors gives a quotient below `q`. */
  lemma DivBelow(x: int, n: int, q: int)
    requires n > 0 && x < q * n
    ensures x / n < q
  {
    DivBounds(x, n);
    FactorBelow(x / n, q, n);
  }

  /** A dividend of at least `q` divisors gives a quotient of at least `q`. */
  lemma DivAtLeast(x: int, n: int, q: int)
    requires n > 0 && q * n <= x
    ensures q <= x / n
  {
    DivBounds(x, n);
    FactorBelow(q, x / n + 1, n);
  }
}
