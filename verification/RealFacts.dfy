/** Facts about products and quotients of reals that the arithmetic modules share. */
module RealFacts {

  lemma OrderTimes(x: real, y: real, c: real)
    requires x <= y && c >= 0.0
    ensures x * c <= y * c
  {
    assert (y - x) * c >= 0.0;
  }

  lemma PositiveProduct(x: real, y: real)
    requires x > 0.0 && y > 0.0
    ensures x * y > 0.0
  {
  }

  lemma PositiveOrZero(x: real, y: real)
    requires x >= 0.0 && y >= 0.0
    ensures x * y >= 0.0
  {
  }

  lemma Shrinks(x: real, u: real)
    requires x >= 0.0 && 0.0 <= u <= 1.0
    ensures 0.0 <= x * u <= x
  {
    PositiveOrZero(x, u);
    OrderTimes(u, 1.0, x);
  }

  lemma DivTimes(x: real, y: real)
    requires y != 0.0
    ensures x / y * y == x
  {
  }

  lemma PositiveRatio(x: real, y: real)
    requires x > 0.0 && y > 0.0
    ensures x / y > 0.0
  {
  }

  lemma NonNegativeRatio(x: real, y: real)
    requires x >= 0.0 && y > 0.0
    ensures x / y >= 0.0
  {
  }

  /** A quotient falls as the divisor grows. */
  lemma RatioFalls(n: real, f: real, f': real)
    requires n >= 0.0 && 0.0 < f <= f'
    ensures 0.0 <= n / f' <= n / f
  {
    var q' := n / f';
    NonNegativeRatio(n, f');
    OrderTimes(f, f', q');
    assert q' * f <= n;
  }

  lemma RatioBetween(cost: real, q: real, low: real, high: real)
    requires q > 0.0 && q * low <= cost <= q * high
    ensures low <= cost / q <= high
  {
  }

  lemma QuotientIs(x: real, y: real, q: real)
    requires y != 0.0 && q * y == x
    ensures x / y == q
  {
  }

  lemma QuotientsAdd(a: real, b: real, y: real)
    requires y != 0.0
    ensures a / y + b / y == (a + b) / y
  {
    DivTimes(a, y);
    DivTimes(b, y);
    QuotientIs(a + b, y, a / y + b / y);
  }
}
