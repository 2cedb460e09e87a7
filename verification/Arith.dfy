/** A few facts about products and quotients that the solver does not find by itself. */
module Arith {

  lemma MulMono(a: int, b: int, d: int)
    requires a <= b && d >= 0
    ensures a * d <= b * d
  {
  }

  lemma MulLess(a: int, b: int, d: int)
    requires d >= 0 && a * d < b * d
    ensures a < b
  {
    if a >= b {
      MulMono(b, a, d);
    }
  }

  /** The quotient is pinned down by the multiples around x. */
  lemma DivideBetween(x: int, d: int, k: int)
    requires d >= 1 && k * d <= x < (k + 1) * d
    ensures x / d == k && x % d == x - k * d
  {
    var q := x / d;
    assert x == q * d + x % d;
    MulLess(k, q + 1, d);
    MulLess(q, k + 1, d);
  }

  lemma MulMonoLeft(d: int, a: int, b: int)
    requires a <= b && d >= 0
    ensures d * a <= d * b
  {
  }

  lemma CeilDivBounds(a: int, b: int)
    requires a >= 0 && b >= 1
    ensures var q := (a + b - 1) / b; q >= 0 && (q - 1) * b < a <= q * b && (a == 0 <==> q == 0)
  {
    var q := (a + b - 1) / b;
    assert a + b - 1 == q * b + (a + b - 1) % b;
    assert (q - 1) * b == q * b - b;
  }

  lemma QuotientBelow(r: int, d: int, n: int)
    requires d >= 1 && 0 <= r < n * d
    ensures 0 <= r / d < n && 0 <= r % d < d && r == r / d * d + r % d
  {
    MulLess(r / d, n, d);
  }

  lemma NextMultiple(a: int, n: int)
    ensures (a + 1) * n == a * n + n
  {
  }

  lemma AddMultiples(a: int, b: int, n: int)
    ensures (a + b) * n == a * n + b * n
  {
  }

  lemma Commute(a: int, b: int)
    ensures a * b == b * a
  {
  }

  /** Row r of m rows of n entries lies inside. */
  lemma RowFits(m: int, n: int, r: int)
    requires 0 <= r < m && n >= 0
    ensures 0 <= r * n && r * n + n <= m * n
  {
    MulMono(0, r, n);
    MulMono(r + 1, m, n);
    NextMultiple(r, n);
  }
}
