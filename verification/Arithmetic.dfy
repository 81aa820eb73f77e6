/** Facts about integer division shared by the relay's and the breaker's bounds. */
module Arithmetic {

  lemma TimesMonotone(a: int, b: int, d: int)
    requires a <= b && d > 0
    ensures a * d <= b * d
  {
    assert (b - a) * d >= 0;
  }

  lemma QuotientBound(q: int, d: int, x: int)
    requires d > 0 && q * d <= x
    ensures q <= x / d
  {
    var r := x / d;
    assert x == r * d + x % d && (r + 1) * d == r * d + d;
    if q > r {
      TimesMonotone(r + 1, q, d);
    }
  }

  lemma ExactQuotient(q: int, d: int, x: int)
    requires d > 0 && x == q * d
    ensures x / d == q
  {
    QuotientBound(q, d, x);
    var r := x / d;
    assert x == r * d + x % d && (q + 1) * d == q * d + d;
    if r > q {
      TimesMonotone(q + 1, r, d);
    }
  }
}
