/** Facts about products and quotients of integers. */
module Arithmetic {
  lemma MulMonotone(d: int, k: int)
    requires d > 0 && k > 0
    ensures d * k >= d
  {
  }

  lemma DivisionUnique(n: int, d: int, q: int, r: int)
    requires d > 0 && n == d * q + r && 0 <= r < d
    ensures n / d == q && n % d == r
  {
    var k := q - n / d;
    assert n == d * (n / d) + n % d;
    assert d * k == d * q - d * (n / d);
    if k > 0 { MulMonotone(d, k); }
    if k < 0 { MulMonotone(d, -k); }
  }

  lemma CancelLeft(g: int, a: int, b: int)
    requires g > 0 && g * a == g * b
    ensures a == b
  {
    assert g * (a - b) == 0;
    if a > b { MulMonotone(g, a - b); }
    if a < b { MulMonotone(g, b - a); }
  }
}
