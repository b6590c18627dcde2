/** Python's `int()` applied to a float, with the float taken as an exact rational.
    The layout code multiplies pixel counts by decimal ratios and truncates the product;
    every such value is rewritten here as an integer quotient. */
module Truncation {

  /** `int(r)`: truncation toward zero. */
  function Trunc(r: real): (i: int)
    ensures r >= 0.0 ==> 0 <= i && i as real <= r < i as real + 1.0
    ensures r < 0.0 ==> i <= 0 && i as real - 1.0 < r <= i as real
  {
    if r >= 0.0 then r.Floor else -((-r).Floor)
  }

  /** Truncating an exact quotient of naturals is integer division. */
  lemma TruncQuotient(p: int, q: int)
    requires 0 <= p && 0 < q
    ensures Trunc(p as real / q as real) == p / q
  {
    var k := p / q;
    var r := p as real / q as real;
    assert k * q <= p < (k + 1) * q;
    assert (k * q) as real <= p as real < ((k + 1) * q) as real;
    assert r * q as real == p as real;
    assert k as real <= r;
    assert r < (k + 1) as real;
  }

  /** Scaling a natural by the decimal ratio num/den and truncating is integer division. */
  lemma TruncScaled(x: int, ratio: real, num: int, den: int)
    requires 0 <= x && 0 <= num && 0 < den
    requires ratio == num as real / den as real
    ensures Trunc(x as real * ratio) == (num * x) / den
  {
    assert x as real * ratio == (num * x) as real / den as real;
    TruncQuotient(num * x, den);
  }

  /** Multiplying by a natural preserves order. */
  lemma MulMonotone(n: int, a: int, b: int)
    requires 0 <= n && a <= b
    ensures n * a <= n * b
  {
    assert n * b - n * a == n * (b - a);
  }

  /** The same, in the form used to cancel a positive factor. */
  lemma MulOrder(x: int, y: int, d: int)
    requires 0 <= d
    ensures y <= x ==> d * y <= d * x
  {
    if y <= x {
      MulMonotone(d, y, x);
    }
  }

  /** Integer division is monotone in the dividend. */
  lemma DivMonotone(a: int, b: int, d: int)
    requires 0 <= a <= b && 0 < d
    ensures a / d <= b / d
  {
    var q, r := a / d, b / d;
    assert a == d * q + a % d && 0 <= a % d;
    assert b == d * r + b % d && b % d < d;
    assert d * q < d * (r + 1);
    MulOrder(q, r + 1, d);
  }

  /** Integer division of a natural is antitone in a positive divisor. */
  lemma DivAntitone(a: int, d: int, e: int)
    requires 0 <= a && 0 < d <= e
    ensures a / e <= a / d
  {
    var q, r := a / e, a / d;
    assert a == e * q + a % e && 0 <= a % e && 0 <= q;
    assert a == d * r + a % d && a % d < d;
    MulMonotone(q, d, e);
    assert d * q == q * d && e * q == q * e;
    assert d * q < d * (r + 1);
    MulOrder(q, r + 1, d);
  }
}
