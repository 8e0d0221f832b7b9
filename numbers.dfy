/** Real-number helpers for the score formulas: `Math.round`, `Math.min`/`Math.max`
    and the share `n / m` of matched items. */
module Numbers {

  /** `Math.round(x)`: the nearest integer, halves rounded up. */
  function Round(x: real): (r: int)
    ensures x - 0.5 < r as real <= x + 0.5
  {
    (x + 0.5).Floor
  }

  function MinReal(a: real, b: real): (r: real)
    ensures r <= a && r <= b && (r == a || r == b)
  {
    if a <= b then a else b
  }

  function MaxReal(a: real, b: real): (r: real)
    ensures r >= a && r >= b && (r == a || r == b)
  {
    if a >= b then a else b
  }

  function MinInt(a: int, b: int): (r: int)
    ensures r <= a && r <= b && (r == a || r == b)
  {
    if a <= b then a else b
  }

  /** A product with a positive factor has the sign of the other factor. */
  lemma SignOfProduct(a: real, b: real)
    requires b > 0.0
    ensures a < 0.0 ==> a * b < 0.0
    ensures a > 0.0 ==> a * b > 0.0
    ensures a == 0.0 ==> a * b == 0.0
  {
  }

  /** `n / m` as a real, for `n` items out of `m`. */
  function Share(n: nat, m: nat): (r: real)
    requires n <= m && m > 0
    ensures 0.0 <= r <= 1.0
    ensures r == 1.0 <==> n == m
    ensures r == 0.0 <==> n == 0
    ensures r * (m as real) == n as real
  {
    var r := (n as real) / (m as real);
    assert r * (m as real) == n as real;
    SignOfProduct(r, m as real);
    SignOfProduct(1.0 - r, m as real);
    assert (1.0 - r) * (m as real) == (m - n) as real;
    r
  }

  /** A ratio of a smaller to a larger positive denominator is below one. */
  lemma RatioBelowOne(a: real, b: real)
    requires b != 0.0
    ensures 0.0 < b && a < b ==> a / b < 1.0
  {
    var q := a / b;
    assert (q - 1.0) * b == a - b;
    if q >= 1.0 && b > 0.0 {
      assert (q - 1.0) * b >= 0.0;
    }
  }

  /** A ratio scaled by a weight, times the denominator, is the weighted numerator;
      with a positive denominator and non-negative numerator and weight it is not
      negative. */
  lemma ScaledRatio(a: real, b: real, w: real)
    requires b != 0.0
    ensures (a / b) * w * b == w * a
    ensures 0.0 < b && 0.0 <= a && 0.0 <= w ==> (a / b) * w >= 0.0
  {
    var q := a / b;
    assert q * b == a;
    assert q * w * b == w * (q * b);
    if 0.0 < b && 0.0 <= a && 0.0 <= w {
      SignOfProduct(q, b);
      assert q >= 0.0;
    }
  }
}
