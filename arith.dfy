/** Facts about real division by a positive number, for threshold comparisons. */
module Arith {

  /** x / d reaches k exactly when x reaches k * d. */
  lemma QuotientAtLeast(x: real, d: real, k: real)
    requires d > 0.0
    ensures x / d >= k <==> x >= k * d
  {
    var q := x / d;
    assert q * d == x;
    assert (q - k) * d == x - k * d;
    if q >= k {
      assert (q - k) * d >= 0.0;
    } else {
      assert (q - k) * d < 0.0;
    }
  }

  /** x / d stays within k exactly when x stays within k * d. */
  lemma QuotientAtMost(x: real, d: real, k: real)
    requires d > 0.0
    ensures x / d <= k <==> x <= k * d
  {
    var q := x / d;
    assert q * d == x;
    assert (q - k) * d == x - k * d;
    if q <= k {
      assert (q - k) * d <= 0.0;
    } else {
      assert (q - k) * d > 0.0;
    }
  }
}
