/** Integer arithmetic the core performs through JavaScript numbers. */
module Numbers {

  /**
   * `Math.round(a / b)` for a positive divisor: the nearest integer to the quotient, with
   * halves rounded up (towards positive infinity), as `Math.round` does.
   */
  function RoundDiv(a: int, b: int): (r: int)
    requires b > 0
    ensures 2 * b * r <= 2 * a + b < 2 * b * r + 2 * b
  {
    (2 * a + b) / (2 * b)
  }

  lemma MulLess(x: int, y: int, m: int)
    requires m > 0 && m * x < m * y
    ensures x < y
  {
  }

  /** Only one integer lies within half of the quotient (rounding half up). */
  lemma RoundDivUnique(a: int, b: int, r: int)
    requires b > 0
    requires 2 * b * r <= 2 * a + b < 2 * b * r + 2 * b
    ensures RoundDiv(a, b) == r
  {
    var q := RoundDiv(a, b);
    assert 2 * b * q < 2 * b * (r + 1);
    assert 2 * b * r < 2 * b * (q + 1);
    MulLess(q, r + 1, 2 * b);
    MulLess(r, q + 1, 2 * b);
  }

  /** `Math.round(k / n * 100)` for `0 <= k <= n` is a percentage: 0 for none, 100 for all. */
  lemma Percent(k: int, n: int)
    requires 0 <= k <= n && n > 0
    ensures 0 <= RoundDiv(100 * k, n) <= 100
    ensures k == 0 ==> RoundDiv(100 * k, n) == 0
    ensures k == n ==> RoundDiv(100 * k, n) == 100
  {
    var r := RoundDiv(100 * k, n);
    assert 2 * n * r < 2 * n * 101;
    MulLess(r, 101, 2 * n);
    assert 2 * n * (-1) < 2 * n * r;
    MulLess(-1, r, 2 * n);
    if k == 0 { RoundDivUnique(0, n, 0); }
    if k == n { RoundDivUnique(100 * n, n, 100); }
  }

  /** A rounded quotient of a total within `[lo * n, hi * n]` by `n` lies within `[lo, hi]`: a rounded mean stays between the extremes. */
  lemma RoundDivBetween(a: int, n: int, lo: int, hi: int)
    requires n > 0 && lo * n <= a <= hi * n
    ensures lo <= RoundDiv(a, n) <= hi
  {
    var r := RoundDiv(a, n);
    assert 2 * n * (hi + 1) == 2 * (hi * n) + 2 * n;
    assert 2 * n * r < 2 * n * (hi + 1);
    MulLess(r, hi + 1, 2 * n);
    assert 2 * n * (lo - 1) == 2 * (lo * n) - 2 * n;
    assert 2 * n * (lo - 1) < 2 * n * r;
    MulLess(lo - 1, r, 2 * n);
  }
}
