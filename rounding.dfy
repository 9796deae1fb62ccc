/**
 * JavaScript's Math.round (round half towards +infinity) applied to the
 * exact mean of integers, computed without floating point. A value shown
 * with one decimal, Math.round(mean * 10) / 10, is kept as integer tenths.
 */
module Rounding {

  function Sum(xs: seq<int>): int {
    if xs == [] then 0 else Sum(xs[..|xs| - 1]) + xs[|xs| - 1]
  }

  lemma {:induction false} SumAppend(xs: seq<int>, x: int)
    ensures Sum(xs + [x]) == Sum(xs) + x
  {
    assert (xs + [x])[..|xs|] == xs;
  }

  lemma {:induction false} SumBounds(xs: seq<int>, lo: int, hi: int)
    requires forall i :: 0 <= i < |xs| ==> lo <= xs[i] <= hi
    ensures |xs| * lo <= Sum(xs) <= |xs| * hi
  {
    if xs != [] {
      SumBounds(xs[..|xs| - 1], lo, hi);
    }
  }

  /** Math.round(s / n), for a positive n. */
  function RoundDiv(s: int, n: int): int
    requires n > 0
  {
    (2 * s + n) / (2 * n)
  }

  /** Math.round(s / n) is the integer r with r - 1/2 <= s/n < r + 1/2. */
  lemma RoundDivSpec(s: int, n: int)
    requires n > 0
    ensures n * (2 * RoundDiv(s, n) - 1) <= 2 * s < n * (2 * RoundDiv(s, n) + 1)
  {
    var q := RoundDiv(s, n);
    assert 2 * n * q <= 2 * s + n < 2 * n * q + 2 * n;
  }

  /** Math.round((s / n) * 10): the mean s/n rounded half-up to one decimal, in tenths. */
  function RoundTenths(s: int, n: int): int
    requires n > 0
  {
    RoundDiv(10 * s, n)
  }

  lemma RoundTenthsSpec(s: int, n: int)
    requires n > 0
    ensures n * (2 * RoundTenths(s, n) - 1) <= 20 * s < n * (2 * RoundTenths(s, n) + 1)
  {
    RoundDivSpec(10 * s, n);
  }

  /** Math.round((count / n) * 100): a share of n as a whole percent. */
  function Percent(count: int, n: int): int
    requires n > 0
  {
    RoundDiv(100 * count, n)
  }

  lemma PercentSpec(count: int, n: int)
    requires n > 0
    ensures n * (2 * Percent(count, n) - 1) <= 200 * count < n * (2 * Percent(count, n) + 1)
  {
    RoundDivSpec(100 * count, n);
  }

  /** Rounding is exact on a multiple and never leaves the range of what it rounds. */
  lemma RoundDivExact(k: int, n: int)
    requires n > 0
    ensures RoundDiv(k * n, n) == k
  {
    var r := RoundDiv(k * n, n);
    RoundDivSpec(k * n, n);
    assert n * (2 * r - 1) < n * (2 * k + 1) by { assert 2 * k * n == n * (2 * k); }
    assert n * (2 * k - 1) < n * (2 * r + 1) by { assert 2 * k * n == n * (2 * k); }
    LessOfPositive(n, 2 * r - 1, 2 * k + 1);
    LessOfPositive(n, 2 * k - 1, 2 * r + 1);
  }

  /** The same, with the factors the other way round. */
  lemma RoundDivOfMultiple(n: int, k: int)
    requires n > 0
    ensures RoundDiv(n * k, n) == k
  {
    RoundDivExact(k, n);
    assert n * k == k * n;
  }

  lemma MulSucc(m: int, a: int)
    ensures (m + 1) * a == m * a + a
  {
  }

  lemma LessOfPositive(n: int, a: int, b: int)
    requires n > 0 && n * a < n * b
    ensures a < b
  {
    assert n * b - n * a == n * (b - a);
  }

  /** Rounding a mean of values in [lo, hi] gives a value in [lo, hi]. */
  lemma RoundDivBounds(s: int, n: int, lo: int, hi: int)
    requires n > 0 && n * lo <= s <= n * hi
    ensures lo <= RoundDiv(s, n) <= hi
  {
    var r := RoundDiv(s, n);
    RoundDivSpec(s, n);
    assert n * (2 * r - 1) <= 2 * s <= n * (2 * hi);
    assert n * (2 * lo) <= 2 * s < n * (2 * r + 1);
    LessOfPositive(n, 2 * r - 1, 2 * hi + 1);
    LessOfPositive(n, 2 * lo - 1, 2 * r + 1);
  }

  /** Rounding is monotone in the numerator. */
  lemma RoundDivMonotone(s: int, t: int, n: int)
    requires n > 0 && s <= t
    ensures RoundDiv(s, n) <= RoundDiv(t, n)
  {
    var a, b := RoundDiv(s, n), RoundDiv(t, n);
    RoundDivSpec(s, n);
    RoundDivSpec(t, n);
    assert n * (2 * a - 1) <= 2 * s <= 2 * t < n * (2 * b + 1);
    LessOfPositive(n, 2 * a - 1, 2 * b + 1);
  }

  /** The mean of values in [lo, hi], to one decimal, lies in [10 lo, 10 hi] tenths. */
  lemma RoundTenthsBounds(xs: seq<int>, lo: int, hi: int)
    requires xs != []
    requires forall i :: 0 <= i < |xs| ==> lo <= xs[i] <= hi
    ensures 10 * lo <= RoundTenths(Sum(xs), |xs|) <= 10 * hi
  {
    SumBounds(xs, lo, hi);
    var n := |xs|;
    assert n * (10 * lo) <= 10 * Sum(xs) <= n * (10 * hi);
    RoundDivBounds(10 * Sum(xs), n, 10 * lo, 10 * hi);
  }
}
