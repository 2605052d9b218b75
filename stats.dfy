/**
  The sums and means the controller takes with `reduce`: floored means for
  whole-number fields, and means rounded to the nearest hundredth (halves up)
  for the flow rate, which is kept in hundredths.
 */
module Stats {

  function Sum(xs: seq<int>): int {
    if xs == [] then 0 else xs[0] + Sum(xs[1..])
  }

  /** `Math.floor(sum / n)`: the largest whole number not above the mean. */
  function FloorMean(xs: seq<int>): (m: int)
    requires |xs| > 0
    ensures m * |xs| <= Sum(xs) < (m + 1) * |xs|
  {
    Sum(xs) / |xs|
  }

  /** The mean rounded to the nearest whole number, halves rounded up. */
  function RoundedMean(xs: seq<int>): (m: int)
    requires |xs| > 0
    ensures 2 * m * |xs| - |xs| <= 2 * Sum(xs) < 2 * m * |xs| + |xs|
  {
    (2 * Sum(xs) + |xs|) / (2 * |xs|)
  }

  predicate Within(xs: seq<int>, lo: int, hi: int) {
    forall i :: 0 <= i < |xs| ==> lo <= xs[i] <= hi
  }

  lemma {:induction false} SumBounds(xs: seq<int>, lo: int, hi: int)
    requires Within(xs, lo, hi)
    ensures |xs| * lo <= Sum(xs) <= |xs| * hi
  {
    if xs != [] {
      assert Within(xs[1..], lo, hi);
      SumBounds(xs[1..], lo, hi);
    }
  }

  lemma MulCancel(a: int, b: int, n: int)
    requires n > 0 && a * n <= b * n
    ensures a <= b
  {
  }

  lemma MulCancelStrict(a: int, b: int, n: int)
    requires n > 0 && a * n < b * n
    ensures a < b
  {
  }

  /** Any whole number `m` with m*n <= s < (m+1)*n, for s between n*lo and n*hi, lies in [lo, hi]. */
  lemma QuotientWithin(s: int, n: int, m: int, lo: int, hi: int)
    requires n > 0 && n * lo <= s <= n * hi
    requires m * n <= s < (m + 1) * n
    ensures lo <= m <= hi
  {
    assert m * n <= hi * n;
    MulCancel(m, hi, n);
    assert lo * n < (m + 1) * n;
    MulCancelStrict(lo, m + 1, n);
  }

  /** A mean of values inside a range stays inside it, floored or rounded. */
  lemma MeansWithin(xs: seq<int>, lo: int, hi: int)
    requires |xs| > 0 && Within(xs, lo, hi)
    ensures lo <= FloorMean(xs) <= hi
    ensures lo <= RoundedMean(xs) <= hi
  {
    var n, s := |xs|, Sum(xs);
    SumBounds(xs, lo, hi);
    QuotientWithin(s, n, FloorMean(xs), lo, hi);
    var r := RoundedMean(xs);
    assert 2 * r * n - n <= 2 * s < 2 * r * n + n;
    RoundedWithin(s, n, r, lo, hi);
  }

  lemma RoundedWithin(s: int, n: int, r: int, lo: int, hi: int)
    requires n > 0 && n * lo <= s <= n * hi
    requires 2 * r * n - n <= 2 * s < 2 * r * n + n
    ensures lo <= r <= hi
  {
    assert (2 * r - 1) * n <= 2 * s;
    assert 2 * s <= (2 * hi) * n;
    MulCancel(2 * r - 1, 2 * hi, n);
    assert (2 * lo) * n <= 2 * s;
    assert 2 * s < (2 * r + 1) * n;
    MulCancelStrict(2 * lo, 2 * r + 1, n);
  }
}
