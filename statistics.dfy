/** Sample statistics over integer episode costs (`np.mean` on exact values). */
module Statistics {

  function Sum(xs: seq<int>): int
  {
    if xs == [] then 0 else Sum(xs[..|xs| - 1]) + xs[|xs| - 1]
  }

  /** The mean-Lp statistic of a sample of costs for an order p,
      `(mean(c^p))^(1/p)`; its powers and roots are not modelled. */
  type MeanLp = (seq<int>, real) -> real

  /** The sample mean, computed exactly on reals: |xs| copies of it add up
      to the sum of the sample. */
  function Mean(xs: seq<int>): (m: real)
    requires |xs| > 0
    ensures m * |xs| as real == Sum(xs) as real
  {
    Sum(xs) as real / |xs| as real
  }

  /** A sum of values in [lo, hi] lies between |xs|*lo and |xs|*hi. */
  lemma {:induction false} SumBounds(xs: seq<int>, lo: int, hi: int)
    requires forall k :: 0 <= k < |xs| ==> lo <= xs[k] <= hi
    ensures |xs| * lo <= Sum(xs) <= |xs| * hi
  {
    if xs != [] {
      SumBounds(xs[..|xs| - 1], lo, hi);
      assert |xs| * lo == (|xs| - 1) * lo + lo && |xs| * hi == (|xs| - 1) * hi + hi;
    }
  }

  /** The mean of values in [lo, hi] lies in [lo, hi]. */
  lemma MeanBounds(xs: seq<int>, lo: int, hi: int)
    requires |xs| > 0
    requires forall k :: 0 <= k < |xs| ==> lo <= xs[k] <= hi
    ensures lo as real <= Mean(xs) <= hi as real
  {
    SumBounds(xs, lo, hi);
    var n, m := |xs| as real, Mean(xs);
    CancelFactor(lo as real, m, n);
    CancelFactor(m, hi as real, n);
  }

  /** A positive factor can be cancelled from both sides of an inequality. */
  lemma CancelFactor(a: real, b: real, n: real)
    requires n > 0.0 && a * n <= b * n
    ensures a <= b
  {
    assert (b - a) * n >= 0.0;
  }

  /** A sample whose every value is c has mean c. */
  lemma {:induction false} SumConstant(xs: seq<int>, c: int)
    requires forall k :: 0 <= k < |xs| ==> xs[k] == c
    ensures Sum(xs) == |xs| * c
  {
    if xs != [] {
      SumConstant(xs[..|xs| - 1], c);
    }
  }

  lemma MeanConstant(xs: seq<int>, c: int)
    requires |xs| > 0
    requires forall k :: 0 <= k < |xs| ==> xs[k] == c
    ensures Mean(xs) == c as real
  {
    SumConstant(xs, c);
  }
}
