/** The timing statistics of a benchmark: sum, mean, population variance and
    standard deviation of a vector of per-call durations (in seconds).
    Durations are modelled as exact reals; IEEE rounding is not modelled. */
module Statistics {
  import opened Wrappers

  /** The sum of the samples, accumulated front to back. */
  function Sum(s: seq<real>): real
  {
    if s == [] then 0.0 else Sum(s[..|s| - 1]) + s[|s| - 1]
  }

  /** Arithmetic mean; defined only for a non-empty vector. */
  function Mean(s: seq<real>): real
    requires |s| > 0
  {
    Sum(s) / (|s| as real)
  }

  /** Sum of the squared deviations of the samples from `m`. */
  function SumSquaredDeviations(s: seq<real>, m: real): real
  {
    if s == [] then 0.0
    else
      var diff := s[|s| - 1] - m;
      SumSquaredDeviations(s[..|s| - 1], m) + diff * diff
  }

  /** Population variance around `m`: the squared deviations divided by n, not n - 1. */
  function Variance(s: seq<real>, m: real): real
    requires |s| > 0
  {
    SumSquaredDeviations(s, m) / (|s| as real)
  }

  /** The smallest sample. */
  function Min(s: seq<real>): (r: real)
    requires |s| > 0
    ensures r in s
    ensures forall x :: x in s ==> r <= x
  {
    if |s| == 1 then s[0]
    else
      var m := Min(s[1..]);
      assert forall x :: x in s ==> x == s[0] || x in s[1..];
      if s[0] <= m then s[0] else m
  }

  /** The largest sample. */
  function Max(s: seq<real>): (r: real)
    requires |s| > 0
    ensures r in s
    ensures forall x :: x in s ==> x <= r
  {
    if |s| == 1 then s[0]
    else
      var m := Max(s[1..]);
      assert forall x :: x in s ==> x == s[0] || x in s[1..];
      if s[0] >= m then s[0] else m
  }

  /** `sqrt` is the square root on the non-negative reals. */
  ghost predicate IsSquareRoot(sqrt: real -> real)
  {
    forall v :: v >= 0.0 ==> sqrt(v) >= 0.0 && sqrt(v) * sqrt(v) == v
  }

  /** The standard deviation is the non-negative square root of the variance. */
  function StandardDeviation(variance: real, sqrt: real -> real): (sd: real)
    requires variance >= 0.0
    requires IsSquareRoot(sqrt)
    ensures sd >= 0.0 && sd * sd == variance
  {
    sqrt(variance)
  }

  /** The index loop of `mean`: None for an empty vector, where the source divides 0 by 0. */
  method ComputeMean(vec: seq<real>) returns (m: Option<real>)
    ensures m.None? <==> |vec| == 0
    ensures m.Some? ==> m.value == Mean(vec)
  {
    var sum := 0.0;
    var i := 0;
    while i < |vec|
      invariant 0 <= i <= |vec|
      invariant sum == Sum(vec[..i])
    {
      assert vec[..i + 1][..i] == vec[..i];
      sum := sum + vec[i];
      i := i + 1;
    }
    assert vec[..i] == vec;
    if |vec| == 0 {
      m := None;
    } else {
      m := Some(sum / (|vec| as real));
    }
  }

  /** The index loop of `variance` around a given mean: None for an empty vector. */
  method ComputeVariance(vec: seq<real>, mean: real) returns (v: Option<real>)
    ensures v.None? <==> |vec| == 0
    ensures v.Some? ==> v.value == Variance(vec, mean) && v.value >= 0.0
  {
    var sum := 0.0;
    var i := 0;
    while i < |vec|
      invariant 0 <= i <= |vec|
      invariant sum == SumSquaredDeviations(vec[..i], mean)
    {
      assert vec[..i + 1][..i] == vec[..i];
      var diff := vec[i] - mean;
      sum := sum + diff * diff;
      i := i + 1;
    }
    assert vec[..i] == vec;
    if |vec| == 0 {
      v := None;
    } else {
      VarianceNonNegative(vec, mean);
      v := Some(sum / (|vec| as real));
    }
  }

  /** If every sample lies in [lo, hi], the sum lies in [n * lo, n * hi]. */
  lemma {:induction false} SumBounds(s: seq<real>, lo: real, hi: real)
    requires forall i :: 0 <= i < |s| ==> lo <= s[i] <= hi
    ensures (|s| as real) * lo <= Sum(s) <= (|s| as real) * hi
  {
    if s != [] {
      var init := s[..|s| - 1];
      SumBounds(init, lo, hi);
      assert (|s| as real) * lo == (|init| as real) * lo + lo;
      assert (|s| as real) * hi == (|init| as real) * hi + hi;
    }
  }

  /** The mean lies between the smallest and the largest sample. */
  lemma MeanBetweenMinAndMax(s: seq<real>)
    requires |s| > 0
    ensures Min(s) <= Mean(s) <= Max(s)
  {
    var lo, hi := Min(s), Max(s);
    forall i | 0 <= i < |s|
      ensures lo <= s[i] <= hi
    {
      assert s[i] in s;
    }
    MeanWithinBounds(s, lo, hi);
  }

  /** If every sample lies in [lo, hi], so does the mean. */
  lemma MeanWithinBounds(s: seq<real>, lo: real, hi: real)
    requires |s| > 0
    requires forall i :: 0 <= i < |s| ==> lo <= s[i] <= hi
    ensures lo <= Mean(s) <= hi
  {
    SumBounds(s, lo, hi);
    QuotientBounds(Sum(s), |s| as real, lo, hi);
  }

  /** Dividing n * lo <= total <= n * hi by a positive n. */
  lemma QuotientBounds(total: real, n: real, lo: real, hi: real)
    requires n > 0.0
    requires n * lo <= total <= n * hi
    ensures lo <= total / n <= hi
  {
  }

  /** A sum of squares is never negative. */
  lemma {:induction false} SumSquaredDeviationsNonNegative(s: seq<real>, m: real)
    ensures SumSquaredDeviations(s, m) >= 0.0
  {
    if s != [] {
      SumSquaredDeviationsNonNegative(s[..|s| - 1], m);
      SquareNonNegative(s[|s| - 1] - m);
    }
  }

  /** A square is never negative. */
  lemma SquareNonNegative(x: real)
    ensures x * x >= 0.0
  {
  }

  /** The variance around any mean is never negative. */
  lemma VarianceNonNegative(s: seq<real>, m: real)
    requires |s| > 0
    ensures Variance(s, m) >= 0.0
  {
    SumSquaredDeviationsNonNegative(s, m);
  }

  /** The squared deviations from a value every sample equals add up to zero. */
  lemma {:induction false} SumSquaredDeviationsOfConstant(s: seq<real>, c: real)
    requires forall i :: 0 <= i < |s| ==> s[i] == c
    ensures SumSquaredDeviations(s, c) == 0.0
  {
    if s != [] {
      SumSquaredDeviationsOfConstant(s[..|s| - 1], c);
    }
  }

  /** When all samples are equal, the mean is that value and the variance is 0. */
  lemma ConstantSamples(s: seq<real>, c: real)
    requires |s| > 0
    requires forall i :: 0 <= i < |s| ==> s[i] == c
    ensures Mean(s) == c
    ensures Variance(s, Mean(s)) == 0.0
  {
    SumBounds(s, c, c);
    SumSquaredDeviationsOfConstant(s, c);
  }
}
