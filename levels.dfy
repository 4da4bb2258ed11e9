/** Levels of a run of bins: sums, means and the "robust level" used by the
    detector and by the C helper, i.e. the largest mean over any three
    consecutive bins (plain mean for runs shorter than three). */
module Levels {

  /** Sum of a sequence, defined from its last element so that prefix loops
      extend it one step at a time. */
  function Sum(s: seq<real>): real
  {
    if s == [] then 0.0 else Sum(s[..|s| - 1]) + s[|s| - 1]
  }

  /** Arithmetic mean (NumPy `mean`) of a non-empty sequence. */
  function Mean(s: seq<real>): real
    requires |s| > 0
  {
    Sum(s) / (|s| as real)
  }

  function Min(a: real, b: real): real { if a <= b then a else b }
  function Max(a: real, b: real): real { if a >= b then a else b }

  /** Smallest element of a non-empty sequence. */
  function SeqMin(s: seq<real>): (m: real)
    requires |s| > 0
    ensures forall i :: 0 <= i < |s| ==> m <= s[i]
    ensures exists i :: 0 <= i < |s| && m == s[i]
  {
    if |s| == 1 then s[0] else
      var m' := SeqMin(s[..|s| - 1]);
      assert forall i :: 0 <= i < |s| - 1 ==> s[..|s| - 1][i] == s[i];
      Min(m', s[|s| - 1])
  }

  /** Largest element of a non-empty sequence. */
  function SeqMax(s: seq<real>): (m: real)
    requires |s| > 0
    ensures forall i :: 0 <= i < |s| ==> s[i] <= m
    ensures exists i :: 0 <= i < |s| && m == s[i]
  {
    if |s| == 1 then s[0] else
      var m' := SeqMax(s[..|s| - 1]);
      assert forall i :: 0 <= i < |s| - 1 ==> s[..|s| - 1][i] == s[i];
      Max(m', s[|s| - 1])
  }

  /** Mean of the three bins starting at `k`. */
  function WindowMean(s: seq<real>, k: nat): real
    requires k + 3 <= |s|
  {
    (s[k] + s[k + 1] + s[k + 2]) / 3.0
  }

  /** Reference definition: the largest window mean over all windows
      `0 .. |s| - 3`, taken from the last window backwards. */
  function MaxWindowMean(s: seq<real>): real
    requires |s| >= 3
  {
    if |s| == 3 then WindowMean(s, 0)
    else Max(MaxWindowMean(s[..|s| - 1]), WindowMean(s, |s| - 3))
  }

  /** The robust level of a non-empty run. */
  function Robust(s: seq<real>): real
    requires |s| > 0
  {
    if |s| < 3 then Mean(s) else MaxWindowMean(s)
  }

  lemma {:induction false} WindowMeanOfPrefix(s: seq<real>, n: nat, k: nat)
    requires k + 3 <= n <= |s|
    ensures WindowMean(s[..n], k) == WindowMean(s, k)
  {
  }

  /** The robust level is at least every window mean ... */
  lemma {:induction false} MaxWindowMeanDominates(s: seq<real>, k: nat)
    requires |s| >= 3 && k + 3 <= |s|
    ensures WindowMean(s, k) <= MaxWindowMean(s)
    decreases |s|
  {
    if |s| > 3 && k + 3 < |s| {
      MaxWindowMeanDominates(s[..|s| - 1], k);
      WindowMeanOfPrefix(s, |s| - 1, k);
    }
  }

  /** ... and equals one of them. */
  lemma {:induction false} MaxWindowMeanAttained(s: seq<real>) returns (k: nat)
    requires |s| >= 3
    ensures k + 3 <= |s| && MaxWindowMean(s) == WindowMean(s, k)
    decreases |s|
  {
    if |s| == 3 {
      k := 0;
    } else if MaxWindowMean(s[..|s| - 1]) >= WindowMean(s, |s| - 3) {
      k := MaxWindowMeanAttained(s[..|s| - 1]);
      WindowMeanOfPrefix(s, |s| - 1, k);
    } else {
      k := |s| - 3;
    }
  }

  lemma {:induction false} SumBounds(s: seq<real>, lo: real, hi: real)
    requires forall i :: 0 <= i < |s| ==> lo <= s[i] <= hi
    ensures (|s| as real) * lo <= Sum(s) <= (|s| as real) * hi
    decreases |s|
  {
    if s != [] {
      var p := s[..|s| - 1];
      assert forall i :: 0 <= i < |p| ==> p[i] == s[i];
      SumBounds(p, lo, hi);
      var m := |p| as real;
      assert (|s| as real) * lo == m * lo + lo;
      assert (|s| as real) * hi == m * hi + hi;
    }
  }

  lemma DivideBounds(total: real, n: real, lo: real, hi: real)
    requires n > 0.0 && n * lo <= total <= n * hi
    ensures lo <= total / n <= hi
  {
  }

  /** A mean of values within `[lo, hi]` lies within `[lo, hi]`. */
  lemma MeanWithin(s: seq<real>, lo: real, hi: real)
    requires |s| > 0
    requires forall i :: 0 <= i < |s| ==> lo <= s[i] <= hi
    ensures lo <= Mean(s) <= hi
  {
    SumBounds(s, lo, hi);
    DivideBounds(Sum(s), |s| as real, lo, hi);
  }

  /** A mean lies between the smallest and the largest element. */
  lemma MeanBounds(s: seq<real>)
    requires |s| > 0
    ensures SeqMin(s) <= Mean(s) <= SeqMax(s)
  {
    MeanWithin(s, SeqMin(s), SeqMax(s));
  }

  /** Every window mean lies in `[SeqMin(s), SeqMax(s)]`. */
  lemma WindowMeanBounds(s: seq<real>, k: nat)
    requires k + 3 <= |s|
    ensures SeqMin(s) <= WindowMean(s, k) <= SeqMax(s)
  {
  }

  /** The robust level of a run always lies between its smallest and its
      largest bin. */
  lemma RobustWithinRange(s: seq<real>)
    requires |s| > 0
    ensures SeqMin(s) <= Robust(s) <= SeqMax(s)
  {
    if |s| < 3 {
      MeanBounds(s);
    } else {
      var k := MaxWindowMeanAttained(s);
      WindowMeanBounds(s, k);
    }
  }

  /** For runs of three or more bins the robust level is the maximum window
      mean: it dominates every window and is attained by one. */
  lemma RobustIsMaximumWindowMean(s: seq<real>)
    requires |s| >= 3
    ensures forall k: nat :: k + 3 <= |s| ==> WindowMean(s, k) <= Robust(s)
    ensures exists k: nat :: k + 3 <= |s| && Robust(s) == WindowMean(s, k)
  {
    forall k: nat | k + 3 <= |s| ensures WindowMean(s, k) <= Robust(s) {
      MaxWindowMeanDominates(s, k);
    }
    var k := MaxWindowMeanAttained(s);
  }

  /** `_top3_mean`: plain mean below three bins, otherwise a sliding
      three-bin window sum whose best mean is kept. */
  method Top3Mean(arr: seq<real>) returns (r: real)
    requires |arr| > 0
    ensures r == Robust(arr)
  {
    if |arr| < 3 {
      return Mean(arr);
    }
    var windowSum := arr[0] + arr[1] + arr[2];
    var maxMean := windowSum / 3.0;
    assert arr[..3][..2] == arr[..2];
    var i := 3;
    while i < |arr|
      invariant 3 <= i <= |arr|
      invariant windowSum == arr[i - 3] + arr[i - 2] + arr[i - 1]
      invariant maxMean == MaxWindowMean(arr[..i])
    {
      windowSum := windowSum + (arr[i] - arr[i - 3]);
      var mean := windowSum / 3.0;
      assert arr[..i + 1][..i] == arr[..i];
      WindowMeanOfPrefix(arr, i + 1, i - 2);
      if mean > maxMean {
        maxMean := mean;
      }
      i := i + 1;
    }
    assert arr[..|arr|] == arr;
    r := maxMean;
  }
}
