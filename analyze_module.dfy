/** analyzemodule.py: the first sweep becomes the baseline; each later sweep
    reports the cells more than 10 dB above it, in row-major order, and then
    pulls the baseline 1 % towards itself in place. */
module AnalyzeModule {
  import opened Wrappers
  import opened Grid

  /** The fixed threshold in dB. */
  const ThresholdDb: real := 10.0

  /** One reported cell: sweep step, bin, and the delta over the baseline. */
  datatype Anomaly = Anomaly(step: nat, bin: nat, delta: real)

  /** A sweep whose shape differs from the baseline's (NumPy raises). */
  datatype ShapeError = ShapeError

  function Width(s: Sweep): nat
  {
    if |s| == 0 then 0 else |s[0]|
  }

  /** Row `y`'s anomalies among its first `n` bins, in bin order. */
  function RowAnomalies(y: nat, base: seq<real>, curr: seq<real>, n: nat): seq<Anomaly>
    requires n <= |base| && n <= |curr|
  {
    if n == 0 then []
    else
      var prefix := RowAnomalies(y, base, curr, n - 1);
      var delta := curr[n - 1] - base[n - 1];
      if delta > ThresholdDb then prefix + [Anomaly(y, n - 1, delta)] else prefix
  }

  /** The anomalies of the first `m` rows, row-major (`np.where` order). */
  function Anomalies(base: Sweep, curr: Sweep, m: nat): seq<Anomaly>
    requires SameShape(base, curr) && m <= |base|
  {
    if m == 0 then []
    else Anomalies(base, curr, m - 1) + RowAnomalies(m - 1, base[m - 1], curr[m - 1], |curr[m - 1]|)
  }

  /** `0.99 * baseline + 0.01 * sweep`, element-wise. */
  function Smooth(base: Sweep, curr: Sweep): (r: Sweep)
    requires SameShape(base, curr)
    ensures SameShape(r, base)
    ensures forall i, j :: 0 <= i < |r| && 0 <= j < |r[i]| ==> r[i][j] == 0.99 * base[i][j] + 0.01 * curr[i][j]
  {
    seq(|base|, i requires 0 <= i < |base| =>
      seq(|base[i]|, j requires 0 <= j < |base[i]| => 0.99 * base[i][j] + 0.01 * curr[i][j]))
  }

  /** A row reports exactly its bins with a delta strictly above 10 dB. */
  lemma {:induction false} RowAnomaliesIff(y: nat, base: seq<real>, curr: seq<real>, n: nat, a: Anomaly)
    requires n <= |base| && n <= |curr|
    ensures a in RowAnomalies(y, base, curr, n) <==>
            a.step == y && a.bin < n && a.delta == curr[a.bin] - base[a.bin] && a.delta > ThresholdDb
  {
    if n > 0 {
      RowAnomaliesIff(y, base, curr, n - 1, a);
    }
  }

  /** Every reported cell is strictly above the threshold against the
      baseline, and every such cell is reported. */
  lemma {:induction false} AnomaliesIff(base: Sweep, curr: Sweep, m: nat, a: Anomaly)
    requires SameShape(base, curr) && m <= |base|
    ensures a in Anomalies(base, curr, m) <==>
            a.step < m && a.bin < |curr[a.step]| &&
            a.delta == curr[a.step][a.bin] - base[a.step][a.bin] && a.delta > ThresholdDb
  {
    if m > 0 {
      AnomaliesIff(base, curr, m - 1, a);
      RowAnomaliesIff(m - 1, base[m - 1], curr[m - 1], |curr[m - 1]|, a);
    }
  }

  predicate Before(a: Anomaly, b: Anomaly)
  {
    a.step < b.step || (a.step == b.step && a.bin < b.bin)
  }

  predicate RowMajor(s: seq<Anomaly>)
  {
    forall k, l :: 0 <= k < l < |s| ==> Before(s[k], s[l])
  }

  lemma {:induction false} RowAnomaliesOrdered(y: nat, base: seq<real>, curr: seq<real>, n: nat)
    requires n <= |base| && n <= |curr|
    ensures RowMajor(RowAnomalies(y, base, curr, n))
    ensures forall k :: 0 <= k < |RowAnomalies(y, base, curr, n)| ==>
              RowAnomalies(y, base, curr, n)[k].step == y && RowAnomalies(y, base, curr, n)[k].bin < n
  {
    if n > 0 {
      RowAnomaliesOrdered(y, base, curr, n - 1);
    }
  }

  /** Reports come out in strictly increasing row-major order. */
  lemma {:induction false} AnomaliesOrdered(base: Sweep, curr: Sweep, m: nat)
    requires SameShape(base, curr) && m <= |base|
    ensures RowMajor(Anomalies(base, curr, m))
    ensures forall k :: 0 <= k < |Anomalies(base, curr, m)| ==> Anomalies(base, curr, m)[k].step < m
  {
    if m > 0 {
      AnomaliesOrdered(base, curr, m - 1);
      RowAnomaliesOrdered(m - 1, base[m - 1], curr[m - 1], |curr[m - 1]|);
    }
  }

  lemma {:induction false} QuietRow(y: nat, base: seq<real>, n: nat)
    requires n <= |base|
    ensures RowAnomalies(y, base, base, n) == []
  {
    if n > 0 {
      QuietRow(y, base, n - 1);
    }
  }

  /** A sweep equal to the baseline reports nothing and leaves the baseline
      as it is. */
  lemma {:induction false} QuietSweep(base: Sweep, m: nat)
    requires m <= |base|
    ensures Anomalies(base, base, m) == [] && Smooth(base, base) == base
  {
    if m > 0 {
      QuietSweep(base, m - 1);
      QuietRow(m - 1, base[m - 1], |base[m - 1]|);
    }
    forall i | 0 <= i < |base| ensures Smooth(base, base)[i] == base[i] {
    }
  }

  class Analyzer {
    var baseline: array2?<real>

    /** The baseline as a sequence of rows. */
    function Snapshot(): (s: Sweep)
      requires baseline != null
      reads this, baseline
      ensures |s| == baseline.Length0 && forall i :: 0 <= i < |s| ==> |s[i]| == baseline.Length1
    {
      var b := baseline;
      seq(b.Length0, i requires 0 <= i < b.Length0 reads b =>
        seq(b.Length1, j requires 0 <= j < b.Length1 reads b => b[i, j]))
    }

    constructor ()
      ensures baseline == null
    {
      baseline := null;
    }

    /** Lines 9-12: the baseline becomes a copy of the first sweep. */
    method Adopt(sweep: Sweep)
      requires Rect(sweep)
      modifies this
      ensures baseline != null && fresh(baseline) && Snapshot() == sweep
    {
      baseline := new real[|sweep|, Width(sweep)]((i, j) requires 0 <= i < |sweep| && 0 <= j < Width(sweep) => sweep[i][j]);
      forall i | 0 <= i < |sweep| ensures Snapshot()[i] == sweep[i] {
        assert |sweep[i]| == Width(sweep);
      }
    }

    /** Line 26: `baseline[:] = 0.99 * baseline + 0.01 * sweep`, in place. */
    method Blend(sweep: Sweep)
      requires baseline != null && |sweep| == baseline.Length0
      requires forall i :: 0 <= i < |sweep| ==> |sweep[i]| == baseline.Length1
      modifies baseline
      ensures SameShape(old(Snapshot()), sweep) && Snapshot() == Smooth(old(Snapshot()), sweep)
    {
      ghost var before := Snapshot();
      forall i, j | 0 <= i < baseline.Length0 && 0 <= j < baseline.Length1 {
        baseline[i, j] := 0.99 * baseline[i, j] + 0.01 * sweep[i][j];
      }
      forall i | 0 <= i < |sweep| ensures Snapshot()[i] == Smooth(before, sweep)[i] {
      }
    }

    /** `process_sweep`. The reports stand for the printed lines. */
    method ProcessSweep(sweep: Sweep) returns (r: Result<seq<Anomaly>, ShapeError>)
      requires Rect(sweep)
      modifies this, baseline
      ensures baseline != null
      ensures old(baseline) == null ==> fresh(baseline) && Snapshot() == sweep && r == Success([])
      ensures old(baseline) != null && (old(baseline.Length0) != |sweep| || old(baseline.Length1) != Width(sweep)) ==>
                r == Failure(ShapeError) && baseline == old(baseline) && Snapshot() == old(Snapshot())
      ensures old(baseline) != null && old(baseline.Length0) == |sweep| && old(baseline.Length1) == Width(sweep) ==>
                && SameShape(old(Snapshot()), sweep)
                && r == Success(Anomalies(old(Snapshot()), sweep, |sweep|))
                && baseline == old(baseline)
                && Snapshot() == Smooth(old(Snapshot()), sweep)
    {
      if baseline == null {
        Adopt(sweep);
        return Success([]);
      }
      if baseline.Length0 != |sweep| || baseline.Length1 != Width(sweep) {
        return Failure(ShapeError);
      }
      var before := Snapshot();
      r := Success(Anomalies(before, sweep, |sweep|));
      Blend(sweep);
    }
  }
}
