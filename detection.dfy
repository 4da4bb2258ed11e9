/** The segment detector of drone_detection.py (lines 191-219): threshold
    masks per sweep row, maximal runs, and the reject rules a run must pass
    before it reaches the tracker. */
module Detection {
  import opened Wrappers
  import opened Levels
  import opened Grid
  import opened Segments
  import opened Tracker

  /** `diff >= THRESHOLD_DB` on one row. */
  function UpMask(cfg: Config, base: seq<real>, curr: seq<real>): (m: seq<bool>)
    requires |base| == |curr|
    ensures |m| == |curr| && forall j :: 0 <= j < |m| ==> (m[j] <==> curr[j] - base[j] >= cfg.thresholdDb)
  {
    seq(|curr|, j requires 0 <= j < |curr| => curr[j] - base[j] >= cfg.thresholdDb)
  }

  /** `diff <= -THRESHOLD_DB` on one row. */
  function DownMask(cfg: Config, base: seq<real>, curr: seq<real>): (m: seq<bool>)
    requires |base| == |curr|
    ensures |m| == |curr| && forall j :: 0 <= j < |m| ==> (m[j] <==> curr[j] - base[j] <= -cfg.thresholdDb)
  {
    seq(|curr|, j requires 0 <= j < |curr| => curr[j] - base[j] <= -cfg.thresholdDb)
  }

  predicate AnyTrue(m: seq<bool>)
  {
    exists j :: 0 <= j < |m| && m[j]
  }

  predicate RunFits(r: Run, n: nat)
  {
    r.start < r.end <= n
  }

  /** The reject chain for one run, in source order: the length rule as
      written, the noise floor on both robust levels, the dispersion ceiling
      and the robust-delta check. */
  function Assess(cfg: Config, step: nat, r: Run, sign: Sign,
                  base: seq<real>, curr: seq<real>, std: seq<real>): Option<Detection>
    requires RunFits(r, |base|) && |curr| == |base| && |std| == |base|
  {
    var segLen := r.end - r.start;
    if segLen < cfg.minBins && segLen > 2 then None
    else
      var meanBase := Robust(base[r.start..r.end]);
      var meanCurr := Robust(curr[r.start..r.end]);
      if meanBase < cfg.ignoreLevelDbm && meanCurr < cfg.ignoreLevelDbm then None
      else if Mean(std[r.start..r.end]) > cfg.stddevMaxDb then None
      else if Abs(meanCurr - meanBase) < cfg.thresholdDb then None
      else Some(Detection(BinRange(step, r.start, r.end), sign, meanBase, meanCurr))
  }

  predicate AllFit(runs: seq<Run>, n: nat)
  {
    forall k :: 0 <= k < |runs| ==> RunFits(runs[k], n)
  }

  /** The surviving detections of a list of runs, in order. */
  function Survivors(cfg: Config, step: nat, runs: seq<Run>, sign: Sign,
                     base: seq<real>, curr: seq<real>, std: seq<real>): seq<Detection>
    requires AllFit(runs, |base|) && |curr| == |base| && |std| == |base|
  {
    if runs == [] then []
    else
      var prefix := Survivors(cfg, step, runs[..|runs| - 1], sign, base, curr, std);
      match Assess(cfg, step, runs[|runs| - 1], sign, base, curr, std)
      case Some(d) => prefix + [d]
      case None => prefix
  }

  lemma MaximalRunsFit(mask: seq<bool>)
    ensures AllFit(Runs(mask), |mask|)
  {
    RunsAreMaximal(mask);
  }

  /** All detections of one sweep row: the up runs, then the down runs. */
  function RowDetections(cfg: Config, step: nat, base: seq<real>, curr: seq<real>, std: seq<real>): seq<Detection>
    requires |curr| == |base| && |std| == |base|
  {
    var up := UpMask(cfg, base, curr);
    var down := DownMask(cfg, base, curr);
    MaximalRunsFit(up);
    MaximalRunsFit(down);
    Survivors(cfg, step, Runs(up), Up, base, curr, std) + Survivors(cfg, step, Runs(down), Down, base, curr, std)
  }

  /** The arguments of one detection cycle: baseline, sweep and per-bin
      dispersion of the same shape. */
  predicate CycleShapes(base: Sweep, sweep: Sweep, std: Sweep)
  {
    SameShape(sweep, base) && SameShape(std, base)
  }

  /** All detections of rows `0 .. n - 1`, row by row. */
  function Detections(cfg: Config, base: Sweep, sweep: Sweep, std: Sweep, n: nat): seq<Detection>
    requires CycleShapes(base, sweep, std) && n <= |base|
  {
    if n == 0 then []
    else Detections(cfg, base, sweep, std, n - 1) + RowDetections(cfg, n - 1, base[n - 1], sweep[n - 1], std[n - 1])
  }

  /** A row without any bin past the threshold in either direction yields
      no detection (the `rows = np.where(...)` pre-filter changes nothing). */
  lemma QuietRowNoDetections(cfg: Config, step: nat, base: seq<real>, curr: seq<real>, std: seq<real>)
    requires |curr| == |base| && |std| == |base|
    requires !AnyTrue(UpMask(cfg, base, curr)) && !AnyTrue(DownMask(cfg, base, curr))
    ensures RowDetections(cfg, step, base, curr, std) == []
  {
    NoTrueNoRuns(UpMask(cfg, base, curr));
    NoTrueNoRuns(DownMask(cfg, base, curr));
  }

  /** What a surviving run satisfies: neither both robust levels under the
      noise floor, mean dispersion at most the ceiling, robust delta at least
      the threshold. */
  predicate Qualifies(cfg: Config, d: Detection, base: seq<real>, curr: seq<real>, std: seq<real>)
    requires d.idx.start < d.idx.end <= |base| && |curr| == |base| && |std| == |base|
  {
    && d.meanBase == Robust(base[d.idx.start..d.idx.end])
    && d.meanCurr == Robust(curr[d.idx.start..d.idx.end])
    && !(d.meanBase < cfg.ignoreLevelDbm && d.meanCurr < cfg.ignoreLevelDbm)
    && Mean(std[d.idx.start..d.idx.end]) <= cfg.stddevMaxDb
    && Abs(d.meanCurr - d.meanBase) >= cfg.thresholdDb
  }

  /** `Assess` keeps a run exactly when it passes every rule, and then
      reports that run with its robust levels. */
  lemma AssessIff(cfg: Config, step: nat, r: Run, sign: Sign, base: seq<real>, curr: seq<real>, std: seq<real>)
    requires RunFits(r, |base|) && |curr| == |base| && |std| == |base|
    ensures var d := Detection(BinRange(step, r.start, r.end), sign,
                               Robust(base[r.start..r.end]), Robust(curr[r.start..r.end]));
      Assess(cfg, step, r, sign, base, curr, std) ==
        if !(r.end - r.start < cfg.minBins && r.end - r.start > 2) && Qualifies(cfg, d, base, curr, std)
        then Some(d) else None
  {
  }

  /** With the default `MIN_BINS = 3` the length rule as written never
      rejects a run, so runs of one or two bins are judged by the other
      rules alone. */
  lemma LengthRuleInert(cfg: Config, step: nat, r: Run, sign: Sign, base: seq<real>, curr: seq<real>, std: seq<real>)
    requires cfg.minBins == DefaultMinBins
    requires RunFits(r, |base|) && |curr| == |base| && |std| == |base|
    ensures var d := Detection(BinRange(step, r.start, r.end), sign,
                               Robust(base[r.start..r.end]), Robust(curr[r.start..r.end]));
      Assess(cfg, step, r, sign, base, curr, std) == if Qualifies(cfg, d, base, curr, std) then Some(d) else None
  {
  }

  /** Survivors are exactly the runs `Assess` keeps, in run order. */
  lemma SurvivorsIff(cfg: Config, step: nat, runs: seq<Run>, sign: Sign,
                     base: seq<real>, curr: seq<real>, std: seq<real>, d: Detection)
    requires AllFit(runs, |base|) && |curr| == |base| && |std| == |base|
    ensures d in Survivors(cfg, step, runs, sign, base, curr, std) <==>
            exists k :: 0 <= k < |runs| && Assess(cfg, step, runs[k], sign, base, curr, std) == Some(d)
  {
    var os := Assessed(cfg, step, runs, sign, base, curr, std);
    SurvivorsAreAssessed(cfg, step, runs, sign, base, curr, std);
    SomesIff(os, d);
  }

  /** The present values of a sequence of options, in order. */
  function Somes(os: seq<Option<Detection>>): seq<Detection>
  {
    if os == [] then []
    else if os[|os| - 1].Some? then Somes(os[..|os| - 1]) + [os[|os| - 1].value]
    else Somes(os[..|os| - 1])
  }

  lemma {:induction false} SomesIff(os: seq<Option<Detection>>, d: Detection)
    ensures d in Somes(os) <==> exists k :: 0 <= k < |os| && os[k] == Some(d)
  {
    if os != [] {
      var n := |os| - 1;
      SomesIff(os[..n], d);
      assert forall k :: 0 <= k < n ==> os[..n][k] == os[k];
    }
  }

  /** `Assess` applied to every run. */
  function Assessed(cfg: Config, step: nat, runs: seq<Run>, sign: Sign,
                    base: seq<real>, curr: seq<real>, std: seq<real>): (os: seq<Option<Detection>>)
    requires AllFit(runs, |base|) && |curr| == |base| && |std| == |base|
    ensures |os| == |runs| && forall k :: 0 <= k < |runs| ==> os[k] == Assess(cfg, step, runs[k], sign, base, curr, std)
  {
    seq(|runs|, k requires 0 <= k < |runs| => Assess(cfg, step, runs[k], sign, base, curr, std))
  }

  lemma {:induction false} SurvivorsAreAssessed(cfg: Config, step: nat, runs: seq<Run>, sign: Sign,
                                                base: seq<real>, curr: seq<real>, std: seq<real>)
    requires AllFit(runs, |base|) && |curr| == |base| && |std| == |base|
    ensures Survivors(cfg, step, runs, sign, base, curr, std) == Somes(Assessed(cfg, step, runs, sign, base, curr, std))
  {
    if runs != [] {
      var n := |runs| - 1;
      SurvivorsAreAssessed(cfg, step, runs[..n], sign, base, curr, std);
      assert Assessed(cfg, step, runs, sign, base, curr, std)[..n] == Assessed(cfg, step, runs[..n], sign, base, curr, std);
    }
  }

  /** The mask of `d`'s sign on its row. */
  function MaskFor(cfg: Config, sign: Sign, base: seq<real>, curr: seq<real>): (m: seq<bool>)
    requires |curr| == |base|
    ensures |m| == |base|
  {
    if sign == Up then UpMask(cfg, base, curr) else DownMask(cfg, base, curr)
  }

  /** `d` is what `Assess` makes of one maximal run of the mask of its sign. */
  predicate FromRun(cfg: Config, d: Detection, base: seq<real>, curr: seq<real>, std: seq<real>)
    requires |curr| == |base| && |std| == |base|
  {
    var runs := Runs(MaskFor(cfg, d.sign, base, curr));
    MaximalRunsFit(MaskFor(cfg, d.sign, base, curr));
    exists k :: 0 <= k < |runs| && Assess(cfg, d.idx.step, runs[k], d.sign, base, curr, std) == Some(d)
  }

  /** Every detection of the cycle comes from a maximal run of the up or the
      down mask of its row that passed every rule, with the matching sign;
      and every such run is detected. */
  lemma {:induction false} DetectionsIff(cfg: Config, base: Sweep, sweep: Sweep, std: Sweep, n: nat, d: Detection)
    requires CycleShapes(base, sweep, std) && n <= |base|
    ensures d in Detections(cfg, base, sweep, std, n) <==>
      d.idx.step < n && FromRun(cfg, d, base[d.idx.step], sweep[d.idx.step], std[d.idx.step])
  {
    if n > 0 {
      DetectionsIff(cfg, base, sweep, std, n - 1, d);
      var s := n - 1;
      RowDetectionsIff(cfg, s, base[s], sweep[s], std[s], d);
    }
  }

  /** The detections of one row come from the maximal runs of its masks,
      each with the sign of its mask. */
  lemma RowDetectionsIff(cfg: Config, s: nat, base: seq<real>, curr: seq<real>, std: seq<real>, d: Detection)
    requires |curr| == |base| && |std| == |base|
    ensures d in RowDetections(cfg, s, base, curr, std) <==> d.idx.step == s && FromRun(cfg, d, base, curr, std)
  {
    var up := UpMask(cfg, base, curr);
    var down := DownMask(cfg, base, curr);
    MaximalRunsFit(up);
    MaximalRunsFit(down);
    SurvivorsIff(cfg, s, Runs(up), Up, base, curr, std, d);
    SurvivorsIff(cfg, s, Runs(down), Down, base, curr, std, d);
    SurvivorsStep(cfg, s, Runs(up), Up, base, curr, std, d);
    SurvivorsStep(cfg, s, Runs(down), Down, base, curr, std, d);
  }

  /** A survivor carries the row and the sign it was assessed with. */
  lemma {:induction false} SurvivorsStep(cfg: Config, step: nat, runs: seq<Run>, sign: Sign,
                                         base: seq<real>, curr: seq<real>, std: seq<real>, d: Detection)
    requires AllFit(runs, |base|) && |curr| == |base| && |std| == |base|
    ensures d in Survivors(cfg, step, runs, sign, base, curr, std) ==> d.idx.step == step && d.sign == sign
  {
    SurvivorsIff(cfg, step, runs, sign, base, curr, std, d);
  }

  /** Every detection lies inside the sweep and passed every rule. */
  lemma DetectionsQualify(cfg: Config, base: Sweep, sweep: Sweep, std: Sweep, n: nat, d: Detection)
    requires CycleShapes(base, sweep, std) && n <= |base|
    requires d in Detections(cfg, base, sweep, std, n)
    ensures InBounds(d.idx, base) && InBounds(d.idx, sweep)
    ensures Qualifies(cfg, d, base[d.idx.step], sweep[d.idx.step], std[d.idx.step])
  {
    DetectionsIff(cfg, base, sweep, std, n, d);
    var s := d.idx.step;
    var mask := MaskFor(cfg, d.sign, base[s], sweep[s]);
    MaximalRunsFit(mask);
    var k :| 0 <= k < |Runs(mask)| && Assess(cfg, s, Runs(mask)[k], d.sign, base[s], sweep[s], std[s]) == Some(d);
    AssessIff(cfg, s, Runs(mask)[k], d.sign, base[s], sweep[s], std[s]);
  }
}
