/** `process_sweep` of drone_detection.py as a class over the module's
    globals: baseline warm-up, the history ring, the detection pass, the
    tracker update and the eviction pass, plus `_refresh_range`. */
module DroneDetection {
  import opened Wrappers
  import opened Levels
  import opened Grid
  import opened Segments
  import opened Tracker
  import opened Detection
  import Classifier

  /** BASELINE_SWEEPS */
  const BaselineSweeps: nat := 5
  /** HISTORY_LEN */
  const HistoryLen: nat := 10

  /** What one call did. `ShapeMismatch` stands for the NumPy error raised
      when a sweep's shape differs from the session's. */
  datatype Outcome = ShapeMismatch | Warming | BaselineReady | HistoryFilling | Detected(reports: seq<Report>)

  lemma SameShapeInBounds(r: BinRange, a: Sweep, b: Sweep)
    requires SameShape(a, b) && InBounds(r, a)
    ensures InBounds(r, b)
  {
  }

  class Detector {
    const cfg: Config
    var accum: Option<Sweep>      // BASELINE_ACCUM
    var count: nat                // BASELINE_COUNT
    var baseline: Option<Sweep>   // BASELINE
    var history: array<Sweep>     // HISTORY
    var histIdx: nat              // HIST_IDX
    var histFilled: bool          // HIST_FILLED
    var tracked: Tracked          // TRACKED
    /** The sweeps summed into the accumulator. */
    ghost var warmup: seq<Sweep>
    /** Every sweep accepted after the warm-up, oldest first. */
    ghost var recent: seq<Sweep>

    /** The warm-up part of the state: the accumulator is the sum of the
        warm-up sweeps, and the baseline is their mean once there are five. */
    ghost predicate Accumulated()
      reads this`accum, this`count, this`baseline, this`warmup
    {
      && count == |warmup| <= BaselineSweeps
      && (accum.None? <==> warmup == [])
      && (accum.Some? ==> Summed(warmup, accum.value))
      && (baseline.Some? <==> count == BaselineSweeps)
      && (baseline.Some? ==> accum.Some? && baseline.value == Div(accum.value, BaselineSweeps as real))
    }

    /** The history part: `HIST_IDX` counts the sweeps accepted after the
        warm-up, and the ring holds the last ten of them. */
    ghost predicate Ring()
      reads this`accum, this`baseline, this`history, this`histIdx, this`histFilled, this`recent, history
    {
      && history.Length == HistoryLen
      && histIdx == |recent|
      && (histFilled <==> histIdx >= HistoryLen)
      && (baseline.None? ==> recent == [])
      && (accum.Some? ==> Slots(history[..], recent, accum.value))
    }

    /** The whole state: warm-up, ring and tracker parts. */
    ghost predicate Valid()
      reads this, history
    {
      Accumulated() && Ring() && Watching()
    }

    /** The tracker part: empty until the history is full, and every entry
        keeps the entry invariant against the baseline's shape. */
    ghost predicate Watching()
      reads this`baseline, this`histFilled, this`tracked
    {
      && (baseline.None? || !histFilled ==> tracked == map[])
      && (baseline.Some? ==> TrackerInv(cfg, tracked, baseline.value))
    }

    constructor (cfg: Config)
      ensures Valid() && this.cfg == cfg
      ensures accum.None? && count == 0 && baseline.None? && histIdx == 0 && !histFilled && tracked == map[]
    {
      this.cfg := cfg;
      accum, count, baseline := None, 0, None;
      history := new Sweep[HistoryLen](_ => []);
      histIdx, histFilled, tracked := 0, false, map[];
      warmup, recent := [], [];
    }

    /** Lines 167-177: sum the sweep into the accumulator (created, with a
        history of matching shape, on the first sweep); on the fifth sweep
        the baseline is the accumulator divided by five. */
    method WarmUp(sweep: Sweep) returns (outcome: Outcome)
      requires Valid() && baseline.None? && Rect(sweep)
      requires accum.Some? ==> SameShape(sweep, accum.value)
      modifies this`accum, this`count, this`baseline, this`history, this`warmup
      ensures Valid()
      ensures accum == Some(Add(if old(accum).Some? then old(accum).value else Zeros(sweep), sweep))
      ensures count == old(count) + 1 && warmup == old(warmup) + [sweep]
      ensures baseline == (if count == BaselineSweeps then Some(Div(accum.value, BaselineSweeps as real)) else None)
      ensures outcome == (if count == BaselineSweeps then BaselineReady else Warming)
      ensures tracked == old(tracked) && histIdx == old(histIdx) && histFilled == old(histFilled)
      ensures old(accum).None? ==> fresh(history) && history[..] == seq(HistoryLen, _ => Zeros(sweep))
      ensures old(accum).Some? ==> history == old(history) && history[..] == old(history[..])
    {
      if accum.None? {
        Begin(sweep);
      }
      var like := accum.value;
      SummedStep(warmup, like, sweep);
      accum := Some(Add(like, sweep));
      count := count + 1;
      warmup := warmup + [sweep];
      SlotsReshape(history[..], recent, like, accum.value);
      if count == BaselineSweeps {
        baseline := Some(Div(accum.value, BaselineSweeps as real));
        outcome := BaselineReady;
      } else {
        outcome := Warming;
      }
    }

    /** Lines 168-170: the first sweep creates a zero accumulator and a
        history of ten zero sweeps of the same shape. */
    method Begin(sweep: Sweep)
      requires Rect(sweep) && recent == []
      modifies this`accum, this`history
      ensures accum == Some(Zeros(sweep)) && fresh(history) && history.Length == HistoryLen
      ensures history[..] == seq(HistoryLen, _ => Zeros(sweep))
      ensures Summed([], accum.value) && Slots(history[..], recent, accum.value)
    {
      var z := Zeros(sweep);
      ZerosSummed(sweep);
      accum := Some(z);
      history := new Sweep[HistoryLen](_ => z);
      assert Slots(history[..], recent, z);
    }

    /** Lines 180-186: the ten sweeps after the warm-up fill the history in
        order; the tenth sets `HIST_FILLED`. No detection runs. */
    method FillHistory(sweep: Sweep) returns (outcome: Outcome)
      requires Valid() && baseline.Some? && !histFilled && SameShape(sweep, baseline.value)
      modifies history, this`histIdx, this`histFilled, this`recent
      ensures Valid()
      ensures history[..] == old(history[..])[old(histIdx) := sweep]
      ensures histIdx == old(histIdx) + 1 && (histFilled <==> histIdx == HistoryLen)
      ensures recent == old(recent) + [sweep]
      ensures outcome == HistoryFilling
    {
      assert SameShape(sweep, accum.value);
      ghost var slots := history[..];
      assert |recent| % HistoryLen == histIdx;
      SlotsStep(slots, recent, accum.value, sweep);
      history[histIdx] := sweep;
      assert history[..] == slots[histIdx := sweep];
      histIdx := histIdx + 1;
      recent := recent + [sweep];
      if histIdx == HistoryLen {
        histFilled := true;
      }
      outcome := HistoryFilling;
    }

    /** Lines 197-258: for every row with a bin past the threshold, the up
        runs and then the down runs go through the reject rules; survivors
        are probed and create or refresh their tracker entry. */
    method DetectAll(base: Sweep, sweep: Sweep, std: Sweep, measure: real -> Probe) returns (reports: seq<Report>)
      requires CycleShapes(base, sweep, std)
      modifies this`tracked
      ensures (tracked, reports) == ApplyAll(cfg, old(tracked), Detections(cfg, base, sweep, std, |base|), measure)
    {
      reports := [];
      var step := 0;
      while step < |base|
        invariant 0 <= step <= |base|
        invariant (tracked, reports) == ApplyAll(cfg, old(tracked), Detections(cfg, base, sweep, std, step), measure)
      {
        reports := ScanRowAt(base, sweep, std, step, measure, old(tracked), reports);
        step := step + 1;
      }
    }

    /** Row `step` of the outer loop, in terms of the detections so far. */
    method ScanRowAt(base: Sweep, sweep: Sweep, std: Sweep, step: nat, measure: real -> Probe,
                     ghost t0: Tracked, reportsIn: seq<Report>)
      returns (reports: seq<Report>)
      requires CycleShapes(base, sweep, std) && step < |base|
      requires (tracked, reportsIn) == ApplyAll(cfg, t0, Detections(cfg, base, sweep, std, step), measure)
      modifies this`tracked
      ensures (tracked, reports) == ApplyAll(cfg, t0, Detections(cfg, base, sweep, std, step + 1), measure)
    {
      reports := ScanRow(step, base[step], sweep[step], std[step], measure, t0,
                         Detections(cfg, base, sweep, std, step), reportsIn);
    }

    /** One row of the outer loop: skipped when neither mask has a bin set,
        otherwise its up runs and then its down runs. */
    method ScanRow(step: nat, baseRow: seq<real>, currRow: seq<real>, stdRow: seq<real>, measure: real -> Probe,
                   ghost t0: Tracked, ghost prior: seq<Tracker.Detection>, reportsIn: seq<Report>)
      returns (reports: seq<Report>)
      requires |currRow| == |baseRow| && |stdRow| == |baseRow|
      requires (tracked, reportsIn) == ApplyAll(cfg, t0, prior, measure)
      modifies this`tracked
      ensures (tracked, reports) == ApplyAll(cfg, t0, prior + RowDetections(cfg, step, baseRow, currRow, stdRow), measure)
    {
      var up := UpMask(cfg, baseRow, currRow);
      var down := DownMask(cfg, baseRow, currRow);
      if AnyTrue(up) || AnyTrue(down) {
        var upSegs := Segments.Segments(up);
        var downSegs := Segments.Segments(down);
        MaximalRunsFit(up);
        MaximalRunsFit(down);
        RowIsUpThenDown(cfg, step, baseRow, currRow, stdRow, prior);
        reports := ScanRuns(step, upSegs, Up, baseRow, currRow, stdRow, measure, t0, prior, reportsIn);
        reports := ScanRuns(step, downSegs, Down, baseRow, currRow, stdRow, measure, t0,
                            prior + Survivors(cfg, step, upSegs, Up, baseRow, currRow, stdRow), reports);
      } else {
        QuietRowNoDetections(cfg, step, baseRow, currRow, stdRow);
        assert prior + [] == prior;
        reports := reportsIn;
      }
    }

    /** The inner loop over the runs of one mask. */
    method ScanRuns(step: nat, runs: seq<Run>, sign: Sign, baseRow: seq<real>, currRow: seq<real>, stdRow: seq<real>,
                    measure: real -> Probe, ghost t0: Tracked, ghost prior: seq<Tracker.Detection>, reportsIn: seq<Report>)
      returns (reports: seq<Report>)
      requires AllFit(runs, |baseRow|) && |currRow| == |baseRow| && |stdRow| == |baseRow|
      requires (tracked, reportsIn) == ApplyAll(cfg, t0, prior, measure)
      modifies this`tracked
      ensures (tracked, reports) ==
              ApplyAll(cfg, t0, prior + Survivors(cfg, step, runs, sign, baseRow, currRow, stdRow), measure)
    {
      reports := reportsIn;
      var k := 0;
      assert prior + Survivors(cfg, step, runs[..0], sign, baseRow, currRow, stdRow) == prior;
      while k < |runs|
        invariant 0 <= k <= |runs|
        invariant (tracked, reports) ==
                  ApplyAll(cfg, t0, prior + Survivors(cfg, step, runs[..k], sign, baseRow, currRow, stdRow), measure)
      {
        ScanStep(cfg, t0, prior, step, runs, k, sign, baseRow, currRow, stdRow, measure);
        reports := HandleRun(step, runs[k], sign, baseRow, currRow, stdRow, measure, reports);
        k := k + 1;
      }
      assert runs[..|runs|] == runs;
    }

    /** The body of the inner loop for one run (lines 201-241). */
    method HandleRun(step: nat, r: Run, sign: Sign, baseRow: seq<real>, currRow: seq<real>, stdRow: seq<real>,
                     measure: real -> Probe, reportsIn: seq<Report>)
      returns (reports: seq<Report>)
      requires RunFits(r, |baseRow|) && |currRow| == |baseRow| && |stdRow| == |baseRow|
      modifies this`tracked
      ensures (tracked, reports) == ApplyMaybe(cfg, old(tracked), reportsIn,
                                               Assess(cfg, step, r, sign, baseRow, currRow, stdRow), measure)
    {
      reports := reportsIn;
      var segLen := r.end - r.start;
      if segLen < cfg.minBins && segLen > 2 {
        return;
      }
      var meanBase := Top3Mean(baseRow[r.start..r.end]);
      var meanCurr := Top3Mean(currRow[r.start..r.end]);
      if meanBase < cfg.ignoreLevelDbm && meanCurr < cfg.ignoreLevelDbm {
        return;
      }
      if Mean(stdRow[r.start..r.end]) > cfg.stddevMaxDb {
        return;
      }
      if Abs(meanCurr - meanBase) < cfg.thresholdDb {
        return;
      }
      var idx := BinRange(step, r.start, r.end);
      var key := KeyOf(cfg, idx);
      var probe := measure(ProbeHz(key));
      var info;
      if key !in tracked {
        info := Info(meanBase, meanCurr, probe.slaves, probe.timestamp, idx, 1, Classifier.Classify(key.lo, key.hi));
      } else {
        info := tracked[key].(master := meanCurr, slaves := probe.slaves, timestamp := probe.timestamp,
                              idx := idx, count := tracked[key].count + 1);
      }
      tracked := tracked[key := info];
      reports := reports + [Report(sign, key, meanCurr - meanBase, info.kind, info.count > 3, probe.slaves)];
    }

    /** Lines 261-266: every entry, including those created in this cycle, is
        re-measured on its stored bins; it is deleted iff its robust level is
        within the threshold of its stored baseline. */
    method EvictCollapsed(sweep: Sweep)
      requires AllInBounds(tracked, sweep)
      modifies this`tracked
      ensures tracked == Evict(cfg, old(tracked), sweep)
    {
      var keys := tracked.Keys;
      ghost var t0 := tracked;
      while keys != {}
        invariant keys <= t0.Keys
        invariant forall k :: k in tracked <==> k in t0 && (k in keys || !Collapsed(cfg, t0[k], sweep))
        invariant forall k :: k in tracked ==> tracked[k] == t0[k]
        decreases keys
      {
        var key :| key in keys;
        var info := tracked[key];
        var level := Top3Mean(sweep[info.idx.step][info.idx.start..info.idx.end]);
        if Abs(level - info.baseline) < cfg.thresholdDb {
          tracked := tracked - {key};
        }
        keys := keys - {key};
      }
    }

    /** Lines 191-266: detection and tracker update, then eviction. */
    method UpdateTracker(base: Sweep, sweep: Sweep, std: Sweep, measure: real -> Probe) returns (reports: seq<Report>)
      requires CycleShapes(base, sweep, std) && TrackerInv(cfg, tracked, base)
      modifies this`tracked
      ensures (tracked, reports) == Cycle(cfg, old(tracked), base, sweep, std, measure)
    {
      reports := DetectAll(base, sweep, std, measure);
      CycleInBounds(cfg, old(tracked), base, sweep, std, measure);
      EvictCollapsed(sweep);
    }

    /** Lines 272-273: the sweep goes into ring slot `HIST_IDX % 10`. */
    method PushHistory(sweep: Sweep)
      requires Accumulated() && Ring() && baseline.Some? && histFilled && SameShape(sweep, baseline.value)
      modifies history, this`histIdx, this`recent
      ensures Ring()
      ensures history[..] == old(history[..])[old(histIdx) % HistoryLen := sweep]
      ensures histIdx == old(histIdx) + 1 && recent == old(recent) + [sweep]
    {
      assert SameShape(sweep, accum.value);
      ghost var slots := history[..];
      SlotsStep(slots, recent, accum.value, sweep);
      history[histIdx % HistoryLen] := sweep;
      assert history[..] == slots[histIdx % HistoryLen := sweep];
      histIdx := histIdx + 1;
      recent := recent + [sweep];
    }

    /** Lines 191-273 once the history is full. */
    method DetectCycle(sweep: Sweep, std: Sweep, measure: real -> Probe) returns (outcome: Outcome)
      requires Valid() && baseline.Some? && histFilled && SameShape(sweep, baseline.value) && SameShape(std, sweep)
      modifies history, this`tracked, this`histIdx, this`recent
      ensures Valid()
      ensures var c := Cycle(cfg, old(tracked), baseline.value, sweep, std, measure);
              tracked == c.0 && outcome == Detected(c.1)
      ensures history[..] == old(history[..])[old(histIdx) % HistoryLen := sweep]
      ensures histIdx == old(histIdx) + 1 && recent == old(recent) + [sweep]
    {
      SameShapeRect(sweep, std);
      ghost var base := baseline.value;
      var reports := UpdateTracker(baseline.value, sweep, std, measure);
      PushHistory(sweep);
      outcome := Detected(reports);
    }

    /** `process_sweep`: warm-up until the baseline exists, then history
        filling, then detection. A sweep whose shape differs from the
        session's is refused and changes nothing. */
    method ProcessSweep(sweep: Sweep, std: Sweep, measure: real -> Probe) returns (outcome: Outcome)
      requires Valid() && Rect(sweep) && SameShape(std, sweep)
      modifies this, history
      ensures Valid()
      ensures old(baseline).None? && old(accum).Some? && !SameShape(sweep, old(accum).value) ==>
                outcome == ShapeMismatch && unchanged(this) && history[..] == old(history[..])
      ensures old(baseline).None? && (old(accum).Some? ==> SameShape(sweep, old(accum).value)) ==>
                && accum == Some(Add(if old(accum).Some? then old(accum).value else Zeros(sweep), sweep))
                && count == old(count) + 1 && warmup == old(warmup) + [sweep]
                && baseline == (if count == BaselineSweeps then Some(Div(accum.value, BaselineSweeps as real)) else None)
                && outcome == (if count == BaselineSweeps then BaselineReady else Warming)
                && histFilled == old(histFilled) && recent == old(recent)
                && (old(accum).None? ==> fresh(history) && history[..] == seq(HistoryLen, _ => Zeros(sweep)))
                && (old(accum).Some? ==> history == old(history) && history[..] == old(history[..]))
      ensures old(baseline).None? ==> tracked == old(tracked) && histIdx == old(histIdx)
      ensures old(baseline).Some? && !SameShape(sweep, old(baseline).value) ==>
                outcome == ShapeMismatch && unchanged(this) && history[..] == old(history[..])
      ensures old(baseline).Some? ==>
                && baseline == old(baseline) && accum == old(accum) && count == old(count) && warmup == old(warmup)
                && history == old(history)
      ensures old(baseline).Some? && SameShape(sweep, old(baseline).value) && !old(histFilled) ==>
                && outcome == HistoryFilling && tracked == old(tracked)
                && history == old(history) && history[..] == old(history[..])[old(histIdx) := sweep]
                && histIdx == old(histIdx) + 1 && (histFilled <==> histIdx == HistoryLen)
                && recent == old(recent) + [sweep]
      ensures old(baseline).Some? && SameShape(sweep, old(baseline).value) && old(histFilled) ==>
                && var c := Cycle(cfg, old(tracked), old(baseline).value, sweep, std, measure);
                && tracked == c.0 && outcome == Detected(c.1)
                && history == old(history) && history[..] == old(history[..])[old(histIdx) % HistoryLen := sweep]
                && histIdx == old(histIdx) + 1 && histFilled && recent == old(recent) + [sweep]
    {
      if baseline.None? {
        if accum.Some? && !SameShape(sweep, accum.value) {
          return ShapeMismatch;
        }
        outcome := WarmUp(sweep);
      } else if !SameShape(sweep, baseline.value) {
        outcome := ShapeMismatch;
      } else if !histFilled {
        outcome := FillHistory(sweep);
      } else {
        outcome := DetectCycle(sweep, std, measure);
      }
    }

    /** `_refresh_range` on the entry of `key` (lines 128-134): the
        background refresher replaces the auxiliary readings and the
        timestamp and nothing else. An entry evicted meanwhile is not
        brought back. */
    method RefreshRange(key: FreqKey, measure: real -> Probe)
      requires Valid()
      modifies this`tracked
      ensures Valid()
      ensures tracked == if key in old(tracked) then old(tracked)[key := Refreshed(key, old(tracked)[key], measure)]
                         else old(tracked)
    {
      if key in tracked {
        if baseline.Some? {
          RefreshKeepsInv(cfg, key, tracked[key], measure, baseline.value);
        }
        var p := measure(ProbeHz(key));
        tracked := tracked[key := tracked[key].(slaves := p.slaves, timestamp := p.timestamp)];
      }
    }
  }

  /** Every detection applied leaves the entries inside the sweep and
      keeping their invariant. */
  lemma CycleInBounds(cfg: Config, t: Tracked, base: Sweep, sweep: Sweep, std: Sweep, measure: real -> Probe)
    requires CycleShapes(base, sweep, std) && TrackerInv(cfg, t, base)
    ensures var applied := ApplyAll(cfg, t, Detections(cfg, base, sweep, std, |sweep|), measure).0;
            AllInBounds(applied, sweep) && TrackerInv(cfg, applied, base)
  {
    var ds := Detections(cfg, base, sweep, std, |base|);
    forall k | 0 <= k < |ds| ensures InBounds(ds[k].idx, base) {
      DetectionsQualify(cfg, base, sweep, std, |base|, ds[k]);
    }
    ApplyAllKeepsInv(cfg, t, ds, measure, base);
    var applied := ApplyAll(cfg, t, ds, measure).0;
    forall k | k in applied ensures InBounds(applied[k].idx, sweep) {
      SameShapeInBounds(applied[k].idx, base, sweep);
    }
  }

  /** One detection cycle on the tracker (lines 191-266): every detection of
      the sweep is applied in order, then the entries that collapsed are
      evicted. The result keeps the entry invariant. */
  ghost function Cycle(cfg: Config, t: Tracked, base: Sweep, sweep: Sweep, std: Sweep, measure: real -> Probe)
    : (r: (Tracked, seq<Report>))
    requires CycleShapes(base, sweep, std) && TrackerInv(cfg, t, base)
    ensures TrackerInv(cfg, r.0, base)
    ensures forall k :: k in r.0 ==> InBounds(r.0[k].idx, sweep) && !Collapsed(cfg, r.0[k], sweep)
  {
    var applied := ApplyAll(cfg, t, Detections(cfg, base, sweep, std, |sweep|), measure);
    CycleInBounds(cfg, t, base, sweep, std, measure);
    EvictKeepsInv(cfg, applied.0, sweep, base);
    (Evict(cfg, applied.0, sweep), applied.1)
  }

  /** One detection or none applied to the tracker and the report list. */
  function ApplyMaybe(cfg: Config, t: Tracked, rs: seq<Report>, od: Option<Tracker.Detection>,
                      measure: real -> Probe): (Tracked, seq<Report>)
  {
    match od
    case None => (t, rs)
    case Some(d) => var p := ApplyOne(cfg, t, d, measure); (p.0, rs + [p.1])
  }

  lemma ApplyAllSnoc(cfg: Config, t: Tracked, ds: seq<Tracker.Detection>, d: Tracker.Detection, measure: real -> Probe)
    ensures ApplyAll(cfg, t, ds + [d], measure) ==
            ApplyMaybe(cfg, ApplyAll(cfg, t, ds, measure).0, ApplyAll(cfg, t, ds, measure).1, Some(d), measure)
  {
    assert (ds + [d])[..|ds|] == ds;
  }

  /** One turn of the inner loop in terms of the specification. */
  lemma ScanStep(cfg: Config, t0: Tracked, prior: seq<Tracker.Detection>, step: nat, runs: seq<Run>, k: nat, sign: Sign,
                 base: seq<real>, curr: seq<real>, std: seq<real>, measure: real -> Probe)
    requires AllFit(runs, |base|) && |curr| == |base| && |std| == |base| && k < |runs|
    ensures var before := ApplyAll(cfg, t0, prior + Survivors(cfg, step, runs[..k], sign, base, curr, std), measure);
      ApplyAll(cfg, t0, prior + Survivors(cfg, step, runs[..k + 1], sign, base, curr, std), measure) ==
      ApplyMaybe(cfg, before.0, before.1, Assess(cfg, step, runs[k], sign, base, curr, std), measure)
  {
    var done := prior + Survivors(cfg, step, runs[..k], sign, base, curr, std);
    SurvivorsSnoc(cfg, step, runs, k, sign, base, curr, std);
    var od := Assess(cfg, step, runs[k], sign, base, curr, std);
    if od.Some? {
      assert prior + Survivors(cfg, step, runs[..k + 1], sign, base, curr, std) == done + [od.value];
      ApplyAllSnoc(cfg, t0, done, od.value, measure);
    }
  }

  lemma RowIsUpThenDown(cfg: Config, step: nat, base: seq<real>, curr: seq<real>, std: seq<real>,
                        prior: seq<Tracker.Detection>)
    requires |curr| == |base| && |std| == |base|
    ensures AllFit(Runs(UpMask(cfg, base, curr)), |base|) && AllFit(Runs(DownMask(cfg, base, curr)), |base|)
    ensures prior + RowDetections(cfg, step, base, curr, std) ==
      prior + Survivors(cfg, step, Runs(UpMask(cfg, base, curr)), Up, base, curr, std)
            + Survivors(cfg, step, Runs(DownMask(cfg, base, curr)), Down, base, curr, std)
  {
    MaximalRunsFit(UpMask(cfg, base, curr));
    MaximalRunsFit(DownMask(cfg, base, curr));
  }

  lemma SurvivorsSnoc(cfg: Config, step: nat, runs: seq<Run>, k: nat, sign: Sign,
                      base: seq<real>, curr: seq<real>, std: seq<real>)
    requires AllFit(runs, |base|) && |curr| == |base| && |std| == |base| && k < |runs|
    ensures Survivors(cfg, step, runs[..k + 1], sign, base, curr, std) ==
            match Assess(cfg, step, runs[k], sign, base, curr, std)
            case None => Survivors(cfg, step, runs[..k], sign, base, curr, std)
            case Some(d) => Survivors(cfg, step, runs[..k], sign, base, curr, std) + [d]
  {
    assert runs[..k + 1][..k] == runs[..k];
  }

  /** The sum of sweeps does not depend on which same-shaped sweep gives the
      zeros it starts from. */
  lemma {:induction false} SumSweepsLike(ws: seq<Sweep>, like: Sweep, other: Sweep)
    requires AllShaped(ws, like) && SameShape(other, like)
    ensures AllShaped(ws, other) && SumSweeps(ws, like) == SumSweeps(ws, other)
  {
    if ws != [] {
      SumSweepsLike(ws[..|ws| - 1], like, other);
    } else {
      assert Zeros(like) == Zeros(other);
    }
  }

  /** `acc` is the element-wise sum of the warm-up sweeps `ws`. */
  ghost predicate Summed(ws: seq<Sweep>, acc: Sweep)
  {
    Rect(acc) && AllShaped(ws, acc) && acc == SumSweeps(ws, acc)
  }

  /** Zeros shaped like a rectangular sweep are the sum of no sweeps. */
  lemma ZerosSummed(sweep: Sweep)
    requires Rect(sweep)
    ensures Summed([], Zeros(sweep))
  {
    var z := Zeros(sweep);
    SameShapeRect(sweep, z);
    assert Zeros(z) == z;
  }

  /** Adding a sweep to the accumulator sums one more warm-up sweep. */
  lemma SummedStep(ws: seq<Sweep>, acc: Sweep, sweep: Sweep)
    requires Summed(ws, acc)
    requires SameShape(sweep, acc)
    ensures Summed(ws + [sweep], Add(acc, sweep))
  {
    var ws' := ws + [sweep];
    var acc' := Add(acc, sweep);
    assert ws'[..|ws'| - 1] == ws;
    assert AllShaped(ws', acc);
    SumSweepsLike(ws', acc, acc');
    SameShapeRect(acc, acc');
  }

  /** The ring as a sequence: ten slots of the session's shape, holding the
      last ten sweeps of `recent` at their index modulo ten. */
  ghost predicate Slots(slots: seq<Sweep>, recent: seq<Sweep>, like: Sweep)
  {
    && |slots| == HistoryLen
    && (forall i :: 0 <= i < HistoryLen ==> SameShape(slots[i], like))
    && AllShaped(recent, like)
    && (forall i :: 0 <= i < |recent| && |recent| - HistoryLen <= i ==> slots[i % HistoryLen] == recent[i])
  }

  /** Writing slot `n % HistoryLen`, where `n` sweeps came before, keeps the
      ring holding the most recent ten. */
  lemma SlotsStep(slots: seq<Sweep>, recent: seq<Sweep>, like: Sweep, sweep: Sweep)
    requires Slots(slots, recent, like) && SameShape(sweep, like)
    ensures Slots(slots[|recent| % HistoryLen := sweep], recent + [sweep], like)
  {
    var n := |recent|;
    var r := recent + [sweep];
    var after := slots[n % HistoryLen := sweep];
    forall i | 0 <= i < |r| && |r| - HistoryLen <= i ensures after[i % HistoryLen] == r[i] {
      if i < n {
        assert i % HistoryLen != n % HistoryLen by {
          assert n - 10 < i < n;
        }
      }
    }
    assert AllShaped(r, like) by {
      assert forall i :: 0 <= i < n ==> r[i] == recent[i];
    }
  }

  /** The ring's shape condition only depends on the shape of `like`. */
  lemma SlotsReshape(slots: seq<Sweep>, recent: seq<Sweep>, like: Sweep, other: Sweep)
    requires Slots(slots, recent, like) && SameShape(other, like)
    ensures Slots(slots, recent, other)
  {
  }
}
