/** example.py: the first sweep becomes the baseline; in each later sweep
    every row reports at most one signal, at the first bin of its largest
    rise over the baseline, when that rise exceeds 10 dB, together with one
    RSSI reading per auxiliary receiver. */
module ExampleScanner {
  import opened Wrappers
  import opened Grid

  const FreqStartMhz: real := 50.0
  const StepMhz: real := 5.0
  const ThresholdDb: real := 10.0
  /** DEFAULT_SAMPLE_RATE / FFT_SIZE / 1e6 = 20e6 / 256 / 1e6. */
  const BinWidthMhz: real := 20000000.0 / 256.0 / 1000000.0
  /** SLAVE_SERIALS: two receivers without a serial number. */
  const SlaveSerials: seq<Option<string>> := [None, None]

  /** One report: where, how strong, and the readings in receiver order. */
  datatype Signal = Signal(step: nat, bin: nat, freqMhz: real, ampDb: real, delta: real, rssi: seq<real>)

  /** Why a sweep is refused: its shape differs from the baseline's, or its
      rows are empty (`np.argmax` of an empty row raises). */
  datatype ScanError = ShapeMismatch | EmptyRow

  /** `np.argmax`: the first index of the largest value. */
  function ArgMax(row: seq<real>): (i: nat)
    requires |row| > 0
    ensures i < |row|
    ensures forall j :: 0 <= j < |row| ==> row[j] <= row[i]
    ensures forall j :: 0 <= j < i ==> row[j] < row[i]
  {
    if |row| == 1 then 0
    else
      var k := ArgMax(row[..|row| - 1]);
      if row[|row| - 1] > row[k] then |row| - 1 else k
  }

  /** Line 46. */
  function FreqMhz(step: nat, bin: nat): real
  {
    FreqStartMhz + (step as real) * StepMhz + (bin as real) * BinWidthMhz
  }

  /** The report of row `step`, if its largest rise exceeds the threshold;
      `rssi` is queried once per receiver, in list order. */
  function RowSignal(step: nat, base: seq<real>, curr: seq<real>,
                     rssi: (Option<string>, real) -> real): seq<Signal>
    requires |base| == |curr| > 0
  {
    var diff := seq(|curr|, j requires 0 <= j < |curr| => curr[j] - base[j]);
    var idx := ArgMax(diff);
    if diff[idx] > ThresholdDb then
      var f := FreqMhz(step, idx);
      [Signal(step, idx, f, curr[idx], diff[idx], seq(|SlaveSerials|, k requires 0 <= k < |SlaveSerials| => rssi(SlaveSerials[k], f)))]
    else []
  }

  /** The reports of rows `0 .. m - 1`. */
  function Signals(base: Sweep, curr: Sweep, m: nat, rssi: (Option<string>, real) -> real): seq<Signal>
    requires SameShape(base, curr) && m <= |base|
    requires forall i :: 0 <= i < |base| ==> |base[i]| > 0
  {
    if m == 0 then []
    else Signals(base, curr, m - 1, rssi) + RowSignal(m - 1, base[m - 1], curr[m - 1], rssi)
  }

  /** A row reports exactly when its largest rise exceeds 10 dB, and then at
      the first bin of that rise, with the bin's frequency and level. */
  lemma RowSignalIff(step: nat, base: seq<real>, curr: seq<real>, rssi: (Option<string>, real) -> real)
    requires |base| == |curr| > 0
    ensures var r := RowSignal(step, base, curr, rssi);
      && |r| <= 1
      && (|r| == 1 <==> exists j :: 0 <= j < |curr| && curr[j] - base[j] > ThresholdDb)
      && (|r| == 1 ==>
            && r[0].step == step && r[0].bin < |curr|
            && r[0].delta == curr[r[0].bin] - base[r[0].bin]
            && (forall j :: 0 <= j < |curr| ==> curr[j] - base[j] <= r[0].delta)
            && (forall j :: 0 <= j < r[0].bin ==> curr[j] - base[j] < r[0].delta)
            && r[0].freqMhz == FreqStartMhz + (step as real) * StepMhz + (r[0].bin as real) * BinWidthMhz
            && r[0].ampDb == curr[r[0].bin]
            && r[0].rssi == [rssi(None, r[0].freqMhz), rssi(None, r[0].freqMhz)])
  {
    var diff := seq(|curr|, j requires 0 <= j < |curr| => curr[j] - base[j]);
    var idx := ArgMax(diff);
    forall j | 0 <= j < |curr| ensures curr[j] - base[j] <= diff[idx] {
      assert diff[j] == curr[j] - base[j];
    }
    forall j | 0 <= j < idx ensures curr[j] - base[j] < diff[idx] {
      assert diff[j] == curr[j] - base[j];
    }
    if exists j :: 0 <= j < |curr| && curr[j] - base[j] > ThresholdDb {
    }
  }

  /** At most one report per row, in strictly increasing row order. */
  lemma {:induction false} SignalsOnePerRow(base: Sweep, curr: Sweep, m: nat, rssi: (Option<string>, real) -> real)
    requires SameShape(base, curr) && m <= |base|
    requires forall i :: 0 <= i < |base| ==> |base[i]| > 0
    ensures var s := Signals(base, curr, m, rssi);
      && |s| <= m
      && (forall k :: 0 <= k < |s| ==> s[k].step < m)
      && (forall k, l :: 0 <= k < l < |s| ==> s[k].step < s[l].step)
  {
    if m > 0 {
      SignalsOnePerRow(base, curr, m - 1, rssi);
      RowSignalIff(m - 1, base[m - 1], curr[m - 1], rssi);
    }
  }

  class Scanner {
    var baseline: Option<Sweep>

    constructor ()
      ensures baseline.None?
    {
      baseline := None;
    }

    /** `process_sweep`. The reports stand for the printed lines. */
    method ProcessSweep(sweep: Sweep, rssi: (Option<string>, real) -> real) returns (r: Result<seq<Signal>, ScanError>)
      requires Rect(sweep)
      modifies this
      ensures old(baseline).None? ==> baseline == Some(sweep) && r == Success([])
      ensures old(baseline).Some? ==> baseline == old(baseline)
      ensures old(baseline).Some? && !SameShape(old(baseline).value, sweep) ==> r == Failure(ShapeMismatch)
      ensures old(baseline).Some? && SameShape(old(baseline).value, sweep) && |sweep| > 0 && |sweep[0]| == 0 ==>
                r == Failure(EmptyRow)
      ensures old(baseline).Some? && SameShape(old(baseline).value, sweep) && (|sweep| == 0 || |sweep[0]| > 0) ==>
                r == Success(Signals(old(baseline).value, sweep, |sweep|, rssi))
    {
      if baseline.None? {
        baseline := Some(sweep);
        return Success([]);
      }
      var base := baseline.value;
      if !SameShape(base, sweep) {
        return Failure(ShapeMismatch);
      }
      if |sweep| > 0 && |sweep[0]| == 0 {
        return Failure(EmptyRow);
      }
      r := Success(Signals(base, sweep, |sweep|, rssi));
    }
  }
}
