/** sweep_callback.c: the static state of the C helper, the row write and
    step counter of `hs_process`, the running-mean centring both entry
    points apply to the raw samples, and the final stage of `hs_rssi`.
    The FFT, the magnitude and the dB conversion are not modelled: the row
    of dB values they produce is an input. */
module SweepCallback {
  import opened Levels

  /** What `hs_rssi` returns: a level, or the NaN of `0.0f / 0` when the FFT
      size is 0. */
  datatype Reading = Level(db: real) | NotANumber

  /** One lane (0 = in-phase, 1 = quadrature) of an interleaved sample
      buffer. */
  function Lane(buf: seq<int>, n: nat, off: nat): (xs: seq<real>)
    requires off < 2 && 2 * n <= |buf|
    ensures |xs| == n && forall i :: 0 <= i < n ==> xs[i] == buf[2 * i + off] as real
  {
    seq(n, i requires 0 <= i < n => buf[2 * i + off] as real)
  }

  /** The mean of the first `n` samples. */
  function RunningMean(xs: seq<real>, n: nat): real
    requires 1 <= n <= |xs|
  {
    Mean(xs[..n])
  }

  /** Each sample minus the mean of the samples up to and including it,
      scaled by 1/128 and multiplied by its window coefficient. */
  function Centred(xs: seq<real>, w: seq<real>): (ys: seq<real>)
    requires |w| == |xs|
    ensures |ys| == |xs|
  {
    seq(|xs|, i requires 0 <= i < |xs| => Scaled(xs[i], RunningMean(xs, i + 1), w[i]))
  }

  /** One centred, scaled and windowed sample. */
  function Scaled(x: real, mean: real, w: real): real
  {
    (x - mean) / 128.0 * w
  }

  /** The running mean after one more sample `x`, the `i`-th. */
  function NextMean(mean: real, x: real, i: nat): real
  {
    mean + (x - mean) / ((i + 1) as real)
  }

  lemma CentredAt(xs: seq<real>, w: seq<real>, i: nat, m: real)
    requires |w| == |xs| && i < |xs| && m == RunningMean(xs, i + 1)
    ensures Centred(xs, w)[i] == Scaled(xs[i], m, w[i])
  {
  }

  /** The step counter after one call. */
  function Tick(current: int, stepCount: int): int
  {
    if current + 1 >= stepCount then 0 else current + 1
  }

  /** The step counter after `k` calls following `hs_prepare`. */
  function Ticks(stepCount: int, k: nat): int
  {
    if k == 0 then 0 else Tick(Ticks(stepCount, k - 1), stepCount)
  }

  /** The mean of the samples read so far: 0 before the first one. */
  function MeanSoFar(xs: seq<real>, i: nat): real
    requires i <= |xs|
  {
    if i == 0 then 0.0 else RunningMean(xs, i)
  }

  /** The incremental update `mean += (x - mean) / (i + 1)` keeps `mean` the
      mean of the samples read so far. */
  lemma RunningMeanStep(xs: seq<real>, i: nat, mean: real)
    requires i < |xs| && mean == MeanSoFar(xs, i)
    ensures NextMean(mean, xs[i], i) == MeanSoFar(xs, i + 1)
  {
    assert xs[..i + 1][..i] == xs[..i];
    assert mean * (i as real) == Sum(xs[..i]);
    var n := (i + 1) as real;
    var next := mean + (xs[i] - mean) / n;
    assert next * n == mean * n + (xs[i] - mean);
    assert mean * n == mean * (i as real) + mean;
    assert next * n == Sum(xs[..i + 1]);
  }

  /** A constant lane has no offset left after centring. */
  lemma {:induction false} ConstantLaneCentresToZero(xs: seq<real>, w: seq<real>, c: real)
    requires |w| == |xs| && forall i :: 0 <= i < |xs| ==> xs[i] == c
    ensures forall i :: 0 <= i < |xs| ==> Centred(xs, w)[i] == 0.0
  {
    forall i | 0 <= i < |xs| ensures Centred(xs, w)[i] == 0.0 {
      SumOfConstant(xs[..i + 1], c);
      assert RunningMean(xs, i + 1) == c;
    }
  }

  lemma {:induction false} SumOfConstant(s: seq<real>, c: real)
    requires forall i :: 0 <= i < |s| ==> s[i] == c
    ensures Sum(s) == (|s| as real) * c
    decreases |s|
  {
    if s != [] {
      SumOfConstant(s[..|s| - 1], c);
    }
  }

  /** With a positive step count the counter after `k` calls is `k` modulo the
      step count, so it stays in `[0, step_count)`. */
  lemma {:induction false} TicksAreModular(stepCount: int, k: nat)
    requires stepCount >= 1
    ensures Ticks(stepCount, k) == k % stepCount
  {
    if k > 0 {
      TicksAreModular(stepCount, k - 1);
      var q := (k - 1) / stepCount;
      var r := (k - 1) % stepCount;
      assert k == q * stepCount + r + 1;
      if r + 1 == stepCount {
        ModUnique(k, stepCount, q + 1, 0);
      } else {
        ModUnique(k, stepCount, q, r + 1);
      }
    }
  }

  lemma ModUnique(k: int, n: int, a: int, b: int)
    requires n >= 1 && 0 <= b < n && k == a * n + b
    ensures k % n == b
  {
    var q, r := k / n, k % n;
    assert k == q * n + r;
    var d := a - q;
    assert d * n == r - b;
    if d >= 1 {
      MulAtLeast(d, n);
    } else if d <= -1 {
      MulAtLeast(-d, n);
    }
  }

  lemma {:induction false} MulAtLeast(d: int, n: int)
    requires d >= 1 && n >= 1
    ensures d * n >= n
    decreases d
  {
    if d > 1 {
      MulAtLeast(d - 1, n);
      assert d * n == (d - 1) * n + n;
    }
  }

  /** Call number `k` (from 1) reports a finished sweep exactly when `k` is a
      multiple of the step count: one call in every `step_count`. */
  lemma FinishedEveryStepCount(stepCount: int, k: nat)
    requires stepCount >= 1 && k >= 1
    ensures Ticks(stepCount, k - 1) + 1 >= stepCount <==> k % stepCount == 0
  {
    TicksAreModular(stepCount, k - 1);
    TicksAreModular(stepCount, k);
  }

  /** With a step count of 0 or less every call reports a finished sweep and
      writes row 0. */
  lemma NonPositiveStepCountAlwaysFinishes(stepCount: int, k: nat)
    requires stepCount <= 0
    ensures Ticks(stepCount, k) == 0 && Ticks(stepCount, k) + 1 >= stepCount
  {
  }

  /** The static state of the helper. `prepared` stands for
      `g_window != NULL`. */
  class Callback {
    var fftSize: nat          // g_fft_size
    var stepCount: int        // g_step_count
    var currentStep: int      // g_current_step
    var threads: int          // g_threads
    var prepared: bool        // g_window != NULL
    var window: seq<real>     // g_window
    var inRe: array<real>     // real parts of g_in
    var inIm: array<real>     // imaginary parts of g_in
    var power: array<real>    // g_power

    ghost predicate Valid()
      reads this
    {
      && 0 <= currentStep && (currentStep == 0 || currentStep < stepCount)
      && (prepared ==>
            && |window| == fftSize && inRe.Length == fftSize && inIm.Length == fftSize && power.Length == fftSize
            && inRe != inIm && inRe != power && inIm != power)
    }

    /** The static initialisers. */
    constructor ()
      ensures Valid() && !prepared
      ensures fftSize == 0 && stepCount == 0 && currentStep == 0 && threads == 1
    {
      fftSize, stepCount, currentStep, threads := 0, 0, 0, 1;
      prepared := false;
      window := [];
      inRe := new real[0];
      inIm := new real[0];
      power := new real[0];
    }

    /** `hs_prepare`: record the sizes, reset the step counter, clamp the
        thread count to at least one and allocate fresh work buffers. The
        Hann coefficients are an input. */
    method Prepare(fftSize: nat, stepCount: int, threads: int, coeffs: seq<real>)
      requires |coeffs| == fftSize
      modifies this
      ensures Valid() && prepared
      ensures this.fftSize == fftSize && this.stepCount == stepCount && currentStep == 0
      ensures this.threads == (if threads > 0 then threads else 1) && this.threads >= 1
      ensures window == coeffs && fresh(inRe) && fresh(inIm) && fresh(power)
    {
      this.fftSize := fftSize;
      this.stepCount := stepCount;
      currentStep := 0;
      this.threads := if threads > 0 then threads else 1;
      window := coeffs;
      inRe := new real[fftSize];
      inIm := new real[fftSize];
      power := new real[fftSize];
      prepared := true;
    }

    /** `hs_cleanup`: release the buffers. The sizes and the counter are
        kept, but every later call returns at once until the next
        `hs_prepare`. */
    method Cleanup()
      requires Valid()
      modifies this`prepared
      ensures Valid() && !prepared
    {
      prepared := false;
    }

    /** Lines 64-73 (and 101-110): centre and window both lanes into `g_in`. */
    method CentreSamples(transfer: seq<int>)
      requires Valid() && prepared && 2 * fftSize <= |transfer|
      modifies inRe, inIm
      ensures inRe[..] == Centred(Lane(transfer, fftSize, 0), window)
      ensures inIm[..] == Centred(Lane(transfer, fftSize, 1), window)
    {
      CentreInto(transfer, fftSize, window, inRe, inIm);
    }

    /** The loop of lines 64-73: one running mean per lane, each sample
        centred on the mean so far, scaled by 1/128 and windowed. */
    static method CentreInto(transfer: seq<int>, n: nat, window: seq<real>, re: array<real>, im: array<real>)
      requires 2 * n <= |transfer| && |window| == n && re.Length == n && im.Length == n && re != im
      modifies re, im
      ensures re[..] == Centred(Lane(transfer, n, 0), window)
      ensures im[..] == Centred(Lane(transfer, n, 1), window)
    {
      ghost var xs := Lane(transfer, n, 0);
      ghost var ys := Lane(transfer, n, 1);
      ghost var cre, cim := Centred(xs, window), Centred(ys, window);
      var meanRe: real := 0.0;
      var meanIm: real := 0.0;
      var i := 0;
      while i < n
        invariant 0 <= i <= n
        invariant meanRe == MeanSoFar(xs, i) && meanIm == MeanSoFar(ys, i)
        invariant re[..i] == cre[..i]
        invariant im[..i] == cim[..i]
      {
        var x: real := transfer[2 * i] as real;
        var y: real := transfer[2 * i + 1] as real;
        RunningMeanStep(xs, i, meanRe);
        RunningMeanStep(ys, i, meanIm);
        meanRe := NextMean(meanRe, x, i);
        meanIm := NextMean(meanIm, y, i);
        CentredAt(xs, window, i, meanRe);
        CentredAt(ys, window, i, meanIm);
        re[i] := Scaled(x, meanRe, window[i]);
        im[i] := Scaled(y, meanIm, window[i]);
        i := i + 1;
      }
    }

    /** `hs_process`. Unprepared, it returns 0 and touches nothing.
        Otherwise it centres the samples, writes the row of dB values into
        row `g_current_step` of the sweep buffer, advances the counter and
        returns 1 when it wraps. */
    method Process(transfer: seq<int>, row: seq<real>, dest: array<real>) returns (finished: int)
      requires Valid()
      requires prepared ==> 2 * fftSize <= |transfer| && |row| == fftSize
      requires prepared ==> currentStep * fftSize + fftSize <= dest.Length && dest != inRe && dest != inIm
      modifies this`currentStep, dest, inRe, inIm
      ensures Valid()
      ensures !prepared ==> finished == 0 && currentStep == old(currentStep)
      ensures !prepared ==> dest[..] == old(dest[..]) && inRe[..] == old(inRe[..]) && inIm[..] == old(inIm[..])
      ensures prepared ==>
        && inRe[..] == Centred(Lane(transfer, fftSize, 0), window)
        && inIm[..] == Centred(Lane(transfer, fftSize, 1), window)
        && (forall j :: 0 <= j < dest.Length ==>
              dest[j] == if old(currentStep) * fftSize <= j < old(currentStep) * fftSize + fftSize
                         then row[j - old(currentStep) * fftSize] else old(dest[j]))
        && currentStep == Tick(old(currentStep), stepCount)
        && finished == (if old(currentStep) + 1 >= stepCount then 1 else 0)
    {
      if !prepared {
        return 0;
      }
      CentreSamples(transfer);
      WriteRow(dest, currentStep * fftSize, row);
      currentStep := currentStep + 1;
      if currentStep >= stepCount {
        currentStep := 0;
        return 1;
      }
      return 0;
    }

    /** Lines 75-84: the row lands at `off` in the sweep buffer; no other
        cell changes. */
    static method WriteRow(dest: array<real>, off: nat, row: seq<real>)
      requires off + |row| <= dest.Length
      modifies dest
      ensures forall j :: 0 <= j < dest.Length ==>
                dest[j] == if off <= j < off + |row| then row[j - off] else old(dest[j])
    {
      var i := 0;
      while i < |row|
        invariant 0 <= i <= |row|
        invariant forall j :: 0 <= j < dest.Length ==>
                    dest[j] == if off <= j < off + i then row[j - off] else old(dest[j])
      {
        dest[off + i] := row[i];
        i := i + 1;
      }
    }

    /** `hs_rssi`. Unprepared, it returns 0.0 and touches nothing. Otherwise
        the row of dB values lands in `g_power`, and the result is its plain
        mean below three bins (NaN for none) and its best three-bin mean
        otherwise. */
    method Rssi(transfer: seq<int>, row: seq<real>) returns (r: Reading)
      requires Valid()
      requires prepared ==> 2 * fftSize <= |transfer| && |row| == fftSize
      modifies inRe, inIm, power
      ensures !prepared ==> r == Level(0.0)
      ensures !prepared ==> inRe[..] == old(inRe[..]) && inIm[..] == old(inIm[..]) && power[..] == old(power[..])
      ensures prepared ==>
        && inRe[..] == Centred(Lane(transfer, fftSize, 0), window)
        && inIm[..] == Centred(Lane(transfer, fftSize, 1), window)
        && power[..] == row
        && r == if fftSize == 0 then NotANumber else Level(Robust(row))
    {
      if !prepared {
        return Level(0.0);
      }
      CentreSamples(transfer);
      ghost var re, im := inRe[..], inIm[..];
      var i := 0;
      while i < fftSize
        invariant 0 <= i <= fftSize
        invariant inRe[..] == re && inIm[..] == im
        invariant power[..i] == row[..i]
      {
        power[i] := row[i];
        i := i + 1;
      }
      assert power[..] == row;
      if fftSize < 3 {
        var sum: real := 0.0;
        i := 0;
        while i < fftSize
          invariant 0 <= i <= fftSize
          invariant sum == Sum(row[..i])
          invariant inRe[..] == re && inIm[..] == im && power[..] == row
        {
          assert row[..i + 1][..i] == row[..i];
          sum := sum + power[i];
          i := i + 1;
        }
        assert row[..fftSize] == row;
        if fftSize == 0 {
          return NotANumber;
        }
        return Level(sum / (fftSize as real));
      }
      r := BestWindow();
    }

    /** Lines 123-130: the sliding three-bin window over `g_power`. */
    method BestWindow() returns (r: Reading)
      requires Valid() && prepared && fftSize >= 3
      ensures r == Level(Robust(power[..]))
    {
      var windowSum := power[0] + power[1] + power[2];
      var maxMean := windowSum / 3.0;
      ghost var s := power[..];
      assert s[..3][..2] == s[..2];
      var i := 3;
      while i < fftSize
        invariant 3 <= i <= fftSize
        invariant windowSum == s[i - 3] + s[i - 2] + s[i - 1]
        invariant maxMean == MaxWindowMean(s[..i])
      {
        windowSum := windowSum + (power[i] - power[i - 3]);
        var mean := windowSum / 3.0;
        assert s[..i + 1][..i] == s[..i];
        WindowMeanOfPrefix(s, i + 1, i - 2);
        if mean > maxMean {
          maxMean := mean;
        }
        i := i + 1;
      }
      assert s[..fftSize] == s;
      r := Level(maxMean);
    }
  }
}
