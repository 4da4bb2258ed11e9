/** hackrf_sweep/core.py: the double buffer that `_rx_callback` fills through
    the C helper and flips on every completed sweep, and the part of
    `start_sweep` that sizes the buffers and prepares the helper. */
module HackrfCore {
  import opened Wrappers
  import opened SweepCallback

  /** FFT_SIZE */
  const FftSize: nat := 256
  /** The initial STEP_COUNT. */
  const InitialStepCount: nat := 16

  /** Why `start_sweep` stops before starting: division by a zero step
      (ZeroDivisionError), a negative row count (NumPy's ValueError), or a
      range narrower than one step. */
  datatype StartError = ZeroStep | NegativeStepCount | EmptySweep

  /** Python's `int()` of a float: truncation toward zero. */
  function Truncate(x: real): (n: int)
    ensures x >= 0.0 ==> n >= 0 && n as real <= x < n as real + 1.0
    ensures x < 0.0 ==> n <= 0 && n as real - 1.0 < x <= n as real
  {
    if x >= 0.0 then x.Floor else -((-x).Floor)
  }

  /** Line 91 as written: `int((stop - start) / step)`. */
  function StepCountAsWritten(startMhz: real, stopMhz: real, stepMhz: real): (r: Result<int, StartError>)
    ensures r.Failure? <==> stepMhz == 0.0
    ensures r.Success? ==> r.value == Truncate((stopMhz - startMhz) / stepMhz)
  {
    if stepMhz == 0.0 then Failure(ZeroStep) else Success(Truncate((stopMhz - startMhz) / stepMhz))
  }

  /** As written, a range narrower than one step gives zero rows: the
      buffers hold no value, yet the first `hs_process` call writes a full
      row of `FFT_SIZE` values at offset 0. */
  lemma EmptySweepOverflows()
    ensures StepCountAsWritten(50.0, 52.0, 5.0) == Success(0)
    ensures var rows := StepCountAsWritten(50.0, 52.0, 5.0).value;
      rows * FftSize < (0 + 1) * FftSize
  {
    assert (52.0 - 50.0) / 5.0 == 0.4;
  }

  /** The row count a corrected `start_sweep` accepts: as written, minus
      ranges that give fewer than one row. */
  function StepCount(startMhz: real, stopMhz: real, stepMhz: real): (r: Result<nat, StartError>)
    ensures r.Success? <==> StepCountAsWritten(startMhz, stopMhz, stepMhz).Success? &&
                            StepCountAsWritten(startMhz, stopMhz, stepMhz).value >= 1
    ensures r.Success? ==> r.value >= 1 && r.value == StepCountAsWritten(startMhz, stopMhz, stepMhz).value
  {
    match StepCountAsWritten(startMhz, stopMhz, stepMhz)
    case Failure(e) => Failure(e)
    case Success(n) =>
      if n < 0 then Failure(NegativeStepCount)
      else if n == 0 then Failure(EmptySweep)
      else Success(n)
  }

  /** The module globals. `lib` is the C helper's static state. */
  class HackrfSweep {
    const lib: Callback
    var buf0: array<real>     // _buffers[0], STEP_COUNT x FFT_SIZE, row-major
    var buf1: array<real>     // _buffers[1]
    var activeBuf: nat        // _active_buf
    var stepCount: int        // STEP_COUNT
    var freqStartMhz: real    // _freq_start_mhz
    var stepMhz: real         // _step_mhz

    ghost predicate Valid()
      reads this, lib
    {
      && lib.Valid()
      && activeBuf < 2
      && buf0 != buf1
      && buf0 != lib.inRe && buf0 != lib.inIm && buf1 != lib.inRe && buf1 != lib.inIm
      && buf0.Length == buf1.Length
      && (lib.prepared ==> lib.fftSize == FftSize && lib.stepCount >= 0 && buf0.Length == lib.stepCount * FftSize)
    }

    /** The row the helper writes next lies inside both buffers. */
    ghost predicate Fits()
      reads this, lib
    {
      lib.prepared ==> lib.currentStep * FftSize + FftSize <= buf0.Length && lib.currentStep * FftSize + FftSize <= buf1.Length
    }

    /** In a consistent state the next row fits exactly when the prepared
        helper was given at least one row. */
    lemma FitsIffRows()
      requires Valid()
      ensures Fits() <==> (lib.prepared ==> lib.stepCount >= 1)
    {
      if lib.prepared && lib.stepCount >= 1 {
        assert lib.currentStep + 1 <= lib.stepCount;
        assert lib.currentStep * FftSize + FftSize <= lib.stepCount * FftSize;
      }
    }

    /** The module initialisers (lines 31-41). */
    constructor ()
      ensures Valid() && fresh(lib) && !lib.prepared
      ensures activeBuf == 0 && stepCount == InitialStepCount && freqStartMhz == 0.0 && stepMhz == 1.0
      ensures buf0.Length == InitialStepCount * FftSize && buf0[..] == seq(InitialStepCount * FftSize, _ => 0.0)
      ensures buf1.Length == InitialStepCount * FftSize && buf1[..] == seq(InitialStepCount * FftSize, _ => 0.0)
    {
      lib := new Callback();
      buf0 := new real[InitialStepCount * FftSize](_ => 0.0);
      buf1 := new real[InitialStepCount * FftSize](_ => 0.0);
      activeBuf := 0;
      stepCount := InitialStepCount;
      freqStartMhz, stepMhz := 0.0, 1.0;
    }

    /** `_rx_callback`: the helper writes the row into the active buffer;
        when it reports a completed sweep the index of that buffer is
        handed on (to the user callback) and the active buffer flips. The
        return value is always 0. */
    method RxCallback(transfer: seq<int>, row: seq<real>) returns (ret: int, ready: Option<nat>)
      requires Valid() && Fits()
      requires lib.prepared ==> 2 * FftSize <= |transfer| && |row| == FftSize
      modifies lib`currentStep, lib.inRe, lib.inIm, buf0, buf1, this`activeBuf
      ensures Valid() && Fits() && ret == 0
      ensures var finished := lib.prepared && old(lib.currentStep) + 1 >= lib.stepCount;
        && (finished ==> ready == Some(old(activeBuf)) && activeBuf == 1 - old(activeBuf))
        && (!finished ==> ready == None && activeBuf == old(activeBuf))
      ensures old(activeBuf) == 0 ==> buf1[..] == old(buf1[..])
      ensures old(activeBuf) == 1 ==> buf0[..] == old(buf0[..])
      ensures var filled := if old(activeBuf) == 0 then buf0 else buf1;
        && (!lib.prepared ==> filled[..] == old(filled[..]))
        && (lib.prepared ==> forall j :: 0 <= j < filled.Length ==>
              filled[j] == if old(lib.currentStep) * FftSize <= j < (old(lib.currentStep) + 1) * FftSize
                           then row[j - old(lib.currentStep) * FftSize] else old(filled[j]))
      ensures lib.currentStep == if lib.prepared then Tick(old(lib.currentStep), lib.stepCount) else old(lib.currentStep)
    {
      var dest := if activeBuf == 0 then buf0 else buf1;
      var finished := lib.Process(transfer, row, dest);
      if finished != 0 {
        ready := Some(activeBuf);
        activeBuf := 1 - activeBuf;
      } else {
        ready := None;
      }
      ret := 0;
      FitsIffRows();
    }

    /** Lines 88-98 of `start_sweep` as written: record the range, compute
        STEP_COUNT, replace both buffers by zeros of STEP_COUNT rows, make
        buffer 0 active and prepare the helper. A zero row count is
        accepted: the buffers are empty and the helper's first row does not
        fit. The device setup and the streaming loop that follow are not
        part of this model. */
    method StartSweep(startMhz: real, stopMhz: real, stepMhz: real, threads: int, coeffs: seq<real>)
      returns (err: Option<StartError>)
      requires Valid() && |coeffs| == FftSize
      modifies this, lib
      ensures Valid()
      ensures freqStartMhz == startMhz && this.stepMhz == stepMhz
      ensures var counted := StepCountAsWritten(startMhz, stopMhz, stepMhz);
        && stepCount == (if counted.Success? then counted.value else old(stepCount))
        && (counted.Failure? ==> err == Some(ZeroStep))
        && (counted.Success? && counted.value < 0 ==> err == Some(NegativeStepCount))
        && (err.Some? ==> unchanged(lib) && activeBuf == old(activeBuf) && buf0 == old(buf0) && buf1 == old(buf1))
        && (counted.Success? && counted.value >= 0 ==>
              && err == None && activeBuf == 0 && fresh(buf0) && fresh(buf1)
              && buf0[..] == seq(counted.value * FftSize, _ => 0.0)
              && buf1[..] == seq(counted.value * FftSize, _ => 0.0)
              && lib.prepared && lib.fftSize == FftSize && lib.stepCount == counted.value
              && lib.currentStep == 0 && lib.threads == (if threads > 0 then threads else 1))
      ensures Fits() <==> StepCount(startMhz, stopMhz, stepMhz).Success? || (err.Some? && old(Fits()))
    {
      freqStartMhz := startMhz;
      this.stepMhz := stepMhz;
      var counted := StepCountAsWritten(startMhz, stopMhz, stepMhz);
      if counted.Failure? {
        return Some(counted.error);
      }
      stepCount := counted.value;
      if stepCount < 0 {
        return Some(NegativeStepCount);
      }
      buf0 := new real[stepCount * FftSize](_ => 0.0);
      buf1 := new real[stepCount * FftSize](_ => 0.0);
      activeBuf := 0;
      lib.Prepare(FftSize, stepCount, threads, coeffs);
      err := None;
      FitsIffRows();
    }

    /** `start_sweep` with the row count checked: a range narrower than one
        step is refused before anything is allocated, so whenever the helper
        is prepared its next row fits the buffers. */
    method StartSweepChecked(startMhz: real, stopMhz: real, stepMhz: real, threads: int, coeffs: seq<real>)
      returns (err: Option<StartError>)
      requires Valid() && Fits() && |coeffs| == FftSize
      modifies this, lib
      ensures Valid() && Fits()
      ensures freqStartMhz == startMhz && this.stepMhz == stepMhz
      ensures var counted := StepCountAsWritten(startMhz, stopMhz, stepMhz);
        stepCount == if counted.Success? then counted.value else old(stepCount)
      ensures var accepted := StepCount(startMhz, stopMhz, stepMhz);
        && (accepted.Failure? ==>
              && err == Some(accepted.error) && unchanged(lib)
              && activeBuf == old(activeBuf) && buf0 == old(buf0) && buf1 == old(buf1))
        && (accepted.Success? ==>
              && err == None && activeBuf == 0 && fresh(buf0) && fresh(buf1)
              && buf0[..] == seq(accepted.value * FftSize, _ => 0.0)
              && buf1[..] == seq(accepted.value * FftSize, _ => 0.0)
              && lib.prepared && lib.fftSize == FftSize && lib.stepCount == accepted.value
              && lib.currentStep == 0 && lib.threads == (if threads > 0 then threads else 1))
    {
      var accepted := StepCount(startMhz, stopMhz, stepMhz);
      if accepted.Failure? && accepted.error == EmptySweep {
        freqStartMhz := startMhz;
        this.stepMhz := stepMhz;
        stepCount := 0;
        return Some(EmptySweep);
      }
      err := StartSweep(startMhz, stopMhz, stepMhz, threads, coeffs);
    }

    /** Line 141: `hs_cleanup` once streaming has stopped. */
    method Finish()
      requires Valid()
      modifies lib`prepared
      ensures Valid() && Fits() && !lib.prepared
    {
      lib.Cleanup();
    }
  }
}
