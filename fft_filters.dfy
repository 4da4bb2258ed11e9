/** core/fft.py: the filter bookkeeping of `FFTProcessor` around the FFT
    (whose output power row is an input here): the bounded averaging
    buffer, min/max hold, exponential persistence and the accessors. */
module FftFilters {
  import opened Wrappers
  import opened Levels

  type Frame = seq<real>

  /** Why `process` raises: a frame of no samples (`np.fft.fft` of zero
      points, before anything is buffered), rows of different lengths in the
      averaging buffer (`np.vstack`), or a frame whose length differs from
      the holds (`np.minimum`). */
  datatype FilterError = EmptyFrame | RaggedAverage | HoldShape

  /** All rows have length `n`. */
  predicate Shaped(rows: seq<Frame>, n: nat)
  {
    forall i :: 0 <= i < |rows| ==> |rows[i]| == n
  }

  /** What a `deque(maxlen = w)` holds after the frames `pushed`: the last
      `w` of them, oldest first. */
  function LastFrames(pushed: seq<Frame>, w: nat): (r: seq<Frame>)
    ensures |r| == if |pushed| < w then |pushed| else w
    ensures forall i :: 0 <= i < |r| ==> r[i] == pushed[|pushed| - |r| + i]
  {
    if |pushed| <= w then pushed else pushed[|pushed| - w..]
  }

  /** Column `j` of a list of rows. */
  function Column(rows: seq<Frame>, j: nat): (c: seq<real>)
    requires forall i :: 0 <= i < |rows| ==> j < |rows[i]|
    ensures |c| == |rows| && forall i :: 0 <= i < |rows| ==> c[i] == rows[i][j]
  {
    seq(|rows|, i requires 0 <= i < |rows| => rows[i][j])
  }

  /** `np.mean(np.vstack(rows), axis=0)`. */
  function ColumnMeans(rows: seq<Frame>, n: nat): (m: Frame)
    requires |rows| > 0 && Shaped(rows, n)
    ensures |m| == n && forall j :: 0 <= j < n ==> m[j] == Mean(Column(rows, j))
  {
    seq(n, j requires 0 <= j < n => Mean(Column(rows, j)))
  }

  /** `np.minimum` and `np.maximum` of two frames of one length. */
  function ElemMin(a: Frame, b: Frame): (m: Frame)
    requires |a| == |b|
    ensures |m| == |a| && forall j :: 0 <= j < |a| ==> m[j] == Min(a[j], b[j])
  {
    seq(|a|, j requires 0 <= j < |a| => Min(a[j], b[j]))
  }

  function ElemMax(a: Frame, b: Frame): (m: Frame)
    requires |a| == |b|
    ensures |m| == |a| && forall j :: 0 <= j < |a| ==> m[j] == Max(a[j], b[j])
  {
    seq(|a|, j requires 0 <= j < |a| => Max(a[j], b[j]))
  }

  /** The min hold after the frames `held`: the first frame, then the
      element-wise minimum with each later one. */
  function MinHold(held: seq<Frame>, n: nat): (m: Frame)
    requires |held| > 0 && Shaped(held, n)
    ensures |m| == n
  {
    if |held| == 1 then held[0] else ElemMin(MinHold(held[..|held| - 1], n), held[|held| - 1])
  }

  function MaxHold(held: seq<Frame>, n: nat): (m: Frame)
    requires |held| > 0 && Shaped(held, n)
    ensures |m| == n
  {
    if |held| == 1 then held[0] else ElemMax(MaxHold(held[..|held| - 1], n), held[|held| - 1])
  }

  /** One persistence step: `0.9 * p + 0.1 * x`. */
  function Decay(p: Frame, x: Frame): (d: Frame)
    requires |p| == |x|
    ensures |d| == |x| && forall j :: 0 <= j < |x| ==> d[j] == 0.9 * p[j] + 0.1 * x[j]
  {
    seq(|x|, j requires 0 <= j < |x| => 0.9 * p[j] + 0.1 * x[j])
  }

  /** The persistence after the frames `held`: the first frame, then
      `0.9 * old + 0.1 * new` per frame. */
  function Persistence(held: seq<Frame>, n: nat): (p: Frame)
    requires |held| > 0 && Shaped(held, n)
    ensures |p| == n
  {
    if |held| == 1 then held[0]
    else
      Decay(Persistence(held[..|held| - 1], n), held[|held| - 1])
  }

  /** `np.linspace(lo, hi, n)`. */
  function Linspace(lo: real, hi: real, n: nat): (s: seq<real>)
    ensures |s| == n
    ensures n >= 1 ==> s[0] == lo
    ensures n >= 2 ==> s[n - 1] == hi
  {
    if n == 1 then [lo]
    else seq(n, i requires 0 <= i < n => lo + (i as real) * (hi - lo) / ((n - 1) as real))
  }

  /** The min hold is at most every frame seen and equals one of them at
      each bin; likewise the max hold is at least every frame and attained. */
  lemma {:induction false} HoldsBracketFrames(held: seq<Frame>, n: nat, j: nat)
    requires |held| > 0 && Shaped(held, n) && j < n
    ensures forall i :: 0 <= i < |held| ==> MinHold(held, n)[j] <= held[i][j] <= MaxHold(held, n)[j]
    ensures exists i :: 0 <= i < |held| && MinHold(held, n)[j] == held[i][j]
    ensures exists i :: 0 <= i < |held| && MaxHold(held, n)[j] == held[i][j]
  {
    if |held| > 1 {
      var p := held[..|held| - 1];
      HoldsBracketFrames(p, n, j);
      assert forall i :: 0 <= i < |p| ==> p[i] == held[i];
      var lo :| 0 <= lo < |p| && MinHold(p, n)[j] == p[lo][j];
      var hi :| 0 <= hi < |p| && MaxHold(p, n)[j] == p[hi][j];
      if MinHold(held, n)[j] != held[|held| - 1][j] {
        assert MinHold(held, n)[j] == held[lo][j];
      }
      if MaxHold(held, n)[j] != held[|held| - 1][j] {
        assert MaxHold(held, n)[j] == held[hi][j];
      }
    }
  }

  /** Persistence stays between the min and the max hold. */
  lemma {:induction false} PersistenceWithinHolds(held: seq<Frame>, n: nat, j: nat)
    requires |held| > 0 && Shaped(held, n) && j < n
    ensures MinHold(held, n)[j] <= Persistence(held, n)[j] <= MaxHold(held, n)[j]
  {
    if |held| > 1 {
      var p := held[..|held| - 1];
      PersistenceWithinHolds(p, n, j);
      HoldsBracketFrames(p, n, j);
      HoldsBracketFrames(held, n, j);
      assert forall i :: 0 <= i < |p| ==> p[i] == held[i];
    }
  }

  /** The averaged row lies, bin by bin, between the smallest and the
      largest value of the frames in the buffer. */
  lemma AverageWithinBuffer(rows: seq<Frame>, n: nat, j: nat)
    requires |rows| > 0 && Shaped(rows, n) && j < n
    ensures SeqMin(Column(rows, j)) <= ColumnMeans(rows, n)[j] <= SeqMax(Column(rows, j))
  {
    MeanBounds(Column(rows, j));
  }

  /** A buffer holding one frame repeatedly averages to that frame. */
  lemma AverageOfCopies(rows: seq<Frame>, x: Frame)
    requires |rows| > 0 && forall i :: 0 <= i < |rows| ==> rows[i] == x
    ensures Shaped(rows, |x|) && ColumnMeans(rows, |x|) == x
  {
    forall j | 0 <= j < |x| ensures ColumnMeans(rows, |x|)[j] == x[j] {
      MeanWithin(Column(rows, j), x[j], x[j]);
    }
  }

  class FftProcessor {
    const sampleRate: real
    const avgWindow: nat
    var avgBuffer: seq<Frame>           // _avg_buffer
    var minHold: Option<Frame>          // _min_hold
    var maxHold: Option<Frame>          // _max_hold
    var persistence: Option<Frame>      // _persistence
    var fftSize: Option<nat>            // fft_size, set by the first process
    /** Every frame appended to the averaging buffer. */
    ghost var pushed: seq<Frame>
    /** Every frame that updated the holds. */
    ghost var held: seq<Frame>
    /** The length of the held frames. */
    ghost var width: nat

    ghost predicate Valid()
      reads this
    {
      Buffered() && Holding()
    }

    /** The averaging buffer is the last `avgWindow` frames pushed. */
    ghost predicate Buffered()
      reads this`avgBuffer, this`pushed
    {
      avgWindow >= 1 && avgBuffer == LastFrames(pushed, avgWindow)
    }

    /** The holds and the persistence are those of the held frames. */
    ghost predicate Holding()
      reads this`held, this`width, this`minHold, this`maxHold, this`persistence
    {
      && Shaped(held, width)
      && (minHold.None? <==> held == [])
      && (maxHold.None? <==> held == [])
      && (persistence.None? <==> held == [])
      && (held != [] ==>
            && minHold == Some(MinHold(held, width))
            && maxHold == Some(MaxHold(held, width))
            && persistence == Some(Persistence(held, width)))
    }

    /** `__init__`: the window is clamped to at least one frame. */
    constructor (sampleRate: real, avgWindow: int := 1)
      ensures Valid()
      ensures this.sampleRate == sampleRate && this.avgWindow == (if avgWindow >= 1 then avgWindow else 1)
      ensures avgBuffer == [] && minHold.None? && maxHold.None? && persistence.None? && fftSize.None?
    {
      this.sampleRate := sampleRate;
      this.avgWindow := if avgWindow >= 1 then avgWindow else 1;
      avgBuffer, minHold, maxHold, persistence, fftSize := [], None, None, None, None;
      pushed, held, width := [], [], 0;
    }

    /** `process` on the power row of one frame: record its size; refuse a
        frame of no samples before touching the filters; otherwise append it
        to the averaging buffer, average the buffer, update the holds and the
        persistence, and return the bin frequencies with the averaged row. */
    method Process(power: Frame) returns (r: Result<(seq<real>, Frame), FilterError>)
      requires Valid()
      modifies this
      ensures Valid()
      ensures fftSize == Some(|power|)
      ensures |power| == 0 ==> r == Failure(EmptyFrame) && pushed == old(pushed) && avgBuffer == old(avgBuffer)
      ensures |power| > 0 ==>
        && pushed == old(pushed) + [power]
        && avgBuffer == LastFrames(old(pushed) + [power], avgWindow)
      ensures |power| > 0 && !Shaped(avgBuffer, |power|) ==> r == Failure(RaggedAverage)
      ensures |power| > 0 && Shaped(avgBuffer, |power|) && old(held) != [] && old(width) != |power| ==>
                r == Failure(HoldShape)
      ensures r.Failure? ==> held == old(held) && minHold == old(minHold) && maxHold == old(maxHold)
                             && persistence == old(persistence)
      ensures |power| > 0 && Shaped(avgBuffer, |power|) && (old(held) == [] || old(width) == |power|) ==>
        && r == Success((Linspace(-sampleRate / 2.0, sampleRate / 2.0, |power|), ColumnMeans(avgBuffer, |power|)))
        && held == old(held) + [power] && width == |power|
        && minHold == Some(if old(minHold).None? then power else ElemMin(old(minHold).value, power))
        && maxHold == Some(if old(maxHold).None? then power else ElemMax(old(maxHold).value, power))
        && persistence == Some(if old(persistence).None? then power else Decay(old(persistence).value, power))
    {
      if |power| == 0 {
        fftSize := Some(0);
        return Failure(EmptyFrame);
      }
      Push(power);
      if exists i :: 0 <= i < |avgBuffer| && |avgBuffer[i]| != |power| {
        return Failure(RaggedAverage);
      }
      var avg := ColumnMeans(avgBuffer, |power|);
      if minHold.Some? && |minHold.value| != |power| {
        return Failure(HoldShape);
      }
      Hold(power);
      r := Success((Linspace(-sampleRate / 2.0, sampleRate / 2.0, |power|), avg));
    }

    /** Lines 46-47: the frame goes into the bounded deque. */
    method Push(power: Frame)
      requires Buffered()
      modifies this`fftSize, this`pushed, this`avgBuffer
      ensures Buffered()
      ensures fftSize == Some(|power|) && pushed == old(pushed) + [power]
    {
      fftSize := Some(|power|);
      pushed := pushed + [power];
      avgBuffer := if |avgBuffer| < avgWindow then avgBuffer + [power] else avgBuffer[1..] + [power];
      assert avgBuffer == LastFrames(pushed, avgWindow);
    }

    /** Lines 50-57: element-wise min and max holds, persistence decay. */
    method Hold(power: Frame)
      requires Holding() && (minHold.None? || |minHold.value| == |power|)
      modifies this`held, this`width, this`minHold, this`maxHold, this`persistence
      ensures Holding()
      ensures held == old(held) + [power] && width == |power|
      ensures minHold == Some(if old(minHold).None? then power else ElemMin(old(minHold).value, power))
      ensures maxHold == Some(if old(maxHold).None? then power else ElemMax(old(maxHold).value, power))
      ensures persistence == Some(if old(persistence).None? then power else Decay(old(persistence).value, power))
    {
      var first := minHold.None?;
      ghost var before := held;
      held := held + [power];
      width := |power|;
      assert held[..|held| - 1] == before;
      minHold := Some(if first then power else ElemMin(minHold.value, power));
      maxHold := Some(if first then power else ElemMax(maxHold.value, power));
      if persistence.None? {
        persistence := Some(power);
      } else {
        persistence := Some(Decay(persistence.value, power));
      }
    }

    /** `current_min_max`: `(None, None)` before any frame, else the holds. */
    method CurrentMinMax() returns (mn: Option<Frame>, mx: Option<Frame>)
      requires Valid()
      ensures mn.None? <==> held == []
      ensures mx.None? <==> held == []
      ensures held != [] ==> mn == Some(MinHold(held, width)) && mx == Some(MaxHold(held, width))
    {
      mn, mx := minHold, maxHold;
    }

    /** `current_persistence`: `None` before any frame. */
    method CurrentPersistence() returns (p: Option<Frame>)
      requires Valid()
      ensures p.None? <==> held == []
      ensures held != [] ==> p == Some(Persistence(held, width))
    {
      p := persistence;
    }
  }
}
