/** Maximal runs of `true` in a threshold mask (`_segments` in
    drone_detection.py), as half-open bin intervals `[start, end)`. */
module Segments {

  datatype Run = Run(start: nat, end: nat)

  /** First index at or after `i` that is `false`, or `|mask|`. */
  function RunEnd(mask: seq<bool>, i: nat): (e: nat)
    requires i <= |mask|
    ensures i <= e <= |mask|
    ensures forall j :: i <= j < e ==> mask[j]
    ensures e == |mask| || !mask[e]
    decreases |mask| - i
  {
    if i == |mask| || !mask[i] then i else RunEnd(mask, i + 1)
  }

  /** Reference definition: the runs that start at or after `i`. */
  function RunsFrom(mask: seq<bool>, i: nat): seq<Run>
    requires i <= |mask|
    decreases |mask| - i
  {
    if i == |mask| then []
    else if !mask[i] then RunsFrom(mask, i + 1)
    else
      var e := RunEnd(mask, i + 1);
      [Run(i, e)] + RunsFrom(mask, e)
  }

  function Runs(mask: seq<bool>): seq<Run>
  {
    RunsFrom(mask, 0)
  }

  predicate Covers(r: Run, j: int)
  {
    r.start <= j < r.end
  }

  /** Runs are non-empty, lie in `[from, |mask|)`, and are ascending with
      at least one bin between neighbours. */
  ghost predicate Ordered(mask: seq<bool>, runs: seq<Run>, from: nat)
  {
    && (forall k :: 0 <= k < |runs| ==> from <= runs[k].start < runs[k].end <= |mask|)
    && (forall k :: 0 <= k < |runs| - 1 ==> runs[k].end < runs[k + 1].start)
  }

  /** Every bin inside a run is `true`. */
  ghost predicate Inside(mask: seq<bool>, runs: seq<Run>)
  {
    forall k, j :: 0 <= k < |runs| && Covers(runs[k], j) && 0 <= j < |mask| ==> mask[j]
  }

  /** Every run ends at a `false` bin or at the end of the mask. */
  ghost predicate ClosedRight(mask: seq<bool>, runs: seq<Run>)
  {
    forall k :: 0 <= k < |runs| && runs[k].end < |mask| ==> !mask[runs[k].end]
  }

  /** Every run starts at bin 0 or right after a `false` bin. */
  ghost predicate ClosedLeft(mask: seq<bool>, runs: seq<Run>)
  {
    forall k :: 0 <= k < |runs| && 0 < runs[k].start <= |mask| ==> !mask[runs[k].start - 1]
  }

  /** Every `true` bin at or after `from` lies in some run. */
  ghost predicate Complete(mask: seq<bool>, runs: seq<Run>, from: nat)
  {
    forall j :: from <= j < |mask| && mask[j] ==> exists k :: 0 <= k < |runs| && Covers(runs[k], j)
  }

  /** `runs` decomposes the `true` bins at or after `from`: ascending,
      non-empty, separated by at least one `false`, each run closed by a
      `false` (or the mask's end) on the right and by a `false` (or bin 0)
      on the left, and covering every `true` bin from `from` on. */
  ghost predicate Decomposition(mask: seq<bool>, runs: seq<Run>, from: nat)
  {
    Ordered(mask, runs, from) && Inside(mask, runs) && ClosedRight(mask, runs)
      && ClosedLeft(mask, runs) && Complete(mask, runs, from)
  }

  /** `runs` is exactly the list of maximal runs of `mask`: their union is
      exactly the set of `true` indices and each one is as long as it can be. */
  ghost predicate IsMaximalRuns(mask: seq<bool>, runs: seq<Run>)
  {
    Decomposition(mask, runs, 0)
  }

  lemma {:induction false} RunEndIs(mask: seq<bool>, a: nat, b: nat)
    requires a <= b <= |mask|
    requires forall j :: a <= j < b ==> mask[j]
    requires b == |mask| || !mask[b]
    ensures RunEnd(mask, a) == b
    decreases b - a
  {
    if a < b {
      RunEndIs(mask, a + 1, b);
    }
  }

  lemma SkipFalse(mask: seq<bool>, i: nat)
    requires i < |mask| && !mask[i]
    ensures RunsFrom(mask, i) == RunsFrom(mask, i + 1)
  {
  }

  /** A decomposition from `i + 1` is one from `i` when bin `i` is `false`. */
  lemma PastFalse(mask: seq<bool>, runs: seq<Run>, i: nat)
    requires i < |mask| && !mask[i] && Decomposition(mask, runs, i + 1)
    ensures Decomposition(mask, runs, i)
  {
  }

  /** Putting a maximal run `[i, e)` in front of a decomposition of the
      bins after `e` gives a decomposition of the bins from `i` on. */
  lemma ConsRun(mask: seq<bool>, i: nat, e: nat, rest: seq<Run>)
    requires i < e <= |mask|
    requires i == 0 || !mask[i - 1]
    requires forall j :: i <= j < e ==> mask[j]
    requires e == |mask| || !mask[e]
    requires Decomposition(mask, rest, e + 1)
    ensures Decomposition(mask, [Run(i, e)] + rest, i)
  {
    var runs := [Run(i, e)] + rest;
    assert forall k :: 1 <= k < |runs| ==> runs[k] == rest[k - 1];
    ConsOrdered(mask, i, e, rest);
    ConsInside(mask, i, e, rest);
    ConsClosed(mask, i, e, rest);
    ConsComplete(mask, i, e, rest);
  }

  lemma ConsOrdered(mask: seq<bool>, i: nat, e: nat, rest: seq<Run>)
    requires i < e <= |mask| && Ordered(mask, rest, e + 1)
    ensures Ordered(mask, [Run(i, e)] + rest, i)
  {
    var runs := [Run(i, e)] + rest;
    assert forall k :: 1 <= k < |runs| ==> runs[k] == rest[k - 1];
  }

  lemma ConsInside(mask: seq<bool>, i: nat, e: nat, rest: seq<Run>)
    requires i < e <= |mask| && forall j :: i <= j < e ==> mask[j]
    requires Inside(mask, rest)
    ensures Inside(mask, [Run(i, e)] + rest)
  {
    var runs := [Run(i, e)] + rest;
    forall k, j | 0 <= k < |runs| && Covers(runs[k], j) && 0 <= j < |mask| ensures mask[j] {
      if k > 0 { assert runs[k] == rest[k - 1]; }
    }
  }

  lemma ConsClosed(mask: seq<bool>, i: nat, e: nat, rest: seq<Run>)
    requires i < e <= |mask|
    requires i == 0 || !mask[i - 1]
    requires e == |mask| || !mask[e]
    requires ClosedRight(mask, rest) && ClosedLeft(mask, rest)
    ensures ClosedRight(mask, [Run(i, e)] + rest) && ClosedLeft(mask, [Run(i, e)] + rest)
  {
    var runs := [Run(i, e)] + rest;
    forall k | 0 <= k < |runs| && runs[k].end < |mask| ensures !mask[runs[k].end] {
      if k > 0 { assert runs[k] == rest[k - 1]; }
    }
    forall k | 0 <= k < |runs| && 0 < runs[k].start <= |mask| ensures !mask[runs[k].start - 1] {
      if k > 0 { assert runs[k] == rest[k - 1]; }
    }
  }

  lemma ConsComplete(mask: seq<bool>, i: nat, e: nat, rest: seq<Run>)
    requires i < e <= |mask|
    requires e == |mask| || !mask[e]
    requires Complete(mask, rest, e + 1)
    ensures Complete(mask, [Run(i, e)] + rest, i)
  {
    var runs := [Run(i, e)] + rest;
    forall j | i <= j < |mask| && mask[j]
      ensures exists k :: 0 <= k < |runs| && Covers(runs[k], j)
    {
      if j < e {
        assert Covers(runs[0], j);
      } else {
        var k :| 0 <= k < |rest| && Covers(rest[k], j);
        assert runs[k + 1] == rest[k];
        assert Covers(runs[k + 1], j);
      }
    }
  }

  /** Everything `RunsFrom(mask, i)` returns lies at or after `i`, and the
      runs have the shape `IsMaximalRuns` asks for. */
  lemma {:induction false} RunsFromSound(mask: seq<bool>, i: nat)
    requires i <= |mask|
    requires i == 0 || !mask[i - 1]
    ensures Decomposition(mask, RunsFrom(mask, i), i)
    decreases |mask| - i
  {
    if i == |mask| {
    } else if !mask[i] {
      SkipFalse(mask, i);
      RunsFromSound(mask, i + 1);
      PastFalse(mask, RunsFrom(mask, i + 1), i);
    } else {
      var e := RunEnd(mask, i + 1);
      if e < |mask| {
        SkipFalse(mask, e);
        RunsFromSound(mask, e + 1);
      }
      ConsRun(mask, i, e, RunsFrom(mask, e));
    }
  }

  /** `Runs` returns the maximal runs of the mask. */
  lemma RunsAreMaximal(mask: seq<bool>)
    ensures IsMaximalRuns(mask, Runs(mask))
  {
    RunsFromSound(mask, 0);
  }

  /** A mask without any `true` has no runs. */
  lemma NoTrueNoRuns(mask: seq<bool>)
    requires forall j :: 0 <= j < |mask| ==> !mask[j]
    ensures Runs(mask) == []
  {
    MaximalRunsUnique(mask, []);
  }

  lemma {:induction false} AscendingStarts(mask: seq<bool>, runs: seq<Run>, from: nat, a: nat, b: nat)
    requires Ordered(mask, runs, from)
    requires a <= b < |runs|
    ensures runs[a].start <= runs[b].start
    ensures a < b ==> runs[a].end < runs[b].start
    decreases b - a
  {
    if a < b {
      AscendingStarts(mask, runs, from, a + 1, b);
    }
  }

  /** The tail of a decomposition starting at a `true` bin `i` is again a
      decomposition, from the end of its first run. */
  lemma TailOfDecomposition(mask: seq<bool>, runs: seq<Run>, i: nat)
    requires i < |mask| && mask[i]
    requires Ordered(mask, runs, i) && Inside(mask, runs) && ClosedRight(mask, runs)
    requires Complete(mask, runs, i)
    ensures |runs| > 0 && runs[0].start == i
    ensures Ordered(mask, runs[1..], runs[0].end) && Inside(mask, runs[1..])
    ensures ClosedRight(mask, runs[1..]) && Complete(mask, runs[1..], runs[0].end)
  {
    HeadStartsAt(mask, runs, i);
    TailOrdered(mask, runs, i);
    TailComplete(mask, runs, i);
    assert forall k :: 0 <= k < |runs| - 1 ==> runs[1..][k] == runs[k + 1];
  }

  /** A decomposition from a `true` bin `i` has a first run, starting at `i`. */
  lemma HeadStartsAt(mask: seq<bool>, runs: seq<Run>, i: nat)
    requires i < |mask| && mask[i]
    requires Ordered(mask, runs, i) && Complete(mask, runs, i)
    ensures |runs| > 0 && runs[0].start == i
  {
    var k :| 0 <= k < |runs| && Covers(runs[k], i);
    AscendingStarts(mask, runs, i, 0, k);
  }

  lemma TailOrdered(mask: seq<bool>, runs: seq<Run>, i: nat)
    requires |runs| > 0 && Ordered(mask, runs, i)
    ensures Ordered(mask, runs[1..], runs[0].end)
  {
    var rest := runs[1..];
    forall k' | 0 <= k' < |rest| ensures runs[0].end <= rest[k'].start {
      AscendingStarts(mask, runs, i, 0, k' + 1);
    }
  }

  lemma TailComplete(mask: seq<bool>, runs: seq<Run>, i: nat)
    requires |runs| > 0 && Ordered(mask, runs, i) && Complete(mask, runs, i)
    ensures Complete(mask, runs[1..], runs[0].end)
  {
    var rest := runs[1..];
    forall j | runs[0].end <= j < |mask| && mask[j]
      ensures exists k' :: 0 <= k' < |rest| && Covers(rest[k'], j)
    {
      var m :| 0 <= m < |runs| && Covers(runs[m], j);
      assert m != 0;
      assert Covers(rest[m - 1], j);
    }
  }

  lemma {:induction false} RunsFromUnique(mask: seq<bool>, runs: seq<Run>, i: nat)
    requires i <= |mask|
    requires Ordered(mask, runs, i) && Inside(mask, runs) && ClosedRight(mask, runs)
    requires Complete(mask, runs, i)
    ensures runs == RunsFrom(mask, i)
    decreases |mask| - i
  {
    if i == |mask| {
    } else if !mask[i] {
      OrderedPastFalse(mask, runs, i);
      SkipFalse(mask, i);
      RunsFromUnique(mask, runs, i + 1);
    } else {
      TailOfDecomposition(mask, runs, i);
      HeadIsRunEnd(mask, runs, i);
      RunsFromUnique(mask, runs[1..], runs[0].end);
      assert runs == [runs[0]] + runs[1..];
    }
  }

  /** No run of a decomposition from `i` starts at a `false` bin `i`. */
  lemma OrderedPastFalse(mask: seq<bool>, runs: seq<Run>, i: nat)
    requires i < |mask| && !mask[i]
    requires Ordered(mask, runs, i) && Inside(mask, runs)
    ensures Ordered(mask, runs, i + 1)
  {
    forall k | 0 <= k < |runs| ensures i + 1 <= runs[k].start {
      assert Covers(runs[k], runs[k].start);
    }
  }

  /** The first run of a decomposition from a `true` bin `i` ends where the
      scan from `i` ends. */
  lemma HeadIsRunEnd(mask: seq<bool>, runs: seq<Run>, i: nat)
    requires |runs| > 0 && runs[0].start == i < runs[0].end <= |mask|
    requires Inside(mask, runs) && ClosedRight(mask, runs)
    ensures RunEnd(mask, i + 1) == runs[0].end
  {
    var r := runs[0];
    assert forall j :: i + 1 <= j < r.end ==> mask[j] by {
      assert forall j :: i + 1 <= j < r.end ==> Covers(runs[0], j);
    }
    RunEndIs(mask, i + 1, r.end);
  }

  /** The maximal-run decomposition is unique: any list with the shape
      `IsMaximalRuns` asks for is `Runs(mask)`. */
  lemma MaximalRunsUnique(mask: seq<bool>, runs: seq<Run>)
    requires IsMaximalRuns(mask, runs)
    ensures runs == Runs(mask)
  {
    RunsFromUnique(mask, runs, 0);
  }

  /** `_segments`: one pass over the mask with an open-run marker. */
  method Segments(mask: seq<bool>) returns (segs: seq<Run>)
    ensures segs == Runs(mask)
    ensures IsMaximalRuns(mask, segs)
  {
    segs := [];
    var start: nat := 0;
    var open := false;
    var i := 0;
    while i < |mask|
      invariant 0 <= i <= |mask|
      invariant !open ==> (i == 0 || !mask[i - 1]) && segs + RunsFrom(mask, i) == Runs(mask)
      invariant open ==> start < i && (forall j :: start <= j < i ==> mask[j])
      invariant open ==> segs + RunsFrom(mask, start) == Runs(mask)
    {
      if mask[i] && !open {
        start, open := i, true;
      } else if !mask[i] && open {
        RunEndIs(mask, start + 1, i);
        assert RunsFrom(mask, start) == [Run(start, i)] + RunsFrom(mask, i);
        segs := segs + [Run(start, i)];
        open := false;
      }
      i := i + 1;
    }
    if open {
      RunEndIs(mask, start + 1, |mask|);
      segs := segs + [Run(start, |mask|)];
    }
    RunsAreMaximal(mask);
  }
}
