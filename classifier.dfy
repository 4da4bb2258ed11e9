/** `_classify` in drone_detection.py: a fixed band table on the centre and
    the width of a frequency range given in MHz. */
module Classifier {
  import opened Wrappers

  datatype Label = FpvVideo | TelemetryOrWifi | Control433 | Control868

  /** One row of the band table: the centre must lie in `[centreLo, centreHi]`
      and the width in `[widthLo, widthHi]` (no lower bound when `None`). */
  datatype Band = Band(kind: Label, centreLo: real, centreHi: real, widthLo: Option<real>, widthHi: real)

  const Table: seq<Band> := [
    Band(FpvVideo, 5740.0, 5820.0, Some(15.0), 25.0),
    Band(TelemetryOrWifi, 2402.0, 2483.0, None, 5.0),
    Band(Control433, 432.0, 434.0, None, 2.0),
    Band(Control868, 867.0, 869.0, None, 2.0)
  ]

  predicate Matches(b: Band, centre: real, width: real)
  {
    && b.centreLo <= centre <= b.centreHi
    && (b.widthLo.None? || b.widthLo.value <= width)
    && width <= b.widthHi
  }

  function Abs(x: real): real { if x < 0.0 then -x else x }

  /** The rules in source order; the first that holds decides. */
  function Classify(start: real, end: real): Option<Label>
  {
    var width := end - start;
    var centre := (start + end) / 2.0;
    if 5740.0 <= centre <= 5820.0 && 15.0 <= width <= 25.0 then Some(FpvVideo)
    else if 2402.0 <= centre <= 2483.0 && width <= 5.0 then Some(TelemetryOrWifi)
    else if Abs(centre - 433.0) <= 1.0 && width <= 2.0 then Some(Control433)
    else if Abs(centre - 868.0) <= 1.0 && width <= 2.0 then Some(Control868)
    else None
  }

  /** The cascade agrees with the table: no label exactly when no band
      matches, and a label only from a band that matches. */
  lemma ClassifyFollowsTable(start: real, end: real)
    ensures Classify(start, end).None? <==>
              forall k :: 0 <= k < |Table| ==> !Matches(Table[k], (start + end) / 2.0, end - start)
    ensures Classify(start, end).Some? ==>
              exists k :: 0 <= k < |Table| && Table[k].kind == Classify(start, end).value
                          && Matches(Table[k], (start + end) / 2.0, end - start)
  {
    var width := end - start;
    var centre := (start + end) / 2.0;
    if 5740.0 <= centre <= 5820.0 && 15.0 <= width <= 25.0 {
      assert Matches(Table[0], centre, width);
    } else if 2402.0 <= centre <= 2483.0 && width <= 5.0 {
      assert Matches(Table[1], centre, width);
    } else if Abs(centre - 433.0) <= 1.0 && width <= 2.0 {
      assert Matches(Table[2], centre, width);
    } else if Abs(centre - 868.0) <= 1.0 && width <= 2.0 {
      assert Matches(Table[3], centre, width);
    }
  }

  /** The centre intervals of the table are pairwise disjoint, so at most one
      band matches a range. */
  lemma BandsDisjoint(centre: real, width: real, k: nat, m: nat)
    requires k < |Table| && m < |Table|
    requires Matches(Table[k], centre, width) && Matches(Table[m], centre, width)
    ensures k == m
  {
  }

  /** Hence first-match is the same as "the unique matching band": the label
      is `b.kind` exactly when band `b` matches. */
  lemma ClassifyIsUniqueMatch(start: real, end: real, k: nat)
    requires k < |Table|
    ensures Classify(start, end) == Some(Table[k].kind) <==> Matches(Table[k], (start + end) / 2.0, end - start)
  {
    var c, w := (start + end) / 2.0, end - start;
    ClassifyFollowsTable(start, end);
    if Classify(start, end) == Some(Table[k].kind) {
      var m :| 0 <= m < |Table| && Table[m].kind == Table[k].kind && Matches(Table[m], c, w);
      assert m == k;
    } else if Matches(Table[k], c, w) {
      var m :| 0 <= m < |Table| && Table[m].kind == Classify(start, end).value && Matches(Table[m], c, w);
      BandsDisjoint(c, w, k, m);
    }
  }

  /** What a label says about the range: every labelled range is at most
      25 MHz wide and centred between 432 and 5820 MHz; only FPV video
      needs a width of at least 15 MHz, and the other labels need at most
      5 MHz. */
  lemma ClassifyBounds(start: real, end: real)
    ensures Classify(start, end).Some? ==> end - start <= 25.0 && 432.0 <= (start + end) / 2.0 <= 5820.0
    ensures Classify(start, end) == Some(FpvVideo) ==> 15.0 <= end - start
    ensures Classify(start, end).Some? && Classify(start, end) != Some(FpvVideo) ==> end - start <= 5.0
  {
  }
}
