/** Two-dimensional sweeps (`steps x bins` arrays of dB values) and the
    element-wise NumPy operations the detectors apply to them. */
module Grid {

  type Sweep = seq<seq<real>>

  /** Every row has the same number of bins (a NumPy 2-D array). */
  predicate Rect(s: Sweep)
  {
    forall i :: 0 <= i < |s| ==> |s[i]| == |s[0]|
  }

  predicate SameShape(a: Sweep, b: Sweep)
  {
    |a| == |b| && forall i :: 0 <= i < |a| ==> |a[i]| == |b[i]|
  }

  lemma SameShapeRect(a: Sweep, b: Sweep)
    requires Rect(a) && SameShape(a, b)
    ensures Rect(b)
  {
  }

  /** `np.zeros_like`. */
  function Zeros(like: Sweep): (z: Sweep)
    ensures SameShape(z, like)
    ensures forall i, j :: 0 <= i < |z| && 0 <= j < |z[i]| ==> z[i][j] == 0.0
  {
    seq(|like|, i requires 0 <= i < |like| => seq(|like[i]|, j => 0.0))
  }

  /** Element-wise `a + b`. */
  function Add(a: Sweep, b: Sweep): (r: Sweep)
    requires SameShape(a, b)
    ensures SameShape(r, a)
    ensures forall i, j :: 0 <= i < |r| && 0 <= j < |r[i]| ==> r[i][j] == a[i][j] + b[i][j]
  {
    seq(|a|, i requires 0 <= i < |a| => seq(|a[i]|, j requires 0 <= j < |a[i]| => a[i][j] + b[i][j]))
  }

  /** Element-wise `a - b`. */
  function Sub(a: Sweep, b: Sweep): (r: Sweep)
    requires SameShape(a, b)
    ensures SameShape(r, a)
    ensures forall i, j :: 0 <= i < |r| && 0 <= j < |r[i]| ==> r[i][j] == a[i][j] - b[i][j]
  {
    seq(|a|, i requires 0 <= i < |a| => seq(|a[i]|, j requires 0 <= j < |a[i]| => a[i][j] - b[i][j]))
  }

  /** Element-wise `a / d`. */
  function Div(a: Sweep, d: real): (r: Sweep)
    requires d != 0.0
    ensures SameShape(r, a)
    ensures forall i, j :: 0 <= i < |r| && 0 <= j < |r[i]| ==> r[i][j] == a[i][j] / d
  {
    seq(|a|, i requires 0 <= i < |a| => seq(|a[i]|, j requires 0 <= j < |a[i]| => a[i][j] / d))
  }

  /** All sweeps of `ws` have the shape of `like`. */
  predicate AllShaped(ws: seq<Sweep>, like: Sweep)
  {
    forall k :: 0 <= k < |ws| ==> SameShape(ws[k], like)
  }

  /** Element-wise sum of `ws`, starting from zeros shaped like `like`. */
  function SumSweeps(ws: seq<Sweep>, like: Sweep): (r: Sweep)
    requires AllShaped(ws, like)
    ensures SameShape(r, like)
  {
    if ws == [] then Zeros(like)
    else Add(SumSweeps(ws[..|ws| - 1], like), ws[|ws| - 1])
  }

  /** `n` copies of `s`. */
  function Repeat(s: Sweep, n: nat): (ws: seq<Sweep>)
    ensures |ws| == n && forall k :: 0 <= k < n ==> ws[k] == s
  {
    seq(n, _ => s)
  }

  /** Summing `n` copies of a sweep multiplies every cell by `n`. */
  lemma {:induction false} SumOfCopies(s: Sweep, n: nat)
    ensures AllShaped(Repeat(s, n), s)
    ensures var r := SumSweeps(Repeat(s, n), s);
      forall i, j :: 0 <= i < |r| && 0 <= j < |r[i]| ==> r[i][j] == (n as real) * s[i][j]
  {
    if n > 0 {
      SumOfCopies(s, n - 1);
      assert Repeat(s, n)[..n - 1] == Repeat(s, n - 1);
    }
  }

  /** The mean of `n` identical sweeps is that sweep. */
  lemma MeanOfCopies(s: Sweep, n: nat)
    requires n > 0
    ensures AllShaped(Repeat(s, n), s)
    ensures Div(SumSweeps(Repeat(s, n), s), n as real) == s
  {
    SumOfCopies(s, n);
    var m := Div(SumSweeps(Repeat(s, n), s), n as real);
    assert |m| == |s|;
    forall i | 0 <= i < |s| ensures m[i] == s[i] {
      assert |m[i]| == |s[i]|;
      forall j | 0 <= j < |s[i]| ensures m[i][j] == s[i][j] {
        var c := SumSweeps(Repeat(s, n), s)[i][j];
        assert c == (n as real) * s[i][j];
        assert m[i][j] == c / (n as real);
      }
    }
  }
}
