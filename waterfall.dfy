/** gui/widgets/waterfall_plot.py: the rolling buffer behind the waterfall,
    `size` rows of spectra with the newest in the last row. */
module Waterfall {
  import opened Wrappers

  /** The initial row width. */
  const InitialWidth: nat := 1024
  /** The number of rows when the widget is built without a `size`. */
  const DefaultSize: nat := 200

  /** `data[-1, :] = power` on a buffer without rows raises IndexError. */
  datatype UpdateError = NoRows

  class WaterfallPlot {
    const size: nat
    var data: array2<real>

    ghost predicate Valid()
      reads this
    {
      data.Length0 == size
    }

    /** The buffer as a sequence of rows. */
    ghost function Rows(): (r: seq<seq<real>>)
      reads this, data
      ensures |r| == data.Length0 && forall i :: 0 <= i < |r| ==> |r[i]| == data.Length1
    {
      var d := data;
      seq(d.Length0, i requires 0 <= i < d.Length0 reads d =>
        seq(d.Length1, j requires 0 <= j < d.Length1 reads d => d[i, j]))
    }

    /** `__init__`: `size` rows of 1024 zeros, 200 rows by default. */
    constructor (size: nat := DefaultSize)
      ensures Valid() && this.size == size && fresh(data)
      ensures data.Length1 == InitialWidth && Rows() == seq(size, _ => seq(InitialWidth, _ => 0.0))
    {
      this.size := size;
      data := new real[size, InitialWidth]((_, _) => 0.0);
      new;
      forall i | 0 <= i < size ensures Rows()[i] == seq(InitialWidth, _ => 0.0) {
      }
    }

    /** `np.roll(data, -1, axis=0)`: a new buffer whose row `i` is the old
        row `i + 1`, the first row moving to the end. */
    method Roll()
      requires Valid()
      modifies this
      ensures Valid() && fresh(data) && data.Length1 == old(data.Length1)
      ensures size > 0 ==> Rows() == old(Rows())[1..] + [old(Rows())[0]]
    {
      ghost var before := Rows();
      var d := data;
      data := new real[d.Length0, d.Length1]((i, j) requires 0 <= i < d.Length0 && 0 <= j < d.Length1 reads d =>
                                                   d[if i + 1 < d.Length0 then i + 1 else 0, j]);
      if size > 0 {
        forall i | 0 <= i < size ensures Rows()[i] == (before[1..] + [before[0]])[i] {
        }
      }
    }

    /** `np.zeros((size, width))`. */
    method Reset(width: nat)
      requires Valid()
      modifies this
      ensures Valid() && fresh(data) && data.Length1 == width
      ensures Rows() == seq(size, _ => seq(width, _ => 0.0))
    {
      data := new real[size, width]((_, _) => 0.0);
      forall i | 0 <= i < size ensures Rows()[i] == seq(width, _ => 0.0) {
      }
    }

    /** `data[-1, :] = power`, in place. */
    method WriteLast(power: seq<real>)
      requires Valid() && size > 0 && data.Length1 == |power|
      modifies data
      ensures Rows() == old(Rows())[..size - 1] + [power]
    {
      ghost var before := Rows();
      forall j | 0 <= j < data.Length1 {
        data[size - 1, j] := power[j];
      }
      forall i | 0 <= i < size ensures Rows()[i] == (before[..size - 1] + [power])[i] {
      }
    }

    /** `update_spectrum`: roll the rows up by one (dropping the oldest),
        replace the buffer by zeros when the row width changes, and write
        the new spectrum into the last row. The buffer keeps `size` rows. */
    method UpdateSpectrum(power: seq<real>) returns (r: Result<(), UpdateError>)
      requires Valid()
      modifies this
      ensures Valid() && fresh(data) && data.Length1 == |power|
      ensures size == 0 <==> r == Failure(NoRows)
      ensures size > 0 && old(data.Length1) == |power| ==> Rows() == old(Rows())[1..] + [power]
      ensures size > 0 && old(data.Length1) != |power| ==> Rows() == seq(size - 1, _ => seq(|power|, _ => 0.0)) + [power]
    {
      ghost var before := Rows();
      Roll();
      if |power| != data.Length1 {
        Reset(|power|);
      }
      if size == 0 {
        return Failure(NoRows);
      }
      ghost var mid := Rows();
      WriteLast(power);
      assert mid[..size - 1] == (if old(data.Length1) == |power| then before[1..] else seq(size - 1, _ => seq(|power|, _ => 0.0)));
      r := Success(());
    }
  }
}
