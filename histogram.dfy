/** An N-dimensional histogram: data points are collected with running
    per-axis extremes, then binned once on a grid of equal-width bins in
    each axis's masked coordinate. */
module Histograms {
  import opened Errors
  import StringTools
  import BinStyles
  import CounterIndices

  /** `std::numeric_limits<double>::max()`, exactly. */
  const DoubleMax: real := 179769313486231570814527423731704356798070567525844996598917476803157260780028538760589558632766878171540458953514382464234321326889464182768467546703537516986049910576551282076245490090389328944075868508455133942304583236903222948165808559332123348274797826204144723168738177180919299881250404026184124858368.0
  /** `std::numeric_limits<double>::lowest()`. */
  const DoubleLowest: real := -DoubleMax

  function Min(x: real, y: real): real { if x < y then x else y }
  function Max(x: real, y: real): real { if x > y then x else y }

  predicate Rows(data: seq<seq<real>>, ndim: nat) {
    forall i :: 0 <= i < |data| ==> |data[i]| == ndim
  }

  /** The running minimum of axis j: `DoubleMax` for no data. */
  function ColumnMin(data: seq<seq<real>>, j: nat): real
    requires forall i :: 0 <= i < |data| ==> j < |data[i]|
  {
    if |data| == 0 then DoubleMax else Min(data[0][j], ColumnMin(data[1..], j))
  }

  /** The running maximum of axis j: `DoubleLowest` for no data. */
  function ColumnMax(data: seq<seq<real>>, j: nat): real
    requires forall i :: 0 <= i < |data| ==> j < |data[i]|
  {
    if |data| == 0 then DoubleLowest else Max(data[0][j], ColumnMax(data[1..], j))
  }

  /** Every coordinate is a finite double. */
  predicate Finite(data: seq<seq<real>>) {
    forall i, j :: 0 <= i < |data| && 0 <= j < |data[i]| ==> DoubleLowest <= data[i][j] <= DoubleMax
  }

  /** The extremes bound every stored point, and for finite data they are
      attained by some point. */
  lemma {:induction false} ColumnExtremes(data: seq<seq<real>>, j: nat)
    requires forall i :: 0 <= i < |data| ==> j < |data[i]|
    ensures forall i :: 0 <= i < |data| ==> ColumnMin(data, j) <= data[i][j] <= ColumnMax(data, j)
    ensures Finite(data) && |data| > 0 ==>
              (exists i :: 0 <= i < |data| && data[i][j] == ColumnMin(data, j))
              && (exists i :: 0 <= i < |data| && data[i][j] == ColumnMax(data, j))
  {
    if |data| > 0 {
      var rest := data[1..];
      ColumnExtremes(rest, j);
      forall i | 0 <= i < |data|
        ensures ColumnMin(data, j) <= data[i][j] <= ColumnMax(data, j)
      {
        if i > 0 {
          assert data[i] == rest[i - 1];
        }
      }
      if Finite(data) {
        assert Finite(rest) by {
          forall i, k | 0 <= i < |rest| && 0 <= k < |rest[i]|
            ensures DoubleLowest <= rest[i][k] <= DoubleMax
          {
            assert rest[i] == data[i + 1];
          }
        }
        if ColumnMin(data, j) != data[0][j] {
          var i :| 0 <= i < |rest| && rest[i][j] == ColumnMin(rest, j);
          assert data[i + 1] == rest[i];
        }
        if ColumnMax(data, j) != data[0][j] {
          var i :| 0 <= i < |rest| && rest[i][j] == ColumnMax(rest, j);
          assert data[i + 1] == rest[i];
        }
      }
    }
  }

  // ---------------------------------------------------------------------
  // The bin grid
  // ---------------------------------------------------------------------

  /** One axis of the grid: its style and, in masked coordinates, its lower
      bound and bin width. */
  datatype Axis = Axis(style: BinStyles.BinStyle, lo: real, width: real)

  /** The axis `bin_data` sets up for a style and the axis's extremes. */
  function AxisOf(style: BinStyles.BinStyle, m: BinStyles.LogMath, ext: (real, real)): (a: Axis)
    requires style.nbins >= 1
    ensures a.style == style && a.lo == BinStyles.Mask(style, m, ext.0)
    ensures a.lo + (style.nbins as real) * a.width == BinStyles.Mask(style, m, ext.1)
  {
    var lo := BinStyles.Mask(style, m, ext.0);
    var hi := BinStyles.Mask(style, m, ext.1);
    Axis(style, lo, (hi - lo) / (style.nbins as real))
  }

  /** The centre of bin i: the mean of its two edges, unmasked. */
  function Centre(a: Axis, m: BinStyles.LogMath, i: nat): real {
    0.5 * (Edge(a, m, i) + Edge(a, m, i + 1))
  }

  /** The data value at the lower edge of bin i. */
  function Edge(a: Axis, m: BinStyles.LogMath, i: nat): real {
    BinStyles.InvMask(a.style, m, a.lo + (i as real) * a.width)
  }

  /** Every bin centre of an axis. */
  function Centres(a: Axis, m: BinStyles.LogMath): (cs: seq<real>)
    ensures |cs| == a.style.nbins && forall i :: 0 <= i < |cs| ==> cs[i] == Centre(a, m, i)
  {
    seq(a.style.nbins, i requires 0 <= i => Centre(a, m, i))
  }

  /** The bin centres of every axis, in axis order. */
  function GridCentres(axes: seq<Axis>, m: BinStyles.LogMath): (g: seq<seq<real>>)
    ensures |g| == |axes|
  {
    if |axes| == 0 then [] else GridCentres(axes[..|axes| - 1], m) + [Centres(axes[|axes| - 1], m)]
  }

  /** The bin of axis `a` that holds coordinate x: the masked coordinate's
      whole number of widths above the lower bound, with a value at the top
      of the range counted in the last bin. */
  function BinOf(a: Axis, m: BinStyles.LogMath, x: real): (k: nat)
    requires a.style.nbins >= 1
    ensures k < a.style.nbins
  {
    if a.width <= 0.0 then 0
    else
      var k := ((BinStyles.Mask(a.style, m, x) - a.lo) / a.width).Floor;
      if k < 0 then 0 else if k >= a.style.nbins then a.style.nbins - 1 else k
  }

  lemma MulLeReal(x: real, y: real, w: real)
    requires x <= y && w > 0.0
    ensures x * w <= y * w
  {
  }

  lemma MulLtReal(x: real, y: real, w: real)
    requires x < y && w > 0.0
    ensures x * w < y * w
  {
  }

  lemma FloorBounds(r: real)
    ensures (r.Floor as real) <= r < (r.Floor as real) + 1.0
  {
  }

  /** Whole widths below a value: k <= y / w < k + 1 places y in
      [k w, (k + 1) w). */
  lemma Between(y: real, w: real, k: int)
    requires w > 0.0 && (k as real) <= y / w < ((k + 1) as real)
    ensures (k as real) * w <= y < ((k + 1) as real) * w
  {
    var q := y / w;
    assert q * w == y;
    MulLeReal(k as real, q, w);
    MulLtReal(q, (k + 1) as real, w);
  }

  /** A masked coordinate inside the range lies in its bin: at or above the
      bin's lower edge, and below its upper edge unless it is the last bin. */
  lemma BinHolds(a: Axis, m: BinStyles.LogMath, x: real)
    requires a.style.nbins >= 1 && a.width > 0.0
    requires a.lo <= BinStyles.Mask(a.style, m, x) <= a.lo + (a.style.nbins as real) * a.width
    ensures a.lo + (BinOf(a, m, x) as real) * a.width <= BinStyles.Mask(a.style, m, x)
    ensures BinOf(a, m, x) + 1 < a.style.nbins ==>
              BinStyles.Mask(a.style, m, x) < a.lo + ((BinOf(a, m, x) + 1) as real) * a.width
  {
    var y := BinStyles.Mask(a.style, m, x) - a.lo;
    var k := (y / a.width).Floor;
    FloorBounds(y / a.width);
    Between(y, a.width, k);
    var n := a.style.nbins;
    if k >= n {
      assert BinOf(a, m, x) == n - 1;
      MulLeReal((n - 1) as real, n as real, a.width);
    } else {
      assert k >= 0 by {
        MulLeReal(0.0, y / a.width, a.width);
      }
      assert BinOf(a, m, x) == k;
    }
  }

  /** A value equal to the top of a non-degenerate range goes to the last
      bin. */
  lemma TopValueInLastBin(style: BinStyles.BinStyle, m: BinStyles.LogMath, ext: (real, real))
    requires style.nbins >= 1
    requires BinStyles.Mask(style, m, ext.0) < BinStyles.Mask(style, m, ext.1)
    ensures BinOf(AxisOf(style, m, ext), m, ext.1) == style.nbins - 1
  {
    var a := AxisOf(style, m, ext);
    var n := style.nbins as real;
    var u := BinStyles.Mask(style, m, ext.1);
    assert a.width > 0.0;
    assert (u - a.lo) / a.width == n by {
      assert u - a.lo == n * a.width;
    }
  }

  /** All styles present with at least one bin, one style per axis. */
  predicate Ready(styles: seq<Option<BinStyles.BinStyle>>, extremes: seq<(real, real)>) {
    |styles| == |extremes|
    && forall j :: 0 <= j < |styles| ==> styles[j].Some? && styles[j].value.nbins >= 1
  }

  /** The number of bins of each axis (0 for a missing style). */
  function Extents(styles: seq<Option<BinStyles.BinStyle>>): (ns: seq<nat>)
    ensures |ns| == |styles|
  {
    seq(|styles|, j requires 0 <= j < |styles| => if styles[j].Some? then styles[j].value.nbins else 0)
  }

  function Axes(styles: seq<Option<BinStyles.BinStyle>>, extremes: seq<(real, real)>,
                m: BinStyles.LogMath): (axes: seq<Axis>)
    requires Ready(styles, extremes)
    ensures |axes| == |styles|
    ensures forall j :: 0 <= j < |axes| ==> axes[j].style == styles[j].value
    ensures AxisExtents(axes) == Extents(styles)
  {
    seq(|styles|, j requires 0 <= j < |styles| && Ready(styles, extremes) =>
                    AxisOf(styles[j].value, m, extremes[j]))
  }

  /** The bin of each axis that holds point p. */
  function Cell(axes: seq<Axis>, m: BinStyles.LogMath, p: seq<real>): (c: seq<nat>)
    requires |p| == |axes| && forall j :: 0 <= j < |axes| ==> axes[j].style.nbins >= 1
    ensures |c| == |axes| && forall j :: 0 <= j < |c| ==> c[j] < axes[j].style.nbins
  {
    seq(|axes|, j requires 0 <= j < |axes| && |p| == |axes| &&
                           (forall k :: 0 <= k < |axes| ==> axes[k].style.nbins >= 1) =>
                  BinOf(axes[j], m, p[j]))
  }

  function AxisExtents(axes: seq<Axis>): (ns: seq<nat>)
    ensures |ns| == |axes| && forall j :: 0 <= j < |ns| ==> ns[j] == axes[j].style.nbins
  {
    seq(|axes|, j requires 0 <= j < |axes| => axes[j].style.nbins)
  }

  /** The position of point p's cell in the flattened bin vector, dimension
      0 fastest, as `CounterIndex::arrayOffset` numbers it. */
  function CellOffset(axes: seq<Axis>, m: BinStyles.LogMath, p: seq<real>): (o: nat)
    requires |p| == |axes| && forall j :: 0 <= j < |axes| ==> axes[j].style.nbins >= 1
    ensures o < CounterIndices.Prod(AxisExtents(axes))
  {
    var c := Cell(axes, m, p) + [0];
    CounterIndices.WeightedBound(c, AxisExtents(axes), 0);
    CounterIndices.Weighted(c, AxisExtents(axes), 0)
  }

  function Offsets(axes: seq<Axis>, m: BinStyles.LogMath, data: seq<seq<real>>): (os: seq<nat>)
    requires Rows(data, |axes|) && forall j :: 0 <= j < |axes| ==> axes[j].style.nbins >= 1
    ensures |os| == |data|
    ensures forall i :: 0 <= i < |os| ==> os[i] < CounterIndices.Prod(AxisExtents(axes))
  {
    seq(|data|, i requires 0 <= i < |data| && Rows(data, |axes|) &&
                           (forall j :: 0 <= j < |axes| ==> axes[j].style.nbins >= 1) =>
                  CellOffset(axes, m, data[i]))
  }

  function Zeros(n: nat): (z: seq<nat>)
    ensures |z| == n && forall k :: 0 <= k < n ==> z[k] == 0
  {
    seq(n, _ => 0)
  }

  /** The number of points in each of `total` cells, given each point's cell. */
  function Tally(offsets: seq<nat>, total: nat): (t: seq<nat>)
    requires forall i :: 0 <= i < |offsets| ==> offsets[i] < total
    ensures |t| == total
  {
    if |offsets| == 0 then Zeros(total)
    else
      var o := offsets[|offsets| - 1];
      var t := Tally(offsets[..|offsets| - 1], total);
      t[o := t[o] + 1]
  }

  /** Cell k counts exactly the points whose cell is k. */
  lemma {:induction false} TallyCounts(offsets: seq<nat>, total: nat)
    requires forall i :: 0 <= i < |offsets| ==> offsets[i] < total
    ensures forall k :: 0 <= k < total ==> Tally(offsets, total)[k] == multiset(offsets)[k]
  {
    if |offsets| > 0 {
      var init := offsets[..|offsets| - 1];
      TallyCounts(init, total);
      assert offsets == init + [offsets[|offsets| - 1]];
    }
  }

  function Sum(s: seq<nat>): nat {
    if |s| == 0 then 0 else s[0] + Sum(s[1..])
  }

  lemma {:induction false} SumZeros(n: nat)
    ensures Sum(Zeros(n)) == 0
  {
    if n > 0 {
      assert Zeros(n)[1..] == Zeros(n - 1);
      SumZeros(n - 1);
    }
  }

  lemma {:induction false} SumBump(s: seq<nat>, k: nat)
    requires k < |s|
    ensures Sum(s[k := s[k] + 1]) == Sum(s) + 1
  {
    if k > 0 {
      assert s[k := s[k] + 1][1..] == s[1..][k - 1 := s[k] + 1];
      SumBump(s[1..], k - 1);
    } else {
      assert s[k := s[k] + 1][1..] == s[1..];
    }
  }

  /** Every point is counted in exactly one cell. */
  lemma {:induction false} TallySum(offsets: seq<nat>, total: nat)
    requires forall i :: 0 <= i < |offsets| ==> offsets[i] < total
    ensures Sum(Tally(offsets, total)) == |offsets|
  {
    if |offsets| == 0 {
      SumZeros(total);
    } else {
      TallySum(offsets[..|offsets| - 1], total);
      SumBump(Tally(offsets[..|offsets| - 1], total), offsets[|offsets| - 1]);
    }
  }

  // ---------------------------------------------------------------------
  // Validation of `bin_data`
  // ---------------------------------------------------------------------

  const AddAfterBinning := "Cannot add data after binning the histogram."
  const BadDimensionality := "Data has incorrect dimensionality."
  const AlreadyBinned := "Data has already been binned."
  const StyleCount := "Incorrect number of binning styles."
  const NoBins := "There must be at least 1 bin in every dimension."

  function NoStyleFor(j: nat): string {
    "No binning style specified for dimension " + StringTools.NatToString(j) + "."
  }

  function DegenerateAxis(j: nat): string {
    "Unable to bin data with >1 bins in dimension" + StringTools.NatToString(j) + "."
  }

  /** What is wrong with axis j, if anything. */
  function AxisProblem(style: Option<BinStyles.BinStyle>, ext: (real, real), j: nat): Option<Error> {
    if style.None? then Some(RuntimeError(NoStyleFor(j)))
    else if style.value.nbins == 0 then Some(RuntimeError(NoBins))
    else if ext.0 == ext.1 && style.value.nbins != 1 then Some(RuntimeError(DegenerateAxis(j)))
    else None
  }

  /** The axes from j on, checked in order; the first problem is reported. */
  function AxesCheck(styles: seq<Option<BinStyles.BinStyle>>, extremes: seq<(real, real)>, j: nat): Outcome
    requires |styles| == |extremes| && j <= |styles|
    decreases |styles| - j
  {
    if j == |styles| then Pass
    else match AxisProblem(styles[j], extremes[j], j)
      case Some(e) => Fail(e)
      case None => AxesCheck(styles, extremes, j + 1)
  }

  /** The checks of `bin_data`, in the order it makes them. */
  function BinCheck(haveBinned: bool, ndim: nat, styles: seq<Option<BinStyles.BinStyle>>,
                    extremes: seq<(real, real)>): Outcome
    requires |extremes| == ndim
  {
    if haveBinned then Fail(RuntimeError(AlreadyBinned))
    else if |styles| != ndim then Fail(InvalidArgument(StyleCount))
    else AxesCheck(styles, extremes, 0)
  }

  /** The axes from j on pass exactly when each of them has a style with at
      least one bin, and a single bin where the range is a single value. */
  lemma {:induction false} AxesCheckPasses(styles: seq<Option<BinStyles.BinStyle>>,
                                           extremes: seq<(real, real)>, j: nat)
    requires |styles| == |extremes| && j <= |styles|
    ensures AxesCheck(styles, extremes, j) == Pass <==>
              forall k :: j <= k < |styles| ==> AxisProblem(styles[k], extremes[k], k).None?
    decreases |styles| - j
  {
    if j < |styles| {
      AxesCheckPasses(styles, extremes, j + 1);
    }
  }

  /** The first axis with a problem decides the error. */
  lemma {:induction false} FirstProblemReported(styles: seq<Option<BinStyles.BinStyle>>,
                                                extremes: seq<(real, real)>, j: nat, k: nat)
    requires |styles| == |extremes| && j <= k < |styles|
    requires forall i :: j <= i < k ==> AxisProblem(styles[i], extremes[i], i).None?
    requires AxisProblem(styles[k], extremes[k], k).Some?
    ensures AxesCheck(styles, extremes, j) == Fail(AxisProblem(styles[k], extremes[k], k).value)
    decreases k - j
  {
    if j < k {
      FirstProblemReported(styles, extremes, j + 1, k);
    }
  }

  lemma PassIsReady(styles: seq<Option<BinStyles.BinStyle>>, extremes: seq<(real, real)>)
    requires |styles| == |extremes| && AxesCheck(styles, extremes, 0) == Pass
    ensures Ready(styles, extremes)
  {
    AxesCheckPasses(styles, extremes, 0);
    forall j | 0 <= j < |styles|
      ensures styles[j].Some? && styles[j].value.nbins >= 1
    {
      assert AxisProblem(styles[j], extremes[j], j).None?;
    }
  }

  // ---------------------------------------------------------------------
  // The histogram
  // ---------------------------------------------------------------------

  class Histogram {
    var haveBinned: bool
    const ndim: nat
    /** The points, most recent first. */
    var data: seq<seq<real>>
    /** Per axis, the least and the greatest coordinate seen. */
    var extremes: seq<(real, real)>
    /** Per axis, the centre of each bin. */
    var binValue: seq<seq<real>>
    /** The number of points in each cell of the flattened grid. */
    var binnedData: seq<nat>

    predicate Valid()
      reads this
    {
      |extremes| == ndim
      && Rows(data, ndim)
      && (forall j :: 0 <= j < ndim ==> extremes[j] == (ColumnMin(data, j), ColumnMax(data, j)))
      && (!haveBinned ==> binValue == [] && binnedData == [])
    }

    /** A new histogram: unbinned, empty, extremes (max, lowest) per axis. */
    constructor (ndim: nat)
      ensures Valid() && this.ndim == ndim && !haveBinned && data == []
      ensures extremes == seq(ndim, _ => (DoubleMax, DoubleLowest))
    {
      this.ndim := ndim;
      haveBinned := false;
      data := [];
      extremes := seq(ndim, _ => (DoubleMax, DoubleLowest));
      binValue := [];
      binnedData := [];
    }

    /** `add_data`: refused once binned (checked first) and for a point of
        the wrong dimension; otherwise the point joins the data and the
        extremes follow it. */
    method AddData(v: seq<real>) returns (r: Outcome)
      requires Valid()
      modifies this
      ensures Valid()
      ensures old(haveBinned) ==> r == Fail(RuntimeError(AddAfterBinning))
      ensures !old(haveBinned) && |v| != ndim ==> r == Fail(InvalidArgument(BadDimensionality))
      ensures r.Fail? ==> data == old(data) && extremes == old(extremes)
      ensures r == Pass <==> !old(haveBinned) && |v| == ndim
      ensures r == Pass ==> data == [v] + old(data) && multiset(data) == multiset(old(data)) + multiset{v}
      ensures r == Pass ==> forall j :: 0 <= j < ndim ==>
                extremes[j] == (Min(v[j], old(extremes[j].0)), Max(v[j], old(extremes[j].1)))
      ensures haveBinned == old(haveBinned) && binValue == old(binValue) && binnedData == old(binnedData)
    {
      if haveBinned {
        return Fail(RuntimeError(AddAfterBinning));
      }
      if |v| != ndim {
        return Fail(InvalidArgument(BadDimensionality));
      }
      for j := 0 to ndim
        invariant |extremes| == ndim
        invariant forall k :: 0 <= k < j ==>
                    extremes[k] == (Min(v[k], old(extremes[k].0)), Max(v[k], old(extremes[k].1)))
        invariant forall k :: j <= k < ndim ==> extremes[k] == old(extremes[k])
        invariant data == old(data) && haveBinned == old(haveBinned)
        invariant binValue == old(binValue) && binnedData == old(binnedData)
      {
        var lo := extremes[j].0;
        var hi := extremes[j].1;
        if v[j] < lo {
          lo := v[j];
        }
        if v[j] > hi {
          hi := v[j];
        }
        extremes := extremes[j := (lo, hi)];
      }
      data := [v] + data;
      assert data[1..] == old(data);
      return Pass;
    }

    /** `bin_data`: validates the styles, records every axis's bin centres,
        counts every point in its cell and marks the histogram binned. */
    method BinData(styles: seq<Option<BinStyles.BinStyle>>, m: BinStyles.LogMath) returns (r: Outcome)
      requires Valid()
      modifies this
      ensures Valid()
      ensures r == BinCheck(old(haveBinned), ndim, styles, old(extremes))
      ensures data == old(data) && extremes == old(extremes)
      ensures r.Fail? ==> haveBinned == old(haveBinned) && binValue == old(binValue)
                          && binnedData == old(binnedData)
      ensures r == Pass ==> Ready(styles, extremes) && haveBinned
      ensures r == Pass ==> binValue == GridCentres(Axes(styles, extremes, m), m)
      ensures r == Pass ==>
                binnedData == Tally(Offsets(Axes(styles, extremes, m), m, data),
                                    CounterIndices.Prod(Extents(styles)))
                && Sum(binnedData) == |data|
    {
      if haveBinned {
        return Fail(RuntimeError(AlreadyBinned));
      }
      if |styles| != ndim {
        return Fail(InvalidArgument(StyleCount));
      }
      var total;
      r, total := CheckAxes(styles, extremes);
      if r.Fail? {
        return;
      }
      PassIsReady(styles, extremes);
      var axes := Axes(styles, extremes, m);
      binValue := AxisCentres(axes, m);
      var offsets := Offsets(axes, m, data);
      binnedData := CountCells(offsets, total);
      TallySum(offsets, total);
      haveBinned := true;
    }

    /** The first loop of `bin_data`: each axis in order is checked, and the
        grid size is the product of the bin counts. */
    static method CheckAxes(styles: seq<Option<BinStyles.BinStyle>>, extremes: seq<(real, real)>)
      returns (r: Outcome, total: nat)
      requires |styles| == |extremes|
      ensures r == AxesCheck(styles, extremes, 0)
      ensures r == Pass ==> total == CounterIndices.Prod(Extents(styles))
    {
      total := 1;
      for j := 0 to |styles|
        invariant AxesCheck(styles, extremes, 0) == AxesCheck(styles, extremes, j)
        invariant total * CounterIndices.ProdFrom(Extents(styles), j) == CounterIndices.Prod(Extents(styles))
      {
        var problem := AxisProblem(styles[j], extremes[j], j);
        if problem.Some? {
          return Fail(problem.value), total;
        }
        assert CounterIndices.ProdFrom(Extents(styles), j)
            == styles[j].value.nbins * CounterIndices.ProdFrom(Extents(styles), j + 1);
        total := total * styles[j].value.nbins;
      }
      return Pass, total;
    }

    /** The second loop of `bin_data`: each axis's bin centres. */
    static method AxisCentres(axes: seq<Axis>, m: BinStyles.LogMath) returns (values: seq<seq<real>>)
      ensures values == GridCentres(axes, m)
    {
      values := [];
      for j := 0 to |axes|
        invariant values == GridCentres(axes[..j], m)
      {
        var a := axes[j];
        var centres := BinValues(a.lo, a.lo + (a.style.nbins as real) * a.width, a.width, a.style, m);
        assert axes[..j + 1] == axes[..j] + [a];
        values := values + [centres];
      }
      assert axes[..|axes|] == axes;
    }

    /** Counting the points: each cell's count is raised once per point
        that falls in it. */
    static method CountCells(offsets: seq<nat>, total: nat) returns (counts: seq<nat>)
      requires forall i :: 0 <= i < |offsets| ==> offsets[i] < total
      ensures counts == Tally(offsets, total)
    {
      counts := Zeros(total);
      for i := 0 to |offsets|
        invariant counts == Tally(offsets[..i], total)
      {
        assert offsets[..i + 1][..i] == offsets[..i];
        counts := counts[offsets[i] := counts[offsets[i]] + 1];
      }
      assert offsets[..|offsets|] == offsets;
    }

    /** `bin_values`: the centre of every bin of an axis. */
    static method BinValues(dmin: real, dmax: real, dwidth: real, style: BinStyles.BinStyle,
                            m: BinStyles.LogMath) returns (ret: seq<real>)
      ensures ret == Centres(Axis(style, dmin, dwidth), m)
    {
      ret := [];
      var a := Axis(style, dmin, dwidth);
      for j := 0 to style.nbins
        invariant |ret| == j
        invariant forall i :: 0 <= i < j ==> ret[i] == Centre(a, m, i)
      {
        var lower := Edge(a, m, j);
        var upper := Edge(a, m, j + 1);
        ret := ret + [0.5 * (lower + upper)];
      }
    }
  }

  // ---------------------------------------------------------------------
  // Properties of the centres and the tests' grids
  // ---------------------------------------------------------------------

  /** With linear binning, centre i is the lower bound plus i + 1/2 widths. */
  lemma LinearCentre(a: Axis, m: BinStyles.LogMath, i: nat)
    requires a.style.kind.Linear?
    ensures Centre(a, m, i) == a.lo + ((i as real) + 0.5) * a.width
  {
  }

  /** A single bin over a range that is one value has its centre at that
      value, for linear binning and, given the law of the logarithm, for
      logarithmic binning of positive data. */
  lemma SingleBinCentre(style: BinStyles.BinStyle, m: BinStyles.LogMath, x: real)
    requires style.nbins == 1
    requires style.kind.Log? ==> style.kind.base > 0.0 && x > 0.0 && BinStyles.InverseLaw(m)
    ensures Centre(AxisOf(style, m, (x, x)), m, 0) == x
  {
    var a := AxisOf(style, m, (x, x));
    assert a.width == 0.0;
    BinStyles.MaskRoundTrip(style, m, x);
  }

  /** Five linear bins on [0, 1] have centres 0.1, 0.3, 0.5, 0.7, 0.9. */
  lemma FiveLinearCentres(m: BinStyles.LogMath)
    ensures var a := AxisOf(BinStyles.BinStyle(5, BinStyles.Linear), m, (0.0, 1.0));
            [Centre(a, m, 0), Centre(a, m, 1), Centre(a, m, 2), Centre(a, m, 3), Centre(a, m, 4)]
            == [0.1, 0.3, 0.5, 0.7, 0.9]
  {
  }

  /** The two-dimensional grid of the tests: two linear bins per axis on
      [0, 1]; the point (0.3, 0.7) lies in cell (0, 1), offset 2, and the
      points on the top edges, (1.0, 0.3) and (0.7, 1.0), in cells (1, 0)
      and (1, 1), offsets 1 and 3. */
  lemma TwoByTwoCells(m: BinStyles.LogMath)
    ensures var s := BinStyles.BinStyle(2, BinStyles.Linear);
            var axes := [AxisOf(s, m, (0.0, 1.0)), AxisOf(s, m, (0.0, 1.0))];
            CellOffset(axes, m, [0.3, 0.7]) == 2 && CellOffset(axes, m, [1.0, 0.3]) == 1
            && CellOffset(axes, m, [0.7, 1.0]) == 3
  {
    var s := BinStyles.BinStyle(2, BinStyles.Linear);
    var a := AxisOf(s, m, (0.0, 1.0));
    assert a.width == 0.5;
    assert BinOf(a, m, 0.3) == 0 && BinOf(a, m, 0.7) == 1 && BinOf(a, m, 1.0) == 1;
    assert Cell([a, a], m, [0.3, 0.7]) == [0, 1];
    assert Cell([a, a], m, [1.0, 0.3]) == [1, 0];
    assert Cell([a, a], m, [0.7, 1.0]) == [1, 1];
    assert AxisExtents([a, a]) == [2, 2];
    assert CounterIndices.Weighted([0, 1] + [0], [2, 2], 0) == 2;
    assert CounterIndices.Weighted([1, 0] + [0], [2, 2], 0) == 1;
    assert CounterIndices.Weighted([1, 1] + [0], [2, 2], 0) == 3;
  }

  /** On a one-axis grid the offset of a point is its bin. */
  lemma OneAxisOffset(a: Axis, m: BinStyles.LogMath, p: seq<real>)
    requires |p| == 1 && a.style.nbins >= 1
    ensures CellOffset([a], m, p) == BinOf(a, m, p[0])
  {
    var b := BinOf(a, m, p[0]);
    assert Cell([a], m, p) == [b];
    assert AxisExtents([a]) == [a.style.nbins];
    assert CounterIndices.Weighted([b, 0], [a.style.nbins], 1) == 0;
    assert [b] + [0] == [b, 0];
  }

  /** The one-dimensional data of the tests in five linear bins on [0, 1]:
      each point lands in the bin the tests expect, 0.0 in the first and
      1.0 in the last, which gives the counts 4, 1, 2, 2 and 4. */
  lemma FiveBinAssignment(m: BinStyles.LogMath)
    ensures var a := AxisOf(BinStyles.BinStyle(5, BinStyles.Linear), m, (0.0, 1.0));
            BinOf(a, m, 0.00) == 0 && BinOf(a, m, 1.00) == 4 && BinOf(a, m, 0.12) == 0
            && BinOf(a, m, 0.87) == 4 && BinOf(a, m, 0.66) == 3 && BinOf(a, m, 0.50) == 2
            && BinOf(a, m, 0.92) == 4 && BinOf(a, m, 0.42) == 2 && BinOf(a, m, 0.21) == 1
            && BinOf(a, m, 0.18) == 0 && BinOf(a, m, 0.04) == 0 && BinOf(a, m, 0.99) == 4
            && BinOf(a, m, 0.77) == 3
  {
    var a := AxisOf(BinStyles.BinStyle(5, BinStyles.Linear), m, (0.0, 1.0));
    assert a.width == 0.2;
  }

  // ---------------------------------------------------------------------
  // `bin_data` as written
  // ---------------------------------------------------------------------

  /** `bin_data` as the source writes it: the same checks, and on success
      `binned_data` resized to the grid with every count 0, while
      `haveBinned` keeps its value. The result is the outcome, the flag and
      the counts afterwards. */
  function BinDataAsWritten(haveBinned: bool, ndim: nat, styles: seq<Option<BinStyles.BinStyle>>,
                            extremes: seq<(real, real)>, counts: seq<nat>): (Outcome, bool, seq<nat>)
    requires |extremes| == ndim
  {
    var r := BinCheck(haveBinned, ndim, styles, extremes);
    (r, haveBinned, if r == Pass then Zeros(CounterIndices.Prod(Extents(styles))) else counts)
  }

  /** The tests' histogram (one axis over [0, 1], five linear bins) as
      written: binning passes but counts nothing and leaves the histogram
      unbinned, so a second `bin_data` passes too. */
  lemma BinDataAsWrittenRebins(counts: seq<nat>)
    ensures var styles := [Some(BinStyles.BinStyle(5, BinStyles.Linear))];
            var first := BinDataAsWritten(false, 1, styles, [(0.0, 1.0)], counts);
            first.0 == Pass && !first.1 && |first.2| == 5 && Sum(first.2) == 0
            && BinDataAsWritten(first.1, 1, styles, [(0.0, 1.0)], first.2).0 == Pass
  {
    var styles := [Some(BinStyles.BinStyle(5, BinStyles.Linear))];
    assert AxesCheck(styles, [(0.0, 1.0)], 1) == Pass;
    assert Extents(styles) == [5];
    assert CounterIndices.Prod([5]) == 5 by {
      assert CounterIndices.ProdFrom([5], 1) == 1;
    }
    SumZeros(5);
  }
}
