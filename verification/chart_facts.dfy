/** Properties of one paint: the geometry of the mapped points, the axes, the
    hover scans, and how the parts of a frame line up with one another. */
module ChartFacts {
  import opened Wrappers
  import opened Data
  import opened Utils
  import opened Seqs
  import opened Chart

  lemma ScaleMonotone(a: real, b: real, c: real)
    requires a <= b && c >= 0.0
    ensures a * c <= b * c
  {
  }

  // ---------------------------------------------------------------------------
  // Coordinates

  /** Point `k` sits at `x = floor(k * xRation)` and
      `y = floor(DPI_HEIGHT - PADDING - v * yRation)` for the value `v` of slot
      `k + 1`; the first point sits at `x = 0`. */
  lemma ToCoordsPlacement(col: Column, xRation: real, yRation: real)
    ensures var r := ToCoords(col, xRation, yRation);
      forall k :: 0 <= k < |r| ==>
        r[k].x == (k as real * xRation).Floor && r[k].y == (DPI_HEIGHT - PADDING - col.values[k] * yRation).Floor
    ensures var r := ToCoords(col, xRation, yRation);
      |r| > 0 ==> r[0].x == 0
  {
    var r := ToCoords(col, xRation, yRation);
    forall k | 0 <= k < |r|
      ensures r[k].x == (k as real * xRation).Floor
    {
      assert r[k] == PointAt(k + 1, col.values[k], xRation, yRation);
      assert ((k + 1) - 1) as real == k as real;
    }
    if |r| > 0 {
      assert r[0] == PointAt(1, col.values[0], xRation, yRation);
      assert 0.0 * xRation == 0.0;
    }
  }

  /** x never decreases along a series when `xRation >= 0`. */
  lemma ToCoordsXNonDecreasing(col: Column, xRation: real, yRation: real, j: nat, k: nat)
    requires xRation >= 0.0
    requires j <= k < |ToCoords(col, xRation, yRation)|
    ensures ToCoords(col, xRation, yRation)[j].x <= ToCoords(col, xRation, yRation)[k].x
  {
    var r := ToCoords(col, xRation, yRation);
    assert r[j] == PointAt(j + 1, col.values[j], xRation, yRation);
    assert r[k] == PointAt(k + 1, col.values[k], xRation, yRation);
    ScaleMonotone(j as real, k as real, xRation);
    assert ((j + 1) - 1) as real == j as real && ((k + 1) - 1) as real == k as real;
  }

  /** A larger value is drawn no lower (a y no greater) when `yRation > 0`. */
  lemma ToCoordsYAntitone(col: Column, xRation: real, yRation: real, j: nat, k: nat)
    requires yRation > 0.0
    requires j < |ToCoords(col, xRation, yRation)| && k < |ToCoords(col, xRation, yRation)|
    requires col.values[j] <= col.values[k]
    ensures ToCoords(col, xRation, yRation)[k].y <= ToCoords(col, xRation, yRation)[j].y
  {
    var r := ToCoords(col, xRation, yRation);
    assert r[j] == PointAt(j + 1, col.values[j], xRation, yRation);
    assert r[k] == PointAt(k + 1, col.values[k], xRation, yRation);
    ScaleMonotone(col.values[j], col.values[k], yRation);
  }

  /** The y mapping ignores `yMin`: a value lands on the height the y axis gives
      it (`PADDING` for `yMax`, one `yRation` lower per unit below it) exactly
      when `yMin == 0`. */
  lemma PointsMeetGridOnlyFromZero(b: Bounds, v: real)
    requires b.min < b.max
    ensures var yr := YRation(Some(b)).value;
      (DPI_HEIGHT - PADDING - v * yr == PADDING + (b.max - v) * yr) <==> b.min == 0.0
  {
    var yr := YRation(Some(b)).value;
    assert yr * (b.max - b.min) == VIEW_HEIGHT;
    assert PADDING + (b.max - v) * yr == PADDING + b.max * yr - v * yr;
    assert b.max * yr - VIEW_HEIGHT == b.min * yr;
    if b.min * yr == 0.0 {
      assert b.min == 0.0;
    }
  }

  // ---------------------------------------------------------------------------
  // Y axis

  /** Each gridline sits at the height the axis gives its (unrounded) value,
      `PADDING + (yMax - value) * yRation`, for the ratio `yRation` that scales
      `yMax - yMin` onto the view height (`Chart.YRation`). */
  lemma GridLinesAtTheirValues(b: Bounds, k: nat, yr: real)
    requires k < ROWS_COUNT && yr * (b.max - b.min) == VIEW_HEIGHT
    ensures YAxis(Some(b))[k].y == PADDING + (b.max - RowValue(b, k + 1)) * yr
  {
    calc {
      YAxis(Some(b))[k].y;
      64.0 * (k + 1) as real + 40.0;
      { RowHeight(b, yr, k); }
      PADDING + (b.max - RowValue(b, k + 1)) * yr;
    }
  }

  /** The arithmetic of `GridLinesAtTheirValues`: `k + 1` text steps of
      `(yMax - yMin) / 5` span `64 (k + 1)` pixels at the ratio
      `320 / (yMax - yMin)`. */
  lemma RowHeight(b: Bounds, yr: real, k: nat)
    requires yr * (b.max - b.min) == VIEW_HEIGHT
    ensures PADDING + (b.max - RowValue(b, k + 1)) * yr == 64.0 * (k + 1) as real + 40.0
  {
    var q := (b.max - b.min) / 5.0;
    var n := (k + 1) as real;
    assert RowValue(b, k + 1) == b.max - q * n;
    assert yr * (q * 5.0) == 320.0;
    assert q * yr == 64.0;
    assert b.max - (b.max - q * n) == q * n;
    assert (q * n) * yr == (q * yr) * n;
  }

  /** With `yMin <= yMax` the labels never increase from the top row down. */
  lemma YLabelsNonIncreasing(b: Bounds)
    requires b.min <= b.max
    ensures var r := YAxis(Some(b));
      forall j, k :: 0 <= j <= k < |r| ==> r[k].text.value <= r[j].text.value
  {
    var r := YAxis(Some(b));
    forall j, k | 0 <= j <= k < |r|
      ensures r[k].text.value <= r[j].text.value
    {
      assert r[j].text == YLabel(Some(b), j + 1) && r[k].text == YLabel(Some(b), k + 1);
      YLabelsStepDown(b, j + 1, k + 1);
    }
  }

  /** A later row's label is no greater than an earlier one's. */
  lemma YLabelsStepDown(b: Bounds, i: nat, i': nat)
    requires b.min <= b.max && i <= i'
    ensures YLabel(Some(b), i').value <= YLabel(Some(b), i).value
  {
    var d := (b.max - b.min) / ROWS_COUNT as real;
    assert d >= 0.0;
    ScaleMonotone(i as real, i' as real, d);
    assert d * i as real <= d * i' as real;
    RoundMonotone(RowValue(b, i'), RowValue(b, i));
  }

  // ---------------------------------------------------------------------------
  // X axis

  /** Index 1 is the first labelled index whenever the step is positive and the
      x column has a value slot. */
  lemma FirstLabelIsOne(len: nat)
    requires LabelStep(len) > 0 && len > 1
    ensures |LabelIndices(len)| > 0 && LabelIndices(len)[0] == 1
  {
    var r := LabelIndices(len);
    assert Labelled(1, LabelStep(len));
    assert 1 in r;
    var k :| 0 <= k < |r| && r[k] == 1;
    assert r[0] <= r[k];
  }

  /** A column of one or two slots rounds the step to 0, and `% 0` labels
      nothing. */
  lemma NoLabelsWhenStepIsZero(len: nat)
    requires len <= 2
    ensures LabelIndices(len) == []
  {
    IndicesNoneMatch(1, len, (i: nat) => Labelled(i, LabelStep(len)));
  }

  // ---------------------------------------------------------------------------
  // Hover

  /** Every index of `[1, len)` over the hover gets its guide and tooltip: the
      loop does not stop at the first hit. */
  lemma EveryOverIndexIsShown(ds: Dataset, mouse: Option<Mouse>, i: nat)
    requires WellFormed(ds)
    requires var xData := OtherColumns(ds.columns, ds.types)[0];
      1 <= i < xData.Length() && GuideOver(mouse, i, XRation(ds.columns[0]), xData.Length())
    ensures var f := Paint(ds, mouse);
      exists k :: 0 <= k < |f.hovers| && f.hovers[k].index == i
  {
    var xData := OtherColumns(ds.columns, ds.types)[0];
    var f := Paint(ds, mouse);
    var idx := HoverIndices(xData.Length(), f.xRation, mouse);
    assert i in idx;
    var k :| 0 <= k < |idx| && idx[k] == i;
    assert f.hovers[k].index == i;
  }

  /** Every tooltip is anchored where the hover says, so there is a hover
      whenever a tooltip is shown. */
  lemma HoversAnchoredAtPointer(ds: Dataset, mouse: Option<Mouse>)
    requires WellFormed(ds)
    ensures forall h :: h in Paint(ds, mouse).hovers ==> mouse.Some? && h.anchor == mouse.value.tooltip
  {
    var hs := Paint(ds, mouse).hovers;
    forall h | h in hs
      ensures mouse.Some? && h.anchor == mouse.value.tooltip
    {
      var k :| 0 <= k < |hs| && hs[k] == h;
    }
  }

  /** Two distinct guides `xRation >= DPI_WIDTH / len` apart cannot both be over
      one hover. */
  lemma GuidesApart(mouse: Option<Mouse>, i: nat, j: nat, xRation: real, len: nat)
    requires i < j && len > 0
    requires xRation >= DPI_WIDTH / len as real
    ensures !(GuideOver(mouse, i, xRation, len) && GuideOver(mouse, j, xRation, len))
  {
    var w := DPI_WIDTH / len as real;
    var xi := i as real * xRation;
    var xj := j as real * xRation;
    assert w > 0.0;
    ScaleMonotone(1.0, (j - i) as real, xRation);
    assert xj - xi == (j - i) as real * xRation;
    assert xi + w <= xj;
    if mouse.Some? {
      var h := HalfSlice(len, DPI_WIDTH);
      assert h + h == w;
      assert GuideOver(mouse, i, xRation, len) ==> mouse.value.x - h < xi;
      assert GuideOver(mouse, j, xRation, len) ==> xj < mouse.value.x + h;
    }
  }

  lemma WiderSpanSmallerRatio(n: nat)
    requires n > 2
    ensures VIEW_WIDTH / (n - 2) as real >= DPI_WIDTH / n as real
  {
    var a := VIEW_WIDTH / (n - 2) as real;
    var b := DPI_WIDTH / n as real;
    assert a * (n - 2) as real == 1200.0;
    assert b * n as real == 1200.0;
    assert a > 0.0;
    ScaleMonotone((n - 2) as real, n as real, a);
    assert b * n as real <= a * n as real;
    assert (a - b) * n as real >= 0.0;
  }

  /** When the first column is as long as the x column (the dataset keeps
      all its columns the same length), `xRation` is at least the hover slice
      width, so at most one index of the x axis is hovered: one guide and at
      most one tooltip `show` per paint, whatever the column order. */
  lemma AtMostOneHoverWhenColumnsAlign(ds: Dataset, mouse: Option<Mouse>)
    requires WellFormed(ds)
    requires ds.columns[0].Length() == OtherColumns(ds.columns, ds.types)[0].Length()
    ensures |Paint(ds, mouse).hovers| <= 1
  {
    var len := ds.columns[0].Length();
    var xr := XRation(ds.columns[0]);
    assert |Paint(ds, mouse).hovers| == |HoverIndices(len, xr, mouse)|;
    if len > 2 {
      WiderSpanSmallerRatio(len);
      AtMostOneGuideOver(len, xr, mouse);
    }
  }

  /** In particular when the x column comes first. */
  lemma AtMostOneHoverWhenXColumnFirst(ds: Dataset, mouse: Option<Mouse>)
    requires WellFormed(ds) && !IsLine(ds.types, ds.columns[0])
    ensures |Paint(ds, mouse).hovers| <= 1
  {
    FirstOtherColumn(ds.columns, ds.types, 0);
    AtMostOneHoverWhenColumnsAlign(ds, mouse);
  }

  /** With guides at least a slice apart, at most one index is hovered. */
  lemma AtMostOneGuideOver(len: nat, xr: real, mouse: Option<Mouse>)
    requires len > 0 && xr >= DPI_WIDTH / len as real
    ensures |HoverIndices(len, xr, mouse)| <= 1
  {
    var p := (i: nat) => GuideOver(mouse, i, xr, len);
    forall i: nat, j: nat | i < j
      ensures !(p(i) && p(j))
    {
      GuidesApart(mouse, i, j, xr, len);
    }
    AtMostOneIndex(HoverIndices(len, xr, mouse), p);
  }

  /** A tooltip reads slot `i + 1` of each line column; past the column's end
      the value is `undefined`. With line columns as long as the x column, the
      last hoverable index `len - 1` always shows `undefined` values. */
  lemma TooltipValueUndefinedPastEnd(yData: seq<Column>, colors: map<string, string>,
                                     names: map<string, string>, i: nat, c: nat)
    requires c < |yData|
    ensures TooltipItems(yData, colors, names, i)[c].value.None? <==> i + 1 >= yData[c].Length()
  {
  }

  /** The guide of a hovered index `i` sits, once floored, on the x of point `i`
      of every line series, and the tooltip shows exactly the value that point
      was mapped from (slot `i + 1`), not the value of slot `i` whose date
      titles the tooltip. */
  lemma TooltipMatchesPointUnderGuide(ds: Dataset, mouse: Option<Mouse>, k: nat, c: nat)
    requires WellFormed(ds)
    requires var f := Paint(ds, mouse);
      k < |f.hovers| && c < |f.series| && f.hovers[k].index < |f.series[c].coords|
    ensures var f := Paint(ds, mouse);
      var h := f.hovers[k];
      var yData := LineColumns(ds.columns, ds.types);
      && f.series[c].coords[h.index].x == h.x.Floor
      && h.items[c].value == Some(yData[c].values[h.index])
      && f.series[c].coords[h.index] == PointAt(h.index + 1, yData[c].values[h.index], f.xRation, f.yRation.value)
  {
    var f := Paint(ds, mouse);
    var yData := LineColumns(ds.columns, ds.types);
    var xData := OtherColumns(ds.columns, ds.types)[0];
    assert f.series[c].coords != [];
    assert f.yRation.Some?;
    HoverMeetsPoint(xData, yData, f.xRation, f.yRation.value, mouse, ds.colors, ds.names, k, c);
  }

  /** `TooltipMatchesPointUnderGuide` for the parts of a frame: the hovers of
      the x-axis loop and the points of one line column. */
  lemma HoverMeetsPoint(xData: Column, yData: seq<Column>, xRation: real, yRation: real,
                        mouse: Option<Mouse>, colors: map<string, string>, names: map<string, string>,
                        k: nat, c: nat)
    requires k < |Hovers(xData, yData, xRation, mouse, colors, names)| && c < |yData|
    requires Hovers(xData, yData, xRation, mouse, colors, names)[k].index < |yData[c].values|
    ensures var h := Hovers(xData, yData, xRation, mouse, colors, names)[k];
      var coords := ToCoords(yData[c], xRation, yRation);
      && coords[h.index].x == h.x.Floor
      && h.items[c].value == Some(yData[c].values[h.index])
      && coords[h.index] == PointAt(h.index + 1, yData[c].values[h.index], xRation, yRation)
  {
    var h := Hovers(xData, yData, xRation, mouse, colors, names)[k];
    ToCoordsPlacement(yData[c], xRation, yRation);
    assert h.items == TooltipItems(yData, colors, names, h.index);
  }

  // ---------------------------------------------------------------------------
  // The whole frame

  /** Without a hover no tooltip is shown, no guide drawn and no series gets a
      marker. */
  lemma NoHoverNoOverlay(ds: Dataset)
    requires WellFormed(ds)
    ensures Paint(ds, None).hovers == []
    ensures forall s :: s in Paint(ds, None).series ==> s.marker.None?
  {
    var f := Paint(ds, None);
    forall s | s in f.series
      ensures s.marker.None?
    {
      var k :| 0 <= k < |f.series| && f.series[k] == s;
    }
  }

  /** The hover only decides the guides, the tooltips and the markers: the
      scales and the axes are the same for every hover... */
  lemma HoverLeavesScalesAndAxes(ds: Dataset, m1: Option<Mouse>, m2: Option<Mouse>)
    requires WellFormed(ds)
    ensures var f1 := Paint(ds, m1); var f2 := Paint(ds, m2);
      f1.xRation == f2.xRation && f1.yRation == f2.yRation && f1.grid == f2.grid && f1.xLabels == f2.xLabels
  {
  }

  /** ... and so are the plotted lines. */
  lemma HoverLeavesLines(ds: Dataset, m1: Option<Mouse>, m2: Option<Mouse>)
    requires WellFormed(ds)
    ensures var f1 := Paint(ds, m1); var f2 := Paint(ds, m2);
      && |f1.series| == |f2.series|
      && forall k :: 0 <= k < |f1.series| ==>
           f1.series[k].color == f2.series[k].color && f1.series[k].coords == f2.series[k].coords
  {
    var f1 := Paint(ds, m1);
    var f2 := Paint(ds, m2);
    assert f1.xRation == f2.xRation && f1.yRation == f2.yRation;
  }

}
