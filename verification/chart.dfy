/** One paint of the chart as a pure function: from the dataset and the
    current hover value to an abstract frame listing what gets drawn (scale
    ratios, y gridlines, x labels, line coordinates, markers) and the tooltip
    `show` calls made along the way. */
module Chart {
  import opened Wrappers
  import opened Data
  import opened Utils
  import opened Seqs

  const WIDTH: real := 600.0
  const HEIGHT: real := 200.0
  const DPI_WIDTH: real := WIDTH * 2.0
  const DPI_HEIGHT: real := HEIGHT * 2.0
  const ROWS_COUNT: nat := 5
  const PADDING: real := 40.0
  const VIEW_HEIGHT: real := DPI_HEIGHT - PADDING * 2.0
  const VIEW_WIDTH: real := DPI_WIDTH
  /** The number of x labels `xAxis` aims for. */
  const LABELS_COUNT: nat := 6

  /** `Math.round`: the nearest integer, halves rounded up. */
  function Round(r: real): (n: int)
    ensures r - 0.5 < n as real <= r + 0.5
  {
    (r + 0.5).Floor
  }

  lemma RoundMonotone(a: real, b: real)
    requires a <= b
    ensures Round(a) <= Round(b)
  {
  }

  // ---------------------------------------------------------------------------
  // Coordinates

  datatype Point = Point(x: int, y: int)

  /** The mapping callback of `toCoords` for the JavaScript slot `index`
      holding `v`. */
  function PointAt(index: int, v: real, xRation: real, yRation: real): (p: Point)
    ensures p.x as real <= (index - 1) as real * xRation < p.x as real + 1.0
    ensures p.y as real <= DPI_HEIGHT - PADDING - v * yRation < p.y as real + 1.0
  {
    Point(((index - 1) as real * xRation).Floor, (DPI_HEIGHT - PADDING - v * yRation).Floor)
  }

  /** `toCoords(xRation, yRation)(col)`: one pixel point per value slot; the
      header slot is mapped and then filtered out. */
  function ToCoords(col: Column, xRation: real, yRation: real): (r: seq<Point>)
    ensures |r| == col.Length() - 1
    ensures forall k :: 0 <= k < |r| ==> r[k] == PointAt(k + 1, col.values[k], xRation, yRation)
  {
    seq(|col.values|, k requires 0 <= k < |col.values| => PointAt(k + 1, col.values[k], xRation, yRation))
  }

  // ---------------------------------------------------------------------------
  // Y axis

  /** A horizontal rule across the canvas at height `y`, labelled at
      `(5, y - 10)`; a None text is the text `NaN`, printed when the
      boundaries are unset. */
  datatype GridLine = GridLine(y: real, text: Option<int>)

  /** The unrounded y value of row `i`: `yMax - textStep * i`, with
      `textStep = (yMax - yMin) / ROWS_COUNT`. */
  function RowValue(b: Bounds, i: nat): real {
    b.max - (b.max - b.min) / ROWS_COUNT as real * i as real
  }

  /** The label of row `i`: `Math.round` of the row's value, or NaN when the
      boundaries are unset. */
  function YLabel(bounds: Option<Bounds>, i: nat): (r: Option<int>)
    ensures r.Some? <==> bounds.Some?
    ensures bounds.Some? ==>
      RowValue(bounds.value, i) - 0.5 < r.value as real <= RowValue(bounds.value, i) + 0.5
  {
    match bounds
    case None => None
    case Some(b) => Some(Round(RowValue(b, i)))
  }

  /** Interpolating all `ROWS_COUNT` steps down from `yMax` lands on `yMin`. */
  lemma LastRowIsMin(bounds: Option<Bounds>)
    ensures bounds.Some? ==>
      var b := bounds.value;
      RowValue(b, ROWS_COUNT) == b.min
  {
    if bounds.Some? {
      var d := bounds.value.max - bounds.value.min;
      assert d / 5.0 * 5.0 == d;
    }
  }

  /** `yAxis(yMin, yMax)`: the rows `i = 1 .. ROWS_COUNT`. */
  function YAxis(bounds: Option<Bounds>): (r: seq<GridLine>)
    ensures |r| == ROWS_COUNT == 5
    ensures forall k :: 0 <= k < |r| ==> r[k].y == 64.0 * (k + 1) as real + 40.0
    ensures forall k :: 0 <= k < |r| ==> (r[k].text.Some? <==> bounds.Some?)
    ensures bounds.Some? ==> forall k :: 0 <= k < |r| ==>
      r[k].text == Some(Round(RowValue(bounds.value, k + 1)))
    ensures bounds.Some? ==> r[ROWS_COUNT - 1].text == Some(Round(bounds.value.min))
  {
    var step := VIEW_HEIGHT / ROWS_COUNT as real;
    assert step == 64.0;
    var r := seq(ROWS_COUNT, k requires 0 <= k < ROWS_COUNT => GridLine(step * (k + 1) as real + PADDING, YLabel(bounds, k + 1)));
    LastRowIsMin(bounds);
    assert r[ROWS_COUNT - 1].text == YLabel(bounds, ROWS_COUNT);
    r
  }

  // ---------------------------------------------------------------------------
  // X axis

  /** `Math.round(xData.length / labelsCount)`. */
  function LabelStep(len: nat): (step: nat)
    ensures len as real - 3.0 < (LABELS_COUNT * step) as real <= len as real + 3.0
    ensures step == 0 <==> len <= 2
  {
    Round(len as real / LABELS_COUNT as real)
  }

  /** `(i - 1) % step === 0`; with `step == 0` the remainder is NaN, which
      equals nothing. */
  predicate Labelled(i: int, step: nat) {
    step != 0 && (i - 1) % step == 0
  }

  /** The indices `i` in `[1, len)` that get a date label. */
  function LabelIndices(len: nat): (r: seq<nat>)
    ensures forall i :: i in r <==> 1 <= i < len && Labelled(i, LabelStep(len))
    ensures forall k :: 0 <= k < |r| ==> 1 <= r[k] < len
    ensures forall a, b :: 0 <= a < b < |r| ==> r[a] < r[b]
  {
    var step := LabelStep(len);
    Indices(1, len, (i: nat) => Labelled(i, step))
  }

  /** A date label at `x` for the timestamp `stamp` (the text is
      `toDate(stamp)`). */
  datatype XLabel = XLabel(index: nat, x: real, stamp: real)

  /** The date label of index `i`, at `i * xRation`. */
  function LabelAt(i: nat, xData: Column, xRation: real): (l: XLabel)
    requires 1 <= i < xData.Length()
    ensures l.index == i && l.x == i as real * xRation && Some(l.stamp) == xData.At(i)
  {
    XLabel(i, i as real * xRation, xData.values[i - 1])
  }

  /** The labels the x-axis loop draws, in index order. */
  function XLabels(xData: Column, xRation: real): (r: seq<XLabel>)
    ensures |r| == |LabelIndices(xData.Length())|
    ensures forall k :: 0 <= k < |r| ==> r[k] == LabelAt(LabelIndices(xData.Length())[k], xData, xRation)
  {
    var idx := LabelIndices(xData.Length());
    seq(|idx|, k requires 0 <= k < |idx| => LabelAt(idx[k], xData, xRation))
  }

  // ---------------------------------------------------------------------------
  // Hover: guide line and tooltip

  /** One `{ color, name, value }` entry of a tooltip; None is `undefined`. */
  datatype TooltipItem = TooltipItem(color: Option<string>, name: Option<string>, value: Option<real>)

  /** A hovered x index: a vertical guide at `x` and the call
      `ttp.show(anchor, { title: toDate(stamp), items })`. */
  datatype Hover = Hover(index: nat, x: real, anchor: Anchor, stamp: real, items: seq<TooltipItem>)

  /** `isOver(proxy.mouse, i * xRation, xData.length, DPI_WIDTH)`: the test of
      the x-axis loop at index `i`. */
  predicate GuideOver(mouse: Option<Mouse>, i: nat, xRation: real, len: nat) {
    IsOver(mouse, i as real * xRation, len, DPI_WIDTH)
  }

  /** The indices `i` in `[1, len)` whose guide position is over the hover. */
  function HoverIndices(len: nat, xRation: real, mouse: Option<Mouse>): (r: seq<nat>)
    ensures forall i :: i in r <==> 1 <= i < len && GuideOver(mouse, i, xRation, len)
    ensures forall k :: 0 <= k < |r| ==> 1 <= r[k] < len
    ensures forall a, b :: 0 <= a < b < |r| ==> r[a] < r[b]
    ensures mouse.None? ==> r == []
  {
    var p := (i: nat) => GuideOver(mouse, i, xRation, len);
    IndicesNoneMatch(1, len, p);
    Indices(1, len, p)
  }

  /** The tooltip `items` at index `i`: `yData.map(col => ...)`, reading
      the value from `col[i + 1]`. */
  function TooltipItems(yData: seq<Column>, colors: map<string, string>, names: map<string, string>, i: nat): (r: seq<TooltipItem>)
    ensures |r| == |yData|
    ensures forall c :: 0 <= c < |r| ==>
      r[c].color == Get(colors, yData[c].name) && r[c].name == Get(names, yData[c].name) && r[c].value == yData[c].At(i + 1)
  {
    seq(|yData|, c requires 0 <= c < |yData| =>
      TooltipItem(Get(colors, yData[c].name), Get(names, yData[c].name), yData[c].At(i + 1)))
  }

  /** The body of the x-axis loop at a hovered index `i`: the guide at
      `i * xRation` and the tooltip for slot `i`, anchored at `anchor`. */
  function HoverAt(i: nat, anchor: Anchor, xData: Column, yData: seq<Column>, xRation: real,
                   colors: map<string, string>, names: map<string, string>): (h: Hover)
    requires 1 <= i < xData.Length()
    ensures h.index == i && h.x == i as real * xRation && h.anchor == anchor
    ensures Some(h.stamp) == xData.At(i)
    ensures h.items == TooltipItems(yData, colors, names, i)
  {
    Hover(i, i as real * xRation, anchor, xData.values[i - 1], TooltipItems(yData, colors, names, i))
  }

  /** The hovered indices of the x-axis loop, each with its guide and tooltip. */
  function Hovers(xData: Column, yData: seq<Column>, xRation: real, mouse: Option<Mouse>,
                  colors: map<string, string>, names: map<string, string>): (r: seq<Hover>)
    ensures |r| == |HoverIndices(xData.Length(), xRation, mouse)|
    ensures mouse.None? ==> r == []
    ensures forall k :: 0 <= k < |r| ==>
      mouse.Some? && r[k] == HoverAt(HoverIndices(xData.Length(), xRation, mouse)[k], mouse.value.tooltip, xData, yData, xRation, colors, names)
  {
    var idx := HoverIndices(xData.Length(), xRation, mouse);
    match mouse
    case None => []
    case Some(m) =>
      seq(|idx|, k requires 0 <= k < |idx| => HoverAt(idx[k], m.tooltip, xData, yData, xRation, colors, names))
  }

  // ---------------------------------------------------------------------------
  // Series

  /** A line through `coords` in `color`, with a marker on `coords[k]` when
      `marker == Some(k)`. */
  datatype Series = Series(color: Option<string>, coords: seq<Point>, marker: Option<nat>)

  /** The marker scan: the first point, in order, that is over the hover,
      compared against `coords.length` slices. */
  function Marker(coords: seq<Point>, mouse: Option<Mouse>): (r: Option<nat>)
    ensures r.Some? ==> r.value < |coords| && IsOver(mouse, coords[r.value].x as real, |coords|, DPI_WIDTH)
    ensures r.Some? ==> forall j :: 0 <= j < r.value ==> !IsOver(mouse, coords[j].x as real, |coords|, DPI_WIDTH)
    ensures r.None? ==> forall j :: 0 <= j < |coords| ==> !IsOver(mouse, coords[j].x as real, |coords|, DPI_WIDTH)
    ensures mouse.None? ==> r.None?
  {
    FirstMatch(coords, (p: Point) => IsOver(mouse, p.x as real, |coords|, DPI_WIDTH))
  }

  /** `yData.map(toCoords(xRation, yRation)).forEach(...)`. */
  function SeriesOf(yData: seq<Column>, xRation: real, yRation: real, mouse: Option<Mouse>,
                    colors: map<string, string>): (r: seq<Series>)
    ensures |r| == |yData|
    ensures forall k :: 0 <= k < |r| ==>
      r[k].color == Get(colors, yData[k].name) && r[k].coords == ToCoords(yData[k], xRation, yRation)
      && r[k].marker == Marker(r[k].coords, mouse)
  {
    seq(|yData|, k requires 0 <= k < |yData| =>
      var coords := ToCoords(yData[k], xRation, yRation);
      Series(Get(colors, yData[k].name), coords, Marker(coords, mouse)))
  }

  // ---------------------------------------------------------------------------
  // Paint

  /** What one paint produces. `yRation` is None when it is `NaN` (no line
      values, so the boundaries stay unset). */
  datatype Frame = Frame(
    xRation: real,
    yRation: Option<real>,
    grid: seq<GridLine>,
    xLabels: seq<XLabel>,
    hovers: seq<Hover>,
    series: seq<Series>)

  /** What a paint needs to stay within exact arithmetic: a first column that
      does not hold exactly one value (so `xRation` is finite), an x-domain column (so
      `xData` is defined), and `yMin < yMax` once the boundaries are set (so
      `yRation` is finite). */
  predicate WellFormed(ds: Dataset) {
    && |ds.columns| > 0
    && |ds.columns[0].values| != 1
    && |OtherColumns(ds.columns, ds.types)| > 0
    && (var b := Boundaries(ds.columns, ds.types); b.Some? ==> b.value.min < b.value.max)
  }

  /** With the boundaries unset, every line column is header-only. */
  lemma UnsetBoundsMeanEmptyLines(cs: seq<Column>, types: map<string, string>)
    ensures Boundaries(cs, types).None? ==> forall c :: c in LineColumns(cs, types) ==> |c.values| == 0
  {
    forall c | c in LineColumns(cs, types)
      ensures |c.values| > 0 ==> |LineValues(cs, types)| > 0
    {
      if |c.values| > 0 {
        assert c.values[0] in c.values;
        assert c.values[0] in LineValues(cs, types);
      }
    }
  }

  /** A scale ratio `view / span` is positive and stretches `span` onto `view`. */
  lemma RatioScales(view: real, span: real)
    requires view > 0.0 && span > 0.0
    ensures view / span > 0.0 && (view / span) * span == view
  {
  }

  /** `VIEW_HEIGHT / (yMax - yMin)`; None (`NaN`) when the boundaries are unset. */
  function YRation(bounds: Option<Bounds>): (r: Option<real>)
    requires bounds.Some? ==> bounds.value.min < bounds.value.max
    ensures r.Some? <==> bounds.Some?
    ensures r.Some? ==> r.value > 0.0 && r.value * (bounds.value.max - bounds.value.min) == VIEW_HEIGHT
  {
    if bounds.None? then None
    else
      RatioScales(VIEW_HEIGHT, bounds.value.max - bounds.value.min);
      Some(VIEW_HEIGHT / (bounds.value.max - bounds.value.min))
  }

  /** `VIEW_WIDTH / (data.columns[0].length - 2)`, whatever the type of the
      first column; a header-only first column gives a negative ratio. */
  function XRation(first: Column): (r: real)
    requires |first.values| != 1
    ensures r * (first.Length() - 2) as real == VIEW_WIDTH
    ensures r > 0.0 <==> |first.values| >= 2
  {
    if |first.values| >= 2 then
      RatioScales(VIEW_WIDTH, (first.Length() - 2) as real);
      VIEW_WIDTH / (first.Length() - 2) as real
    else
      VIEW_WIDTH / (first.Length() - 2) as real
  }

  /** `paint()`, minus `clearRect` and the canvas calls themselves. */
  function Paint(ds: Dataset, mouse: Option<Mouse>): (f: Frame)
    requires WellFormed(ds)
    ensures f.xRation == XRation(ds.columns[0])
    ensures f.yRation == YRation(Boundaries(ds.columns, ds.types))
    ensures f.yRation.Some? <==> |LineValues(ds.columns, ds.types)| > 0
    ensures f.grid == YAxis(Boundaries(ds.columns, ds.types))
    ensures f.xLabels == XLabels(OtherColumns(ds.columns, ds.types)[0], f.xRation)
    ensures f.hovers == Hovers(OtherColumns(ds.columns, ds.types)[0], LineColumns(ds.columns, ds.types),
                               f.xRation, mouse, ds.colors, ds.names)
    ensures |f.series| == |LineColumns(ds.columns, ds.types)|
    ensures forall k :: 0 <= k < |f.series| ==>
      f.series[k].color == Get(ds.colors, LineColumns(ds.columns, ds.types)[k].name)
      && f.series[k].marker == Marker(f.series[k].coords, mouse)
    ensures f.yRation.Some? ==> forall k :: 0 <= k < |f.series| ==>
      f.series[k].coords == ToCoords(LineColumns(ds.columns, ds.types)[k], f.xRation, f.yRation.value)
    ensures f.yRation.None? ==> forall k :: 0 <= k < |f.series| ==> f.series[k].coords == []
  {
    var bounds := Boundaries(ds.columns, ds.types);
    var yRation := YRation(bounds);
    var xRation := XRation(ds.columns[0]);
    var yData := LineColumns(ds.columns, ds.types);
    var xData := OtherColumns(ds.columns, ds.types)[0];
    // Unset boundaries leave `yRation` NaN, but then every line column is
    // header-only and maps to no point whatever the ratio.
    UnsetBoundsMeanEmptyLines(ds.columns, ds.types);
    var series := SeriesOf(yData, xRation, yRation.GetOr(0.0), mouse, ds.colors);
    Frame(xRation, yRation, YAxis(bounds), XLabels(xData, xRation),
          Hovers(xData, yData, xRation, mouse, ds.colors, ds.names), series)
  }
}
