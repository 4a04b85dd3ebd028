# Canvas line chart: a Dafny model of one paint and the hover

This project models the core of a small canvas line chart: the hover hit test, the
y-range scan, the data-to-pixel mapping, and one paint. The paint is written as a pure
function from the dataset and the current hover value to an abstract frame. The frame
holds the scale ratios, the five y gridlines with their labels, the labelled x indices,
the hovered x indices with their tooltip `show` arguments, and one line per series with
at most one marker. The project also models the two pointer handlers that write the hover.

Layout:

- `wrappers.dfy`: `Option`. `None` stands for `undefined`/`null`, and for `NaN` where a number is expected.
- `seqs.dfy`: the two loop shapes the chart uses. One is a counting loop that acts on every passing index (`Indices`). The other is a `for…of` loop that stops at the first hit (`FirstMatch`).
- `data.dfy`: columns `[name, v1..vn]` and the dataset. It also holds the `'line'` filter and its complement, and the hover value.
- `utils.dfy`: `isOver` and `computeBoundaries`, with their properties.
- `chart.dfy`: the layout constants, `toCoords`, `yAxis`, `xAxis`, the marker scan and `paint`.
- `chart_facts.dfy`: lemmas relating the parts of a frame to each other and to the source's promises.
- `interaction.dfy`: `mousemove`, `mouseleave`, and the hover after a run of events.

Data values are exact `real`s. `Math.floor` is `.Floor`. `Math.round` is
`(r + 0.5).Floor`, which rounds halves up as JavaScript does. A column's JavaScript slot
`i >= 1` is `values[i - 1]`. Reading at or past `col.length` gives `None`, which is
`undefined` in the source.

The model follows the code as written, quirks included:

- `xRation` divides by `columns[0].length - 2` whatever that column's type.
- The x guide of index `i` is drawn at `i * xRation`, but series points sit at `(slot - 1) * xRation`. The tooltip reads `col[i + 1]`. So the tooltip shows the value plotted under the guide (`TooltipMatchesPointUnderGuide`), while its title is the date of slot `i`. At the last index the value is `undefined` (`TooltipValueUndefinedPastEnd`).
- The marker scan tests against `coords.length` slices. The x-axis scan tests against `xData.length` slices.
- Points are mapped as `DPI_HEIGHT - PADDING - v * yRation`, with no `yMin` offset. They meet the heights the y axis gives their values only when `yMin == 0` (`PointsMeetGridOnlyFromZero`).
- With no line columns, a hovered index still calls `show`, with an empty item list (src/chart.js:140-155).
- A line column that holds only its header leaves the bounds untouched. `col[1]` is `undefined` there, and every comparison with it is false.

## Model

| member | source | states |
|---|---|---|
| Utils.IsOver | src/utils.js:22-28 | no hover is never over; otherwise, with `length > 0`, over exactly when `x` lies in the open band of half a slice (`dpiWidth / length / 2`) on either side of the hover |
| Utils.OverItself | src/utils.js:25-27 | a candidate at the hover's own x is over it when slices have positive width |
| Utils.NotOverAcrossSlice | src/utils.js:25-27 | a candidate a whole slice or more from the hover is not over it |
| Utils.SpacedApart | src/utils.js:25-27 | in a row of candidates whose neighbours are at least a slice apart, any later one is at least a slice past any earlier one |
| Utils.AtMostOneOver | src/utils.js:25-27 | among candidates spaced at least a slice apart, at most one is over a given hover |
| Utils.Include | src/utils.js:71-79 | one comparison step: the new bounds enclose the value and the old bounds, and each bound is the value or the old bound |
| Utils.ScanValues | src/utils.js:71-80 | scanning a column's slots leaves the bounds unset only if they were unset and there was no slot; the result encloses every slot and the old bounds, and each bound is a slot or the old bound |
| Utils.ScanColumns | src/utils.js:66-81 | the same over all columns, where only slots of `'line'` columns count |
| Utils.Boundaries | src/utils.js:62-84 | unset (None) exactly when no line column has a value slot; otherwise `min <= max`, both attained by some line value, and every line value lies between them |
| Utils.BoundariesIgnoreOtherColumns | src/utils.js:67-69 | dropping the columns that are not `'line'` leaves the boundaries unchanged |
| Data.LineColumns | src/chart.js:75 | exactly the dataset's `'line'` columns (a missing type is not `'line'`) |
| Data.OtherColumns | src/chart.js:77 | exactly the columns that are not `'line'` |
| Data.FiltersKeepOrder | src/chart.js:75-77 | filtering a concatenation concatenates the filtered parts, so series and tooltip items follow the dataset's column order |
| Data.FiltersPartition | src/chart.js:75-77 | the two filters split the columns: together they hold every column exactly as many times as the dataset does |
| Data.FirstLineColumn | src/chart.js:75 | the dataset's first `'line'` column heads `yData` |
| Data.FirstOtherColumn | src/chart.js:77 | the dataset's first column that is not `'line'` is `xData` |
| Data.LineValues | src/utils.js:66-80 | holds exactly the values of the `'line'` columns' value slots |
| Chart.Round | src/chart.js:110 | the result is within half of its argument, and halves round up |
| Chart.YRation | src/chart.js:71 | positive, and scales `yMax - yMin` onto `VIEW_HEIGHT`; None (NaN) when the boundaries are unset |
| Chart.XRation | src/chart.js:72 | scales `columns[0].length - 2` intervals onto `VIEW_WIDTH`, whatever the first column's type; positive exactly when that column has at least two values |
| Chart.PointAt | src/chart.js:177-180 | the point of slot `index` is the floor of `(index - 1) * xRation` and of `DPI_HEIGHT - PADDING - v * yRation`: each coordinate is within one pixel below its exact value |
| Chart.ToCoords | src/chart.js:175-182 | one point per value slot (length is column length − 1); point k is the callback's image of slot k + 1, with the header slot dropped |
| ChartFacts.ToCoordsPlacement | src/chart.js:178-179 | point k has `x = floor(k * xRation)` and `y = floor(360 - v * yRation)`, where v is the value in slot k + 1; the first x is 0 |
| ChartFacts.ToCoordsXNonDecreasing | src/chart.js:178 | x is non-decreasing along a series when `xRation >= 0` |
| ChartFacts.ToCoordsYAntitone | src/chart.js:179 | with `yRation > 0`, a larger value gets a y no greater (it is drawn no lower) |
| ChartFacts.PointsMeetGridOnlyFromZero | src/chart.js:179 | a value's mapped height equals the height the y axis assigns to it exactly when `yMin == 0` |
| Chart.YLabel | src/chart.js:100-110 | the label of row i is within half a unit of `yMax - (yMax - yMin) / 5 * i`; NaN exactly when the bounds are unset |
| Chart.YAxis | src/chart.js:98-122 | exactly 5 gridlines; row i is at `y = 64 i + 40` and labelled `round(yMax - (yMax - yMin) / 5 * i)` (so within half a unit of that value, by `Chart.Round`); labels are NaN exactly when the bounds are unset; the 5th label is `round(yMin)` |
| ChartFacts.GridLinesAtTheirValues | src/chart.js:99-117 | each gridline sits at `PADDING + (yMax - value) * yRation` for its unrounded label value `yMax - (yMax - yMin) / 5 * i`, with `yRation` the ratio of src/chart.js:71 that scales `yMax - yMin` onto 320 |
| ChartFacts.YLabelsNonIncreasing | src/chart.js:107-110 | with `yMin <= yMax` the labels never increase from the first row to the last |
| Chart.LabelStep | src/chart.js:125-128 | `round(len / 6)`: `6 * step` is within 3 of `len`, and the step is 0 exactly when `len <= 2` |
| Chart.LabelIndices | src/chart.js:132-137 | index i is labelled iff `1 <= i < len` and `Labelled(i, step)`, that is `step > 0` and `(i - 1) % step == 0` (src/chart.js:135); indices come in increasing order |
| Chart.LabelAt | src/chart.js:133-137 | the label of index i is drawn at `i * xRation` and carries the timestamp in slot i |
| ChartFacts.FirstLabelIsOne | src/chart.js:128-135 | with a positive step and a value slot, index 1 is the first label |
| ChartFacts.NoLabelsWhenStepIsZero | src/chart.js:128-135 | a step of 0 (JS `% 0` is NaN) labels nothing |
| Chart.XLabels | src/chart.js:132-138 | one label per labelled index, in order, at `i * xRation`, carrying the timestamp in slot i |
| Chart.HoverIndices | src/chart.js:132-140 | index i is hovered iff `1 <= i < len` and `GuideOver`: its guide `i * xRation` is over the hover (src/chart.js:133, 140) (compared against `xData.length` slices); increasing; none without a hover |
| Chart.TooltipItems | src/chart.js:150-154 | one item per line column, in dataset order, with colour and name looked up by column name and value `col[i + 1]` |
| Chart.HoverAt | src/chart.js:133-155 | a hovered index's guide is at `i * xRation`; its tooltip is anchored at the hover's anchor, titled by slot i, and lists the items of slot i + 1 |
| Chart.Hovers | src/chart.js:132-157 | one guide and `show` call per hovered index, in index order, with no early stop; none without a hover |
| Chart.Marker | src/chart.js:89-94 | the marker goes on the first point over the hover (compared against `coords.length` slices) and no point before it is over; none when no point is over, and none without a hover |
| Chart.SeriesOf | src/chart.js:82-95 | one series per line column, in order, with its colour, its mapped points and its marker |
| Chart.UnsetBoundsMeanEmptyLines | src/utils.js:63-83 | unset boundaries mean that every line column holds only its header |
| Chart.Paint | src/chart.js:67-96 | the frame's ratios, axes, hovers and series are those of the parts above; `yRation` is set exactly when some line value exists; without it, every series is empty and has no marker |
| ChartFacts.EveryOverIndexIsShown | src/chart.js:132-156 | every index in `[1, len)` whose guide is over the hover produces a tooltip `show` |
| ChartFacts.HoversAnchoredAtPointer | src/chart.js:148 | every tooltip shown is anchored at the current hover's anchor, so tooltips appear only while there is a hover |
| ChartFacts.GuidesApart | src/chart.js:133-140 | two distinct guides at least a slice apart are never both over one hover |
| ChartFacts.WiderSpanSmallerRatio | src/chart.js:72 | `1200 / (n - 2) >= 1200 / n`, the slice width, for the x column's length n |
| ChartFacts.AtMostOneGuideOver | src/chart.js:133-140 | when guides are at least a slice apart, at most one index in `1 .. len-1` is hovered by a given pointer |
| ChartFacts.AtMostOneHoverWhenColumnsAlign | src/chart.js:72-140 | when the first column is as long as the x column, as in a dataset whose columns share one length, at most one index is hovered per paint, whatever the column order |
| ChartFacts.AtMostOneHoverWhenXColumnFirst | src/chart.js:72-140 | when the x column comes first, at most one index is hovered per paint |
| ChartFacts.TooltipValueUndefinedPastEnd | src/chart.js:153 | a tooltip value is undefined exactly when `i + 1` reaches the column's length |
| ChartFacts.HoverMeetsPoint | src/chart.js:133-153 | for hovered index i and line column c: point i of c's coordinates floors the guide `i * xRation` for its x, and the tooltip item of c shows slot i + 1, the value point i was mapped from (src/chart.js:175-181) |
| ChartFacts.TooltipMatchesPointUnderGuide | src/chart.js:133-153 | under a hovered guide, each series' point floors to the guide's x, and the tooltip shows that point's source value (slot i + 1) |
| ChartFacts.NoHoverNoOverlay | src/chart.js:89-94 | with no hover, no guide is drawn, no tooltip is shown and no series gets a marker |
| ChartFacts.HoverLeavesScalesAndAxes | src/chart.js:67-81 | the scale ratios, the gridlines and the x labels do not depend on the hover |
| ChartFacts.HoverLeavesLines | src/chart.js:82-88 | the plotted lines and their colours do not depend on the hover |
| Interaction.OnMouseMove | src/chart.js:43-53 | the hover x is twice the anchor's left offset; the anchor plus the canvas's top-left corner gives back the pointer's client position |
| Interaction.Handle | src/chart.js:43-58 | `mousemove` sets the hover `OnMouseMove` builds, with x `(clientX - left) * 2` and the anchor at the pointer's offset into the canvas; `mouseleave` clears it and hides the tooltip |
| Interaction.LastEventDecides | src/chart.js:43-58 | `Run`, the hover after a run of events, each writing `proxy.mouse` (src/chart.js:46, 56), is the one the last event wrote |
| Interaction.LeaveClearsOverlay | src/chart.js:55-58 | the paint after `mouseleave` has no guide, no tooltip and no marker |
| Interaction.PointerOnGuideShowsIt | src/chart.js:46-52 | a pointer right above index i's guide makes the next paint show index i's tooltip, anchored at the pointer |

## Left out

- Canvas drawing (`clearRect`, `fillText`, `moveTo`/`lineTo`/`stroke`, `arc`, `save`/`restore`) and the `line` and `circle` helpers (src/utils.js:30-59). They appear only as frame entries: gridlines, labels, guides, series and markers. Stroke widths, colours, fonts and the marker radius are drawing detail.
- `css` and canvas sizing (src/utils.js:86-88, src/chart.js:23-30). These are DOM style plumbing.
- `toDate` (src/utils.js:1-20). Its result depends on the platform's local time zone. The frame keeps the timestamp that would be formatted.
- Redraw scheduling: the `Proxy` set trap, `requestAnimationFrame`/`cancelAnimationFrame`, listener registration and `destroy` (src/chart.js:33-41, 60-61, 163-172). These are browser event plumbing. The code does not coalesce requests. Each write overwrites the stored frame handle, and `destroy` cancels only the last one. The model states only that a paint sees the latest hover.
- The `tooltip` module is not part of this model. Only the arguments to `show` and the `hide` call are modelled. `console.log` is dropped.
- IEEE-754 behaviour. Values are exact reals. `NaN` appears only where the model needs it: `yRation` and the y labels when the bounds are unset.
- Chart.Paint: requires `WellFormed`, which excludes three inputs. With `columns[0]` holding exactly one value, `xRation` is Infinity. With no x column, `xData` is undefined and the code throws. With `yMin == yMax`, `yRation` is Infinity.
