/** The hover state and the two pointer handlers that write it. Each write to
    the hover requests a repaint; the repaint itself is `Chart.Paint` of the
    value written. */
module Interaction {
  import opened Wrappers
  import opened Data
  import opened Chart
  import opened ChartFacts

  /** `canvas.getBoundingClientRect()`; only `left` and `top` are read. */
  datatype Rect = Rect(left: real, top: real)

  datatype Event =
    | MouseMove(clientX: real, clientY: real, rect: Rect)
    | MouseLeave

  /** What a handler does: the value it assigns to `proxy.mouse`, and whether
      it calls `ttp.hide()`. */
  datatype Reaction = Reaction(mouse: Option<Mouse>, hideTooltip: bool)

  /** The hover value `mousemove` builds: `x` in backing-store pixels (twice
      the CSS offset), the tooltip anchor as the CSS offset into the canvas. */
  function OnMouseMove(clientX: real, clientY: real, rect: Rect): (m: Mouse)
    ensures m.x == 2.0 * m.tooltip.left
    ensures rect.left + m.tooltip.left == clientX && rect.top + m.tooltip.top == clientY
  {
    Mouse((clientX - rect.left) * 2.0, Anchor(clientX - rect.left, clientY - rect.top))
  }

  /** `mousemove` sets the hover; `mouseleave` clears it to `null` and hides
      the tooltip. Neither reads the previous hover. */
  function Handle(e: Event): (r: Reaction)
    ensures r.mouse.None? <==> e.MouseLeave?
    ensures r.hideTooltip <==> e.MouseLeave?
    ensures e.MouseMove? ==> r.mouse == Some(OnMouseMove(e.clientX, e.clientY, e.rect))
    ensures e.MouseMove? ==> r.mouse.value.x == (e.clientX - e.rect.left) * 2.0
    ensures e.MouseMove? ==> r.mouse.value.tooltip == Anchor(e.clientX - e.rect.left, e.clientY - e.rect.top)
  {
    match e
    case MouseMove(clientX, clientY, rect) => Reaction(Some(OnMouseMove(clientX, clientY, rect)), false)
    case MouseLeave => Reaction(None, true)
  }

  /** The hover after handling `events` in order, starting from `hover`. */
  function Run(hover: Option<Mouse>, events: seq<Event>): Option<Mouse>
    decreases |events|
  {
    if |events| == 0 then hover else Run(Handle(events[0]).mouse, events[1..])
  }

  /** Only the latest event decides the hover, so the paint that follows a
      burst of events reflects the last one alone. */
  lemma {:induction false} LastEventDecides(hover: Option<Mouse>, events: seq<Event>)
    requires |events| > 0
    decreases |events|
    ensures Run(hover, events) == Handle(events[|events| - 1]).mouse
  {
    if |events| > 1 {
      LastEventDecides(Handle(events[0]).mouse, events[1..]);
    }
  }

  /** After `mouseleave` the next paint draws no guide, no marker, and shows
      no tooltip. */
  lemma LeaveClearsOverlay(ds: Dataset)
    requires WellFormed(ds)
    ensures var f := Paint(ds, Handle(MouseLeave).mouse);
      f.hovers == [] && forall s :: s in f.series ==> s.marker.None?
  {
    NoHoverNoOverlay(ds);
  }

  /** A pointer right above the guide of index `i` hovers index `i`: the next
      paint shows the tooltip of `i`, anchored where the pointer is. */
  lemma PointerOnGuideShowsIt(ds: Dataset, clientX: real, clientY: real, rect: Rect, i: nat)
    requires WellFormed(ds)
    requires 1 <= i < OtherColumns(ds.columns, ds.types)[0].Length()
    requires 2.0 * (clientX - rect.left) == i as real * XRation(ds.columns[0])
    ensures var f := Paint(ds, Handle(MouseMove(clientX, clientY, rect)).mouse);
      exists k :: 0 <= k < |f.hovers| && f.hovers[k].index == i
        && f.hovers[k].anchor == Anchor(clientX - rect.left, clientY - rect.top)
  {
    var mouse := Handle(MouseMove(clientX, clientY, rect)).mouse;
    var xData := OtherColumns(ds.columns, ds.types)[0];
    var len := xData.Length();
    var xr := XRation(ds.columns[0]);
    assert mouse.value.x == i as real * xr;
    Utils.OverItself(mouse.value, len, DPI_WIDTH);
    assert GuideOver(mouse, i, xr, len);
    EveryOverIndexIsShown(ds, mouse, i);
    HoversAnchoredAtPointer(ds, mouse);
  }
}
