/** The pure helpers of the chart: the hover hit test and the y-range scan. */
module Utils {
  import opened Wrappers
  import opened Data

  function Abs(r: real): (a: real)
    ensures a >= 0.0 && (a == r || a == -r)
  {
    if r < 0.0 then -r else r
  }

  // ---------------------------------------------------------------------------
  // Hit test

  /** Half the width of the slice each of `length` samples owns across
      `dpiWidth` pixels. */
  function HalfSlice(length: nat, dpiWidth: real): real
    requires length > 0
  {
    dpiWidth / length as real / 2.0
  }

  /** `isOver(mouse, x, length, dpiWidth)`: whether the candidate pixel `x` lies
      strictly within half a slice of the hover. With `length == 0` the slice
      width `dpiWidth / 0` is +Infinity, -Infinity or NaN, so only a positive
      `dpiWidth` lets every candidate through. */
  function IsOver(mouse: Option<Mouse>, x: real, length: nat, dpiWidth: real): (r: bool)
    ensures mouse.None? ==> !r
    ensures mouse.Some? && length > 0 ==>
      (r <==> mouse.value.x - HalfSlice(length, dpiWidth) < x < mouse.value.x + HalfSlice(length, dpiWidth))
  {
    match mouse
    case None => false
    case Some(m) =>
      if length == 0 then 0.0 < dpiWidth
      else Abs(x - m.x) < dpiWidth / length as real / 2.0
  }

  /** A candidate at the hover's own x is over it whenever slices have positive width. */
  lemma OverItself(m: Mouse, length: nat, dpiWidth: real)
    requires length > 0 && dpiWidth > 0.0
    ensures IsOver(Some(m), m.x, length, dpiWidth)
  {
    assert dpiWidth / length as real > 0.0;
  }

  /** A candidate a whole slice (or more) away from the hover is never over it. */
  lemma NotOverAcrossSlice(m: Mouse, x: real, length: nat, dpiWidth: real)
    requires length > 0
    requires Abs(x - m.x) >= dpiWidth / length as real
    ensures !IsOver(Some(m), x, length, dpiWidth)
  {
  }

  /** In a row of candidates whose neighbours are at least a slice apart, the
      later one is at least a slice past the earlier one. */
  lemma {:induction false} SpacedApart(xs: seq<real>, w: real, i: nat, j: nat)
    requires w >= 0.0
    requires forall k :: 0 <= k < |xs| - 1 ==> xs[k] + w <= xs[k + 1]
    requires i < j < |xs|
    ensures xs[i] + w <= xs[j]
  {
    if j > i + 1 {
      SpacedApart(xs, w, i, j - 1);
    }
  }

  /** At most one of a row of candidates spaced at least a slice apart is over
      a given hover: the band the strict test accepts is one slice wide and open. */
  lemma AtMostOneOver(mouse: Option<Mouse>, xs: seq<real>, length: nat, dpiWidth: real)
    requires length > 0
    requires forall k :: 0 <= k < |xs| - 1 ==> xs[k] + dpiWidth / length as real <= xs[k + 1]
    ensures forall i, j ::
      (0 <= i < |xs| && 0 <= j < |xs| &&
       IsOver(mouse, xs[i], length, dpiWidth) && IsOver(mouse, xs[j], length, dpiWidth)) ==> i == j
  {
    var w := dpiWidth / length as real;
    forall i, j | 0 <= i < |xs| && 0 <= j < |xs| &&
      IsOver(mouse, xs[i], length, dpiWidth) && IsOver(mouse, xs[j], length, dpiWidth)
      ensures i == j
    {
      if w >= 0.0 {
        if i < j {
          SpacedApart(xs, w, i, j);
        } else if j < i {
          SpacedApart(xs, w, j, i);
        }
      }
    }
  }

  // ---------------------------------------------------------------------------
  // Boundaries

  datatype Bounds = Bounds(min: real, max: real)

  /** One comparison step of `computeBoundaries`: an unset bound takes the
      value, a set one moves out to include it. */
  function Include(acc: Option<Bounds>, v: real): (r: Bounds)
    ensures r.min <= v <= r.max
    ensures acc.Some? ==> r.min <= acc.value.min && acc.value.max <= r.max
    ensures r.min == v || (acc.Some? && r.min == acc.value.min)
    ensures r.max == v || (acc.Some? && r.max == acc.value.max)
  {
    match acc
    case None => Bounds(v, v)
    case Some(b) => Bounds(if b.min > v then v else b.min, if b.max < v then v else b.max)
  }

  /** The scan over one column's value slots, in order. */
  function ScanValues(acc: Option<Bounds>, vs: seq<real>): (r: Option<Bounds>)
    decreases |vs|
    ensures r.None? <==> acc.None? && |vs| == 0
    ensures |vs| > 0 ==> r.value.min <= r.value.max
    ensures forall v :: v in vs ==> r.Some? && r.value.min <= v <= r.value.max
    ensures acc.Some? ==> r.Some? && r.value.min <= acc.value.min && acc.value.max <= r.value.max
    ensures r.Some? ==> r.value.min in vs || (acc.Some? && r.value.min == acc.value.min)
    ensures r.Some? ==> r.value.max in vs || (acc.Some? && r.value.max == acc.value.max)
  {
    if |vs| == 0 then acc
    else
      assert forall v :: v in vs ==> v == vs[0] || v in vs[1..];
      ScanValues(Some(Include(acc, vs[0])), vs[1..])
  }

  /** The `columns.forEach` of `computeBoundaries`: columns that are not
      `'line'` are skipped. */
  function ScanColumns(acc: Option<Bounds>, cs: seq<Column>, types: map<string, string>): (r: Option<Bounds>)
    decreases |cs|
    ensures r.None? <==> acc.None? && |LineValues(cs, types)| == 0
    ensures |LineValues(cs, types)| > 0 ==> r.value.min <= r.value.max
    ensures forall v :: v in LineValues(cs, types) ==> r.Some? && r.value.min <= v <= r.value.max
    ensures acc.Some? ==> r.Some? && r.value.min <= acc.value.min && acc.value.max <= r.value.max
    ensures r.Some? ==> r.value.min in LineValues(cs, types) || (acc.Some? && r.value.min == acc.value.min)
    ensures r.Some? ==> r.value.max in LineValues(cs, types) || (acc.Some? && r.value.max == acc.value.max)
  {
    if |cs| == 0 then acc
    else
      var acc' := if IsLine(types, cs[0]) then ScanValues(acc, cs[0].values) else acc;
      ScanColumns(acc', cs[1..], types)
  }

  /** `computeBoundaries({ columns, types })`: the least and greatest value over
      every value slot of every `'line'` column; None (both left unset) when
      there is no such slot. */
  function Boundaries(cs: seq<Column>, types: map<string, string>): (r: Option<Bounds>)
    ensures r.None? <==> |LineValues(cs, types)| == 0
    ensures r.Some? ==> r.value.min <= r.value.max
    ensures r.Some? ==> r.value.min in LineValues(cs, types) && r.value.max in LineValues(cs, types)
    ensures forall v :: v in LineValues(cs, types) ==> r.Some? && r.value.min <= v <= r.value.max
  {
    ScanColumns(None, cs, types)
  }

  /** Removing the columns that are not `'line'` does not change the scan. */
  lemma {:induction false} ScanIgnoresOtherColumns(acc: Option<Bounds>, cs: seq<Column>, types: map<string, string>)
    decreases |cs|
    ensures ScanColumns(acc, cs, types) == ScanColumns(acc, LineColumns(cs, types), types)
  {
    if |cs| > 0 {
      var acc' := if IsLine(types, cs[0]) then ScanValues(acc, cs[0].values) else acc;
      ScanIgnoresOtherColumns(acc', cs[1..], types);
      var rest := LineColumns(cs[1..], types);
      if IsLine(types, cs[0]) {
        assert LineColumns(cs, types) == [cs[0]] + rest;
        assert ([cs[0]] + rest)[1..] == rest;
      } else {
        assert LineColumns(cs, types) == rest;
      }
    }
  }

  /** Columns whose type is not `'line'` have no effect on the boundaries. */
  lemma BoundariesIgnoreOtherColumns(cs: seq<Column>, types: map<string, string>)
    ensures Boundaries(cs, types) == Boundaries(LineColumns(cs, types), types)
  {
    ScanIgnoresOtherColumns(None, cs, types);
  }
}
