/** The chart's input and the hover value it reacts to.

    A dataset column is the JavaScript array `[name, v1, ..., vn]`: slot 0 is
    the column's name and the remaining slots are its values. `types`,
    `colors` and `names` are objects keyed by column name. */
module Data {
  import opened Wrappers

  /** A column `[name, v1, ..., vn]`. `values` holds `v1 .. vn`, so the
      JavaScript slot `i >= 1` is `values[i - 1]`. */
  datatype Column = Column(name: string, values: seq<real>) {

    /** The JavaScript `col.length`, header slot included. */
    function Length(): (n: nat)
      ensures n >= 1 && n == |values| + 1
    {
      |values| + 1
    }

    /** The JavaScript read `col[i]` of a value slot; `undefined` (None) at or
        past `col.length`. */
    function At(i: nat): (r: Option<real>)
      requires i >= 1
      ensures r.Some? <==> i < Length()
      ensures r.Some? ==> r.value == values[i - 1]
    {
      if i - 1 < |values| then Some(values[i - 1]) else None
    }
  }

  datatype Dataset = Dataset(
    columns: seq<Column>,
    types: map<string, string>,
    colors: map<string, string>,
    names: map<string, string>)

  /** The tooltip anchor, in the canvas's own (unscaled) coordinates. */
  datatype Anchor = Anchor(left: real, top: real)

  /** The hover value `{ x, tooltip }`: `x` is in backing-store pixels, which
      are twice the canvas's CSS pixels. */
  datatype Mouse = Mouse(x: real, tooltip: Anchor)

  /** A property read `obj[key]` on one of the dataset's name-keyed objects. */
  function Get(m: map<string, string>, key: string): (r: Option<string>)
    ensures r.Some? <==> key in m
    ensures r.Some? ==> r.value == m[key]
  {
    if key in m then Some(m[key]) else None
  }

  /** `types[col[0]] === 'line'`: a missing entry reads as `undefined`, which is
      not `'line'`. */
  predicate IsLine(types: map<string, string>, c: Column) {
    Get(types, c.name) == Some("line")
  }

  /** The columns whose `'line'`-ness is `line`, in dataset order: the shape
      shared by the chart's two `columns.filter` calls. */
  function Kind(cs: seq<Column>, types: map<string, string>, line: bool): seq<Column>
  {
    if |cs| == 0 then []
    else (if IsLine(types, cs[0]) == line then [cs[0]] else []) + Kind(cs[1..], types, line)
  }

  /** `Kind` keeps exactly the columns of its kind. */
  lemma {:induction false} KindMembers(cs: seq<Column>, types: map<string, string>, line: bool)
    ensures |Kind(cs, types, line)| <= |cs|
    ensures forall c :: c in Kind(cs, types, line) <==> c in cs && IsLine(types, c) == line
  {
    if |cs| > 0 {
      KindMembers(cs[1..], types, line);
      assert cs == [cs[0]] + cs[1..];
    }
  }

  /** `columns.filter(col => types[col[0]] === 'line')`. */
  function LineColumns(cs: seq<Column>, types: map<string, string>): (r: seq<Column>)
    ensures |r| <= |cs|
    ensures forall c :: c in r <==> c in cs && IsLine(types, c)
  {
    KindMembers(cs, types, true);
    Kind(cs, types, true)
  }

  /** `columns.filter(col => types[col[0]] !== 'line')`. */
  function OtherColumns(cs: seq<Column>, types: map<string, string>): (r: seq<Column>)
    ensures |r| <= |cs|
    ensures forall c :: c in r <==> c in cs && !IsLine(types, c)
  {
    KindMembers(cs, types, false);
    Kind(cs, types, false)
  }

  lemma ConcatAssoc<T>(x: seq<T>, y: seq<T>, z: seq<T>)
    ensures x + (y + z) == (x + y) + z
  {}

  lemma {:induction false} KindAppend(a: seq<Column>, b: seq<Column>, types: map<string, string>, line: bool)
    ensures Kind(a + b, types, line) == Kind(a, types, line) + Kind(b, types, line)
  {
    if |a| == 0 {
      assert a + b == b;
    } else {
      var t := a[1..];
      var h := if IsLine(types, a[0]) == line then [a[0]] else [];
      KindAppend(t, b, types, line);
      calc {
        Kind(a + b, types, line);
        { assert (a + b)[0] == a[0]; assert (a + b)[1..] == t + b; }
        h + Kind(t + b, types, line);
        h + (Kind(t, types, line) + Kind(b, types, line));
        { ConcatAssoc(h, Kind(t, types, line), Kind(b, types, line)); }
        (h + Kind(t, types, line)) + Kind(b, types, line);
      }
    }
  }

  /** Filtering a concatenation filters each part and keeps the parts in
      order: both filters keep the dataset's column order. */
  lemma FiltersKeepOrder(a: seq<Column>, b: seq<Column>, types: map<string, string>)
    ensures LineColumns(a + b, types) == LineColumns(a, types) + LineColumns(b, types)
    ensures OtherColumns(a + b, types) == OtherColumns(a, types) + OtherColumns(b, types)
  {
    KindAppend(a, b, types, true);
    KindAppend(a, b, types, false);
  }

  lemma {:induction false} KindPartition(cs: seq<Column>, types: map<string, string>)
    ensures multiset(Kind(cs, types, true)) + multiset(Kind(cs, types, false)) == multiset(cs)
  {
    if |cs| > 0 {
      var x, t := cs[0], cs[1..];
      KindPartition(t, types);
      PartitionStep(x, t, types);
      assert cs == [x] + t;
    }
  }

  lemma PartitionStep(x: Column, t: seq<Column>, types: map<string, string>)
    requires multiset(Kind(t, types, true)) + multiset(Kind(t, types, false)) == multiset(t)
    ensures multiset(Kind([x] + t, types, true)) + multiset(Kind([x] + t, types, false)) == multiset([x] + t)
  {
    KindStep(x, t, types, true);
    KindStep(x, t, types, false);
    var l, o := Kind(t, types, true), Kind(t, types, false);
    assert multiset([x] + t) == multiset{x} + multiset(t);
    if IsLine(types, x) {
      assert multiset([x] + l) == multiset{x} + multiset(l);
    } else {
      assert multiset([x] + o) == multiset{x} + multiset(o);
    }
  }

  lemma KindStep(x: Column, t: seq<Column>, types: map<string, string>, line: bool)
    ensures Kind([x] + t, types, line) == (if IsLine(types, x) == line then [x] + Kind(t, types, line) else Kind(t, types, line))
  {
    assert ([x] + t)[0] == x && ([x] + t)[1..] == t;
    assert [] + Kind(t, types, line) == Kind(t, types, line);
  }

  /** The two filters split the columns: each column lands in exactly one of
      them, as many times as it occurs. */
  lemma FiltersPartition(cs: seq<Column>, types: map<string, string>)
    ensures multiset(LineColumns(cs, types)) + multiset(OtherColumns(cs, types)) == multiset(cs)
  {
    KindPartition(cs, types);
  }

  /** A run of columns none of which is of the kind keeps nothing. */
  lemma {:induction false} KindNone(cs: seq<Column>, types: map<string, string>, line: bool)
    requires forall i :: 0 <= i < |cs| ==> IsLine(types, cs[i]) != line
    ensures Kind(cs, types, line) == []
  {
    if |cs| > 0 {
      KindNone(cs[1..], types, line);
    }
  }

  /** The first column of the kind heads the filter. */
  lemma KindHead(cs: seq<Column>, types: map<string, string>, line: bool, j: nat)
    requires j < |cs| && IsLine(types, cs[j]) == line
    requires forall i :: 0 <= i < j ==> IsLine(types, cs[i]) != line
    ensures |Kind(cs, types, line)| > 0 && Kind(cs, types, line)[0] == cs[j]
  {
    var pre, post := cs[..j], cs[j..];
    assert cs == pre + post;
    KindAppend(pre, post, types, line);
    KindNone(pre, types, line);
    assert post[0] == cs[j];
  }

  /** The dataset's first `'line'` column heads `LineColumns`. */
  lemma FirstLineColumn(cs: seq<Column>, types: map<string, string>, j: nat)
    requires j < |cs| && IsLine(types, cs[j])
    requires forall i :: 0 <= i < j ==> !IsLine(types, cs[i])
    ensures |LineColumns(cs, types)| > 0 && LineColumns(cs, types)[0] == cs[j]
  {
    KindHead(cs, types, true, j);
  }

  /** The dataset's first column that is not `'line'` heads `OtherColumns`:
      it is the `xData` the chart reads its dates from. */
  lemma FirstOtherColumn(cs: seq<Column>, types: map<string, string>, j: nat)
    requires j < |cs| && !IsLine(types, cs[j])
    requires forall i :: 0 <= i < j ==> IsLine(types, cs[i])
    ensures |OtherColumns(cs, types)| > 0 && OtherColumns(cs, types)[0] == cs[j]
  {
    KindHead(cs, types, false, j);
  }

  /** Every value slot of every line column, columns in dataset order. */
  function LineValues(cs: seq<Column>, types: map<string, string>): (r: seq<real>)
    ensures forall c, v :: c in cs && IsLine(types, c) && v in c.values ==> v in r
    ensures forall v :: v in r ==> exists c :: c in cs && IsLine(types, c) && v in c.values
  {
    if |cs| == 0 then []
    else (if IsLine(types, cs[0]) then cs[0].values else []) + LineValues(cs[1..], types)
  }
}
