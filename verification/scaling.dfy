/**
 * `scaleNumeric` (backend/src/lib/dataTransform.ts): min-max scaling.  For
 * each numeric column the smallest and largest values `Number` accepts are
 * found; then every row whose value parses gains `<column>_scaled` holding
 * `(value - min) / (max - min || 1)`.  A row whose value does not parse gets
 * no scaled field.  `Number('')` is 0, so an empty cell takes part as 0.
 */
module Scaling {
  import opened Wrappers
  import opened Strings
  import opened Rows

  /** The numbers of `column` that `Number` accepts, in row order. */
  function Parsed(js: Js, rows: seq<Row>, column: string): (xs: seq<real>)
    ensures |xs| <= |rows|
  {
    if rows == [] then []
    else
      var init := Parsed(js, rows[..|rows| - 1], column);
      match NumberOf(js, Lookup(rows[|rows| - 1], column))
      case Some(x) => init + [x]
      case None => init
  }

  function Min(a: real, b: real): real { if a <= b then a else b }
  function Max(a: real, b: real): real { if a >= b then a else b }

  /** The smallest element of a non-empty sequence. */
  function SeqMin(xs: seq<real>): (m: real)
    requires |xs| > 0
    ensures m in xs
    ensures forall i :: 0 <= i < |xs| ==> m <= xs[i]
  {
    if |xs| == 1 then xs[0]
    else
      var init := xs[..|xs| - 1];
      assert forall i :: 0 <= i < |init| ==> init[i] == xs[i];
      Min(SeqMin(init), xs[|xs| - 1])
  }

  /** The largest element of a non-empty sequence. */
  function SeqMax(xs: seq<real>): (m: real)
    requires |xs| > 0
    ensures m in xs
    ensures forall i :: 0 <= i < |xs| ==> xs[i] <= m
  {
    if |xs| == 1 then xs[0]
    else
      var init := xs[..|xs| - 1];
      assert forall i :: 0 <= i < |init| ==> init[i] == xs[i];
      Max(SeqMax(init), xs[|xs| - 1])
  }

  /** The `{ min, max }` of a column; `None` when no value parses (the source keeps `Infinity, -Infinity`). */
  function Bounds(js: Js, data: seq<Row>, column: string): Option<(real, real)>
  {
    var xs := Parsed(js, data, column);
    if xs == [] then None else Some((SeqMin(xs), SeqMax(xs)))
  }

  /** Every value that parses is among the parsed numbers. */
  lemma {:induction false} ParsedHas(js: Js, rows: seq<Row>, column: string, i: nat)
    requires i < |rows| && NumberOf(js, Lookup(rows[i], column)).Some?
    ensures NumberOf(js, Lookup(rows[i], column)).value in Parsed(js, rows, column)
  {
    if i < |rows| - 1 {
      var init := rows[..|rows| - 1];
      assert init[i] == rows[i];
      ParsedHas(js, init, column, i);
    }
  }

  /** Nothing parses exactly when the parsed numbers are empty. */
  lemma {:induction false} ParsedEmpty(js: Js, rows: seq<Row>, column: string)
    ensures Parsed(js, rows, column) == [] <==>
      forall i :: 0 <= i < |rows| ==> NumberOf(js, Lookup(rows[i], column)).None?
  {
    if rows != [] {
      var init := rows[..|rows| - 1];
      ParsedEmpty(js, init, column);
      assert forall i :: 0 <= i < |init| ==> init[i] == rows[i];
    }
  }

  /**
   * The bounds are missing only when no row parses, and otherwise they are
   * the least and greatest parsed values: every parsed value lies between them.
   */
  lemma BoundsMeaning(js: Js, data: seq<Row>, column: string)
    ensures Bounds(js, data, column).None? <==>
      forall i :: 0 <= i < |data| ==> NumberOf(js, Lookup(data[i], column)).None?
    ensures Bounds(js, data, column).Some? ==>
      var (lo, hi) := Bounds(js, data, column).value;
      forall i :: 0 <= i < |data| && NumberOf(js, Lookup(data[i], column)).Some? ==>
        lo <= NumberOf(js, Lookup(data[i], column)).value <= hi
  {
    ParsedEmpty(js, data, column);
    forall i | 0 <= i < |data| && NumberOf(js, Lookup(data[i], column)).Some?
      ensures NumberOf(js, Lookup(data[i], column)).value in Parsed(js, data, column)
    {
      ParsedHas(js, data, column, i);
    }
  }

  /** `(value - min) / (max - min || 1)`: within `[0, 1]` for a value between the bounds. */
  function ScaleValue(x: real, lo: real, hi: real): (r: real)
    ensures lo <= x <= hi ==> 0.0 <= r <= 1.0
    ensures x == lo ==> r == 0.0
    ensures lo < hi && x == hi ==> r == 1.0
  {
    var range := if hi - lo == 0.0 then 1.0 else hi - lo;
    QuotientAtMostOne(x - lo, range);
    (x - lo) / range
  }

  lemma QuotientAtMostOne(a: real, b: real)
    ensures b > 0.0 && 0.0 <= a <= b ==> 0.0 <= a / b <= 1.0
  {
    if b > 0.0 && 0.0 <= a <= b {
      assert a / b * b == a;
    }
  }

  /** Scaling keeps the order of values between the bounds. */
  lemma ScaleMonotone(x: real, y: real, lo: real, hi: real)
    requires lo <= hi && x <= y
    ensures ScaleValue(x, lo, hi) <= ScaleValue(y, lo, hi)
  {
    var range := if hi - lo == 0.0 then 1.0 else hi - lo;
    assert (y - lo) / range - (x - lo) / range == (y - x) / range;
  }

  /** The scaled field one row gets for one column, if any. */
  function ScaledValueOf(js: Js, data: seq<Row>, column: string, row: Row): Option<Value>
  {
    match (NumberOf(js, Lookup(row, column)), Bounds(js, data, column))
    case (Some(x), Some((lo, hi))) => Some(Num(ScaleValue(x, lo, hi)))
    case _ => None
  }

  /** The fields one row gains, in column order. */
  function ScaledEntries(js: Js, data: seq<Row>, columns: seq<string>, row: Row): seq<(string, Value)>
  {
    if columns == [] then []
    else
      var init := ScaledEntries(js, data, columns[..|columns| - 1], row);
      var c := columns[|columns| - 1];
      match ScaledValueOf(js, data, c, row)
      case Some(v) => init + [(c + "_scaled", v)]
      case None => init
  }

  /** `{ ...row }` with the scaled fields assigned. */
  function ScaledRow(js: Js, data: seq<Row>, columns: seq<string>, row: Row): Row
  {
    PutAll(row, ScaledEntries(js, data, columns, row))
  }

  /** The result of `scaleNumeric(data, columns)`. */
  function Scaled(js: Js, data: seq<Row>, columns: seq<string>): (out: seq<Row>)
    ensures |out| == |data|
    ensures forall i :: 0 <= i < |data| ==> out[i] == ScaledRow(js, data, columns, data[i])
  {
    seq(|data|, i requires 0 <= i < |data| => ScaledRow(js, data, columns, data[i]))
  }

  /** Only a listed column writes `<column>_scaled`, and what it writes is its scaled value. */
  lemma {:induction false} ScaledEntriesLast(js: Js, data: seq<Row>, columns: seq<string>, row: Row, c: string)
    ensures LastValue(ScaledEntries(js, data, columns, row), c + "_scaled")
      == if c in columns then ScaledValueOf(js, data, c, row) else None
    decreases |columns|
  {
    if columns != [] {
      var init := columns[..|columns| - 1];
      var d := columns[|columns| - 1];
      assert columns == init + [d];
      ScaledEntriesLast(js, data, init, row, c);
      var es := ScaledEntries(js, data, init, row);
      match ScaledValueOf(js, data, d, row)
      case Some(v) =>
        LastValueAppend(es, [(d + "_scaled", v)], c + "_scaled");
        if c + "_scaled" == d + "_scaled" {
          SuffixInjective(c, d, "_scaled");
        }
      case None =>
        if c == d && c !in init {
          assert LastValue(es, c + "_scaled").None?;
        }
    }
  }

  /**
   * After scaling, `<c>_scaled` of a listed column `c` holds the row's scaled
   * value when the value parses, and is left as it was otherwise.
   */
  lemma ScaledField(js: Js, data: seq<Row>, columns: seq<string>, row: Row, c: string)
    requires c in columns
    ensures Lookup(ScaledRow(js, data, columns, row), c + "_scaled")
      == if ScaledValueOf(js, data, c, row).Some? then ScaledValueOf(js, data, c, row) else Lookup(row, c + "_scaled")
  {
    var es := ScaledEntries(js, data, columns, row);
    ScaledEntriesLast(js, data, columns, row, c);
    PutAllLookup(row, es, c + "_scaled");
  }

  /** Fields that are not scaled fields of listed columns are left as they were. */
  lemma ScaledKeeps(js: Js, data: seq<Row>, columns: seq<string>, row: Row, k: string)
    requires forall c :: c in columns ==> k != c + "_scaled"
    ensures Lookup(ScaledRow(js, data, columns, row), k) == Lookup(row, k)
  {
    var es := ScaledEntries(js, data, columns, row);
    PutAllLookup(row, es, k);
    ScaledKeysForm(js, data, columns, row);
  }

  /** Every key the scaling writes is `<c>_scaled` for a listed column `c`. */
  lemma {:induction false} ScaledKeysForm(js: Js, data: seq<Row>, columns: seq<string>, row: Row)
    ensures forall k :: k in Keys(ScaledEntries(js, data, columns, row)) ==>
      exists c :: c in columns && k == c + "_scaled"
    decreases |columns|
  {
    if columns != [] {
      var init := columns[..|columns| - 1];
      var d := columns[|columns| - 1];
      ScaledKeysForm(js, data, init, row);
      var es := ScaledEntries(js, data, init, row);
      forall k | k in Keys(ScaledEntries(js, data, columns, row))
        ensures exists c :: c in columns && k == c + "_scaled"
      {
        match ScaledValueOf(js, data, d, row)
        case Some(v) =>
          KeysAppend(es, [(d + "_scaled", v)]);
          if k == d + "_scaled" {
            assert d in columns;
          } else {
            var c :| c in init && k == c + "_scaled";
            assert c in columns;
          }
        case None =>
          var c :| c in init && k == c + "_scaled";
          assert c in columns;
      }
    }
  }

  /** A row of the data gets, for a listed column whose value parses, a scaled value within `[0, 1]`. */
  lemma ScaledInUnitRange(js: Js, data: seq<Row>, c: string, i: nat)
    requires i < |data| && NumberOf(js, Lookup(data[i], c)).Some?
    ensures ScaledValueOf(js, data, c, data[i]).Some?
    ensures 0.0 <= ScaledValueOf(js, data, c, data[i]).value.x <= 1.0
  {
    BoundsMeaning(js, data, c);
  }

  /** The column's extreme rows scale to 0 and to 1. */
  lemma ExtremesScaleToEnds(js: Js, data: seq<Row>, c: string)
    requires Bounds(js, data, c).Some?
    ensures var (lo, hi) := Bounds(js, data, c).value;
      ScaleValue(lo, lo, hi) == 0.0 && (lo < hi ==> ScaleValue(hi, lo, hi) == 1.0)
  {
  }

  /** One more row read: a value that parses extends the parsed numbers and moves the bounds to it. */
  lemma ParsedStep(js: Js, rows: seq<Row>, column: string, i: nat)
    requires i < |rows|
    ensures var before, after := Parsed(js, rows[..i], column), Parsed(js, rows[..i + 1], column);
      match NumberOf(js, Lookup(rows[i], column))
      case Some(x) =>
        && after == before + [x]
        && SeqMin(after) == (if before == [] then x else Min(SeqMin(before), x))
        && SeqMax(after) == (if before == [] then x else Max(SeqMax(before), x))
      case None => after == before
  {
    assert rows[..i + 1][..i] == rows[..i];
    var before := Parsed(js, rows[..i], column);
    match NumberOf(js, Lookup(rows[i], column))
    case Some(x) => assert (before + [x])[..|before|] == before;
    case None =>
  }

  /** The min/max pass over one column. */
  method ColumnBounds(js: Js, data: seq<Row>, column: string) returns (b: Option<(real, real)>)
    ensures b == Bounds(js, data, column)
  {
    var found, lo, hi := false, 0.0, 0.0;
    for i := 0 to |data|
      invariant found <==> Parsed(js, data[..i], column) != []
      invariant found ==> lo == SeqMin(Parsed(js, data[..i], column)) && hi == SeqMax(Parsed(js, data[..i], column))
    {
      ParsedStep(js, data, column, i);
      var value := NumberOf(js, Lookup(data[i], column));
      match value
      case Some(x) =>
        if found {
          lo, hi := Min(lo, x), Max(hi, x);
        } else {
          lo, hi := x, x;
        }
        found := true;
      case None =>
    }
    assert data[..|data|] == data;
    b := if found then Some((lo, hi)) else None;
  }

  /** The callback of `data.map`: copy the row, then assign each column's scaled value. */
  method ScaleRow(js: Js, data: seq<Row>, columns: seq<string>, params: seq<Option<(real, real)>>, row: Row)
    returns (newRow: Row)
    requires ScaleParams(js, data, columns, params)
    ensures newRow == ScaledRow(js, data, columns, row)
  {
    newRow := row;
    for j := 0 to |columns|
      invariant newRow == PutAll(row, ScaledEntries(js, data, columns[..j], row))
    {
      assert columns[..j + 1][..j] == columns[..j];
      var value := NumberOf(js, Lookup(row, columns[j]));
      if value.Some? && params[j].Some? {
        var (lo, hi) := params[j].value;
        PutAllSnoc(row, ScaledEntries(js, data, columns[..j], row), (columns[j] + "_scaled", Num(ScaleValue(value.value, lo, hi))));
        newRow := Put(newRow, columns[j] + "_scaled", Num(ScaleValue(value.value, lo, hi)));
      }
    }
    assert columns[..|columns|] == columns;
  }

  /** `params` holds the bounds of each column, in column order. */
  predicate ScaleParams(js: Js, data: seq<Row>, columns: seq<string>, params: seq<Option<(real, real)>>)
  {
    |params| == |columns| && forall m :: 0 <= m < |columns| ==> params[m] == Bounds(js, data, columns[m])
  }

  /** The first pass of `scaleNumeric`: the bounds of every column, in column order. */
  method AllBounds(js: Js, data: seq<Row>, columns: seq<string>) returns (params: seq<Option<(real, real)>>)
    ensures ScaleParams(js, data, columns, params)
  {
    params := [];
    for j := 0 to |columns|
      invariant |params| == j
      invariant forall m :: 0 <= m < j ==> params[m] == Bounds(js, data, columns[m])
    {
      var b := ColumnBounds(js, data, columns[j]);
      params := params + [b];
    }
  }

  /** `scaleNumeric(data, columns)`: the bounds of every column, then every row scaled. */
  method ScaleNumeric(js: Js, data: seq<Row>, columns: seq<string>) returns (out: seq<Row>)
    ensures out == Scaled(js, data, columns)
  {
    var params := AllBounds(js, data, columns);
    ghost var spec := Scaled(js, data, columns);
    out := [];
    for i := 0 to |data|
      invariant out == spec[..i]
    {
      PrefixSnoc(spec, i);
      var newRow := ScaleRow(js, data, columns, params, data[i]);
      out := out + [newRow];
    }
  }
}
