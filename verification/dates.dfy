/**
 * `parseDates` (backend/src/lib/dataTransform.ts): for every date column
 * whose value in a row is truthy and makes a valid `Date`, the row gains
 * `<column>_parsed` (the ISO text), `<column>_year`, `<column>_month` (the
 * month index plus one) and `<column>_day`.  Other rows and columns are
 * left alone.
 */
module Dates {
  import opened Wrappers
  import opened Strings
  import opened Rows

  /** The suffixes of the four derived fields, in the order they are written. */
  const Suffixes: seq<string> := ["_parsed", "_year", "_month", "_day"]

  /** The value of derived field `t` (an index into `Suffixes`). */
  function FieldValue(d: DateParts, t: nat): Value
    requires t < 4
  {
    if t == 0 then Text(d.iso)
    else if t == 1 then Num(d.year as real)
    else if t == 2 then Num((d.monthIndex + 1) as real)
    else Num(d.day as real)
  }

  /** The date a field makes, when it is truthy and valid. */
  function ParsedDate(js: Js, row: Row, column: string): Option<DateParts>
  {
    var v := Lookup(row, column);
    if Truthy(v) then DateOf(js, v.value) else None
  }

  /** The four fields one column adds for a valid date. */
  function DateFields(column: string, d: DateParts): (es: seq<(string, Value)>)
    ensures |es| == 4
  {
    seq(4, t requires 0 <= t < 4 => (column + Suffixes[t], FieldValue(d, t)))
  }

  /** The fields one row gains, in column order. */
  function DateEntries(js: Js, row: Row, columns: seq<string>): seq<(string, Value)>
  {
    if columns == [] then []
    else
      var init := DateEntries(js, row, columns[..|columns| - 1]);
      var c := columns[|columns| - 1];
      match ParsedDate(js, row, c)
      case Some(d) => init + DateFields(c, d)
      case None => init
  }

  /** `{ ...row }` with the date fields assigned. */
  function DatedRow(js: Js, row: Row, columns: seq<string>): Row
  {
    PutAll(row, DateEntries(js, row, columns))
  }

  /** The rows of `parseDates(data, columns)`. */
  function Dated(js: Js, data: seq<Row>, columns: seq<string>): (out: seq<Row>)
    ensures |out| == |data|
    ensures forall i :: 0 <= i < |data| ==> out[i] == DatedRow(js, data[i], columns)
  {
    seq(|data|, i requires 0 <= i < |data| => DatedRow(js, data[i], columns))
  }

  /** A derived name determines both its column and its suffix: the suffixes end in distinct letters. */
  lemma DerivedNameInjective(a: string, s: nat, b: string, t: nat)
    requires s < 4 && t < 4
    requires a + Suffixes[s] == b + Suffixes[t]
    ensures a == b && s == t
  {
    var x, y := a + Suffixes[s], b + Suffixes[t];
    assert x[|x| - 1] == Suffixes[s][|Suffixes[s]| - 1];
    assert y[|y| - 1] == Suffixes[t][|Suffixes[t]| - 1];
    SuffixInjective(a, b, Suffixes[s]);
  }

  /** The last of a column's four fields under a derived name of that column. */
  lemma DateFieldsLast(c: string, d: DateParts, b: string, t: nat)
    requires t < 4
    ensures LastValue(DateFields(c, d), b + Suffixes[t]) == if b == c then Some(FieldValue(d, t)) else None
  {
    var es := DateFields(c, d);
    forall i, j | 0 <= i < j < 4 ensures Keys(es)[i] != Keys(es)[j] {
      if Keys(es)[i] == Keys(es)[j] {
        DerivedNameInjective(c, i, c, j);
      }
    }
    if b == c {
      LastValueAt(es, t);
    } else {
      forall i | 0 <= i < 4 ensures Keys(es)[i] != b + Suffixes[t] {
        if Keys(es)[i] == b + Suffixes[t] {
          DerivedNameInjective(c, i, b, t);
        }
      }
    }
  }

  /** Only a listed column writes its derived fields, and it writes its own date's parts. */
  lemma {:induction false} DateEntriesLast(js: Js, row: Row, columns: seq<string>, c: string, t: nat)
    requires t < 4
    ensures LastValue(DateEntries(js, row, columns), c + Suffixes[t]) ==
      if c in columns && ParsedDate(js, row, c).Some? then Some(FieldValue(ParsedDate(js, row, c).value, t)) else None
    decreases |columns|
  {
    if columns != [] {
      var init := columns[..|columns| - 1];
      var b := columns[|columns| - 1];
      assert columns == init + [b];
      DateEntriesLast(js, row, init, c, t);
      var es := DateEntries(js, row, init);
      match ParsedDate(js, row, b)
      case Some(d) =>
        LastValueAppend(es, DateFields(b, d), c + Suffixes[t]);
        DateFieldsLast(b, d, c, t);
      case None =>
    }
  }

  /**
   * After `parseDates`, the derived field `t` of a listed column holds that
   * part of the column's date when the value is a valid date, and is left as
   * it was otherwise.
   */
  lemma DatedField(js: Js, row: Row, columns: seq<string>, c: string, t: nat)
    requires c in columns && t < 4
    ensures Lookup(DatedRow(js, row, columns), c + Suffixes[t]) ==
      match ParsedDate(js, row, c)
      case Some(d) => Some(FieldValue(d, t))
      case None => Lookup(row, c + Suffixes[t])
  {
    DateEntriesLast(js, row, columns, c, t);
    PutAllLookup(row, DateEntries(js, row, columns), c + Suffixes[t]);
  }

  /** A row none of whose date fields is a valid date is left exactly as it was. */
  lemma {:induction false} NoDatesNoChange(js: Js, row: Row, columns: seq<string>)
    requires forall c :: c in columns ==> ParsedDate(js, row, c).None?
    ensures DatedRow(js, row, columns) == row
    decreases |columns|
  {
    if columns != [] {
      var init := columns[..|columns| - 1];
      assert forall c :: c in init ==> c in columns;
      assert columns[|columns| - 1] in columns;
      NoDatesNoChange(js, row, init);
    }
  }

  /** The callback of `data.map`: copy the row, then assign the parts of each valid date. */
  method ParseRowDates(js: Js, row: Row, columns: seq<string>) returns (newRow: Row)
    ensures newRow == DatedRow(js, row, columns)
  {
    newRow := row;
    for j := 0 to |columns|
      invariant newRow == PutAll(row, DateEntries(js, row, columns[..j]))
    {
      DateEntriesSnoc(js, row, columns, j);
      var column := columns[j];
      var value := Lookup(row, column);
      if Truthy(value) {
        var date := DateOf(js, value.value);
        if date.Some? {
          var d := date.value;
          PutAllAppend(row, DateEntries(js, row, columns[..j]), DateFields(column, d));
          DateFieldPuts(newRow, column, d);
          newRow := Put(newRow, column + "_parsed", Text(d.iso));
          newRow := Put(newRow, column + "_year", Num(d.year as real));
          newRow := Put(newRow, column + "_month", Num((d.monthIndex + 1) as real));
          newRow := Put(newRow, column + "_day", Num(d.day as real));
        }
      }
    }
    assert columns[..|columns|] == columns;
  }

  /** The fields of one more column. */
  lemma DateEntriesSnoc(js: Js, row: Row, columns: seq<string>, j: nat)
    requires j < |columns|
    ensures DateEntries(js, row, columns[..j + 1]) ==
      match ParsedDate(js, row, columns[j])
      case Some(d) => DateEntries(js, row, columns[..j]) + DateFields(columns[j], d)
      case None => DateEntries(js, row, columns[..j])
  {
    assert columns[..j + 1][..j] == columns[..j];
  }

  /** Four assignments in a row are the series of them. */
  lemma FourPuts(row: Row, es: seq<(string, Value)>)
    requires |es| == 4
    ensures PutAll(row, es) == Put(Put(Put(Put(row, es[0].0, es[0].1), es[1].0, es[1].1), es[2].0, es[2].1), es[3].0, es[3].1)
  {
    var r1 := Put(row, es[0].0, es[0].1);
    var r2 := Put(r1, es[1].0, es[1].1);
    var r3 := Put(r2, es[2].0, es[2].1);
    assert PutAll(row, es) == PutAll(r1, es[1..]);
    assert PutAll(r1, es[1..]) == PutAll(r2, es[2..]);
    assert PutAll(r2, es[2..]) == PutAll(r3, es[3..]);
    assert PutAll(r3, es[3..]) == PutAll(Put(r3, es[3].0, es[3].1), es[4..]);
    assert es[4..] == [];
  }

  /** The four assignments of one valid date are its fields assigned in order. */
  lemma DateFieldPuts(row: Row, column: string, d: DateParts)
    ensures PutAll(row, DateFields(column, d))
      == Put(Put(Put(Put(row, column + "_parsed", Text(d.iso)), column + "_year", Num(d.year as real)),
           column + "_month", Num((d.monthIndex + 1) as real)), column + "_day", Num(d.day as real))
  {
    var fields := DateFields(column, d);
    FourPuts(row, fields);
    assert fields[0] == (column + "_parsed", Text(d.iso));
    assert fields[1] == (column + "_year", Num(d.year as real));
    assert fields[2] == (column + "_month", Num((d.monthIndex + 1) as real));
    assert fields[3] == (column + "_day", Num(d.day as real));
  }

  /** `parseDates(data, columns)`. */
  method ParseDates(js: Js, data: seq<Row>, columns: seq<string>) returns (out: seq<Row>)
    ensures out == Dated(js, data, columns)
  {
    ghost var spec := Dated(js, data, columns);
    out := [];
    for i := 0 to |data|
      invariant out == spec[..i]
    {
      PrefixSnoc(spec, i);
      var newRow := ParseRowDates(js, data[i], columns);
      out := out + [newRow];
    }
  }
}
