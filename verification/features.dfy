/**
 * `createDerivedFeatures` (backend/src/lib/dataTransform.ts): when there is
 * at least one numeric column, every row gains `numeric_sum`, the sum of its
 * numeric values that `Number` accepts, and `numeric_avg`, their mean (0 when
 * none parses).  The feature names are reported once the first row has them.
 */
module Features {
  import opened Wrappers
  import opened Rows

  /** The values of `columns` in `row` that `Number` accepts, in column order. */
  function RowNumbers(js: Js, row: Row, columns: seq<string>): (xs: seq<real>)
    ensures |xs| <= |columns|
  {
    if columns == [] then []
    else
      var init := RowNumbers(js, row, columns[..|columns| - 1]);
      match NumberOf(js, Lookup(row, columns[|columns| - 1]))
      case Some(x) => init + [x]
      case None => init
  }

  function Sum(xs: seq<real>): real
  {
    if xs == [] then 0.0 else Sum(xs[..|xs| - 1]) + xs[|xs| - 1]
  }

  /** One more column read: its value, when `Number` accepts it, is added to the sum. */
  lemma RowNumbersStep(js: Js, row: Row, columns: seq<string>, j: nat)
    requires j < |columns|
    ensures var before, after := RowNumbers(js, row, columns[..j]), RowNumbers(js, row, columns[..j + 1]);
      match NumberOf(js, Lookup(row, columns[j]))
      case Some(x) => after == before + [x] && Sum(after) == Sum(before) + x && |after| == |before| + 1
      case None => after == before
  {
    assert columns[..j + 1][..j] == columns[..j];
    var before := RowNumbers(js, row, columns[..j]);
    match NumberOf(js, Lookup(row, columns[j]))
    case Some(x) => assert (before + [x])[..|before|] == before;
    case None =>
  }

  /** `count > 0 ? sum / count : 0`. */
  function Average(xs: seq<real>): real
  {
    if |xs| > 0 then Sum(xs) / |xs| as real else 0.0
  }

  /** The mean of the values times their number is their sum; no values give 0. */
  lemma AverageTimesCount(xs: seq<real>)
    ensures Average(xs) * |xs| as real == Sum(xs)
    ensures xs == [] ==> Average(xs) == 0.0
  {
  }

  /** A sum of values between two bounds lies between the bounds times the count. */
  lemma {:induction false} SumBetween(xs: seq<real>, lo: real, hi: real)
    requires forall i :: 0 <= i < |xs| ==> lo <= xs[i] <= hi
    ensures |xs| as real * lo <= Sum(xs) <= |xs| as real * hi
  {
    if xs != [] {
      var init := xs[..|xs| - 1];
      assert forall i :: 0 <= i < |init| ==> init[i] == xs[i];
      SumBetween(init, lo, hi);
      var m := |init| as real;
      assert Sum(xs) == Sum(init) + xs[|xs| - 1];
      assert |xs| as real * lo == m * lo + lo;
      assert |xs| as real * hi == m * hi + hi;
    }
  }

  /** The average of a row's numeric values lies between their least and greatest. */
  lemma AverageBetween(xs: seq<real>, lo: real, hi: real)
    requires |xs| > 0
    requires forall i :: 0 <= i < |xs| ==> lo <= xs[i] <= hi
    ensures lo <= Average(xs) <= hi
  {
    SumBetween(xs, lo, hi);
    var n := |xs| as real;
    var a := Sum(xs) / n;
    assert a * n == Sum(xs);
    if a < lo {
      assert a * n < lo * n;
    }
    if a > hi {
      assert a * n > hi * n;
    }
  }

  /** The row after `newRow['numeric_sum'] = sum; newRow['numeric_avg'] = avg`, or unchanged without numeric columns. */
  function FeatureRow(js: Js, columns: seq<string>, row: Row): Row
  {
    if columns == [] then row
    else
      var xs := RowNumbers(js, row, columns);
      Put(Put(row, "numeric_sum", Num(Sum(xs))), "numeric_avg", Num(Average(xs)))
  }

  /**
   * With numeric columns, a row's `numeric_sum` and `numeric_avg` are the sum
   * and mean of its parsable values; every other field is left as it was.
   */
  lemma FeatureRowFields(js: Js, columns: seq<string>, row: Row, k: string)
    requires columns != []
    ensures var xs := RowNumbers(js, row, columns);
      && Lookup(FeatureRow(js, columns, row), "numeric_sum") == Some(Num(Sum(xs)))
      && Lookup(FeatureRow(js, columns, row), "numeric_avg") == Some(Num(Average(xs)))
      && (k != "numeric_sum" && k != "numeric_avg" ==> Lookup(FeatureRow(js, columns, row), k) == Lookup(row, k))
  {
    var xs := RowNumbers(js, row, columns);
    var r1 := Put(row, "numeric_sum", Num(Sum(xs)));
    PutLookup(row, "numeric_sum", Num(Sum(xs)));
    PutLookup(r1, "numeric_avg", Num(Average(xs)));
  }

  /** The names `createDerivedFeatures` reports. */
  function FeatureNames(data: seq<Row>, columns: seq<string>): (names: seq<string>)
    ensures names == [] || names == ["numeric_sum", "numeric_avg"]
    ensures names != [] <==> |data| > 0 && |columns| > 0
  {
    if |data| > 0 && |columns| > 0 then ["numeric_sum", "numeric_avg"] else []
  }

  /** The rows of `createDerivedFeatures(data, columns)`. */
  function Derived(js: Js, data: seq<Row>, columns: seq<string>): (out: seq<Row>)
    ensures |out| == |data|
    ensures forall i :: 0 <= i < |data| ==> out[i] == FeatureRow(js, columns, data[i])
  {
    seq(|data|, i requires 0 <= i < |data| => FeatureRow(js, columns, data[i]))
  }

  /** The first loop of the callback: the sum of the values `Number` accepts. */
  method SumLoop(js: Js, columns: seq<string>, row: Row) returns (sum: real)
    ensures sum == Sum(RowNumbers(js, row, columns))
  {
    sum := 0.0;
    for j := 0 to |columns|
      invariant sum == Sum(RowNumbers(js, row, columns[..j]))
    {
      RowNumbersStep(js, row, columns, j);
      var value := NumberOf(js, Lookup(row, columns[j]));
      match value
      case Some(x) =>
        sum := sum + x;
      case None =>
    }
    assert columns[..|columns|] == columns;
  }

  /** The second loop of the callback: the sum and the number of the values `Number` accepts. */
  method SumCountLoop(js: Js, columns: seq<string>, row: Row) returns (sum: real, count: nat)
    ensures sum == Sum(RowNumbers(js, row, columns))
    ensures count == |RowNumbers(js, row, columns)|
  {
    sum, count := 0.0, 0;
    for j := 0 to |columns|
      invariant sum == Sum(RowNumbers(js, row, columns[..j]))
      invariant count == |RowNumbers(js, row, columns[..j])|
    {
      RowNumbersStep(js, row, columns, j);
      var value := NumberOf(js, Lookup(row, columns[j]));
      match value
      case Some(x) =>
        sum, count := sum + x, count + 1;
      case None =>
    }
    assert columns[..|columns|] == columns;
  }

  /** The callback of `data.map`: the two loops over the numeric columns of one row. */
  method AddFeatures(js: Js, columns: seq<string>, row: Row) returns (newRow: Row)
    ensures newRow == FeatureRow(js, columns, row)
  {
    newRow := row;
    if |columns| > 0 {
      var sum := SumLoop(js, columns, row);
      newRow := Put(newRow, "numeric_sum", Num(sum));
    }
    if |columns| > 0 {
      var sum, count := SumCountLoop(js, columns, row);
      newRow := Put(newRow, "numeric_avg", Num(if count > 0 then sum / count as real else 0.0));
    }
  }

  /** `createDerivedFeatures(data, columns)`: every row extended, and the feature names recorded once. */
  method CreateDerivedFeatures(js: Js, data: seq<Row>, columns: seq<string>)
    returns (out: seq<Row>, features: seq<string>)
    ensures out == Derived(js, data, columns)
    ensures features == FeatureNames(data, columns)
  {
    ghost var spec := Derived(js, data, columns);
    out, features := [], [];
    for i := 0 to |data|
      invariant out == spec[..i]
      invariant features == FeatureNames(data[..i], columns)
    {
      PrefixSnoc(spec, i);
      var newRow := AddFeatures(js, columns, data[i]);
      if |columns| > 0 {
        if "numeric_sum" !in features {
          features := features + ["numeric_sum"];
        }
        if "numeric_avg" !in features {
          features := features + ["numeric_avg"];
        }
      }
      out := out + [newRow];
    }
    assert data[..|data|] == data;
  }
}
