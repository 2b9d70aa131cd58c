/**
 * `detectColumnTypes` and `inferColumnType` (backend/src/lib/dataTransform.ts):
 * each column named by the first row is classified from at most its first 100
 * values.  A non-missing value counts as numeric when `Number` accepts it, else
 * as a date when `new Date` accepts it, else as a boolean when it reads
 * true/false/yes/no/1/0; a kind wins when it covers strictly more than 80% of
 * the non-missing samples, tried in the order numeric, date, boolean.
 */
module ColumnTypes {
  import opened Wrappers
  import opened Strings
  import opened Rows

  datatype ColumnType = Numeric | Date | Boolean | Categorical | Unknown

  /** How one sampled value is counted. */
  datatype SampleKind = Missing | NumberLike | DateLike | BooleanLike | Other

  /** The spellings `inferColumnType` accepts as a boolean, after lower-casing. */
  const BooleanWords: seq<string> := ["true", "false", "yes", "no", "1", "0"]

  /** At most this many leading rows are sampled. */
  const SampleSize: nat := 100

  /** `isValidDate(value)`: a truthy value that `new Date` turns into a valid date. */
  predicate IsValidDate(js: Js, v: Option<Value>)
  {
    Truthy(v) && DateOf(js, v.value).Some?
  }

  /** The branch of the sampling loop one value takes. */
  function KindOf(js: Js, v: Option<Value>): (k: SampleKind)
    ensures k == Missing <==> IsMissing(v)
    ensures k == NumberLike ==> NumberOf(js, v).Some?
  {
    if IsMissing(v) then Missing
    else if NumberOf(js, v).Some? then NumberLike
    else if IsValidDate(js, v) then DateLike
    else if Lower(StringOf(js, v.value)) in BooleanWords then BooleanLike
    else Other
  }

  /** The kinds of the values of `col` in `rows`, in row order. */
  function Kinds(js: Js, rows: seq<Row>, col: string): (ks: seq<SampleKind>)
    ensures |ks| == |rows|
    ensures forall i :: 0 <= i < |rows| ==> ks[i] == KindOf(js, Lookup(rows[i], col))
  {
    seq(|rows|, i requires 0 <= i < |rows| => KindOf(js, Lookup(rows[i], col)))
  }

  /** How many entries of `ks` are `k`. */
  function Occurrences<T(==)>(ks: seq<T>, k: T): (n: nat)
    ensures n <= |ks|
  {
    if ks == [] then 0
    else Occurrences(ks[..|ks| - 1], k) + (if ks[|ks| - 1] == k then 1 else 0)
  }

  /** The decision at the end of `inferColumnType`, on the four counters. */
  function Classify(valid: nat, numeric: nat, date: nat, boolean: nat): ColumnType
  {
    if valid == 0 then Unknown
    else if numeric as real / valid as real > 0.8 then Numeric
    else if date as real / valid as real > 0.8 then Date
    else if boolean as real / valid as real > 0.8 then Boolean
    else Categorical
  }

  /** The rows `inferColumnType` looks at: `data.slice(0, Math.min(100, data.length))`. */
  function Samples(data: seq<Row>): (s: seq<Row>)
    ensures |s| <= SampleSize && |s| <= |data| && s == data[..|s|]
    ensures |data| <= SampleSize ==> s == data
  {
    if |data| <= SampleSize then data else data[..SampleSize]
  }

  /** The type `inferColumnType(data, col)` reports. */
  function ColumnTypeOf(js: Js, data: seq<Row>, col: string): ColumnType
  {
    var ks := Kinds(js, Samples(data), col);
    Classify(|ks| - Occurrences(ks, Missing), Occurrences(ks, NumberLike), Occurrences(ks, DateLike), Occurrences(ks, BooleanLike))
  }

  /** Every value falls into exactly one kind, so the four kinds of a non-missing value add up to at most the total. */
  lemma {:induction false} CountsPartition(ks: seq<SampleKind>)
    ensures Occurrences(ks, Missing) + Occurrences(ks, NumberLike) + Occurrences(ks, DateLike)
          + Occurrences(ks, BooleanLike) + Occurrences(ks, Other) == |ks|
  {
    if ks != [] {
      CountsPartition(ks[..|ks| - 1]);
      match ks[|ks| - 1]
      case Missing =>
      case NumberLike =>
      case DateLike =>
      case BooleanLike =>
      case Other =>
    }
  }

  /** No entry is `k` exactly when the count of `k` is zero. */
  lemma {:induction false} OccurrencesZero<T>(ks: seq<T>, k: T)
    ensures Occurrences(ks, k) == 0 <==> k !in ks
  {
    if ks != [] {
      var init := ks[..|ks| - 1];
      OccurrencesZero(init, k);
      assert ks == init + [ks[|ks| - 1]];
    }
  }

  /** Every entry is `k` exactly when the count of `k` is the length. */
  lemma {:induction false} OccurrencesAll<T>(ks: seq<T>, k: T)
    ensures Occurrences(ks, k) == |ks| <==> forall i :: 0 <= i < |ks| ==> ks[i] == k
  {
    if ks != [] {
      var init := ks[..|ks| - 1];
      OccurrencesAll(init, k);
      assert forall i :: 0 <= i < |init| ==> init[i] == ks[i];
    }
  }

  /** `count / valid > 0.8` over exact reals. */
  lemma RatioAbove(n: real, v: real)
    requires v > 0.0
    ensures n / v > 0.8 <==> n > 0.8 * v
  {
    var q := n / v;
    assert n == q * v;
    if q > 0.8 {
      assert q * v > 0.8 * v;
    } else {
      assert q * v <= 0.8 * v;
    }
  }

  /** Extending a prefix by one entry adds one to that entry's count. */
  lemma OccurrencesStep<T>(ks: seq<T>, i: nat, k: T)
    requires i < |ks|
    ensures Occurrences(ks[..i + 1], k) == Occurrences(ks[..i], k) + if ks[i] == k then 1 else 0
  {
    assert ks[..i + 1][..i] == ks[..i];
  }

  /**
   * The kinds are exclusive, so at most one of them can pass the 80% threshold:
   * the order numeric, date, boolean in which they are tried never decides the result.
   */
  lemma ColumnTypeMeaning(js: Js, data: seq<Row>, col: string)
    ensures var ks := Kinds(js, Samples(data), col);
      var valid := |ks| - Occurrences(ks, Missing);
      && (ColumnTypeOf(js, data, col) == Unknown <==> valid == 0)
      && (ColumnTypeOf(js, data, col) == Numeric <==> valid > 0 && Occurrences(ks, NumberLike) as real > 0.8 * valid as real)
      && (ColumnTypeOf(js, data, col) == Date <==> valid > 0 && Occurrences(ks, DateLike) as real > 0.8 * valid as real)
      && (ColumnTypeOf(js, data, col) == Boolean <==> valid > 0 && Occurrences(ks, BooleanLike) as real > 0.8 * valid as real)
  {
    var ks := Kinds(js, Samples(data), col);
    CountsPartition(ks);
    var valid := |ks| - Occurrences(ks, Missing);
    if valid > 0 {
      var v := valid as real;
      var n, d, b := Occurrences(ks, NumberLike) as real, Occurrences(ks, DateLike) as real, Occurrences(ks, BooleanLike) as real;
      assert n + d + b <= v;
      RatioAbove(n, v);
      RatioAbove(d, v);
      RatioAbove(b, v);
    }
  }

  /** A column is `unknown` exactly when every sampled value is missing. */
  lemma UnknownIffAllMissing(js: Js, data: seq<Row>, col: string)
    ensures ColumnTypeOf(js, data, col) == Unknown <==>
      forall i :: 0 <= i < |Samples(data)| ==> IsMissing(Lookup(data[i], col))
  {
    var samples := Samples(data);
    var ks := Kinds(js, samples, col);
    OccurrencesAll(ks, Missing);
    assert ColumnTypeOf(js, data, col) == Unknown <==> Occurrences(ks, Missing) == |ks|;
    assert forall i :: 0 <= i < |samples| ==> samples[i] == data[i];
  }

  /** Only the first 100 rows matter: rows after them never change a column's type. */
  lemma OnlySamplesMatter(js: Js, data: seq<Row>, more: seq<Row>, col: string)
    requires |data| >= SampleSize
    ensures ColumnTypeOf(js, data + more, col) == ColumnTypeOf(js, data, col)
  {
    assert Samples(data + more) == Samples(data);
  }

  /**
   * "1" and "0" are in the boolean list, but `Number` accepts them first, so
   * they are always counted as numbers.
   */
  lemma DigitsCountAsNumbers(js: Js, v: Option<Value>)
    requires js.number("1").Some? && js.number("0").Some?
    requires v == Some(Text("1")) || v == Some(Text("0"))
    ensures KindOf(js, v) == NumberLike
  {
  }

  /** `inferColumnType(data, column)`: one pass over the samples with three counters. */
  method InferColumnType(js: Js, data: seq<Row>, column: string) returns (t: ColumnType)
    ensures t == ColumnTypeOf(js, data, column)
  {
    var samples := Samples(data);
    ghost var ks := Kinds(js, samples, column);
    var numericCount, dateCount, booleanCount, validSamples := 0, 0, 0, 0;
    for i := 0 to |samples|
      invariant numericCount == Occurrences(ks[..i], NumberLike)
      invariant dateCount == Occurrences(ks[..i], DateLike)
      invariant booleanCount == Occurrences(ks[..i], BooleanLike)
      invariant validSamples == i - Occurrences(ks[..i], Missing)
    {
      var value := Lookup(samples[i], column);
      assert ks[i] == KindOf(js, value);
      OccurrencesStep(ks, i, Missing);
      OccurrencesStep(ks, i, NumberLike);
      OccurrencesStep(ks, i, DateLike);
      OccurrencesStep(ks, i, BooleanLike);
      if !IsMissing(value) {
        validSamples := validSamples + 1;
        if NumberOf(js, value).Some? {
          numericCount := numericCount + 1;
        } else if IsValidDate(js, value) {
          dateCount := dateCount + 1;
        } else if Lower(StringOf(js, value.value)) in BooleanWords {
          booleanCount := booleanCount + 1;
        }
      }
    }
    assert ks[..|samples|] == ks;
    t := Classify(validSamples, numericCount, dateCount, booleanCount);
  }

  /** The (column, type) entries `detectColumnTypes(data)` builds, in the first row's key order. */
  function ColumnTypesOf(js: Js, data: seq<Row>): seq<(string, ColumnType)>
  {
    if |data| == 0 then []
    else
      var cols := Keys(data[0]);
      seq(|cols|, i requires 0 <= i < |cols| => (cols[i], ColumnTypeOf(js, data, cols[i])))
  }

  /** No columns for no data; otherwise one entry per key of the first row, holding that column's inferred type. */
  lemma ColumnTypesOfMeaning(js: Js, data: seq<Row>)
    ensures |data| == 0 ==> ColumnTypesOf(js, data) == []
    ensures |data| > 0 ==> Keys(ColumnTypesOf(js, data)) == Keys(data[0])
    ensures forall i :: 0 <= i < |ColumnTypesOf(js, data)| ==>
      ColumnTypesOf(js, data)[i].1 == ColumnTypeOf(js, data, ColumnTypesOf(js, data)[i].0)
  {
  }

  /** `detectColumnTypes(data)`. */
  method DetectColumnTypes(js: Js, data: seq<Row>) returns (types: seq<(string, ColumnType)>)
    ensures types == ColumnTypesOf(js, data)
  {
    types := [];
    if |data| == 0 {
      return;
    }
    var cols := Keys(data[0]);
    ghost var spec := ColumnTypesOf(js, data);
    assert |spec| == |cols|;
    for i := 0 to |cols|
      invariant types == spec[..i]
    {
      var t := InferColumnType(js, data, cols[i]);
      assert spec[i] == (cols[i], t);
      PrefixSnoc(spec, i);
      types := types + [(cols[i], t)];
    }
    assert spec[..|cols|] == spec;
  }

  /** The columns of a given type, in order: the `Object.entries(...).filter(...).map(...)` of `transformDataset`. */
  function ColumnsOfType(types: seq<(string, ColumnType)>, t: ColumnType): (cols: seq<string>)
    ensures |cols| <= |types|
    ensures forall c :: c in cols <==> (c, t) in types
  {
    if types == [] then []
    else if types[0].1 == t then [types[0].0] + ColumnsOfType(types[1..], t)
    else ColumnsOfType(types[1..], t)
  }
}
