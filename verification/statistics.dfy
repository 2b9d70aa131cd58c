/**
 * `calculateStatistics`, `calculateNumericStats` and `calculateCategoricalStats`
 * (backend/src/lib/dataTransform.ts): per column of the first row, the number
 * of missing values; for numeric columns order statistics, mean and variance
 * of the values `Number` accepts; for categorical columns the number of
 * distinct non-empty texts, the ten most frequent ones and the number of empty ones.
 */
module Statistics {
  import opened Wrappers
  import opened Rows
  import opened Sorting
  import opened Dedup
  import opened Scaling
  import opened Features
  import opened Encoding
  import opened ColumnTypes

  /** `NumericStats`; the standard deviation is kept as its square, the variance. */
  datatype NumericStats = NumericStats(min: real, max: real, mean: real, median: real, variance: real, q1: real, q3: real)

  /** `CategoricalStats`: `topValues` holds (value, count) pairs. */
  datatype CategoricalStats = CategoricalStats(uniqueValues: nat, topValues: seq<(string, nat)>, missingCount: nat)

  /** `DataStatistics`; records are lists of (key, value) entries in insertion order. */
  datatype DataStatistics = DataStatistics(
    totalRows: nat,
    totalColumns: nat,
    missingValues: seq<(string, nat)>,
    columnTypes: seq<(string, ColumnType)>,
    numericStats: seq<(string, NumericStats)>,
    categoricalStats: seq<(string, CategoricalStats)>)

  /** The number of rows whose `column` is `null`, `undefined` or `''`. */
  function MissingCount(data: seq<Row>, column: string): (n: nat)
    ensures n <= |data|
  {
    if data == [] then 0
    else MissingCount(data[..|data| - 1], column) + (if IsMissing(Lookup(data[|data| - 1], column)) then 1 else 0)
  }

  /** No row is missing the column exactly when the count is zero. */
  lemma {:induction false} MissingCountZero(data: seq<Row>, column: string)
    ensures MissingCount(data, column) == 0 <==> forall i :: 0 <= i < |data| ==> !IsMissing(Lookup(data[i], column))
  {
    if data != [] {
      var init := data[..|data| - 1];
      MissingCountZero(init, column);
      assert forall i :: 0 <= i < |init| ==> init[i] == data[i];
    }
  }

  /** The missing-value loop of `calculateStatistics` for one column. */
  method CountMissing(data: seq<Row>, column: string) returns (missingCount: nat)
    ensures missingCount == MissingCount(data, column)
  {
    missingCount := 0;
    for i := 0 to |data|
      invariant missingCount == MissingCount(data[..i], column)
    {
      assert data[..i + 1][..i] == data[..i];
      var v := Lookup(data[i], column);
      if v == None || v == Some(Text("")) {
        missingCount := missingCount + 1;
      }
    }
    assert data[..|data|] == data;
  }

  /** The sum of squared deviations from `m`. */
  function SquaredDeviations(xs: seq<real>, m: real): (r: real)
    ensures r >= 0.0
  {
    if xs == [] then 0.0
    else
      var d := xs[|xs| - 1] - m;
      SquareNonNegative(d);
      SquaredDeviations(xs[..|xs| - 1], m) + d * d
  }

  lemma SquareNonNegative(d: real)
    ensures d * d >= 0.0
  {
    if d < 0.0 {
      assert d * d == (-d) * (-d);
    }
  }

  /**
   * `calculateNumericStats(data, column)`: the parsable values sorted; the
   * median and quartiles are the values at `floor(n / 2)`, `floor(n / 4)` and
   * `floor(3n / 4)`; no values give all zeros.
   */
  function NumericStatsOf(js: Js, data: seq<Row>, column: string): NumericStats
  {
    var values := SortAsc(Parsed(js, data, column));
    if values == [] then NumericStats(0.0, 0.0, 0.0, 0.0, 0.0, 0.0, 0.0) else Summary(values)
  }

  /** The summary of the sorted, non-empty `values`. */
  function Summary(values: seq<real>): NumericStats
    requires values != []
  {
    var n := |values|;
    var mean := Average(values);
    NumericStats(values[0], values[n - 1], mean, values[n / 2],
      SquaredDeviations(values, mean) / n as real, values[n / 4], values[3 * n / 4])
  }

  /** Read from ascending values, the summary's fields lie in order between the ends. */
  lemma SummaryOrder(values: seq<real>)
    requires SortedAsc(values) && values != []
    ensures var s := Summary(values);
      && s.min == values[0] && s.max == values[|values| - 1]
      && s.min <= s.q1 <= s.median <= s.q3 <= s.max
      && s.min <= s.mean <= s.max
      && s.variance >= 0.0
  {
    var n := |values|;
    QuartileOrder(values);
    AverageBetween(values, values[0], values[n - 1]);
    var sd := SquaredDeviations(values, Average(values));
    assert sd / n as real >= 0.0;
  }

  /** The ends of an ascending permutation of `xs` bound `xs` and belong to it. */
  lemma SortedEnds(xs: seq<real>)
    requires |xs| > 0
    ensures var v := SortAsc(xs);
      && v[0] in xs && v[|v| - 1] in xs
      && forall i :: 0 <= i < |xs| ==> v[0] <= xs[i] <= v[|v| - 1]
  {
    var v := SortAsc(xs);
    var n := |v|;
    assert v[0] in multiset(v) && v[n - 1] in multiset(v);
    forall i | 0 <= i < |xs| ensures v[0] <= xs[i] <= v[n - 1] {
      assert xs[i] in multiset(v);
      var k :| 0 <= k < n && v[k] == xs[i];
    }
  }

  /**
   * The numeric summary is consistent: the minimum and maximum bound every
   * parsable value of the column and are among them, the quartiles and
   * median lie in order between them, so does the mean, and the variance is
   * not negative.  Without parsable values every field is 0.
   */
  lemma NumericStatsMeaning(js: Js, data: seq<Row>, column: string)
    ensures Parsed(js, data, column) == [] ==> NumericStatsOf(js, data, column) == NumericStats(0.0, 0.0, 0.0, 0.0, 0.0, 0.0, 0.0)
    ensures Parsed(js, data, column) != [] ==>
      var s, xs := NumericStatsOf(js, data, column), Parsed(js, data, column);
      && s.min in xs && s.max in xs
      && (forall i :: 0 <= i < |xs| ==> s.min <= xs[i] <= s.max)
      && s.min <= s.q1 <= s.median <= s.q3 <= s.max
      && s.min <= s.mean <= s.max
      && s.variance >= 0.0
  {
    var xs := Parsed(js, data, column);
    if xs != [] {
      SortedEnds(xs);
      SummaryOrder(SortAsc(xs));
    }
  }

  /** In an ascending sequence the elements at `n/4`, `n/2` and `3n/4` lie in order between the ends. */
  lemma QuartileOrder(v: seq<real>)
    requires SortedAsc(v) && |v| > 0
    ensures var n := |v|; v[0] <= v[n / 4] <= v[n / 2] <= v[3 * n / 4] <= v[n - 1]
  {
    var n := |v|;
    assert 0 <= n / 4 <= n / 2 <= 3 * n / 4 < n;
  }

  /** The non-empty entries of `ts`, in order. */
  function NonEmpty(ts: seq<string>): seq<string>
  {
    if ts == [] then []
    else NonEmpty(ts[..|ts| - 1]) + (if ts[|ts| - 1] == "" then [] else [ts[|ts| - 1]])
  }

  /** The count recorded for `k`, 0 when absent: `valueCounts.get(k) || 0`. */
  function CountIn(es: seq<(string, nat)>, k: string): nat
  {
    if es == [] then 0 else if es[0].0 == k then es[0].1 else CountIn(es[1..], k)
  }

  /** The counts added up. */
  function Total(es: seq<(string, nat)>): nat
  {
    if es == [] then 0 else es[0].1 + Total(es[1..])
  }

  /** `valueCounts.set(x, (valueCounts.get(x) || 0) + 1)`: in place when present, appended otherwise. */
  function Bump(es: seq<(string, nat)>, x: string): seq<(string, nat)>
  {
    if es == [] then [(x, 1)]
    else if es[0].0 == x then [(x, es[0].1 + 1)] + es[1..]
    else [es[0]] + Bump(es[1..], x)
  }

  /** The `valueCounts` map after a pass over `ts`: empty texts are not counted. */
  function Tally(ts: seq<string>): seq<(string, nat)>
  {
    if ts == [] then []
    else
      var counts := Tally(ts[..|ts| - 1]);
      if ts[|ts| - 1] == "" then counts else Bump(counts, ts[|ts| - 1])
  }

  /** One more text read: it is counted unless it is empty. */
  lemma TallyStep(ts: seq<string>, i: nat)
    requires i < |ts|
    ensures Tally(ts[..i + 1]) == if ts[i] == "" then Tally(ts[..i]) else Bump(Tally(ts[..i]), ts[i])
  {
    assert ts[..i + 1][..i] == ts[..i];
  }

  lemma {:induction false} BumpCount(es: seq<(string, nat)>, x: string, k: string)
    ensures CountIn(Bump(es, x), k) == CountIn(es, k) + if k == x then 1 else 0
  {
    if es != [] && es[0].0 != x {
      BumpCount(es[1..], x, k);
    }
  }

  lemma {:induction false} BumpKeys(es: seq<(string, nat)>, x: string)
    ensures Keys(Bump(es, x)) == if x in Keys(es) then Keys(es) else Keys(es) + [x]
  {
    if es != [] {
      assert Keys(es) == [es[0].0] + Keys(es[1..]);
      if es[0].0 != x {
        BumpKeys(es[1..], x);
        assert Keys(Bump(es, x)) == [es[0].0] + Keys(Bump(es[1..], x));
      } else {
        assert Keys(Bump(es, x)) == [x] + Keys(es[1..]);
      }
    }
  }

  lemma {:induction false} BumpTotal(es: seq<(string, nat)>, x: string)
    ensures Total(Bump(es, x)) == Total(es) + 1
  {
    if es != [] && es[0].0 != x {
      BumpTotal(es[1..], x);
    }
  }

  /** Each text's count is its number of occurrences; the empty text is never counted. */
  lemma {:induction false} TallyCounts(ts: seq<string>, k: string)
    ensures CountIn(Tally(ts), k) == if k == "" then 0 else Occurrences(ts, k)
  {
    if ts != [] {
      TallyCounts(ts[..|ts| - 1], k);
      if ts[|ts| - 1] != "" {
        BumpCount(Tally(ts[..|ts| - 1]), ts[|ts| - 1], k);
      }
    }
  }

  /** The counted texts are the distinct non-empty texts, in order of first appearance. */
  lemma {:induction false} TallyKeys(ts: seq<string>)
    ensures Keys(Tally(ts)) == FirstOccurrences(NonEmpty(ts))
  {
    if ts != [] {
      var init, x := ts[..|ts| - 1], ts[|ts| - 1];
      TallyKeys(init);
      if x == "" {
        assert Tally(ts) == Tally(init);
        assert NonEmpty(ts) == NonEmpty(init);
      } else {
        var counts, seen := Tally(init), NonEmpty(init);
        assert Tally(ts) == Bump(counts, x);
        assert NonEmpty(ts) == seen + [x];
        BumpKeys(counts, x);
        FirstOccurrencesSnoc(seen, x);
        FirstOccurrencesHas(seen, x);
      }
    }
  }

  /** Every non-empty text is counted once: the counts and the empty texts add up to the rows. */
  lemma {:induction false} TallyTotal(ts: seq<string>)
    ensures Total(Tally(ts)) + Occurrences(ts, "") == |ts|
  {
    if ts != [] {
      TallyTotal(ts[..|ts| - 1]);
      if ts[|ts| - 1] != "" {
        BumpTotal(Tally(ts[..|ts| - 1]), ts[|ts| - 1]);
      }
    }
  }

  /** In a list with distinct keys the count read for an entry's key is that entry's count. */
  lemma {:induction false} CountInAt(es: seq<(string, nat)>, i: nat)
    requires DistinctKeys(es) && i < |es|
    ensures CountIn(es, es[i].0) == es[i].1
  {
    if i > 0 {
      assert Keys(es)[0] != Keys(es)[i];
      DistinctKeysTail(es);
      CountInAt(es[1..], i - 1);
    }
  }

  function CountKey(e: (string, nat)): int { e.1 }

  /** `Array.from(valueCounts.entries()).sort((a, b) => b[1] - a[1]).slice(0, 10)`. */
  function TopValues(es: seq<(string, nat)>): seq<(string, nat)>
  {
    Take(SortDesc(es, CountKey), 10)
  }

  /**
   * At most ten values are reported, by non-increasing count, each one an
   * entry of the counts, and no entry left out has a larger count than one kept.
   * The sort is stable, so among equal counts the kept entries are the first
   * ones of `es`, in order; on a tally that is first-seen order (`TallyKeys`).
   */
  lemma TopValuesMeaning(es: seq<(string, nat)>)
    ensures var top := TopValues(es);
      && |top| == (if |es| < 10 then |es| else 10)
      && SortedDesc(top, CountKey)
      && multiset(top) <= multiset(es)
      && (forall y, x :: y in top && x in multiset(es) - multiset(top) ==> x.1 <= y.1)
      && (forall v :: WithKey(top, CountKey, v) <= WithKey(es, CountKey, v))
  {
    TopOfSorted(es, CountKey, 10);
  }

  /** The summary `calculateCategoricalStats(data, column)` returns. */
  function CategoricalStatsOf(js: Js, data: seq<Row>, column: string): CategoricalStats
  {
    var texts := ColumnTexts(js, data, column);
    var counts := Tally(texts);
    CategoricalStats(|counts|, TopValues(counts), Occurrences(texts, ""))
  }

  /**
   * The categorical summary is exact: `uniqueValues` is the number of
   * distinct non-empty texts, each counted entry holds its text's number of
   * rows, and those counts plus the missing count add up to the rows.
   */
  lemma CategoricalStatsMeaning(js: Js, data: seq<Row>, column: string)
    ensures var texts := ColumnTexts(js, data, column);
      var counts := Tally(texts);
      && Keys(counts) == FirstOccurrences(NonEmpty(texts))
      && CategoricalStatsOf(js, data, column).uniqueValues == |FirstOccurrences(NonEmpty(texts))|
      && (forall i :: 0 <= i < |counts| ==> counts[i].1 == Occurrences(texts, counts[i].0) && counts[i].0 != "")
      && Total(counts) + CategoricalStatsOf(js, data, column).missingCount == |data|
  {
    var texts := ColumnTexts(js, data, column);
    var counts := Tally(texts);
    TallyKeys(texts);
    TallyTotal(texts);
    forall i | 0 <= i < |counts| ensures counts[i].1 == Occurrences(texts, counts[i].0) && counts[i].0 != "" {
      TallyEntry(texts, i);
    }
  }

  lemma {:induction false} NonEmptyHas(ts: seq<string>, x: string)
    ensures x in NonEmpty(ts) <==> x in ts && x != ""
  {
    if ts != [] {
      var init := ts[..|ts| - 1];
      NonEmptyHas(init, x);
      assert ts == init + [ts[|ts| - 1]];
    }
  }

  /** Each counted entry is a non-empty text of `ts` holding its number of occurrences. */
  lemma TallyEntry(ts: seq<string>, i: nat)
    requires i < |Tally(ts)|
    ensures Tally(ts)[i].1 == Occurrences(ts, Tally(ts)[i].0)
    ensures Tally(ts)[i].0 != "" && Tally(ts)[i].0 in ts
  {
    var counts := Tally(ts);
    var k := counts[i].0;
    TallyKeys(ts);
    CountInAt(counts, i);
    TallyCounts(ts, k);
    NonEmptyHasNoEmpty(ts);
    assert Keys(counts)[i] == k;
    FirstOccurrencesHas(NonEmpty(ts), k);
    NonEmptyHas(ts, k);
  }

  lemma {:induction false} NonEmptyHasNoEmpty(ts: seq<string>)
    ensures "" !in NonEmpty(ts)
  {
    if ts != [] {
      NonEmptyHasNoEmpty(ts[..|ts| - 1]);
    }
  }

  /** `calculateCategoricalStats(data, column)`: one counting pass, then the ten most frequent. */
  method CalculateCategoricalStats(js: Js, data: seq<Row>, column: string) returns (stats: CategoricalStats)
    ensures stats == CategoricalStatsOf(js, data, column)
  {
    ghost var texts := ColumnTexts(js, data, column);
    var valueCounts: seq<(string, nat)> := [];
    var missingCount := 0;
    for i := 0 to |data|
      invariant valueCounts == Tally(texts[..i])
      invariant missingCount == Occurrences(texts[..i], "")
    {
      TallyStep(texts, i);
      OccurrencesStep(texts, i, "");
      var value := CellText(js, data[i], column);
      assert value == texts[i];
      if value == "" {
        missingCount := missingCount + 1;
      } else {
        valueCounts := Bump(valueCounts, value);
      }
    }
    assert texts[..|data|] == texts;
    stats := CategoricalStats(|valueCounts|, TopValues(valueCounts), missingCount);
  }

  /** `columnTypes[column]`. */
  function TypeOf(types: seq<(string, ColumnType)>, column: string): (t: Option<ColumnType>)
    ensures t.Some? ==> (column, t.value) in types
    ensures t.None? <==> column !in Keys(types)
  {
    if types == [] then None
    else if types[0].0 == column then Some(types[0].1)
    else TypeOf(types[1..], column)
  }

  /** The `missingValues` record: one count per column. */
  function MissingEntries(data: seq<Row>, columns: seq<string>): (es: seq<(string, nat)>)
    ensures Keys(es) == columns
  {
    if columns == [] then []
    else
      var c := columns[|columns| - 1];
      KeysAppend(MissingEntries(data, columns[..|columns| - 1]), [(c, MissingCount(data, c))]);
      MissingEntries(data, columns[..|columns| - 1]) + [(c, MissingCount(data, c))]
  }

  /** The `numericStats` record: a summary for each column recorded as numeric. */
  function NumericEntries(js: Js, data: seq<Row>, columns: seq<string>, types: seq<(string, ColumnType)>)
    : seq<(string, NumericStats)>
  {
    if columns == [] then []
    else
      var c := columns[|columns| - 1];
      NumericEntries(js, data, columns[..|columns| - 1], types)
        + (if TypeOf(types, c) == Some(Numeric) then [(c, NumericStatsOf(js, data, c))] else [])
  }

  /** The `categoricalStats` record: a summary for each column recorded as categorical. */
  function CategoricalEntries(js: Js, data: seq<Row>, columns: seq<string>, types: seq<(string, ColumnType)>)
    : seq<(string, CategoricalStats)>
  {
    if columns == [] then []
    else
      var c := columns[|columns| - 1];
      CategoricalEntries(js, data, columns[..|columns| - 1], types)
        + (if TypeOf(types, c) == Some(Categorical) then [(c, CategoricalStatsOf(js, data, c))] else [])
  }

  /** What `calculateStatistics(data, columnTypes)` returns. */
  function StatisticsOf(js: Js, data: seq<Row>, types: seq<(string, ColumnType)>): DataStatistics
  {
    var columns := if |data| == 0 then [] else Keys(data[0]);
    DataStatistics(|data|, |types|, MissingEntries(data, columns), types,
      NumericEntries(js, data, columns, types), CategoricalEntries(js, data, columns, types))
  }

  /** The numeric record holds, for exactly the listed columns typed numeric, each one's summary. */
  lemma {:induction false} NumericEntriesMeaning(js: Js, data: seq<Row>, columns: seq<string>, types: seq<(string, ColumnType)>)
    ensures var es := NumericEntries(js, data, columns, types);
      && (forall k :: k in Keys(es) <==> k in columns && TypeOf(types, k) == Some(Numeric))
      && (forall i :: 0 <= i < |es| ==> es[i].1 == NumericStatsOf(js, data, es[i].0))
  {
    if columns != [] {
      var init, c := columns[..|columns| - 1], columns[|columns| - 1];
      assert columns == init + [c];
      NumericEntriesMeaning(js, data, init, types);
      var es0 := NumericEntries(js, data, init, types);
      var tail := if TypeOf(types, c) == Some(Numeric) then [(c, NumericStatsOf(js, data, c))] else [];
      var es := NumericEntries(js, data, columns, types);
      assert es == es0 + tail;
      KeysAppend(es0, tail);
      forall i | 0 <= i < |es| ensures es[i].1 == NumericStatsOf(js, data, es[i].0) {
        if i < |es0| {
          assert es[i] == es0[i];
        } else {
          assert es[i] == tail[i - |es0|];
        }
      }
    }
  }

  /** The categorical record holds, for exactly the listed columns typed categorical, each one's summary. */
  lemma {:induction false} CategoricalEntriesMeaning(js: Js, data: seq<Row>, columns: seq<string>, types: seq<(string, ColumnType)>)
    ensures var es := CategoricalEntries(js, data, columns, types);
      && (forall k :: k in Keys(es) <==> k in columns && TypeOf(types, k) == Some(Categorical))
      && (forall i :: 0 <= i < |es| ==> es[i].1 == CategoricalStatsOf(js, data, es[i].0))
  {
    if columns != [] {
      var init, c := columns[..|columns| - 1], columns[|columns| - 1];
      assert columns == init + [c];
      CategoricalEntriesMeaning(js, data, init, types);
      var es0 := CategoricalEntries(js, data, init, types);
      var tail := if TypeOf(types, c) == Some(Categorical) then [(c, CategoricalStatsOf(js, data, c))] else [];
      var es := CategoricalEntries(js, data, columns, types);
      assert es == es0 + tail;
      KeysAppend(es0, tail);
      forall i | 0 <= i < |es| ensures es[i].1 == CategoricalStatsOf(js, data, es[i].0) {
        if i < |es0| {
          assert es[i] == es0[i];
        } else {
          assert es[i] == tail[i - |es0|];
        }
      }
    }
  }

  /** Each missing count belongs to its column. */
  lemma {:induction false} MissingEntriesMeaning(data: seq<Row>, columns: seq<string>)
    ensures forall i :: 0 <= i < |columns| ==> MissingEntries(data, columns)[i] == (columns[i], MissingCount(data, columns[i]))
  {
    if columns != [] {
      MissingEntriesMeaning(data, columns[..|columns| - 1]);
    }
  }

  /**
   * `calculateStatistics(data, columnTypes)`: the totals always; for data with
   * rows, one missing count per key of the first row, and numeric or
   * categorical summaries for the keys recorded with those types.
   */
  method CalculateStatistics(js: Js, data: seq<Row>, columnTypes: seq<(string, ColumnType)>)
    returns (statistics: DataStatistics)
    ensures statistics == StatisticsOf(js, data, columnTypes)
  {
    statistics := DataStatistics(|data|, |columnTypes|, [], columnTypes, [], []);
    if |data| == 0 {
      return;
    }
    var columns := Keys(data[0]);
    var missingValues: seq<(string, nat)> := [];
    var numericStats: seq<(string, NumericStats)> := [];
    var categoricalStats: seq<(string, CategoricalStats)> := [];
    for j := 0 to |columns|
      invariant missingValues == MissingEntries(data, columns[..j])
      invariant numericStats == NumericEntries(js, data, columns[..j], columnTypes)
      invariant categoricalStats == CategoricalEntries(js, data, columns[..j], columnTypes)
    {
      var column := columns[j];
      assert columns[..j + 1][..j] == columns[..j];
      var missingCount := CountMissing(data, column);
      missingValues := missingValues + [(column, missingCount)];
      var columnType := TypeOf(columnTypes, column);
      if columnType == Some(Numeric) {
        numericStats := numericStats + [(column, NumericStatsOf(js, data, column))];
      } else if columnType == Some(Categorical) {
        var stats := CalculateCategoricalStats(js, data, column);
        categoricalStats := categoricalStats + [(column, stats)];
      }
    }
    assert columns[..|columns|] == columns;
    statistics := statistics.(missingValues := missingValues, numericStats := numericStats, categoricalStats := categoricalStats);
  }

  /**
   * The statistics describe the data: as many rows as given, a missing count
   * for each key of the first row, and summaries for exactly the keys typed
   * numeric or categorical.
   */
  lemma StatisticsMeaning(js: Js, data: seq<Row>, types: seq<(string, ColumnType)>)
    requires |data| > 0
    ensures var st := StatisticsOf(js, data, types);
      && st.totalRows == |data|
      && (forall i :: 0 <= i < |Keys(data[0])| ==> st.missingValues[i] == (Keys(data[0])[i], MissingCount(data, Keys(data[0])[i])))
      && (forall k :: k in Keys(st.numericStats) <==> k in Keys(data[0]) && TypeOf(types, k) == Some(Numeric))
      && (forall k :: k in Keys(st.categoricalStats) <==> k in Keys(data[0]) && TypeOf(types, k) == Some(Categorical))
  {
    var columns := Keys(data[0]);
    MissingEntriesMeaning(data, columns);
    NumericEntriesMeaning(js, data, columns, types);
    CategoricalEntriesMeaning(js, data, columns, types);
  }
}
