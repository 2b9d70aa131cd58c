/**
 * `transformDataset` (backend/src/lib/dataTransform.ts): the fixed sequence
 * de-duplicate, normalise the column names, detect the column types, encode
 * the categorical columns, scale the numeric ones, parse the dates, add the
 * derived features and compute the statistics.  Reading the CSV file is
 * outside the model: the parsed records are the input.
 */
module Pipeline {
  import opened Rows
  import opened Dedup
  import opened Normalize
  import opened ColumnTypes
  import opened Encoding
  import opened Scaling
  import opened Dates
  import opened Features
  import opened Statistics

  datatype TransformationResult = TransformationResult(
    rowsProcessed: nat,
    columnsProcessed: nat,
    duplicatesRemoved: nat,
    categoricalColumns: seq<string>,
    numericColumns: seq<string>,
    dateColumns: seq<string>,
    derivedFeatures: seq<string>,
    statistics: DataStatistics)

  /** The de-duplicated rows with normalised keys, on which the types are detected. */
  function Prepared(records: seq<Row>): seq<Row>
  {
    NormalizeColumns(FirstOccurrences(records))
  }

  /** The detected (column, type) entries. */
  function TypesOf(js: Js, records: seq<Row>): seq<(string, ColumnType)>
  {
    ColumnTypesOf(js, Prepared(records))
  }

  /** The rows after every transformation step, on which the statistics are computed. */
  function TransformedRows(js: Js, records: seq<Row>): seq<Row>
  {
    var types := TypesOf(js, records);
    var numeric := ColumnsOfType(types, Numeric);
    var encoded := Encoded(js, Prepared(records), ColumnsOfType(types, Categorical));
    var scaled := Scaled(js, encoded, numeric);
    var dated := Dated(js, scaled, ColumnsOfType(types, Date));
    Derived(js, dated, numeric)
  }

  /** The summary `transformDataset` returns for the given records. */
  function TransformationOf(js: Js, records: seq<Row>): TransformationResult
  {
    var types := TypesOf(js, records);
    var numeric := ColumnsOfType(types, Numeric);
    TransformationResult(|FirstOccurrences(records)|, |types|, |records| - |FirstOccurrences(records)|,
      ColumnsOfType(types, Categorical), numeric, ColumnsOfType(types, Date),
      FeatureNames(FirstOccurrences(records), numeric), StatisticsOf(js, TransformedRows(js, records), types))
  }

  /** `transformDataset` on already loaded records. */
  method TransformDataset(js: Js, records: seq<Row>) returns (result: TransformationResult)
    ensures result.rowsProcessed == |FirstOccurrences(records)|
    ensures result.duplicatesRemoved + result.rowsProcessed == |records|
    ensures result.columnsProcessed == |TypesOf(js, records)|
    ensures result.categoricalColumns == ColumnsOfType(TypesOf(js, records), Categorical)
    ensures result.numericColumns == ColumnsOfType(TypesOf(js, records), Numeric)
    ensures result.dateColumns == ColumnsOfType(TypesOf(js, records), Date)
    ensures result.derivedFeatures == FeatureNames(FirstOccurrences(records), result.numericColumns)
    ensures result.statistics == StatisticsOf(js, TransformedRows(js, records), TypesOf(js, records))
    ensures result == TransformationOf(js, records)
  {
    var data, duplicatesRemoved := RemoveDuplicates(records);
    data := NormalizeColumns(data);
    var columnTypes := DetectColumnTypes(js, data);
    var categoricalColumns := ColumnsOfType(columnTypes, Categorical);
    var numericColumns := ColumnsOfType(columnTypes, Numeric);
    var dateColumns := ColumnsOfType(columnTypes, Date);
    data := EncodeCategorical(js, data, categoricalColumns);
    data := ScaleNumeric(js, data, numericColumns);
    data := ParseDates(js, data, dateColumns);
    var derivedFeatures;
    data, derivedFeatures := CreateDerivedFeatures(js, data, numericColumns);
    var statistics := CalculateStatistics(js, data, columnTypes);
    result := TransformationResult(|data|, |columnTypes|, duplicatesRemoved,
      categoricalColumns, numericColumns, dateColumns, derivedFeatures, statistics);
  }

  /** Every step keeps the number of rows: the statistics count the de-duplicated rows. */
  lemma RowsKept(js: Js, records: seq<Row>)
    ensures |TransformedRows(js, records)| == |FirstOccurrences(records)|
    ensures StatisticsOf(js, TransformedRows(js, records), TypesOf(js, records)).totalRows == |FirstOccurrences(records)|
  {
  }

  /** Each detected column has one type, so no column is listed under two types. */
  lemma TypeListsDisjoint(js: Js, records: seq<Row>, c: string)
    ensures !(c in ColumnsOfType(TypesOf(js, records), Categorical) && c in ColumnsOfType(TypesOf(js, records), Numeric))
    ensures !(c in ColumnsOfType(TypesOf(js, records), Categorical) && c in ColumnsOfType(TypesOf(js, records), Date))
    ensures !(c in ColumnsOfType(TypesOf(js, records), Numeric) && c in ColumnsOfType(TypesOf(js, records), Date))
  {
    var data := Prepared(records);
    var types := TypesOf(js, records);
    if |data| > 0 {
      ColumnTypesOfMeaning(js, data);
      forall i, j | 0 <= i < |types| && 0 <= j < |types| && types[i].0 == types[j].0 ensures types[i].1 == types[j].1 {
        assert types[i].1 == ColumnTypeOf(js, data, types[i].0);
      }
    }
    OneTypePerColumn(types, c, Categorical, Numeric);
    OneTypePerColumn(types, c, Categorical, Date);
    OneTypePerColumn(types, c, Numeric, Date);
  }

  /** When equal names carry equal types, no name is listed under two different types. */
  lemma OneTypePerColumn(types: seq<(string, ColumnType)>, c: string, t1: ColumnType, t2: ColumnType)
    requires t1 != t2
    requires forall i, j :: 0 <= i < |types| && 0 <= j < |types| && types[i].0 == types[j].0 ==> types[i].1 == types[j].1
    ensures !(c in ColumnsOfType(types, t1) && c in ColumnsOfType(types, t2))
  {
    if c in ColumnsOfType(types, t1) {
      var i :| 0 <= i < |types| && types[i] == (c, t1);
      forall j | 0 <= j < |types| ensures types[j] != (c, t2) {
        if types[j].0 == c {
          assert types[j].1 == t1;
        }
      }
    }
  }
}
