/**
 * `encodeCategorical` (backend/src/lib/dataTransform.ts): label encoding.
 * For each categorical column the distinct texts `String(row[column] || '')`
 * are collected in order of first appearance, a text's label is its position,
 * and every row gains a field `<column>_encoded` holding
 * `labels.get(text) || -1`.  Because position 0 is falsy, the column's first
 * text is written as -1, not 0.
 */
module Encoding {
  import opened Wrappers
  import opened Rows
  import opened Strings
  import opened Dedup

  /** `String(row[column] || '')`. */
  function CellText(js: Js, row: Row, column: string): string
  {
    TextOr(js, Lookup(row, column), "")
  }

  /** The text of `column` in every row, in row order. */
  function ColumnTexts(js: Js, data: seq<Row>, column: string): (ts: seq<string>)
    ensures |ts| == |data|
    ensures forall i :: 0 <= i < |data| ==> ts[i] == CellText(js, data[i], column)
  {
    seq(|data|, i requires 0 <= i < |data| => CellText(js, data[i], column))
  }

  /** The keys of the column's label map, in insertion order: the distinct texts as first met. */
  function Vocabulary(js: Js, data: seq<Row>, column: string): seq<string>
  {
    FirstOccurrences(ColumnTexts(js, data, column))
  }

  /** `labels.get(text) || -1`, where `labels` maps `vocab[i]` to `i`. */
  function CodeOf(vocab: seq<string>, text: string): (code: int)
    ensures -1 <= code < |vocab| && code != 0
    ensures code == -1 <==> text !in vocab || text == vocab[0]
    ensures code != -1 ==> vocab[code] == text
  {
    if text !in vocab then -1
    else
      var i := FirstIndex(vocab, text);
      if i == 0 then -1 else i
  }

  /** Reading a label back: -1 stands for the first text. */
  function Decode(vocab: seq<string>, code: int): string
    requires |vocab| > 0 && -1 <= code < |vocab|
  {
    if code == -1 then vocab[0] else vocab[code]
  }

  /** Every text of the vocabulary is recovered from its label, despite the -1 for the first one. */
  lemma DecodeEncode(vocab: seq<string>, text: string)
    requires text in vocab
    ensures Decode(vocab, CodeOf(vocab, text)) == text
  {
  }

  /** So distinct texts of a column get distinct labels. */
  lemma CodeInjective(vocab: seq<string>, t1: string, t2: string)
    requires t1 in vocab && t2 in vocab
    ensures CodeOf(vocab, t1) == CodeOf(vocab, t2) ==> t1 == t2
  {
    DecodeEncode(vocab, t1);
    DecodeEncode(vocab, t2);
  }

  /** The first distinct element is the first element. */
  lemma FirstOccurrencesHead<T>(s: seq<T>)
    requires |s| > 0
    ensures |FirstOccurrences(s)| > 0 && FirstOccurrences(s)[0] == s[0]
  {
    var u := FirstOccurrences(s);
    FirstOccurrencesOrdered(s);
    var m :| 0 <= m < |u| && u[m] == s[0];
    assert FirstIndex(s, u[m]) == 0;
  }

  /**
   * A row's label is -1 exactly when its text equals the first row's text:
   * every row of the first row's category is written as -1.
   */
  lemma MinusOneIffFirstRowText(js: Js, data: seq<Row>, column: string, i: nat)
    requires i < |data|
    ensures CodeOf(Vocabulary(js, data, column), CellText(js, data[i], column)) == -1
      <==> CellText(js, data[i], column) == CellText(js, data[0], column)
  {
    FirstOccurrencesHead(ColumnTexts(js, data, column));
  }

  /** The fields one row gains, one per categorical column, in column order. */
  function EncodedEntries(js: Js, data: seq<Row>, columns: seq<string>, row: Row): (es: seq<(string, Value)>)
    ensures |es| == |columns|
  {
    seq(|columns|, j requires 0 <= j < |columns| =>
      (columns[j] + "_encoded", Num(CodeOf(Vocabulary(js, data, columns[j]), CellText(js, row, columns[j])) as real)))
  }

  /** `{ ...row }` with the encoded fields assigned in column order. */
  function EncodedRow(js: Js, data: seq<Row>, columns: seq<string>, row: Row): Row
  {
    PutAll(row, EncodedEntries(js, data, columns, row))
  }

  /** With distinct column names, the encoded field of column `j` holds that column's label. */
  lemma EncodedField(js: Js, data: seq<Row>, columns: seq<string>, row: Row, j: nat)
    requires Distinct(columns) && j < |columns|
    ensures Lookup(EncodedRow(js, data, columns, row), columns[j] + "_encoded")
      == Some(Num(CodeOf(Vocabulary(js, data, columns[j]), CellText(js, row, columns[j])) as real))
  {
    var es := EncodedEntries(js, data, columns, row);
    forall a, b | 0 <= a < b < |es| ensures Keys(es)[a] != Keys(es)[b] {
      if Keys(es)[a] == Keys(es)[b] {
        SuffixInjective(columns[a], columns[b], "_encoded");
      }
    }
    LastValueAt(es, j);
    PutAllLookup(row, es, columns[j] + "_encoded");
  }

  /** Every field that is not an encoded field is left as it was. */
  lemma EncodedKeeps(js: Js, data: seq<Row>, columns: seq<string>, row: Row, k: string)
    requires forall c :: c in columns ==> k != c + "_encoded"
    ensures Lookup(EncodedRow(js, data, columns, row), k) == Lookup(row, k)
  {
    var es := EncodedEntries(js, data, columns, row);
    PutAllLookup(row, es, k);
    forall j | 0 <= j < |es| ensures Keys(es)[j] != k {
      assert columns[j] in columns;
    }
  }

  /** The result of `encodeCategorical(data, columns)`: each row with its encoded fields. */
  function Encoded(js: Js, data: seq<Row>, columns: seq<string>): (out: seq<Row>)
    ensures |out| == |data|
    ensures forall i :: 0 <= i < |data| ==> out[i] == EncodedRow(js, data, columns, data[i])
  {
    seq(|data|, i requires 0 <= i < |data| => EncodedRow(js, data, columns, data[i]))
  }

  /** One label map: the texts of the column collected into an insertion-ordered set. */
  method BuildEncoding(js: Js, data: seq<Row>, column: string) returns (values: seq<string>)
    ensures values == Vocabulary(js, data, column)
  {
    ghost var texts := ColumnTexts(js, data, column);
    var uniqueValues: set<string> := {};
    values := [];
    for i := 0 to |data|
      invariant values == FirstOccurrences(texts[..i])
      invariant forall t :: t in uniqueValues <==> t in texts[..i]
    {
      var value := CellText(js, data[i], column);
      assert value == texts[i];
      FirstOccurrencesStep(texts, i);
      if value !in uniqueValues {
        uniqueValues := uniqueValues + {value};
        values := values + [value];
      }
    }
    assert texts[..|data|] == texts;
  }

  /** `maps` holds the label map of each column, in column order. */
  predicate LabelMaps(js: Js, data: seq<Row>, columns: seq<string>, maps: seq<seq<string>>)
  {
    |maps| == |columns| && forall m :: 0 <= m < |columns| ==> maps[m] == Vocabulary(js, data, columns[m])
  }

  /** The callback of `data.map`: copy the row, then assign each column's label. */
  method EncodeRow(js: Js, data: seq<Row>, columns: seq<string>, maps: seq<seq<string>>, row: Row) returns (newRow: Row)
    requires LabelMaps(js, data, columns, maps)
    ensures newRow == EncodedRow(js, data, columns, row)
  {
    ghost var es := EncodedEntries(js, data, columns, row);
    newRow := row;
    for j := 0 to |columns|
      invariant newRow == PutAll(row, es[..j])
    {
      var value := CellText(js, row, columns[j]);
      var code := CodeOf(maps[j], value);
      assert es[j] == (columns[j] + "_encoded", Num(code as real));
      newRow := Put(newRow, columns[j] + "_encoded", Num(code as real));
      PutAllPrefix(row, es, j);
    }
    assert es[..|columns|] == es;
  }

  /** The first pass of `encodeCategorical`: one label map per column, in column order. */
  method BuildEncodings(js: Js, data: seq<Row>, columns: seq<string>) returns (maps: seq<seq<string>>)
    ensures LabelMaps(js, data, columns, maps)
  {
    maps := [];
    for j := 0 to |columns|
      invariant |maps| == j
      invariant forall m :: 0 <= m < j ==> maps[m] == Vocabulary(js, data, columns[m])
    {
      var labels := BuildEncoding(js, data, columns[j]);
      maps := maps + [labels];
    }
  }

  /** `encodeCategorical(data, columns)`: build every label map, then extend each row. */
  method EncodeCategorical(js: Js, data: seq<Row>, columns: seq<string>) returns (out: seq<Row>)
    ensures out == Encoded(js, data, columns)
  {
    var maps := BuildEncodings(js, data, columns);
    ghost var spec := Encoded(js, data, columns);
    out := [];
    for i := 0 to |data|
      invariant out == spec[..i]
    {
      PrefixSnoc(spec, i);
      var newRow := EncodeRow(js, data, columns, maps, data[i]);
      out := out + [newRow];
    }
  }
}
