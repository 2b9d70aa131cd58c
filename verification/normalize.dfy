/**
 * `normalizeColumns` (backend/src/lib/dataTransform.ts): every key is
 * lower-cased, trimmed, has each run of white space replaced by `_`, and
 * loses every character outside `[a-z0-9_]`; values are carried over.
 */
module Normalize {
  import opened Strings
  import opened Rows

  predicate IsKeyChar(c: char)
  {
    'a' <= c <= 'z' || '0' <= c <= '9' || c == '_'
  }

  /** A key made only of `[a-z0-9_]`: no upper case, no white space. */
  predicate IsNormalKey(k: string)
  {
    forall i :: 0 <= i < |k| ==> IsKeyChar(k[i])
  }

  /** `.replace(/\s+/g, '_')`. */
  function CollapseSpaces(s: string): (r: string)
    ensures NoSpace(s) ==> r == s
    decreases |s|
  {
    if s == [] then []
    else if IsSpace(s[0]) then "_" + CollapseSpaces(TrimStart(s[1..]))
    else [s[0]] + CollapseSpaces(s[1..])
  }

  /** `.replace(/[^a-z0-9_]/g, '')`. */
  function KeepKeyChars(s: string): (r: string)
    ensures IsNormalKey(r)
    ensures IsNormalKey(s) ==> r == s
  {
    if s == [] then []
    else if IsKeyChar(s[0]) then [s[0]] + KeepKeyChars(s[1..])
    else KeepKeyChars(s[1..])
  }

  /** The normalised form of one column name. */
  function NormalizeKey(key: string): (k: string)
    ensures IsNormalKey(k)
  {
    KeepKeyChars(CollapseSpaces(Trim(Lower(key))))
  }

  /** A name already in normal form is left as it is. */
  lemma NormalKeyFixed(k: string)
    requires IsNormalKey(k)
    ensures NormalizeKey(k) == k
  {
    assert Lower(k) == k;
    assert NoSpace(k);
    TrimNoSpace(k);
  }

  /** Normalising a column name twice gives the same name as normalising it once. */
  lemma NormalizeKeyIdempotent(key: string)
    ensures NormalizeKey(NormalizeKey(key)) == NormalizeKey(key)
  {
    NormalKeyFixed(NormalizeKey(key));
  }

  /** The row's entries with their keys normalised, in the original order. */
  function Renamed(row: Row): (es: seq<(string, Value)>)
    ensures |es| == |row|
  {
    seq(|row|, i requires 0 <= i < |row| => (NormalizeKey(row[i].0), row[i].1))
  }

  /**
   * One row of `normalizeColumns`: the entries are assigned, in order, into a
   * fresh object, so when two keys normalise alike the later value wins.
   */
  function NormalizeRow(row: Row): Row
  {
    PutAll([], Renamed(row))
  }

  /** A normalised row has distinct keys, all in normal form, each holding the last value written to it. */
  lemma NormalizeRowShape(row: Row)
    ensures DistinctKeys(NormalizeRow(row))
    ensures forall k :: k in Keys(NormalizeRow(row)) ==> IsNormalKey(k)
    ensures forall k :: Lookup(NormalizeRow(row), k) == LastValue(Renamed(row), k)
  {
    var es := Renamed(row);
    var r := PutAll([], es);
    PutAllLookups([], es);
    PutAllKeys([], es);
    forall k | k in Keys(r) ensures IsNormalKey(k) {
      assert Lookup(r, k).Some?;
      assert k in Keys(es);
      var i :| 0 <= i < |es| && Keys(es)[i] == k;
      assert k == NormalizeKey(row[i].0);
    }
  }

  /** A row whose keys are distinct and already normal is its own normal form. */
  lemma NormalizeRowFixed(row: Row)
    requires DistinctKeys(row)
    requires forall k :: k in Keys(row) ==> IsNormalKey(k)
    ensures NormalizeRow(row) == row
  {
    forall i | 0 <= i < |row| ensures Renamed(row)[i] == row[i] {
      assert row[i].0 in Keys(row);
      NormalKeyFixed(row[i].0);
    }
    assert Renamed(row) == row;
    PutAllFresh([], row);
  }

  /** `normalizeColumns(data)`: one normalised row per input row. */
  function NormalizeColumns(data: seq<Row>): (out: seq<Row>)
    ensures |out| == |data|
    ensures forall i :: 0 <= i < |out| ==> out[i] == NormalizeRow(data[i])
  {
    if |data| == 0 then data
    else seq(|data|, i requires 0 <= i < |data| => NormalizeRow(data[i]))
  }

  /**
   * Every output row has distinct keys in normal form, and each key holds the
   * value of the last field of the input row that normalises to it.
   */
  lemma NormalizeColumnsShape(data: seq<Row>)
    ensures forall i :: 0 <= i < |data| ==> DistinctKeys(NormalizeColumns(data)[i])
    ensures forall i, k :: 0 <= i < |data| && k in Keys(NormalizeColumns(data)[i]) ==> IsNormalKey(k)
    ensures forall i, k :: 0 <= i < |data| ==> Lookup(NormalizeColumns(data)[i], k) == LastValue(Renamed(data[i]), k)
  {
    forall i | 0 <= i < |data| { NormalizeRowShape(data[i]); }
  }

  /** Normalising an already normalised dataset changes nothing. */
  lemma NormalizeColumnsIdempotent(data: seq<Row>)
    ensures NormalizeColumns(NormalizeColumns(data)) == NormalizeColumns(data)
  {
    var once := NormalizeColumns(data);
    forall i | 0 <= i < |once| ensures NormalizeRow(once[i]) == once[i] {
      NormalizeRowShape(data[i]);
      NormalizeRowFixed(once[i]);
    }
    var twice := NormalizeColumns(once);
    assert |twice| == |once|;
    assert forall i :: 0 <= i < |once| ==> twice[i] == once[i];
  }
}
