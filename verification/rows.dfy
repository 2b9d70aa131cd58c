/**
 * A record (one parsed CSV row) as the JavaScript object the pipeline
 * manipulates: an ordered list of (key, value) pairs.  Key order is kept
 * because the column set is read off the first row and the de-duplication key
 * is the row's serialisation.  Assignment `row[k] = v` is `Put`: it replaces
 * the value in place when `k` is present and appends otherwise.
 */
module Rows {
  import opened Wrappers

  /** A field value: the raw text of a CSV cell, or a number the pipeline derived. */
  datatype Value = Text(s: string) | Num(x: real)

  type Row = seq<(string, Value)>

  /** What JavaScript's `new Date(s)` yields for a string it accepts. */
  datatype DateParts = DateParts(iso: string, year: int, monthIndex: int, day: int)

  /**
   * The JavaScript runtime facts the model does not re-implement, passed in as
   * functions: `Number(s)` and `parseFloat(s)` on a non-empty string (`None`
   * is `NaN`), `new Date(s)` on a string and `new Date(x)` on a number (`None`
   * is an invalid date) and `String(x)` of a number.
   */
  datatype Js = Js(
    number: string -> Option<real>,
    parseFloat: string -> Option<real>,
    date: string -> Option<DateParts>,
    timestamp: real -> Option<DateParts>,
    show: real -> string)

  /**
   * The positions of `s` whose element satisfies `p`, increasing; that every
   * such position is among them is `PositionsComplete`.
   */
  function Positions<T>(s: seq<T>, p: T -> bool): (rows: seq<nat>)
    ensures forall k :: 0 <= k < |rows| ==> rows[k] < |s| && p(s[rows[k]])
    ensures forall k, l :: 0 <= k < l < |rows| ==> rows[k] < rows[l]
  {
    if s == [] then []
    else
      var n := |s| - 1;
      var rows := Positions(s[..n], p);
      assert forall k :: 0 <= k < |rows| ==> s[..n][rows[k]] == s[rows[k]];
      rows + if p(s[n]) then [n] else []
  }

  /** Every position of `s` whose element satisfies `p` is among `Positions(s, p)`. */
  lemma {:induction false} PositionsComplete<T>(s: seq<T>, p: T -> bool, i: nat)
    requires i < |s| && p(s[i])
    ensures i in Positions(s, p)
  {
    var n := |s| - 1;
    if i < n {
      assert s[..n][i] == s[i];
      PositionsComplete(s[..n], p, i);
    }
  }

  /** The elements of `s` that satisfy `p`, in order: those at `Positions(s, p)`. */
  function Select<T>(s: seq<T>, p: T -> bool): (r: seq<T>)
    ensures |r| == |Positions(s, p)| <= |s|
    ensures forall k :: 0 <= k < |r| ==> r[k] == s[Positions(s, p)[k]]
  {
    if s == [] then []
    else
      var n := |s| - 1;
      var r, rows := Select(s[..n], p), Positions(s[..n], p);
      assert forall k :: 0 <= k < |r| ==> s[..n][rows[k]] == s[rows[k]];
      r + if p(s[n]) then [s[n]] else []
  }

  /** What `Select` keeps is exactly the elements that satisfy `p`. */
  lemma {:induction false} SelectMembers<T>(s: seq<T>, p: T -> bool, x: T)
    ensures x in Select(s, p) <==> x in s && p(x)
  {
    if s != [] {
      var n := |s| - 1;
      SelectMembers(s[..n], p, x);
      assert s == s[..n] + [s[n]];
    }
  }

  /** The prefix one element longer: the step of a loop that builds `s` element by element. */
  lemma PrefixSnoc<T>(s: seq<T>, i: nat)
    requires i < |s|
    ensures s[..i + 1] == s[..i] + [s[i]]
  {
  }

  /** The keys of an object (or of any list of entries), in order. */
  function Keys<V>(row: seq<(string, V)>): (ks: seq<string>)
    ensures |ks| == |row|
    ensures forall i :: 0 <= i < |row| ==> ks[i] == row[i].0
  {
    if row == [] then [] else [row[0].0] + Keys(row[1..])
  }

  predicate Distinct<T(==)>(s: seq<T>)
  {
    forall i, j :: 0 <= i < j < |s| ==> s[i] != s[j]
  }

  /** A JavaScript object never holds the same key twice. */
  predicate DistinctKeys<V>(row: seq<(string, V)>)
  {
    Distinct(Keys(row))
  }

  /** `row[key]`: `None` is `undefined`. */
  function Lookup(row: Row, key: string): (v: Option<Value>)
    ensures v.None? <==> key !in Keys(row)
    ensures v.Some? ==> (key, v.value) in row
  {
    if row == [] then None
    else if row[0].0 == key then Some(row[0].1)
    else Lookup(row[1..], key)
  }

  /** `row[key] = v`. */
  function Put(row: Row, key: string, v: Value): Row
  {
    if row == [] then [(key, v)]
    else if row[0].0 == key then [(key, v)] + row[1..]
    else [row[0]] + Put(row[1..], key, v)
  }

  /** After `row[key] = v`, `key` reads `v` and every other key reads what it read before. */
  lemma {:induction false} PutLookup(row: Row, key: string, v: Value)
    ensures Lookup(Put(row, key, v), key) == Some(v)
    ensures forall k :: k != key ==> Lookup(Put(row, key, v), k) == Lookup(row, k)
  {
    if row != [] && row[0].0 != key {
      PutLookup(row[1..], key, v);
      var r := Put(row, key, v);
      assert r[1..] == Put(row[1..], key, v);
    }
  }

  /** Assignment keeps the key order, and appends a key the object did not have. */
  lemma {:induction false} PutKeys(row: Row, key: string, v: Value)
    ensures Keys(Put(row, key, v)) == if key in Keys(row) then Keys(row) else Keys(row) + [key]
  {
    if row != [] {
      assert Keys(row) == [row[0].0] + Keys(row[1..]);
      var r := Put(row, key, v);
      if row[0].0 == key {
        assert Keys(r) == [key] + Keys(row[1..]);
      } else {
        PutKeys(row[1..], key, v);
        assert Keys(r) == [row[0].0] + Keys(Put(row[1..], key, v));
      }
    }
  }

  /** Assignment keeps a JavaScript object's keys distinct. */
  lemma PutDistinct(row: Row, key: string, v: Value)
    ensures DistinctKeys(row) ==> DistinctKeys(Put(row, key, v))
  {
    PutKeys(row, key, v);
    var ks := Keys(row);
    if DistinctKeys(row) && key !in ks {
      var ks' := ks + [key];
      forall i, j | 0 <= i < j < |ks'| ensures ks'[i] != ks'[j] {
        if j == |ks| { assert ks'[i] in ks; }
      }
    }
  }

  /** Assigning a key the object does not have appends it at the end. */
  lemma {:induction false} PutAbsent(row: Row, key: string, v: Value)
    requires key !in Keys(row)
    ensures Put(row, key, v) == row + [(key, v)]
  {
    if row != [] {
      assert Keys(row) == [row[0].0] + Keys(row[1..]);
      PutAbsent(row[1..], key, v);
      assert row == [row[0]] + row[1..];
    }
  }

  /** The value the last entry of `es` with key `k` carries, if any. */
  function LastValue(es: seq<(string, Value)>, k: string): (v: Option<Value>)
    ensures v.None? <==> k !in Keys(es)
  {
    if es == [] then None
    else
      var rest := LastValue(es[1..], k);
      if rest.Some? then rest else if es[0].0 == k then Some(es[0].1) else None
  }

  /** The assignments `row[k1] = v1; row[k2] = v2; ...` in order. */
  function PutAll(row: Row, es: seq<(string, Value)>): Row
    decreases |es|
  {
    if es == [] then row else PutAll(Put(row, es[0].0, es[0].1), es[1..])
  }

  /** After a series of assignments the last write to a key wins; other keys are untouched. */
  lemma {:induction false} PutAllLookup(row: Row, es: seq<(string, Value)>, k: string)
    ensures Lookup(PutAll(row, es), k) == if k in Keys(es) then LastValue(es, k) else Lookup(row, k)
    decreases |es|
  {
    if es != [] {
      assert Keys(es) == [es[0].0] + Keys(es[1..]);
      PutLookup(row, es[0].0, es[0].1);
      PutAllLookup(Put(row, es[0].0, es[0].1), es[1..], k);
    }
  }

  lemma PutAllLookups(row: Row, es: seq<(string, Value)>)
    ensures forall k :: Lookup(PutAll(row, es), k) == if k in Keys(es) then LastValue(es, k) else Lookup(row, k)
  {
    forall k { PutAllLookup(row, es, k); }
  }

  /** A series of assignments keeps the keys distinct and loses none. */
  lemma {:induction false} PutAllKeys(row: Row, es: seq<(string, Value)>)
    ensures DistinctKeys(row) ==> DistinctKeys(PutAll(row, es))
    ensures forall k :: k in Keys(row) ==> k in Keys(PutAll(row, es))
    decreases |es|
  {
    if es != [] {
      PutKeys(row, es[0].0, es[0].1);
      PutDistinct(row, es[0].0, es[0].1);
      PutAllKeys(Put(row, es[0].0, es[0].1), es[1..]);
    }
  }

  /** Dropping the first entry keeps the keys distinct. */
  lemma DistinctKeysTail<V>(es: seq<(string, V)>)
    requires es != [] && DistinctKeys(es)
    ensures DistinctKeys(es[1..])
  {
    var ks, ts := Keys(es), Keys(es[1..]);
    forall i, j | 0 <= i < j < |ts| ensures ts[i] != ts[j] {
      assert ts[i] == ks[i + 1] && ts[j] == ks[j + 1];
    }
  }

  /** In a list of entries with distinct keys, each key's last value is its only value. */
  lemma {:induction false} LastValueAt(es: seq<(string, Value)>, j: nat)
    requires DistinctKeys(es) && j < |es|
    ensures LastValue(es, es[j].0) == Some(es[j].1)
  {
    DistinctKeysTail(es);
    var ts := Keys(es[1..]);
    if j == 0 {
      assert forall i :: 0 <= i < |ts| ==> ts[i] == Keys(es)[i + 1] != Keys(es)[0];
    } else {
      LastValueAt(es[1..], j - 1);
    }
  }

  /** The last of a list's entries under a key, split across a concatenation. */
  lemma {:induction false} LastValueAppend(a: seq<(string, Value)>, b: seq<(string, Value)>, k: string)
    ensures LastValue(a + b, k) == if k in Keys(b) then LastValue(b, k) else LastValue(a, k)
    decreases |a|
  {
    if a != [] {
      assert (a + b)[1..] == a[1..] + b;
      LastValueAppend(a[1..], b, k);
    } else {
      assert a + b == b;
    }
  }

  /** One more assignment after a series of them. */
  lemma {:induction false} PutAllSnoc(row: Row, es: seq<(string, Value)>, e: (string, Value))
    ensures PutAll(row, es + [e]) == Put(PutAll(row, es), e.0, e.1)
    decreases |es|
  {
    if es == [] {
      assert PutAll(row, [e]) == PutAll(Put(row, e.0, e.1), []);
    } else {
      assert (es + [e])[1..] == es[1..] + [e];
      PutAllSnoc(Put(row, es[0].0, es[0].1), es[1..], e);
    }
  }

  /** The keys of a concatenation. */
  lemma KeysAppend<V>(a: seq<(string, V)>, b: seq<(string, V)>)
    ensures Keys(a + b) == Keys(a) + Keys(b)
  {
    assert forall i :: 0 <= i < |a + b| ==> Keys(a + b)[i] == (Keys(a) + Keys(b))[i];
  }

  /** Two series of assignments one after the other. */
  lemma {:induction false} PutAllAppend(row: Row, a: seq<(string, Value)>, b: seq<(string, Value)>)
    ensures PutAll(row, a + b) == PutAll(PutAll(row, a), b)
    decreases |a|
  {
    if a == [] {
      assert a + b == b;
    } else {
      assert (a + b)[1..] == a[1..] + b;
      PutAllAppend(Put(row, a[0].0, a[0].1), a[1..], b);
    }
  }

  /** The assignments of a list's first `j + 1` entries, from those of the first `j`. */
  lemma PutAllPrefix(row: Row, es: seq<(string, Value)>, j: nat)
    requires j < |es|
    ensures PutAll(row, es[..j + 1]) == Put(PutAll(row, es[..j]), es[j].0, es[j].1)
  {
    assert es[..j + 1] == es[..j] + [es[j]];
    PutAllSnoc(row, es[..j], es[j]);
  }

  /** Assigning distinct keys that are all new builds the object in assignment order. */
  lemma {:induction false} PutAllFresh(row: Row, es: seq<(string, Value)>)
    requires DistinctKeys(es)
    requires forall k :: k in Keys(es) ==> k !in Keys(row)
    ensures PutAll(row, es) == row + es
    decreases |es|
  {
    if es != [] {
      var init, last := es[..|es| - 1], es[|es| - 1];
      assert es == init + [last];
      KeysAppend(init, [last]);
      assert last.0 in Keys(es);
      PutAllFresh(row, init);
      PutAllSnoc(row, init, last);
      KeysAppend(row, init);
      PutAbsent(row + init, last.0, last.1);
    }
  }

  /** JavaScript truthiness of a field: `undefined`, `''` and `0` are falsy. */
  predicate Truthy(v: Option<Value>)
  {
    match v
    case None => false
    case Some(Text(s)) => s != ""
    case Some(Num(x)) => x != 0.0
  }

  /** The missing-value test `v === null || v === undefined || v === ''`. */
  predicate IsMissing(v: Option<Value>)
  {
    v.None? || v == Some(Text(""))
  }

  /** `Number(v)`; `None` is `NaN`.  `Number(undefined)` is `NaN` and `Number('')` is 0. */
  function NumberOf(js: Js, v: Option<Value>): Option<real>
  {
    match v
    case None => None
    case Some(Text(s)) => if s == "" then Some(0.0) else js.number(s)
    case Some(Num(x)) => Some(x)
  }

  /** `new Date(v)`: `None` is an invalid date. */
  function DateOf(js: Js, v: Value): Option<DateParts>
  {
    match v
    case Text(s) => js.date(s)
    case Num(x) => js.timestamp(x)
  }

  /** `String(v)`. */
  function StringOf(js: Js, v: Value): string
  {
    match v
    case Text(s) => s
    case Num(x) => js.show(x)
  }

  /** `String(v || fallback)`. */
  function TextOr(js: Js, v: Option<Value>, fallback: string): (s: string)
    ensures !Truthy(v) ==> s == fallback
  {
    if Truthy(v) then StringOf(js, v.value) else fallback
  }

  /** `parseFloat(String(v || 0))`: a falsy field reads as 0. */
  function FloatOrZero(js: Js, v: Option<Value>): (r: Option<real>)
    ensures !Truthy(v) ==> r == Some(0.0)
  {
    if !Truthy(v) then Some(0.0)
    else match v.value
      case Text(s) => js.parseFloat(s)
      case Num(x) => Some(x)
  }

  /** `Math.round(x)` over exact reals: the nearest integer, halves rounded up. */
  function Round(x: real): (n: int)
    ensures x - 0.5 < n as real <= x + 0.5
  {
    (x + 0.5).Floor
  }
}
