/**
 * `removeDuplicates` (backend/src/lib/dataTransform.ts): rows are compared
 * by their serialisation, which for these string-valued records identifies a
 * row exactly, so the model compares the rows themselves.
 */
module Dedup {
  import opened Rows

  /** The elements of `s` in order of first appearance, each once. */
  function FirstOccurrences<T(==)>(s: seq<T>): (u: seq<T>)
    ensures forall i :: 0 <= i < |u| ==> u[i] in s
    ensures forall i :: 0 <= i < |s| ==> s[i] in u
    ensures Distinct(u)
    ensures |u| <= |s|
    decreases |s|
  {
    if s == [] then []
    else
      var init, last := s[..|s| - 1], s[|s| - 1];
      assert s == init + [last];
      var u0 := FirstOccurrences(init);
      if last in init then u0
      else
        var u := u0 + [last];
        assert forall i, j :: 0 <= i < j < |u| ==> u[i] != u[j] by {
          forall i, j | 0 <= i < j < |u| ensures u[i] != u[j] {
            if j == |u0| { assert u[i] in u0; }
          }
        }
        u
  }

  /** Scanning one more element adds it when it is new. */
  lemma FirstOccurrencesSnoc<T>(s: seq<T>, x: T)
    ensures FirstOccurrences(s + [x]) == if x in s then FirstOccurrences(s) else FirstOccurrences(s) + [x]
  {
    assert (s + [x])[..|s|] == s;
  }

  /** One more element of `s` read: the step of a loop over `s` that keeps the first occurrences. */
  lemma FirstOccurrencesStep<T>(s: seq<T>, i: nat)
    requires i < |s|
    ensures FirstOccurrences(s[..i + 1])
      == if s[i] in s[..i] then FirstOccurrences(s[..i]) else FirstOccurrences(s[..i]) + [s[i]]
    ensures forall x :: x in s[..i + 1] <==> x in s[..i] || x == s[i]
  {
    assert s[..i + 1] == s[..i] + [s[i]];
    FirstOccurrencesSnoc(s[..i], s[i]);
  }

  /** The distinct elements are the elements. */
  lemma FirstOccurrencesHas<T>(s: seq<T>, x: T)
    ensures x in FirstOccurrences(s) <==> x in s
  {
    var u := FirstOccurrences(s);
    if x in u {
      var i :| 0 <= i < |u| && u[i] == x;
    }
    if x in s {
      var i :| 0 <= i < |s| && s[i] == x;
    }
  }

  /** The position of the first occurrence of `x` in `s`. */
  function FirstIndex<T(==)>(s: seq<T>, x: T): (i: nat)
    requires x in s
    ensures i < |s| && s[i] == x
    ensures forall k :: 0 <= k < i ==> s[k] != x
  {
    if s[0] == x then 0 else 1 + FirstIndex(s[1..], x)
  }

  /** Appending to a sequence does not move the first occurrence of anything already in it. */
  lemma FirstIndexPrefix<T>(s: seq<T>, last: T, x: T)
    requires x in s
    ensures FirstIndex(s + [last], x) == FirstIndex(s, x)
  {
    var j := FirstIndex(s, x);
    assert (s + [last])[j] == x;
    assert forall k :: 0 <= k < j ==> (s + [last])[k] == s[k] != x;
  }

  /** An element missing from `s` first occurs, in `s + [last]`, at the end. */
  lemma FirstIndexLast<T>(s: seq<T>, last: T)
    requires last !in s
    ensures FirstIndex(s + [last], last) == |s|
  {
    assert forall k :: 0 <= k < |s| ==> (s + [last])[k] == s[k] != last;
  }

  /** `u` lists elements of `s` in the order of their first occurrences in `s`. */
  predicate InFirstOccurrenceOrder<T(==)>(s: seq<T>, u: seq<T>)
  {
    && (forall k :: 0 <= k < |u| ==> u[k] in s)
    && (forall i, j :: 0 <= i < j < |u| ==> FirstIndex(s, u[i]) < FirstIndex(s, u[j]))
  }

  lemma OrderedExtend<T>(init: seq<T>, last: T, u0: seq<T>)
    requires InFirstOccurrenceOrder(init, u0)
    ensures InFirstOccurrenceOrder(init + [last], u0)
    ensures last !in init ==> InFirstOccurrenceOrder(init + [last], u0 + [last])
  {
    var s := init + [last];
    forall k | 0 <= k < |u0| ensures FirstIndex(s, u0[k]) == FirstIndex(init, u0[k]) {
      FirstIndexPrefix(init, last, u0[k]);
    }
    if last !in init {
      FirstIndexLast(init, last);
      var u := u0 + [last];
      forall i, j | 0 <= i < j < |u| ensures FirstIndex(s, u[i]) < FirstIndex(s, u[j]) {
        if j < |u0| {
          assert u[i] == u0[i] && u[j] == u0[j];
        } else {
          assert u[i] == u0[i];
        }
      }
    }
  }

  /**
   * The kept rows appear in the order of their first occurrences in the input:
   * together with the facts `FirstOccurrences` ensures (same elements, no
   * repeats) this says de-duplication keeps exactly each row's first occurrence
   * and preserves relative order.
   */
  lemma {:induction false} FirstOccurrencesOrdered<T>(s: seq<T>)
    ensures InFirstOccurrenceOrder(s, FirstOccurrences(s))
  {
    if s != [] {
      var init, last := s[..|s| - 1], s[|s| - 1];
      assert s == init + [last];
      FirstOccurrencesOrdered(init);
      OrderedExtend(init, last, FirstOccurrences(init));
    }
  }

  /**
   * `removeDuplicates(data)`: one pass with a set of rows already seen.
   * The result is the rows' first occurrences, and every row dropped is counted.
   */
  method RemoveDuplicates(data: seq<Row>) returns (unique: seq<Row>, duplicatesRemoved: nat)
    ensures unique == FirstOccurrences(data)
    ensures |unique| + duplicatesRemoved == |data|
  {
    var seen: set<Row> := {};
    unique, duplicatesRemoved := [], 0;
    for i := 0 to |data|
      invariant unique == FirstOccurrences(data[..i])
      invariant forall r :: r in seen <==> r in data[..i]
      invariant |unique| + duplicatesRemoved == i
    {
      var row := data[i];
      FirstOccurrencesStep(data, i);
      if row !in seen {
        seen := seen + {row};
        unique := unique + [row];
      } else {
        duplicatesRemoved := duplicatesRemoved + 1;
      }
    }
    assert data[..|data|] == data;
  }
}
