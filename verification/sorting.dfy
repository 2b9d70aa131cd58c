/**
 * The two orderings the pipeline uses: `values.sort((a, b) => a - b)` on
 * numbers, and `xs.sort((a, b) => key(b) - key(a))` (a stable sort, as
 * JavaScript's is) followed by `slice(0, n)`.  Both are insertion sorts here.
 */
module Sorting {

  predicate SortedAsc(s: seq<real>)
  {
    forall i, j :: 0 <= i < j < |s| ==> s[i] <= s[j]
  }

  predicate SortedDesc<T>(s: seq<T>, key: T -> int)
  {
    forall i, j :: 0 <= i < j < |s| ==> key(s[i]) >= key(s[j])
  }

  lemma ConsSortedAsc(h: real, t: seq<real>)
    requires SortedAsc(t)
    requires forall k :: 0 <= k < |t| ==> h <= t[k]
    ensures SortedAsc([h] + t)
  {
    var r := [h] + t;
    forall i, j | 0 <= i < j < |r| ensures r[i] <= r[j] {
      if i == 0 { assert r[j] == t[j - 1]; } else { assert r[i] == t[i - 1] && r[j] == t[j - 1]; }
    }
  }

  function InsertAsc(s: seq<real>, x: real): (r: seq<real>)
    requires SortedAsc(s)
    ensures SortedAsc(r)
    ensures multiset(r) == multiset(s) + multiset{x}
    ensures |r| == |s| + 1
  {
    if s == [] then [x]
    else if x <= s[0] then
      ConsSortedAsc(x, s);
      [x] + s
    else
      var t := InsertAsc(s[1..], x);
      assert s == [s[0]] + s[1..];
      forall k | 0 <= k < |t| ensures s[0] <= t[k] {
        assert t[k] in multiset(t);
        if t[k] != x {
          assert t[k] in multiset(s[1..]);
          var m :| 0 <= m < |s[1..]| && s[1..][m] == t[k];
          assert s[m + 1] == t[k];
        }
      }
      ConsSortedAsc(s[0], t);
      assert multiset([s[0]] + t) == multiset{s[0]} + multiset(t);
      [s[0]] + t
  }

  /** `values.sort((a, b) => a - b)`: ascending, and a permutation of the input. */
  function SortAsc(xs: seq<real>): (r: seq<real>)
    ensures SortedAsc(r)
    ensures multiset(r) == multiset(xs)
    ensures |r| == |xs|
  {
    if xs == [] then []
    else
      assert xs == xs[..|xs| - 1] + [xs[|xs| - 1]];
      InsertAsc(SortAsc(xs[..|xs| - 1]), xs[|xs| - 1])
  }

  lemma ConsSortedDesc<T>(h: T, t: seq<T>, key: T -> int)
    requires SortedDesc(t, key)
    requires forall k :: 0 <= k < |t| ==> key(h) >= key(t[k])
    ensures SortedDesc([h] + t, key)
  {
    var r := [h] + t;
    forall i, j | 0 <= i < j < |r| ensures key(r[i]) >= key(r[j]) {
      if i == 0 { assert r[j] == t[j - 1]; } else { assert r[i] == t[i - 1] && r[j] == t[j - 1]; }
    }
  }

  /** Places `x` after every element whose key is at least its own (so equal keys keep arrival order). */
  function InsertDesc<T>(s: seq<T>, x: T, key: T -> int): (r: seq<T>)
    requires SortedDesc(s, key)
    ensures SortedDesc(r, key)
    ensures multiset(r) == multiset(s) + multiset{x}
    ensures |r| == |s| + 1
  {
    if s == [] then [x]
    else if key(s[0]) < key(x) then
      ConsSortedDesc(x, s, key);
      [x] + s
    else
      var t := InsertDesc(s[1..], x, key);
      assert s == [s[0]] + s[1..];
      forall k | 0 <= k < |t| ensures key(s[0]) >= key(t[k]) {
        assert t[k] in multiset(t);
        if t[k] != x {
          assert t[k] in multiset(s[1..]);
          var m :| 0 <= m < |s[1..]| && s[1..][m] == t[k];
          assert s[m + 1] == t[k];
        }
      }
      ConsSortedDesc(s[0], t, key);
      assert multiset([s[0]] + t) == multiset{s[0]} + multiset(t);
      [s[0]] + t
  }

  /** A stable sort by descending key. */
  function SortDesc<T>(xs: seq<T>, key: T -> int): (r: seq<T>)
    ensures SortedDesc(r, key)
    ensures multiset(r) == multiset(xs)
    ensures |r| == |xs|
  {
    if xs == [] then []
    else
      assert xs == xs[..|xs| - 1] + [xs[|xs| - 1]];
      InsertDesc(SortDesc(xs[..|xs| - 1], key), xs[|xs| - 1], key)
  }

  /** The elements of `s` whose key is `v`, in their order in `s`. */
  function WithKey<T>(s: seq<T>, key: T -> int, v: int): (r: seq<T>)
    ensures |r| <= |s|
  {
    if s == [] then []
    else WithKey(s[..|s| - 1], key, v) + (if key(s[|s| - 1]) == v then [s[|s| - 1]] else [])
  }

  lemma {:induction false} WithKeyAppend<T>(a: seq<T>, b: seq<T>, key: T -> int, v: int)
    ensures WithKey(a + b, key, v) == WithKey(a, key, v) + WithKey(b, key, v)
    decreases |b|
  {
    if b == [] {
      assert a + b == a;
    } else {
      var init := b[..|b| - 1];
      var last := b[|b| - 1];
      WithKeyAppend(a, init, key, v);
      assert (a + b)[..|a + b| - 1] == a + init;
      AppendAssoc(WithKey(a, key, v), WithKey(init, key, v), if key(last) == v then [last] else []);
    }
  }

  lemma WithKeyCons<T>(x: T, s: seq<T>, key: T -> int, v: int)
    ensures WithKey([x] + s, key, v) == (if key(x) == v then [x] else []) + WithKey(s, key, v)
  {
    WithKeyAppend([x], s, key, v);
    assert [x][..0] == [];
  }

  lemma {:induction false} WithKeyNone<T>(s: seq<T>, key: T -> int, v: int)
    requires forall k :: 0 <= k < |s| ==> key(s[k]) != v
    ensures WithKey(s, key, v) == []
  {
    if s != [] {
      WithKeyNone(s[..|s| - 1], key, v);
    }
  }

  lemma AppendAssoc<T>(a: seq<T>, b: seq<T>, c: seq<T>)
    ensures a + (b + c) == (a + b) + c
  {
  }

  lemma WithKeyFirst<T>(s: seq<T>, key: T -> int, v: int)
    requires s != []
    ensures WithKey(s, key, v) == (if key(s[0]) == v then [s[0]] else []) + WithKey(s[1..], key, v)
  {
    WithKeyCons(s[0], s[1..], key, v);
    assert s == [s[0]] + s[1..];
  }

  /** An element with a larger key than all of `s` goes in front, and is then the last of its key. */
  lemma InsertInFront<T>(s: seq<T>, x: T, key: T -> int, v: int)
    requires SortedDesc(s, key)
    requires s != [] && key(s[0]) < key(x)
    ensures WithKey([x] + s, key, v) == WithKey(s, key, v) + (if key(x) == v then [x] else [])
  {
    WithKeyCons(x, s, key, v);
    if key(x) == v {
      forall k | 0 <= k < |s| ensures key(s[k]) != v {
        if k > 0 { assert key(s[0]) >= key(s[k]); }
      }
      WithKeyNone(s, key, v);
    }
  }

  /** Inserting `x` puts it after every element of its own key, and moves no element past another of the same key. */
  lemma {:induction false} InsertDescStable<T>(s: seq<T>, x: T, key: T -> int, v: int)
    requires SortedDesc(s, key)
    ensures WithKey(InsertDesc(s, x, key), key, v) == WithKey(s, key, v) + (if key(x) == v then [x] else [])
  {
    var cx := if key(x) == v then [x] else [];
    if s == [] {
      assert InsertDesc(s, x, key) == [x];
      assert [x][..0] == [];
    } else if key(s[0]) < key(x) {
      assert InsertDesc(s, x, key) == [x] + s;
      InsertInFront(s, x, key, v);
    } else {
      var t := InsertDesc(s[1..], x, key);
      var c0 := if key(s[0]) == v then [s[0]] else [];
      assert InsertDesc(s, x, key) == [s[0]] + t;
      InsertDescStable(s[1..], x, key, v);
      WithKeyCons(s[0], t, key, v);
      WithKeyFirst(s, key, v);
      AppendAssoc(c0, WithKey(s[1..], key, v), cx);
    }
  }

  /** The sort is stable: the elements of each key come out in their input order. */
  lemma {:induction false} SortDescStable<T>(xs: seq<T>, key: T -> int, v: int)
    ensures WithKey(SortDesc(xs, key), key, v) == WithKey(xs, key, v)
  {
    if xs != [] {
      var init := xs[..|xs| - 1];
      SortDescStable(init, key, v);
      InsertDescStable(SortDesc(init, key), xs[|xs| - 1], key, v);
    }
  }

  /** `s.slice(0, n)`. */
  function Take<T>(s: seq<T>, n: nat): (r: seq<T>)
    ensures |r| == if |s| < n then |s| else n
    ensures r <= s
  {
    if |s| <= n then s else s[..n]
  }

  /**
   * Cutting a descending sequence keeps its largest elements: whatever is
   * left out has a key no larger than anything kept.
   */
  lemma {:induction false} TakeKeepsLargest<T>(s: seq<T>, n: nat, key: T -> int)
    requires SortedDesc(s, key)
    ensures forall y, x :: y in Take(s, n) && x in multiset(s) - multiset(Take(s, n)) ==> key(x) <= key(y)
  {
    var t := Take(s, n);
    if |s| > n {
      assert s == t + s[n..];
      assert multiset(s) - multiset(t) == multiset(s[n..]);
      forall y, x | y in t && x in multiset(s) - multiset(t) ensures key(x) <= key(y) {
        assert x in s[n..];
        var i :| 0 <= i < |t| && t[i] == y;
        var j :| 0 <= j < |s[n..]| && s[n..][j] == x;
        assert s[i] == y && s[n + j] == x;
      }
    } else {
      assert multiset(s) - multiset(t) == multiset{};
    }
  }

  lemma TakeSorted<T>(s: seq<T>, n: nat, key: T -> int)
    requires SortedDesc(s, key)
    ensures SortedDesc(Take(s, n), key)
  {
    var top := Take(s, n);
    forall i, j | 0 <= i < j < |top| ensures key(top[i]) >= key(top[j]) {
      assert top[i] == s[i] && top[j] == s[j];
    }
  }

  lemma TakeIncluded<T>(s: seq<T>, n: nat)
    ensures multiset(Take(s, n)) <= multiset(s)
  {
    var top := Take(s, n);
    assert s == top + s[|top|..];
    assert multiset(s) == multiset(top) + multiset(s[|top|..]);
  }

  /** Among the elements of key `v`, the first `n` of the sort keep the first ones of the input. */
  lemma TakeStable<T>(xs: seq<T>, key: T -> int, n: nat, v: int)
    ensures WithKey(Take(SortDesc(xs, key), n), key, v) <= WithKey(xs, key, v)
  {
    var sorted := SortDesc(xs, key);
    var top := Take(sorted, n);
    assert sorted == top + sorted[|top|..];
    SortDescStable(xs, key, v);
    WithKeyAppend(top, sorted[|top|..], key, v);
  }

  /**
   * The first `n` of a descending sort: as many of the elements as fit, still
   * descending, and no element left out has a larger key than one kept; among
   * equal keys the kept elements are the first ones of the input, in order.
   */
  lemma TopOfSorted<T>(xs: seq<T>, key: T -> int, n: nat)
    ensures var top := Take(SortDesc(xs, key), n);
      && |top| == (if |xs| < n then |xs| else n)
      && SortedDesc(top, key)
      && multiset(top) <= multiset(xs)
      && (forall y, x :: y in top && x in multiset(xs) - multiset(top) ==> key(x) <= key(y))
      && (forall v :: WithKey(top, key, v) <= WithKey(xs, key, v))
  {
    var sorted := SortDesc(xs, key);
    TakeSorted(sorted, n, key);
    TakeIncluded(sorted, n);
    TakeKeepsLargest(sorted, n, key);
    forall v ensures WithKey(Take(sorted, n), key, v) <= WithKey(xs, key, v) {
      TakeStable(xs, key, n, v);
    }
  }

}
