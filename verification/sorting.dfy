/**
 * Python's `sorted(xs, key=k, reverse=True)`: a stable sort, newest (largest
 * key) first, where elements with equal keys keep their original order.
 * Ascending order is obtained by sorting on the negated key.
 */
module Sorting {

  predicate SortedDesc<T>(s: seq<T>, key: T -> int) {
    forall i, j :: 0 <= i < j < |s| ==> key(s[i]) >= key(s[j])
  }

  /** Inserts `x` in front of the first element whose key is not larger. */
  function Insert<T(==)>(x: T, l: seq<T>, key: T -> int): (r: seq<T>)
    ensures |r| == |l| + 1
    ensures multiset(r) == multiset(l) + multiset{x}
  {
    if l == [] || key(x) >= key(l[0]) then [x] + l
    else
      assert l == [l[0]] + l[1..];
      [l[0]] + Insert(x, l[1..], key)
  }

  lemma {:induction false} SortedCons<T>(a: T, s: seq<T>, key: T -> int)
    requires SortedDesc(s, key)
    requires s != [] ==> key(a) >= key(s[0])
    ensures SortedDesc([a] + s, key)
  {
    var r := [a] + s;
    forall i, j | 0 <= i < j < |r| ensures key(r[i]) >= key(r[j]) {
      if i == 0 && j > 1 {
        assert r[1] == s[0] && r[j] == s[j - 1];
      }
    }
  }

  lemma {:induction false} InsertSorted<T>(x: T, l: seq<T>, key: T -> int)
    requires SortedDesc(l, key)
    ensures SortedDesc(Insert(x, l, key), key)
    ensures Insert(x, l, key)[0] == x || (l != [] && Insert(x, l, key)[0] == l[0])
  {
    if l == [] || key(x) >= key(l[0]) {
      SortedCons(x, l, key);
    } else {
      InsertSorted(x, l[1..], key);
      SortedCons(l[0], Insert(x, l[1..], key), key);
    }
  }

  /** Stable insertion sort, largest key first. */
  function SortDesc<T(==)>(s: seq<T>, key: T -> int): (r: seq<T>)
    ensures |r| == |s|
    ensures multiset(r) == multiset(s)
    ensures SortedDesc(r, key)
  {
    if s == [] then []
    else
      assert s == [s[0]] + s[1..];
      InsertSorted(s[0], SortDesc(s[1..], key), key);
      Insert(s[0], SortDesc(s[1..], key), key)
  }

  /** The elements of `s` whose key is `v`, in order. */
  function WithKey<T>(s: seq<T>, key: T -> int, v: int): seq<T>
  {
    if s == [] then [] else (if key(s[0]) == v then [s[0]] else []) + WithKey(s[1..], key, v)
  }

  lemma {:induction false} InsertWithKey<T>(x: T, l: seq<T>, key: T -> int, v: int)
    ensures WithKey(Insert(x, l, key), key, v) == WithKey([x] + l, key, v)
  {
    assert ([x] + l)[1..] == l;
    if l != [] && key(x) < key(l[0]) {
      var rest := Insert(x, l[1..], key);
      assert ([l[0]] + rest)[1..] == rest;
      InsertWithKey(x, l[1..], key, v);
      assert ([x] + l[1..])[1..] == l[1..];
    }
  }

  /**
   * Stability: for every key value, the elements carrying it appear in the
   * sorted output exactly as (and in the same order as) in the input.
   */
  lemma {:induction false} SortDescStable<T>(s: seq<T>, key: T -> int, v: int)
    ensures WithKey(SortDesc(s, key), key, v) == WithKey(s, key, v)
  {
    if s != [] {
      SortDescStable(s[1..], key, v);
      InsertWithKey(s[0], SortDesc(s[1..], key), key, v);
      assert ([s[0]] + SortDesc(s[1..], key))[1..] == SortDesc(s[1..], key);
    }
  }

  /** Truncating a sequence keeps, for every key, a prefix of that key's elements. */
  lemma {:induction false} WithKeyOfPrefix<T>(s: seq<T>, n: nat, key: T -> int, v: int)
    requires n <= |s|
    ensures WithKey(s[..n], key, v) <= WithKey(s, key, v)
  {
    if n > 0 {
      WithKeyOfPrefix(s[1..], n - 1, key, v);
      assert s[..n][1..] == s[1..][..n - 1];
    }
  }

  /** A prefix of the descending sort is sorted and drawn from the input. */
  lemma TopOfSorted<T>(full: seq<T>, top: seq<T>, key: T -> int)
    requires top <= SortDesc(full, key)
    ensures SortedDesc(top, key)
    ensures forall i :: 0 <= i < |top| ==> top[i] in full
  {
    var sorted := SortDesc(full, key);
    forall i | 0 <= i < |top| ensures top[i] in full {
      assert top[i] == sorted[i] && sorted[i] in multiset(sorted);
    }
  }

  /** An element of `s` missing from its prefix `top` sits beyond that prefix. */
  lemma BeyondPrefix<T>(s: seq<T>, top: seq<T>, p: int)
    requires top <= s && 0 <= p < |s| && s[p] !in top
    ensures |top| <= p
  {
  }

  /** No element left out of a prefix of the descending sort ranks above one kept. */
  lemma TopRanksFirst<T>(full: seq<T>, top: seq<T>, key: T -> int, j: int)
    requires top <= SortDesc(full, key)
    requires 0 <= j < |full| && full[j] !in top
    ensures forall i :: 0 <= i < |top| ==> key(top[i]) >= key(full[j])
  {
    var sorted := SortDesc(full, key);
    SortedKeepsMembers(full, key, full[j]);
    var p :| 0 <= p < |sorted| && sorted[p] == full[j];
    BeyondPrefix(sorted, top, p);
    forall i | 0 <= i < |top| ensures key(top[i]) >= key(full[j]) {
      assert top[i] == sorted[i] && i < p;
    }
  }

  lemma SortedKeepsMembers<T>(s: seq<T>, key: T -> int, x: T)
    requires x in s
    ensures x in SortDesc(s, key)
  {
    assert x in multiset(s);
  }

  /** In a prefix of the stable sort, the elements with a given key are the input's first ones with that key. */
  lemma TopKeepsTieOrder<T>(full: seq<T>, top: seq<T>, key: T -> int, v: int)
    requires top <= SortDesc(full, key)
    ensures WithKey(top, key, v) <= WithKey(full, key, v)
  {
    var sorted := SortDesc(full, key);
    assert top == sorted[..|top|];
    WithKeyOfPrefix(sorted, |top|, key, v);
    SortDescStable(full, key, v);
  }
}
