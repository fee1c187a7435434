/**
 * Sequence helpers that mirror Python list idioms used by the history tool:
 * list comprehensions with an `if`, SQL `LIMIT` and the two truncations
 * (`Counter.most_common(n)` and the slice `[:n]`).
 */
module Seqs {

  /** `[x for x in s if p(x)]`: the elements of `s` satisfying `p`, in order. */
  function Filter<T>(s: seq<T>, p: T -> bool): (r: seq<T>)
    ensures |r| <= |s|
    ensures forall i :: 0 <= i < |r| ==> p(r[i])
  {
    if s == [] then [] else (if p(s[0]) then [s[0]] else []) + Filter(s[1..], p)
  }

  lemma {:induction false} FilterMembership<T>(s: seq<T>, p: T -> bool, x: T)
    ensures x in Filter(s, p) <==> x in s && p(x)
  {
    if s != [] {
      FilterMembership(s[1..], p, x);
      assert s == [s[0]] + s[1..];
    }
  }

  lemma {:induction false} FilterAppend<T>(a: seq<T>, b: seq<T>, p: T -> bool)
    ensures Filter(a + b, p) == Filter(a, p) + Filter(b, p)
  {
    if a == [] {
      assert a + b == b;
    } else {
      assert (a + b)[1..] == a[1..] + b;
      FilterAppend(a[1..], b, p);
    }
  }

  /** `r` can be obtained from `s` by deleting elements (order and values kept). */
  predicate IsSubsequence<T(==)>(r: seq<T>, s: seq<T>)
    decreases |s|
  {
    r == [] ||
    (s != [] && ((r[0] == s[0] && IsSubsequence(r[1..], s[1..])) || IsSubsequence(r, s[1..])))
  }

  lemma {:induction false} FilterIsSubsequence<T>(s: seq<T>, p: T -> bool)
    ensures IsSubsequence(Filter(s, p), s)
  {
    if s != [] {
      FilterIsSubsequence(s[1..], p);
      var r := Filter(s, p);
      if p(s[0]) {
        assert r == [s[0]] + Filter(s[1..], p);
        assert r[1..] == Filter(s[1..], p);
      } else {
        assert r == Filter(s[1..], p);
      }
    }
  }

  function Min(a: int, b: int): int { if a <= b then a else b }

  /** SQL `LIMIT n`: a negative limit means no limit. */
  function SqlLimit<T>(s: seq<T>, n: int): (r: seq<T>)
    ensures r <= s
    ensures n < 0 ==> r == s
    ensures n >= 0 ==> |r| == Min(n, |s|)
  {
    if n < 0 || n >= |s| then s else s[..n]
  }

  /** The truncation done by `Counter.most_common(n)`: nothing for `n <= 0`. */
  function MostCommonTake<T>(s: seq<T>, n: int): (r: seq<T>)
    ensures r <= s
    ensures n <= 0 ==> r == []
    ensures n > 0 ==> |r| == Min(n, |s|)
  {
    if n <= 0 then [] else if n >= |s| then s else s[..n]
  }

  /** The Python slice `s[:n]`: a negative `n` drops `-n` elements from the end. */
  function SlicePrefix<T>(s: seq<T>, n: int): (r: seq<T>)
    ensures r <= s
    ensures n >= 0 ==> |r| == Min(n, |s|)
    ensures n < 0 ==> |r| == if |s| + n > 0 then |s| + n else 0
  {
    if n >= 0 then (if n >= |s| then s else s[..n])
    else if |s| + n > 0 then s[..|s| + n] else []
  }
}
