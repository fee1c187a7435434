/**
 * Counting keys of a sequence the way `collections.Counter` and a
 * `defaultdict(int)` do: occurrences per key, summed weights per key, and
 * the keys in first-seen (dictionary insertion) order.
 */
module Counting {

  ghost predicate Distinct<K>(s: seq<K>) {
    forall i, j :: 0 <= i < j < |s| ==> s[i] != s[j]
  }

  /** Number of occurrences of `k` in `ks`. */
  function Count<K(==)>(ks: seq<K>, k: K): (n: nat)
    ensures n <= |ks|
    ensures n > 0 <==> k in ks
  {
    if ks == [] then 0
    else
      assert ks == ks[..|ks| - 1] + [ks[|ks| - 1]];
      Count(ks[..|ks| - 1], k) + (if ks[|ks| - 1] == k then 1 else 0)
  }

  /** Sum of the weights `ws[i]` of the positions `i` whose key `ks[i]` is `k`. */
  function WeightOf<K(==)>(ks: seq<K>, ws: seq<int>, k: K): int
    requires |ks| == |ws|
  {
    if ks == [] then 0
    else WeightOf(ks[..|ks| - 1], ws[..|ws| - 1], k) + (if ks[|ks| - 1] == k then ws[|ws| - 1] else 0)
  }

  function Sum(ws: seq<int>): int
  {
    if ws == [] then 0 else Sum(ws[..|ws| - 1]) + ws[|ws| - 1]
  }

  /** The distinct keys of `ks` in the order they first occur. */
  function FirstSeen<K(==)>(ks: seq<K>): (r: seq<K>)
    ensures |r| <= |ks|
    ensures Distinct(r)
    ensures forall i :: 0 <= i < |ks| ==> ks[i] in r
    ensures forall i :: 0 <= i < |r| ==> r[i] in ks
  {
    if ks == [] then []
    else
      var p := FirstSeen(ks[..|ks| - 1]);
      var last := ks[|ks| - 1];
      assert ks == ks[..|ks| - 1] + [last];
      if last in p then p else p + [last]
  }

  /** The occurrence counts of `keys` in `ks`, added up. */
  ghost function CountsOver<K>(keys: seq<K>, ks: seq<K>): int
  {
    if keys == [] then 0 else CountsOver(keys[..|keys| - 1], ks) + Count(ks, keys[|keys| - 1])
  }

  /** The weights of `keys` in `ks`/`ws`, added up. */
  ghost function WeightsOver<K>(keys: seq<K>, ks: seq<K>, ws: seq<int>): int
    requires |ks| == |ws|
  {
    if keys == [] then 0 else WeightsOver(keys[..|keys| - 1], ks, ws) + WeightOf(ks, ws, keys[|keys| - 1])
  }

  lemma {:induction false} CountOfDistinct<K>(keys: seq<K>, x: K)
    requires Distinct(keys) && x in keys
    ensures Count(keys, x) == 1
  {
    var init := keys[..|keys| - 1];
    assert keys == init + [keys[|keys| - 1]];
    if keys[|keys| - 1] == x {
      assert x !in init;
    } else {
      CountOfDistinct(init, x);
    }
  }

  lemma {:induction false} CountsOverSnoc<K>(keys: seq<K>, ks: seq<K>, x: K)
    ensures CountsOver(keys, ks + [x]) == CountsOver(keys, ks) + Count(keys, x)
  {
    assert (ks + [x])[..|ks|] == ks;
    if keys != [] {
      CountsOverSnoc(keys[..|keys| - 1], ks, x);
    }
  }

  lemma {:induction false} WeightsOverSnoc<K>(keys: seq<K>, ks: seq<K>, ws: seq<int>, x: K, w: int)
    requires |ks| == |ws| && Distinct(keys)
    ensures WeightsOver(keys, ks + [x], ws + [w]) == WeightsOver(keys, ks, ws) + (if x in keys then w else 0)
  {
    assert (ks + [x])[..|ks|] == ks;
    assert (ws + [w])[..|ws|] == ws;
    if keys != [] {
      var init := keys[..|keys| - 1];
      assert keys == init + [keys[|keys| - 1]];
      WeightsOverSnoc(init, ks, ws, x, w);
    }
  }

  lemma {:induction false} CountsOverNothing<K>(keys: seq<K>)
    ensures CountsOver(keys, []) == 0
  {
    if keys != [] {
      CountsOverNothing(keys[..|keys| - 1]);
    }
  }

  lemma {:induction false} WeightsOverNothing<K>(keys: seq<K>)
    ensures WeightsOver(keys, [], []) == 0
  {
    if keys != [] {
      WeightsOverNothing(keys[..|keys| - 1]);
    }
  }

  /**
   * Every element is counted in exactly one bucket: when `keys` lists each
   * key of `ks` exactly once, the counts of `keys` add up to `|ks|`.
   */
  lemma {:induction false} CountsPartition<K>(keys: seq<K>, ks: seq<K>)
    requires Distinct(keys)
    requires forall x :: x in ks ==> x in keys
    ensures CountsOver(keys, ks) == |ks|
  {
    if ks == [] {
      CountsOverNothing(keys);
    } else {
      var init := ks[..|ks| - 1];
      var last := ks[|ks| - 1];
      assert ks == init + [last];
      CountsPartition(keys, init);
      CountsOverSnoc(keys, init, last);
      CountOfDistinct(keys, last);
    }
  }

  /** The same partition for weights: per-key sums add up to the total. */
  lemma {:induction false} WeightsPartition<K>(keys: seq<K>, ks: seq<K>, ws: seq<int>)
    requires |ks| == |ws| && Distinct(keys)
    requires forall x :: x in ks ==> x in keys
    ensures WeightsOver(keys, ks, ws) == Sum(ws)
  {
    if ks == [] {
      WeightsOverNothing(keys);
    } else {
      var init := ks[..|ks| - 1];
      assert ks == init + [ks[|ks| - 1]];
      WeightsPartition(keys, init, ws[..|ws| - 1]);
      WeightsOverSnoc(keys, init, ws[..|ws| - 1], ks[|ks| - 1], ws[|ws| - 1]);
      assert ws == ws[..|ws| - 1] + [ws[|ws| - 1]];
    }
  }

  /** A sequence is duplicate-free exactly when no element occurs twice in its multiset. */
  lemma {:induction false} DistinctIffSingles<K>(s: seq<K>)
    ensures Distinct(s) <==> forall x :: multiset(s)[x] <= 1
  {
    if s != [] {
      var init := s[..|s| - 1];
      var y := s[|s| - 1];
      assert s == init + [y];
      DistinctIffSingles(init);
      assert multiset(s) == multiset(init) + multiset{y};
      if Distinct(s) {
        assert Distinct(init);
      }
      if forall x :: multiset(s)[x] <= 1 {
        assert forall x :: multiset(init)[x] <= 1 by {
          forall x ensures multiset(init)[x] <= 1 {
            assert multiset(s)[x] <= 1;
          }
        }
        assert multiset(s)[y] <= 1;
        assert y !in multiset(init);
        forall i, j | 0 <= i < j < |s| ensures s[i] != s[j] {
          if j < |s| - 1 {
            assert s[i] == init[i] && s[j] == init[j];
          } else {
            assert s[i] == init[i] && init[i] in init;
          }
        }
      }
    }
  }

  /** Rearranging a duplicate-free sequence keeps it duplicate-free. */
  lemma DistinctPermutation<K>(a: seq<K>, b: seq<K>)
    requires multiset(a) == multiset(b) && Distinct(a)
    ensures Distinct(b)
  {
    DistinctIffSingles(a);
    DistinctIffSingles(b);
  }

  /** `m.get(k, 0)` on a counting dictionary. */
  function Lookup<K>(m: map<K, int>, k: K): int
  {
    if k in m then m[k] else 0
  }

  lemma CountSnoc<K>(ks: seq<K>, x: K, k: K)
    ensures Count(ks + [x], k) == Count(ks, k) + (if x == k then 1 else 0)
  {
    assert (ks + [x])[..|ks|] == ks;
  }

  lemma WeightOfSnoc<K>(ks: seq<K>, ws: seq<int>, x: K, w: int, k: K)
    requires |ks| == |ws|
    ensures WeightOf(ks + [x], ws + [w], k) == WeightOf(ks, ws, k) + (if x == k then w else 0)
  {
    assert (ks + [x])[..|ks|] == ks;
    assert (ws + [w])[..|ws|] == ws;
  }

  /** The elements of a sequence as a set. */
  function Elements<K>(ks: seq<K>): set<K>
  {
    set k | k in ks
  }

  /** `len(set(ks))` is the number of first occurrences. */
  lemma {:induction false} FirstSeenCardinality<K>(ks: seq<K>)
    ensures |FirstSeen(ks)| == |Elements(ks)|
  {
    if ks != [] {
      var init := ks[..|ks| - 1];
      var last := ks[|ks| - 1];
      assert ks == init + [last];
      FirstSeenCardinality(init);
      assert Elements(ks) == Elements(init) + {last};
      var p := FirstSeen(init);
      assert last in p <==> last in init by {
        assert forall i :: 0 <= i < |init| ==> init[i] in p;
        assert forall i :: 0 <= i < |p| ==> p[i] in init;
      }
    }
  }

  /** A non-empty sequence has between one and `|ks|` distinct elements. */
  lemma DistinctCountBounds<K>(ks: seq<K>)
    requires ks != []
    ensures 1 <= |Elements(ks)| <= |ks|
  {
    FirstSeenCardinality(ks);
    assert ks[0] in Elements(ks);
  }

  /** `collections.Counter(ks)` as its items, in first-seen order. */
  function CounterOf<K(==)>(ks: seq<K>): (r: seq<(K, int)>)
    ensures |r| == |FirstSeen(ks)|
    ensures forall i :: 0 <= i < |r| ==> r[i].0 == FirstSeen(ks)[i]
  {
    var keys := FirstSeen(ks);
    seq(|keys|, i requires 0 <= i < |keys| => (keys[i], Count(ks, keys[i])))
  }

  function ItemKeys<K>(items: seq<(K, int)>): (r: seq<K>)
    ensures |r| == |items|
    ensures forall i :: 0 <= i < |items| ==> r[i] == items[i].0
  {
    seq(|items|, i requires 0 <= i < |items| => items[i].0)
  }

  function ItemTotal<K>(items: seq<(K, int)>): int
  {
    if items == [] then 0 else ItemTotal(items[..|items| - 1]) + items[|items| - 1].1
  }

  lemma {:induction false} ItemTotalOfCounts<K>(items: seq<(K, int)>, ks: seq<K>)
    requires forall i :: 0 <= i < |items| ==> items[i].1 == Count(ks, items[i].0)
    ensures ItemTotal(items) == CountsOver(ItemKeys(items), ks)
  {
    if items != [] {
      ItemTotalOfCounts(items[..|items| - 1], ks);
      assert ItemKeys(items)[..|items| - 1] == ItemKeys(items[..|items| - 1]);
    }
  }

  /** Every element is counted once: the counter's counts add up to `|ks|`, and each is its key's count. */
  lemma CounterOfFacts<K>(ks: seq<K>)
    ensures forall i :: 0 <= i < |CounterOf(ks)| ==> CounterOf(ks)[i].1 == Count(ks, CounterOf(ks)[i].0) > 0
    ensures ItemTotal(CounterOf(ks)) == |ks|
  {
    var r := CounterOf(ks);
    ItemTotalOfCounts(r, ks);
    assert ItemKeys(r) == FirstSeen(ks);
    CountsPartition(FirstSeen(ks), ks);
  }

  /** Appending one key to a tally: the first-seen order grows by it when it is new. */
  lemma FirstSeenSnoc<K>(ks: seq<K>, x: K)
    ensures FirstSeen(ks + [x]) == if x in ks then FirstSeen(ks) else FirstSeen(ks) + [x]
  {
    assert (ks + [x])[..|ks|] == ks;
    var p := FirstSeen(ks);
    assert x in p <==> x in ks by {
      assert forall i :: 0 <= i < |ks| ==> ks[i] in p;
      assert forall i :: 0 <= i < |p| ==> p[i] in ks;
    }
  }

  /**
   * `order`, `counts` and `totals` are what a `Counter` and a summing
   * `defaultdict(int)` hold after being fed `seen` with weights `ws`.
   */
  ghost predicate Tallies<K(!new)>(seen: seq<K>, ws: seq<int>, order: seq<K>, counts: map<K, int>, totals: map<K, int>)
    requires |seen| == |ws|
  {
    && order == FirstSeen(seen)
    && (forall x :: x in counts <==> x in seen)
    && (forall x :: Lookup(counts, x) == Count(seen, x))
    && (forall x :: Lookup(totals, x) == WeightOf(seen, ws, x))
  }

  /** Feeds one more key and weight to the tallies. */
  method TallyOne<K(==, !new)>(order: seq<K>, counts: map<K, int>, totals: map<K, int>, k: K, w: int,
                         ghost seen: seq<K>, ghost ws: seq<int>)
    returns (order': seq<K>, counts': map<K, int>, totals': map<K, int>)
    requires |seen| == |ws| && Tallies(seen, ws, order, counts, totals)
    ensures Tallies(seen + [k], ws + [w], order', counts', totals')
  {
    FirstSeenSnoc(seen, k);
    order' := if k in counts then order else order + [k];
    counts' := counts[k := Lookup(counts, k) + 1];
    totals' := totals[k := Lookup(totals, k) + w];
    forall x ensures Lookup(counts', x) == Count(seen + [k], x) {
      CountSnoc(seen, k, x);
    }
    forall x ensures Lookup(totals', x) == WeightOf(seen + [k], ws + [w], x) {
      WeightOfSnoc(seen, ws, k, w, x);
    }
  }
}
