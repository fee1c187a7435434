/**
 * Time-pattern analysis: records counted per hour of day, calendar day,
 * weekday or month.
 */
module Patterns {
  import opened Sorting
  import opened Counting
  import opened Timestamps
  import opened Records

  /** The `--group-by` value; anything else counts by hour. */
  datatype Grouping = ByHour | ByDay | ByWeekday | ByMonth

  function ParseGrouping(s: string): (g: Grouping)
    ensures s == "day" <==> g == ByDay
    ensures s == "weekday" <==> g == ByWeekday
    ensures s == "month" <==> g == ByMonth
  {
    if s == "day" then ByDay
    else if s == "weekday" then ByWeekday
    else if s == "month" then ByMonth
    else ByHour
  }

  /**
   * The bucket of an instant, as a number ordered like the formatted key:
   * the hour (`%H:00`), the day number (`%Y-%m-%d`), the weekday with 0 for
   * Monday (`%A`), or twelve times the year plus the month (`%Y-%m`).
   */
  function BucketKey(g: Grouping, t: int): (k: int)
    ensures g == ByHour ==> 0 <= k < 24
    ensures g == ByWeekday ==> 0 <= k < 7
  {
    match g
    case ByHour => HourOfDay(t)
    case ByDay => DayNumber(t)
    case ByWeekday => WeekdayIndex(t)
    case ByMonth => MonthIndex(t)
  }

  /** Later instants never fall on an earlier day. */
  lemma DayKeyMonotonic(s: int, t: int)
    requires s <= t
    ensures BucketKey(ByDay, s) <= BucketKey(ByDay, t)
  {
  }

  function KeysOf(h: seq<Record>, g: Grouping): (ks: seq<int>)
    ensures |ks| == |h|
    ensures forall i :: 0 <= i < |h| ==> ks[i] == BucketKey(g, h[i].timestamp)
  {
    seq(|h|, i requires 0 <= i < |h| => BucketKey(g, h[i].timestamp))
  }

  datatype Bucket = Bucket(key: int, count: int)

  function KeyList(bs: seq<Bucket>): (ks: seq<int>)
    ensures |ks| == |bs|
    ensures forall i :: 0 <= i < |bs| ==> ks[i] == bs[i].key
  {
    seq(|bs|, i requires 0 <= i < |bs| => bs[i].key)
  }

  /** The counts added up. */
  function Total(bs: seq<Bucket>): int
  {
    if bs == [] then 0 else Total(bs[..|bs| - 1]) + bs[|bs| - 1].count
  }

  lemma {:induction false} TotalOfCounts(bs: seq<Bucket>, ks: seq<int>)
    requires forall i :: 0 <= i < |bs| ==> bs[i].count == Count(ks, bs[i].key)
    ensures Total(bs) == CountsOver(KeyList(bs), ks)
  {
    if bs != [] {
      var init := bs[..|bs| - 1];
      TotalOfCounts(init, ks);
      assert KeyList(bs)[..|bs| - 1] == KeyList(init);
    }
  }

  function Negated(k: int): int { -k }

  /** `defaultdict(int)` after the loop: the keys in first-seen order and their counts. */
  method Tally(keys: seq<int>) returns (order: seq<int>, counts: map<int, int>)
    ensures order == FirstSeen(keys)
    ensures forall k :: Lookup(counts, k) == Count(keys, k)
  {
    order, counts := [], map[];
    ghost var seen: seq<int> := [];
    var i := 0;
    while i < |keys|
      invariant 0 <= i <= |keys|
      invariant seen == keys[..i]
      invariant Counted(seen, order, counts)
    {
      order, counts := CountOne(order, counts, keys[i], seen);
      seen := seen + [keys[i]];
      assert seen == keys[..i + 1];
      i := i + 1;
    }
    assert keys[..i] == keys;
  }

  /** The loop's dictionary and key order are exact for the keys seen so far. */
  ghost predicate Counted(seen: seq<int>, order: seq<int>, counts: map<int, int>)
  {
    && order == FirstSeen(seen)
    && (forall x :: x in counts <==> x in seen)
    && (forall x :: Lookup(counts, x) == Count(seen, x))
  }

  /** `patterns[key] += 1` for one more key. */
  method CountOne(order: seq<int>, counts: map<int, int>, k: int, ghost seen: seq<int>)
    returns (order': seq<int>, counts': map<int, int>)
    requires Counted(seen, order, counts)
    ensures Counted(seen + [k], order', counts')
  {
    FirstSeenSnoc(seen, k);
    assert k in counts <==> k in seen;
    order' := if k in counts then order else order + [k];
    counts' := counts[k := Lookup(counts, k) + 1];
    forall x ensures x in counts' <==> x in seen + [k] {
      assert x in seen + [k] <==> x in seen || x == k;
    }
    forall x ensures Lookup(counts', x) == Count(seen + [k], x) {
      CountSnoc(seen, k, x);
    }
  }

  /** The buckets for the listed keys, each with its count. */
  function BucketsFor(ks: seq<int>, counts: map<int, int>): (bs: seq<Bucket>)
    ensures KeyList(bs) == ks
    ensures forall i :: 0 <= i < |bs| ==> bs[i].count == Lookup(counts, bs[i].key)
  {
    if ks == [] then [] else
      var rest := BucketsFor(ks[1..], counts);
      assert KeyList([Bucket(ks[0], Lookup(counts, ks[0]))] + rest) == [ks[0]] + KeyList(rest);
      [Bucket(ks[0], Lookup(counts, ks[0]))] + rest
  }

  const WeekOrder: seq<int> := [0, 1, 2, 3, 4, 5, 6]

  /** Listing each occurring key once, the buckets account for every record. */
  lemma BucketsCoverAll(keys: seq<int>, counts: map<int, int>, listed: seq<int>)
    requires forall k :: Lookup(counts, k) == Count(keys, k)
    requires Distinct(listed)
    requires forall i :: 0 <= i < |keys| ==> keys[i] in listed
    ensures Total(BucketsFor(listed, counts)) == |keys|
    ensures CountsOf(BucketsFor(listed, counts), keys)
  {
    var bs := BucketsFor(listed, counts);
    TotalOfCounts(bs, keys);
    CountsPartition(listed, keys);
  }

  predicate StrictlyAscending(ks: seq<int>)
  {
    forall i, j :: 0 <= i < j < |ks| ==> ks[i] < ks[j]
  }

  /** `ks` lists only keys that occur in `keys`, and all of them. */
  predicate SameKeys(ks: seq<int>, keys: seq<int>)
  {
    (forall i :: 0 <= i < |ks| ==> ks[i] in keys) && (forall r :: 0 <= r < |keys| ==> keys[r] in ks)
  }

  /** Each bucket holds the number of records with its key. */
  predicate CountsOf(bs: seq<Bucket>, keys: seq<int>)
  {
    forall i :: 0 <= i < |bs| ==> bs[i].count == Count(keys, bs[i].key)
  }

  lemma WeekdayKeysListed(history: seq<Record>, keys: seq<int>)
    requires keys == KeysOf(history, ByWeekday)
    ensures Distinct(WeekOrder)
    ensures forall r :: 0 <= r < |keys| ==> keys[r] in WeekOrder
  {
    forall r | 0 <= r < |keys| ensures keys[r] in WeekOrder {
      assert 0 <= keys[r] < 7;
    }
  }

  /** Sorting first-seen keys by their negation lists them once each, ascending. */
  lemma AscendingKeys(keys: seq<int>)
    ensures Distinct(SortDesc(FirstSeen(keys), Negated))
    ensures StrictlyAscending(SortDesc(FirstSeen(keys), Negated))
  {
    var ascending := SortDesc(FirstSeen(keys), Negated);
    DistinctPermutation(FirstSeen(keys), ascending);
    forall i, j | 0 <= i < j < |ascending| ensures ascending[i] < ascending[j] {
      assert Negated(ascending[i]) >= Negated(ascending[j]);
    }
  }

  /** ... and lists exactly the keys that occur. */
  lemma AscendingKeysOccur(keys: seq<int>)
    ensures SameKeys(SortDesc(FirstSeen(keys), Negated), keys)
  {
    var order := FirstSeen(keys);
    var ascending := SortDesc(order, Negated);
    forall j | 0 <= j < |ascending| ensures ascending[j] in keys {
      assert ascending[j] in multiset(order);
    }
    forall r | 0 <= r < |keys| ensures keys[r] in ascending {
      assert keys[r] in multiset(order);
    }
  }

  /**
   * `analyze_browsing_patterns`: one bucket per key. By weekday, exactly the
   * seven days Monday..Sunday in order, zero-filled; otherwise the keys that
   * occur, ascending. Every record is counted in exactly one bucket.
   */
  method AnalyzeBrowsingPatterns(history: seq<Record>, groupBy: string) returns (buckets: seq<Bucket>)
    ensures CountsOf(buckets, KeysOf(history, ParseGrouping(groupBy)))
    ensures ParseGrouping(groupBy) == ByWeekday ==> KeyList(buckets) == WeekOrder
    ensures ParseGrouping(groupBy) != ByWeekday ==>
              StrictlyAscending(KeyList(buckets)) && SameKeys(KeyList(buckets), KeysOf(history, ParseGrouping(groupBy)))
    ensures Total(buckets) == |history|
  {
    var g := ParseGrouping(groupBy);
    var keys := KeysOf(history, g);
    var order, counts := Tally(keys);
    if g == ByWeekday {
      buckets := BucketsFor(WeekOrder, counts);
      WeekdayKeysListed(history, keys);
      BucketsCoverAll(keys, counts, WeekOrder);
    } else {
      var ascending := SortDesc(order, Negated);
      buckets := BucketsFor(ascending, counts);
      AscendingKeys(keys);
      AscendingKeysOccur(keys);
      BucketsCoverAll(keys, counts, ascending);
    }
  }
}
