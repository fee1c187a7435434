/**
 * Summary statistics over a filtered history, and the per-browser usage
 * aggregation.
 */
module Stats {
  import opened Wrappers
  import opened Seqs
  import opened Sorting
  import opened Counting
  import opened Timestamps
  import opened Records
  import opened Patterns

  // ---------------------------------------------------------------------
  // Columns of the history.
  // ---------------------------------------------------------------------

  function BrowsersOf(h: seq<Record>): (bs: seq<Browser>)
    ensures |bs| == |h| && forall i :: 0 <= i < |h| ==> bs[i] == h[i].browser
  {
    seq(|h|, i requires 0 <= i < |h| => h[i].browser)
  }

  function VisitCountsOf(h: seq<Record>): (vs: seq<int>)
    ensures |vs| == |h| && forall i :: 0 <= i < |h| ==> vs[i] == h[i].visitCount
  {
    seq(|h|, i requires 0 <= i < |h| => h[i].visitCount)
  }

  function UrlsOf(h: seq<Record>): (us: seq<string>)
    ensures |us| == |h| && forall i :: 0 <= i < |h| ==> us[i] == h[i].url
  {
    seq(|h|, i requires 0 <= i < |h| => h[i].url)
  }

  function DomainsOf(h: seq<Record>, domain: string -> string): (ds: seq<string>)
    ensures |ds| == |h| && forall i :: 0 <= i < |h| ==> ds[i] == domain(h[i].url)
  {
    seq(|h|, i requires 0 <= i < |h| => domain(h[i].url))
  }

  function TimestampsOf(h: seq<Record>): (ts: seq<int>)
    ensures |ts| == |h| && forall i :: 0 <= i < |h| ==> ts[i] == h[i].timestamp
  {
    seq(|h|, i requires 0 <= i < |h| => h[i].timestamp)
  }

  /** The non-empty domains of the first `n` records, one per record that has one, in history order. */
  function DomainKeysUpTo(h: seq<Record>, n: nat, domain: string -> string): seq<string>
    requires n <= |h|
  {
    if n == 0 then []
    else if domain(h[n - 1].url) != "" then DomainKeysUpTo(h, n - 1, domain) + [domain(h[n - 1].url)]
    else DomainKeysUpTo(h, n - 1, domain)
  }

  /** The visit counts of those records, aligned with `DomainKeysUpTo`. */
  function DomainWeightsUpTo(h: seq<Record>, n: nat, domain: string -> string): (ws: seq<int>)
    requires n <= |h|
    ensures |ws| == |DomainKeysUpTo(h, n, domain)|
  {
    if n == 0 then []
    else if domain(h[n - 1].url) != "" then DomainWeightsUpTo(h, n - 1, domain) + [h[n - 1].visitCount]
    else DomainWeightsUpTo(h, n - 1, domain)
  }

  /** One more record extends both domain columns, or neither. */
  lemma DomainColumnsStep(h: seq<Record>, i: nat, domain: string -> string)
    requires i < |h|
    ensures domain(h[i].url) != "" ==>
              DomainKeysUpTo(h, i + 1, domain) == DomainKeysUpTo(h, i, domain) + [domain(h[i].url)] &&
              DomainWeightsUpTo(h, i + 1, domain) == DomainWeightsUpTo(h, i, domain) + [h[i].visitCount]
    ensures domain(h[i].url) == "" ==>
              DomainKeysUpTo(h, i + 1, domain) == DomainKeysUpTo(h, i, domain) &&
              DomainWeightsUpTo(h, i + 1, domain) == DomainWeightsUpTo(h, i, domain)
  {
  }

  /** The keys the domain counter is fed: every non-empty domain of the history. */
  function DomainKeys(h: seq<Record>, domain: string -> string): seq<string>
  {
    DomainKeysUpTo(h, |h|, domain)
  }

  /** The visit counts `domain_visits` adds up, aligned with `DomainKeys`. */
  function DomainWeights(h: seq<Record>, domain: string -> string): (ws: seq<int>)
    ensures |ws| == |DomainKeys(h, domain)|
  {
    DomainWeightsUpTo(h, |h|, domain)
  }

  lemma {:induction false} DomainKeysUpToMembership(h: seq<Record>, n: nat, domain: string -> string, d: string)
    requires n <= |h|
    ensures d in DomainKeysUpTo(h, n, domain) <==> d != "" && exists i :: 0 <= i < n && domain(h[i].url) == d
  {
    if n > 0 {
      DomainKeysUpToMembership(h, n - 1, domain, d);
    }
  }

  /** The domain columns hold exactly the non-empty domains of the history. */
  lemma DomainKeysMembership(h: seq<Record>, domain: string -> string, d: string)
    ensures d in DomainKeys(h, domain) <==> d != "" && exists i :: 0 <= i < |h| && domain(h[i].url) == d
  {
    DomainKeysUpToMembership(h, |h|, domain, d);
  }

  // ---------------------------------------------------------------------
  // Top-domain rankings.
  // ---------------------------------------------------------------------

  /** One `(domain, amount)` pair of a ranking. */
  datatype Ranked = Ranked(domain: string, amount: int)

  function Amount(r: Ranked): int { r.amount }

  function Domains(rs: seq<Ranked>): (ds: seq<string>)
    ensures |ds| == |rs| && forall i :: 0 <= i < |rs| ==> ds[i] == rs[i].domain
  {
    seq(|rs|, i requires 0 <= i < |rs| => rs[i].domain)
  }

  /** The domain counter's items, in first-seen order. */
  function CountItems(ks: seq<string>): (rs: seq<Ranked>)
    ensures Domains(rs) == FirstSeen(ks)
    ensures forall i :: 0 <= i < |rs| ==> rs[i].amount == Count(ks, rs[i].domain)
  {
    var keys := FirstSeen(ks);
    var rs := seq(|keys|, i requires 0 <= i < |keys| => Ranked(keys[i], Count(ks, keys[i])));
    assert Domains(rs) == keys;
    rs
  }

  /** The summed visits per domain, in first-seen order. */
  function VisitItems(ks: seq<string>, ws: seq<int>): (rs: seq<Ranked>)
    requires |ks| == |ws|
    ensures Domains(rs) == FirstSeen(ks)
    ensures forall i :: 0 <= i < |rs| ==> rs[i].amount == WeightOf(ks, ws, rs[i].domain)
  {
    var keys := FirstSeen(ks);
    var rs := seq(|keys|, i requires 0 <= i < |keys| => Ranked(keys[i], WeightOf(ks, ws, keys[i])));
    assert Domains(rs) == keys;
    rs
  }

  /** `domain_counter.most_common(n)`. */
  function TopByCount(h: seq<Record>, domain: string -> string, n: int): seq<Ranked>
  {
    MostCommonTake(SortDesc(CountItems(DomainKeys(h, domain)), Amount), n)
  }

  /** `sorted(domain_visits.items(), key=..., reverse=True)[:n]`. */
  function TopByVisits(h: seq<Record>, domain: string -> string, n: int): seq<Ranked>
  {
    SlicePrefix(SortDesc(VisitItems(DomainKeys(h, domain), DomainWeights(h, domain)), Amount), n)
  }

  /** What any prefix of a descending ranking guarantees about the domains it lists and those it leaves out. */
  lemma RankedPrefix(full: seq<Ranked>, top: seq<Ranked>)
    requires top <= SortDesc(full, Amount)
    ensures SortedDesc(top, Amount)
    ensures forall i :: 0 <= i < |top| ==> top[i] in full
    ensures forall j :: 0 <= j < |full| && full[j].domain !in Domains(top) ==>
              forall i :: 0 <= i < |top| ==> top[i].amount >= full[j].amount
    ensures forall v :: WithKey(top, Amount, v) <= WithKey(full, Amount, v)
  {
    TopOfSorted(full, top, Amount);
    forall j | 0 <= j < |full| && full[j].domain !in Domains(top)
      ensures forall i :: 0 <= i < |top| ==> top[i].amount >= full[j].amount
    {
      forall i | 0 <= i < |top| ensures top[i] != full[j] {
        assert Domains(top)[i] == top[i].domain;
      }
      TopRanksFirst(full, top, Amount, j);
    }
    forall v ensures WithKey(top, Amount, v) <= WithKey(full, Amount, v) {
      TopKeepsTieOrder(full, top, Amount, v);
    }
  }

  /** A prefix of the ranking lists only non-empty domains, each with its own amount. */
  lemma ListedDomains(h: seq<Record>, domain: string -> string, full: seq<Ranked>, top: seq<Ranked>, amount: string -> int)
    requires Domains(full) == FirstSeen(DomainKeys(h, domain))
    requires forall i :: 0 <= i < |full| ==> full[i].amount == amount(full[i].domain)
    requires forall i :: 0 <= i < |top| ==> top[i] in full
    ensures forall i :: 0 <= i < |top| ==> top[i].domain != "" && top[i].amount == amount(top[i].domain)
  {
    forall i | 0 <= i < |top| ensures top[i].domain != "" && top[i].amount == amount(top[i].domain) {
      var j :| 0 <= j < |full| && full[j] == top[i];
      assert Domains(full)[j] in DomainKeys(h, domain);
      DomainKeysMembership(h, domain, top[i].domain);
    }
  }

  /** No domain left out of a prefix of the ranking has a larger amount than one listed. */
  lemma LeftOutRankLower(ks: seq<string>, full: seq<Ranked>, top: seq<Ranked>, amount: string -> int)
    requires Domains(full) == FirstSeen(ks)
    requires forall i :: 0 <= i < |full| ==> full[i].amount == amount(full[i].domain)
    requires forall j :: 0 <= j < |full| && full[j].domain !in Domains(top) ==>
               forall i :: 0 <= i < |top| ==> top[i].amount >= full[j].amount
    ensures forall r :: 0 <= r < |ks| && ks[r] !in Domains(top) ==>
              forall i :: 0 <= i < |top| ==> top[i].amount >= amount(ks[r])
  {
    forall r | 0 <= r < |ks| && ks[r] !in Domains(top)
      ensures forall i :: 0 <= i < |top| ==> top[i].amount >= amount(ks[r])
    {
      var j :| 0 <= j < |full| && Domains(full)[j] == ks[r];
    }
  }

  /**
   * The ranking by entry count: the first `n` domains (none for `n <= 0`, all
   * of them when there are fewer),
   * each non-empty with its number of records, most frequent first; no
   * domain left out has more records than one listed, and domains with
   * equal counts keep first-seen order.
   */
  lemma TopByCountFacts(h: seq<Record>, domain: string -> string, n: int)
    ensures var top := TopByCount(h, domain, n);
            var ks := DomainKeys(h, domain);
            && (n <= 0 ==> top == [])
            && (n > 0 ==> |top| == Min(n, |FirstSeen(ks)|))
            && SortedDesc(top, Amount)
            && (forall i :: 0 <= i < |top| ==> top[i].domain != "" && top[i].amount == Count(ks, top[i].domain))
            && (forall r :: 0 <= r < |ks| && ks[r] !in Domains(top) ==>
                  forall i :: 0 <= i < |top| ==> top[i].amount >= Count(ks, ks[r]))
            && (forall v :: WithKey(top, Amount, v) <= WithKey(CountItems(ks), Amount, v))
  {
    var ks := DomainKeys(h, domain);
    var full := CountItems(ks);
    var top := TopByCount(h, domain, n);
    RankedLength(full, ks);
    RankedPrefix(full, top);
    ListedDomains(h, domain, full, top, k => Count(ks, k));
    LeftOutRankLower(ks, full, top, k => Count(ks, k));
  }


  /** The descending order ranks every distinct domain once. */
  lemma RankedLength(full: seq<Ranked>, ks: seq<string>)
    requires Domains(full) == FirstSeen(ks)
    ensures |SortDesc(full, Amount)| == |FirstSeen(ks)|
  {
    assert |Domains(full)| == |full|;
  }

  /** The ranking guarantees of `TopByVisitsFacts`, stated for the summed visits of `ks` and `ws`. */
  lemma VisitRanking(h: seq<Record>, domain: string -> string, ks: seq<string>, ws: seq<int>,
                     full: seq<Ranked>, top: seq<Ranked>)
    requires ks == DomainKeys(h, domain) && |ks| == |ws| && full == VisitItems(ks, ws)
    requires top <= SortDesc(full, Amount)
    ensures SortedDesc(top, Amount)
    ensures forall i :: 0 <= i < |top| ==> top[i].domain != "" && top[i].amount == WeightOf(ks, ws, top[i].domain)
    ensures forall r :: 0 <= r < |ks| && ks[r] !in Domains(top) ==>
              forall i :: 0 <= i < |top| ==> top[i].amount >= WeightOf(ks, ws, ks[r])
    ensures forall v :: WithKey(top, Amount, v) <= WithKey(full, Amount, v)
  {
    RankedPrefix(full, top);
    ListedDomains(h, domain, full, top, k => WeightOf(ks, ws, k));
    LeftOutRankLower(ks, full, top, k => WeightOf(ks, ws, k));
  }

  lemma TopByVisitsLength(h: seq<Record>, domain: string -> string, n: int)
    ensures var m := |FirstSeen(DomainKeys(h, domain))|;
            && (n >= 0 ==> |TopByVisits(h, domain, n)| == Min(n, m))
            && (n < 0 ==> |TopByVisits(h, domain, n)| == if m + n > 0 then m + n else 0)
  {
    RankedLength(VisitItems(DomainKeys(h, domain), DomainWeights(h, domain)), DomainKeys(h, domain));
  }

  /**
   * The ranking by summed visits: a prefix of the descending order as long
   * as the slice `[:n]` gives (a negative `n` drops from the end), each non-empty
   * domain with its summed visit count, and the same top and tie guarantees.
   */
  lemma TopByVisitsFacts(h: seq<Record>, domain: string -> string, n: int)
    ensures var top := TopByVisits(h, domain, n);
            var ks := DomainKeys(h, domain);
            var ws := DomainWeights(h, domain);
            && (n >= 0 ==> |top| == Min(n, |FirstSeen(ks)|))
            && (n < 0 ==> |top| == if |FirstSeen(ks)| + n > 0 then |FirstSeen(ks)| + n else 0)
            && SortedDesc(top, Amount)
            && (forall i :: 0 <= i < |top| ==> top[i].domain != "" && top[i].amount == WeightOf(ks, ws, top[i].domain))
            && (forall r :: 0 <= r < |ks| && ks[r] !in Domains(top) ==>
                  forall i :: 0 <= i < |top| ==> top[i].amount >= WeightOf(ks, ws, ks[r]))
            && (forall v :: WithKey(top, Amount, v) <= WithKey(VisitItems(ks, ws), Amount, v))
  {
    var ks := DomainKeys(h, domain);
    var ws := DomainWeights(h, domain);
    var full := VisitItems(ks, ws);
    TopByVisitsLength(h, domain, n);
    VisitRanking(h, domain, ks, ws, full, TopByVisits(h, domain, n));
  }


  // ---------------------------------------------------------------------
  // generate_stats
  // ---------------------------------------------------------------------

  /** `min(timestamps)`. */
  function Least(ts: seq<int>): (m: int)
    requires ts != []
    ensures m in ts && forall i :: 0 <= i < |ts| ==> m <= ts[i]
  {
    if |ts| == 1 then ts[0]
    else
      var rest := Least(ts[1..]);
      assert forall i :: 1 <= i < |ts| ==> ts[i] == ts[1..][i - 1];
      if ts[0] <= rest then ts[0] else rest
  }

  /** `max(timestamps)`. */
  function Greatest(ts: seq<int>): (m: int)
    requires ts != []
    ensures m in ts && forall i :: 0 <= i < |ts| ==> ts[i] <= m
  {
    if |ts| == 1 then ts[0]
    else
      var rest := Greatest(ts[1..]);
      assert forall i :: 1 <= i < |ts| ==> ts[i] == ts[1..][i - 1];
      if ts[0] >= rest then ts[0] else rest
  }

  /** `timedelta.days`: the whole days in a span of microseconds, rounded down. */
  function WholeDays(span: int): int
  {
    span / MicrosPerDay
  }

  datatype Summary = Summary(totalEntries: int, totalVisits: int, uniqueDomains: int, uniqueUrls: int)

  datatype TimeRange = TimeRange(earliest: int, latest: int, spanDays: int)

  datatype Report = Report(
    summary: Summary,
    timeRange: TimeRange,
    browserUsage: seq<(Browser, int)>,
    byCount: seq<Ranked>,
    byVisits: seq<Ranked>,
    patterns: seq<Bucket>,
    visitFrequency: seq<(int, int)>)

  /**
   * The `time_range` entry: the earliest and latest timestamps of the
   * history and the whole days between them.
   */
  function RangeOf(h: seq<Record>): (r: TimeRange)
    requires h != []
    ensures r.earliest in TimestampsOf(h) && r.latest in TimestampsOf(h)
    ensures forall i :: 0 <= i < |h| ==> r.earliest <= h[i].timestamp <= r.latest
    ensures 0 <= r.spanDays == WholeDays(r.latest - r.earliest)
  {
    var ts := TimestampsOf(h);
    var earliest, latest := Least(ts), Greatest(ts);
    assert earliest <= ts[0] <= latest;
    DivNonNegative(latest - earliest, MicrosPerDay);
    TimeRange(earliest, latest, WholeDays(latest - earliest))
  }

  /**
   * The domain counter and the per-domain visit totals, fed in one pass over
   * the history; records whose url yields no domain are skipped.
   */
  method TallyDomains(h: seq<Record>, domain: string -> string)
    returns (order: seq<string>, counts: map<string, int>, visits: map<string, int>)
    ensures order == FirstSeen(DomainKeys(h, domain))
    ensures forall k :: Lookup(counts, k) == Count(DomainKeys(h, domain), k)
    ensures forall k :: Lookup(visits, k) == WeightOf(DomainKeys(h, domain), DomainWeights(h, domain), k)
  {
    order, counts, visits := [], map[], map[];
    ghost var ks: seq<string> := [];
    ghost var ws: seq<int> := [];
    var i := 0;
    while i < |h|
      invariant 0 <= i <= |h|
      invariant ks == DomainKeysUpTo(h, i, domain) && ws == DomainWeightsUpTo(h, i, domain)
      invariant Tallies(ks, ws, order, counts, visits)
    {
      var e := h[i];
      var d := domain(e.url);
      DomainColumnsStep(h, i, domain);
      if d != "" {
        order, counts, visits := TallyOne(order, counts, visits, d, e.visitCount, ks, ws);
        ks, ws := ks + [d], ws + [e.visitCount];
      }
      i := i + 1;
    }
  }

  /**
   * `generate_stats`: nothing for an empty history; otherwise the totals,
   * the distinct domain and url counts, the time range, the browser and
   * visit-count counters, both top-domain rankings and the patterns.
   */
  method GenerateStats(h: seq<Record>, domain: string -> string, topLimit: int, groupBy: string)
    returns (r: Option<Report>)
    ensures r.None? <==> h == []
    ensures r.Some? ==>
              var s := r.value;
              && s.summary == Summary(|h|, Sum(VisitCountsOf(h)),
                                      |Elements(DomainsOf(h, domain))|, |Elements(UrlsOf(h))|)
              && s.timeRange == RangeOf(h)
              && s.browserUsage == CounterOf(BrowsersOf(h))
              && s.visitFrequency == CounterOf(VisitCountsOf(h))
              && s.byCount == TopByCount(h, domain, topLimit)
              && s.byVisits == TopByVisits(h, domain, topLimit)
              && CountsOf(s.patterns, KeysOf(h, ParseGrouping(groupBy)))
              && (ParseGrouping(groupBy) == ByWeekday ==> KeyList(s.patterns) == WeekOrder)
              && (ParseGrouping(groupBy) != ByWeekday ==>
                    StrictlyAscending(KeyList(s.patterns)) &&
                    SameKeys(KeyList(s.patterns), KeysOf(h, ParseGrouping(groupBy))))
              && Total(s.patterns) == |h|
  {
    if h == [] {
      return None;
    }
    var summary := Summary(|h|, Sum(VisitCountsOf(h)), |Elements(DomainsOf(h, domain))|, |Elements(UrlsOf(h))|);
    var range := RangeOf(h);
    var browserUsage := CounterOf(BrowsersOf(h));
    var order, counts, visits := TallyDomains(h, domain);
    var countItems := ItemsOf(order, counts, DomainKeys(h, domain), DomainWeights(h, domain), false);
    var visitItems := ItemsOf(order, visits, DomainKeys(h, domain), DomainWeights(h, domain), true);
    var byCount := MostCommonTake(SortDesc(countItems, Amount), topLimit);
    var byVisits := SlicePrefix(SortDesc(visitItems, Amount), topLimit);
    var patterns := AnalyzeBrowsingPatterns(h, groupBy);
    var frequency := CounterOf(VisitCountsOf(h));
    r := Some(Report(summary, range, browserUsage, byCount, byVisits, patterns, frequency));
  }

  /**
   * `.items()` of the tally loop's `Counter` (`weighted` false) or of its
   * visit sums (`weighted` true): the keys in insertion order, each with
   * its value.
   */
  method ItemsOf(order: seq<string>, table: map<string, int>, ghost ks: seq<string>, ghost ws: seq<int>, weighted: bool)
    returns (items: seq<Ranked>)
    requires |ks| == |ws| && order == FirstSeen(ks)
    requires !weighted ==> forall k :: Lookup(table, k) == Count(ks, k)
    requires weighted ==> forall k :: Lookup(table, k) == WeightOf(ks, ws, k)
    ensures !weighted ==> items == CountItems(ks)
    ensures weighted ==> items == VisitItems(ks, ws)
  {
    items := seq(|order|, i requires 0 <= i < |order| => Ranked(order[i], Lookup(table, order[i])));
  }

  /** On a non-empty history the distinct counts lie between 1 and the number of records. */
  lemma SummaryBounds(h: seq<Record>, domain: string -> string)
    requires h != []
    ensures 1 <= |Elements(DomainsOf(h, domain))| <= |h|
    ensures 1 <= |Elements(UrlsOf(h))| <= |h|
  {
    DistinctCountBounds(DomainsOf(h, domain));
    DistinctCountBounds(UrlsOf(h));
  }

  lemma DivNonNegative(a: int, b: int)
    requires a >= 0 && b > 0
    ensures a / b >= 0
  {
  }

  // ---------------------------------------------------------------------
  // display_browser_usage
  // ---------------------------------------------------------------------

  /** Per-browser entry count, summed visits and distinct non-empty domains. */
  datatype Usage = Usage(count: int, visits: int, domains: set<string>)

  /** The non-empty domains of browser `b`'s records. */
  function DomainsSeenBy(h: seq<Record>, domain: string -> string, b: Browser): set<string>
  {
    if h == [] then {}
    else
      var e := h[|h| - 1];
      DomainsSeenBy(h[..|h| - 1], domain, b) +
        (if e.browser == b && domain(e.url) != "" then {domain(e.url)} else {})
  }

  lemma {:induction false} DomainsSeenByMembership(h: seq<Record>, domain: string -> string, b: Browser, d: string)
    ensures d in DomainsSeenBy(h, domain, b) <==>
              d != "" && exists i :: 0 <= i < |h| && h[i].browser == b && domain(h[i].url) == d
  {
    if h != [] {
      var init := h[..|h| - 1];
      DomainsSeenByMembership(init, domain, b, d);
      if exists i :: 0 <= i < |h| && h[i].browser == b && domain(h[i].url) == d {
        var i :| 0 <= i < |h| && h[i].browser == b && domain(h[i].url) == d;
        if i < |init| { assert init[i] == h[i]; }
      }
      if exists i :: 0 <= i < |init| && init[i].browser == b && domain(init[i].url) == d {
        var i :| 0 <= i < |init| && init[i].browser == b && domain(init[i].url) == d;
        assert h[i] == init[i];
      }
    }
  }

  /** The aggregation loop of `display_browser_usage`. */
  method BrowserUsage(h: seq<Record>, domain: string -> string) returns (usage: map<Browser, Usage>)
    ensures forall b :: b in usage <==> b in BrowsersOf(h)
    ensures forall b :: b in usage ==>
              && usage[b].count == Count(BrowsersOf(h), b)
              && usage[b].visits == WeightOf(BrowsersOf(h), VisitCountsOf(h), b)
              && usage[b].domains == DomainsSeenBy(h, domain, b)
  {
    usage := map[];
    var i := 0;
    assert h[..i] == [];
    while i < |h|
      invariant 0 <= i <= |h|
      invariant UsageTallies(usage, h[..i], domain)
    {
      var e := h[i];
      UsageStep(h, i, domain, usage);
      usage := usage[e.browser := Bumped(UsageIn(usage, e.browser), e, domain)];
      i := i + 1;
    }
    assert h[..i] == h;
    forall b | b in usage ensures usage[b] == UsageOf(h, domain, b) {
      assert UsageIn(usage, b) == usage[b];
    }
  }

  /** `usage` holds, for every browser met in `h` and only for those, its tally. */
  ghost predicate UsageTallies(usage: map<Browser, Usage>, h: seq<Record>, domain: string -> string)
  {
    && (forall b :: b in usage <==> b in BrowsersOf(h))
    && (forall b :: UsageIn(usage, b) == UsageOf(h, domain, b))
  }

  /** One record added to its browser's tally. */
  function Bumped(u: Usage, e: Record, domain: string -> string): Usage
  {
    var d := domain(e.url);
    Usage(u.count + 1, u.visits + e.visitCount, if d != "" then u.domains + {d} else u.domains)
  }

  lemma UsageStep(h: seq<Record>, i: int, domain: string -> string, usage: map<Browser, Usage>)
    requires 0 <= i < |h|
    requires UsageTallies(usage, h[..i], domain)
    ensures UsageTallies(usage[h[i].browser := Bumped(UsageIn(usage, h[i].browser), h[i], domain)], h[..i + 1], domain)
  {
    var usage' := usage[h[i].browser := Bumped(UsageIn(usage, h[i].browser), h[i], domain)];
    forall b ensures UsageIn(usage', b) == UsageOf(h[..i + 1], domain, b) {
      UsageOfStep(h, i, domain, b);
    }
    BrowsersOfStep(h, i);
  }

  /** `usage[b]`, or the empty tally for a browser not met yet. */
  function UsageIn(usage: map<Browser, Usage>, b: Browser): Usage
  {
    if b in usage then usage[b] else Usage(0, 0, {})
  }

  /** What `display_browser_usage` accumulates for browser `b`. */
  function UsageOf(h: seq<Record>, domain: string -> string, b: Browser): Usage
  {
    Usage(Count(BrowsersOf(h), b), WeightOf(BrowsersOf(h), VisitCountsOf(h), b), DomainsSeenBy(h, domain, b))
  }

  lemma BrowsersOfStep(h: seq<Record>, i: int)
    requires 0 <= i < |h|
    ensures BrowsersOf(h[..i + 1]) == BrowsersOf(h[..i]) + [h[i].browser]
  {
  }

  /** One more record changes only its own browser's tally. */
  lemma UsageOfStep(h: seq<Record>, i: int, domain: string -> string, b: Browser)
    requires 0 <= i < |h|
    ensures UsageOf(h[..i + 1], domain, b) ==
              if b == h[i].browser then Bumped(UsageOf(h[..i], domain, b), h[i], domain) else UsageOf(h[..i], domain, b)
  {
    assert h[..i + 1][..i] == h[..i];
    var bs := BrowsersOf(h[..i]);
    var vs := VisitCountsOf(h[..i]);
    assert BrowsersOf(h[..i + 1]) == bs + [h[i].browser];
    assert VisitCountsOf(h[..i + 1]) == vs + [h[i].visitCount];
    CountSnoc(bs, h[i].browser, b);
    WeightOfSnoc(bs, vs, h[i].browser, h[i].visitCount, b);
  }

  /**
   * The per-browser figures account for the whole history: the entry counts
   * add up to the number of records and the visit sums to the total visits,
   * so the printed percentages cover 100%.
   */
  lemma BrowserUsageAddsUp(h: seq<Record>)
    ensures CountsOver(FirstSeen(BrowsersOf(h)), BrowsersOf(h)) == |h|
    ensures WeightsOver(FirstSeen(BrowsersOf(h)), BrowsersOf(h), VisitCountsOf(h)) == Sum(VisitCountsOf(h))
  {
    var bs := BrowsersOf(h);
    CountsPartition(FirstSeen(bs), bs);
    WeightsPartition(FirstSeen(bs), bs, VisitCountsOf(h));
  }
}
