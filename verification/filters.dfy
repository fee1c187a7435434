/**
 * The filter pipeline: domain whitelist and blacklist, keywords, visit-count
 * bounds and time bounds, each narrowing the list the previous one left.
 */
module Filters {
  import opened Wrappers
  import opened Seqs
  import opened Text
  import opened Records

  /**
   * A configured `time_from`/`time_to` after `fromisoformat`: a naive
   * instant, a timezone-aware one (an offset or a trailing `Z`; `utc` is the
   * instant in UTC, on the naive scale), or a string that does not parse.
   */
  datatype TimeBound = Naive(at: int) | Aware(utc: int) | Unparsable

  /**
   * The `[filters]` table. Absent lists are empty, an absent minimum is 1,
   * and an absent or empty time string is `None`.
   */
  datatype FilterConfig = FilterConfig(
    whitelist: seq<string>,
    blacklist: seq<string>,
    keywords: seq<string>,
    minVisits: int,
    maxVisits: Option<int>,
    timeFrom: Option<TimeBound>,
    timeTo: Option<TimeBound>,
    useRegex: bool)

  /**
   * The library calls the matching relies on: a case-insensitive regular
   * expression search `search(pattern, text)` and the domain extractor.
   */
  datatype Matcher = Matcher(search: (string, string) -> bool, domain: string -> string)

  /** One pattern against a record's domain; substring patterns are lower-cased, the domain is not. */
  predicate DomainHit(useRegex: bool, m: Matcher, pattern: string, e: Record)
  {
    if useRegex then m.search(pattern, m.domain(e.url))
    else Contains(m.domain(e.url), Lower(pattern))
  }

  /** One keyword against the title or the url, both lower-cased in substring mode. */
  predicate KeywordHit(useRegex: bool, m: Matcher, keyword: string, e: Record)
  {
    if useRegex then m.search(keyword, e.title) || m.search(keyword, e.url)
    else Contains(Lower(e.title), Lower(keyword)) || Contains(Lower(e.url), Lower(keyword))
  }

  /** `any(...)` over the domain patterns. */
  function AnyDomainHit(useRegex: bool, m: Matcher, patterns: seq<string>, e: Record): (b: bool)
    ensures b <==> exists i :: 0 <= i < |patterns| && DomainHit(useRegex, m, patterns[i], e)
  {
    if patterns == [] then false
    else
      var rest := AnyDomainHit(useRegex, m, patterns[1..], e);
      assert forall i :: 0 < i < |patterns| ==> patterns[i] == patterns[1..][i - 1];
      DomainHit(useRegex, m, patterns[0], e) || rest
  }

  /** Some keyword matches the title or some keyword matches the url. */
  function AnyKeywordHit(useRegex: bool, m: Matcher, keywords: seq<string>, e: Record): (b: bool)
    ensures b <==> exists i :: 0 <= i < |keywords| && KeywordHit(useRegex, m, keywords[i], e)
  {
    if keywords == [] then false
    else
      var rest := AnyKeywordHit(useRegex, m, keywords[1..], e);
      assert forall i :: 0 < i < |keywords| ==> keywords[i] == keywords[1..][i - 1];
      KeywordHit(useRegex, m, keywords[0], e) || rest
  }

  /** One narrowing stage with its parameter. */
  datatype Stage =
    | Whitelist(patterns: seq<string>)
    | Blacklist(patterns: seq<string>)
    | Keywords(words: seq<string>)
    | MinVisits(least: int)
    | MaxVisits(most: int)
    | NotBefore(from: int)
    | NotAfter(to: int)

  predicate Keeps(s: Stage, useRegex: bool, m: Matcher, e: Record)
  {
    match s
    case Whitelist(ps) => AnyDomainHit(useRegex, m, ps, e)
    case Blacklist(ps) => !AnyDomainHit(useRegex, m, ps, e)
    case Keywords(ws) => AnyKeywordHit(useRegex, m, ws, e)
    case MinVisits(n) => e.visitCount >= n
    case MaxVisits(n) => e.visitCount <= n
    case NotBefore(t) => e.timestamp >= t
    case NotAfter(t) => e.timestamp <= t
  }

  /** A stage's list comprehension: the records it keeps, in order. */
  function Narrow(h: seq<Record>, s: Stage, useRegex: bool, m: Matcher): (r: seq<Record>)
    ensures |r| <= |h|
    ensures forall i :: 0 <= i < |r| ==> Keeps(s, useRegex, m, r[i])
    ensures forall e :: e in r ==> e in h
  {
    if h == [] then []
    else (if Keeps(s, useRegex, m, h[0]) then [h[0]] else []) + Narrow(h[1..], s, useRegex, m)
  }

  /** The stages run one after the other. */
  function Select(h: seq<Record>, stages: seq<Stage>, useRegex: bool, m: Matcher): (r: seq<Record>)
    ensures |r| <= |h|
    ensures forall e :: e in r ==> e in h
    decreases |stages|
  {
    if stages == [] then h else Select(Narrow(h, stages[0], useRegex, m), stages[1..], useRegex, m)
  }

  /** A record passes every stage. */
  predicate Admits(stages: seq<Stage>, useRegex: bool, m: Matcher, e: Record)
  {
    stages == [] || (Keeps(stages[0], useRegex, m, e) && Admits(stages[1..], useRegex, m, e))
  }

  lemma {:induction false} AdmitsEvery(stages: seq<Stage>, useRegex: bool, m: Matcher, e: Record)
    ensures Admits(stages, useRegex, m, e) <==> forall s :: s in stages ==> Keeps(s, useRegex, m, e)
  {
    if stages != [] {
      AdmitsEvery(stages[1..], useRegex, m, e);
      assert stages == [stages[0]] + stages[1..];
    }
  }

  /** A single pass keeping the records every stage admits. */
  function NarrowAll(h: seq<Record>, stages: seq<Stage>, useRegex: bool, m: Matcher): seq<Record>
  {
    if h == [] then []
    else (if Admits(stages, useRegex, m, h[0]) then [h[0]] else []) + NarrowAll(h[1..], stages, useRegex, m)
  }

  lemma {:induction false} NarrowThenAll(h: seq<Record>, s: Stage, rest: seq<Stage>, useRegex: bool, m: Matcher)
    ensures NarrowAll(Narrow(h, s, useRegex, m), rest, useRegex, m) == NarrowAll(h, [s] + rest, useRegex, m)
  {
    if h != [] {
      NarrowThenAll(h[1..], s, rest, useRegex, m);
      var x := h[0];
      var st := [s] + rest;
      AdmitsAppend([s], rest, useRegex, m, x);
      AdmitsSingle(s, useRegex, m, x);
      if Keeps(s, useRegex, m, x) {
        var n := Narrow(h, s, useRegex, m);
        assert n == [x] + Narrow(h[1..], s, useRegex, m);
        assert n[0] == x && n[1..] == Narrow(h[1..], s, useRegex, m);
      } else {
        assert Narrow(h, s, useRegex, m) == Narrow(h[1..], s, useRegex, m);
      }
    }
  }

  lemma {:induction false} AdmitsAppend(a: seq<Stage>, b: seq<Stage>, useRegex: bool, m: Matcher, x: Record)
    ensures Admits(a + b, useRegex, m, x) <==> Admits(a, useRegex, m, x) && Admits(b, useRegex, m, x)
  {
    if a != [] {
      AdmitsAppend(a[1..], b, useRegex, m, x);
      assert (a + b)[0] == a[0] && (a + b)[1..] == a[1..] + b;
    } else {
      assert a + b == b;
    }
  }

  lemma AdmitsSingle(s: Stage, useRegex: bool, m: Matcher, x: Record)
    ensures Admits([s], useRegex, m, x) <==> Keeps(s, useRegex, m, x)
  {
    assert [s][1..] == [];
  }

  lemma AdmitsWhen(c: bool, s: Stage, useRegex: bool, m: Matcher, x: Record)
    ensures Admits(When(c, s), useRegex, m, x) <==> (c ==> Keeps(s, useRegex, m, x))
  {
    AdmitsSingle(s, useRegex, m, x);
  }

  lemma {:induction false} NarrowAllNothing(h: seq<Record>, useRegex: bool, m: Matcher)
    ensures NarrowAll(h, [], useRegex, m) == h
  {
    if h != [] {
      NarrowAllNothing(h[1..], useRegex, m);
      assert h == [h[0]] + h[1..];
    }
  }

  /** Running the stages in sequence keeps exactly the records that every stage admits, in order. */
  lemma {:induction false} SelectIsNarrowAll(h: seq<Record>, stages: seq<Stage>, useRegex: bool, m: Matcher)
    ensures Select(h, stages, useRegex, m) == NarrowAll(h, stages, useRegex, m)
    decreases |stages|
  {
    if stages == [] {
      NarrowAllNothing(h, useRegex, m);
    } else {
      SelectIsNarrowAll(Narrow(h, stages[0], useRegex, m), stages[1..], useRegex, m);
      NarrowThenAll(h, stages[0], stages[1..], useRegex, m);
      assert [stages[0]] + stages[1..] == stages;
    }
  }

  lemma {:induction false} NarrowAllMembership(h: seq<Record>, stages: seq<Stage>, useRegex: bool, m: Matcher, x: Record)
    ensures x in NarrowAll(h, stages, useRegex, m) <==> x in h && Admits(stages, useRegex, m, x)
  {
    if h != [] {
      NarrowAllMembership(h[1..], stages, useRegex, m, x);
      assert h == [h[0]] + h[1..];
    }
  }

  lemma {:induction false} NarrowAllIsSubsequence(h: seq<Record>, stages: seq<Stage>, useRegex: bool, m: Matcher)
    ensures IsSubsequence(NarrowAll(h, stages, useRegex, m), h)
  {
    if h != [] {
      NarrowAllIsSubsequence(h[1..], stages, useRegex, m);
      var r := NarrowAll(h, stages, useRegex, m);
      if Admits(stages, useRegex, m, h[0]) {
        assert r[0] == h[0] && r[1..] == NarrowAll(h[1..], stages, useRegex, m);
      } else {
        assert r == NarrowAll(h[1..], stages, useRegex, m);
      }
    }
  }

  /**
   * The pipeline neither alters nor reorders records: its output is a
   * subsequence of its input, holding exactly the input records that every
   * stage admits.
   */
  lemma SelectFacts(h: seq<Record>, stages: seq<Stage>, useRegex: bool, m: Matcher, x: Record)
    ensures IsSubsequence(Select(h, stages, useRegex, m), h)
    ensures x in Select(h, stages, useRegex, m) <==> x in h && Admits(stages, useRegex, m, x)
  {
    SelectIsNarrowAll(h, stages, useRegex, m);
    NarrowAllIsSubsequence(h, stages, useRegex, m);
    NarrowAllMembership(h, stages, useRegex, m, x);
  }

  /** The stages are independent: any arrangement of the same stages selects the same records. */
  lemma SelectOrderIrrelevant(h: seq<Record>, a: seq<Stage>, b: seq<Stage>, useRegex: bool, m: Matcher)
    requires forall s :: s in a <==> s in b
    ensures Select(h, a, useRegex, m) == Select(h, b, useRegex, m)
  {
    SelectIsNarrowAll(h, a, useRegex, m);
    SelectIsNarrowAll(h, b, useRegex, m);
    forall x ensures Admits(a, useRegex, m, x) == Admits(b, useRegex, m, x) {
      AdmitsEvery(a, useRegex, m, x);
      AdmitsEvery(b, useRegex, m, x);
    }
    NarrowAllSameAdmits(h, a, b, useRegex, m);
  }

  lemma {:induction false} NarrowAllSameAdmits(h: seq<Record>, a: seq<Stage>, b: seq<Stage>, useRegex: bool, m: Matcher)
    requires forall x :: Admits(a, useRegex, m, x) == Admits(b, useRegex, m, x)
    ensures NarrowAll(h, a, useRegex, m) == NarrowAll(h, b, useRegex, m)
  {
    if h != [] {
      NarrowAllSameAdmits(h[1..], a, b, useRegex, m);
    }
  }

  lemma {:induction false} SelectSnoc(h: seq<Record>, stages: seq<Stage>, s: Stage, useRegex: bool, m: Matcher)
    ensures Select(h, stages + [s], useRegex, m) == Narrow(Select(h, stages, useRegex, m), s, useRegex, m)
    decreases |stages|
  {
    if stages != [] {
      assert (stages + [s])[0] == stages[0] && (stages + [s])[1..] == stages[1..] + [s];
      SelectSnoc(Narrow(h, stages[0], useRegex, m), stages[1..], s, useRegex, m);
    } else {
      assert [] + [s] == [s];
      assert [s][1..] == [];
    }
  }

  // ---------------------------------------------------------------------
  // Which stages a configuration switches on.
  // ---------------------------------------------------------------------

  function When(c: bool, s: Stage): seq<Stage> { if c then [s] else [] }

  /** A time bound's stage: both parseable forms bound the records; an unparsable bound is skipped with a warning. */
  function TimeStage(bound: Option<TimeBound>, lower: bool): seq<Stage>
  {
    match bound
    case None => []
    case Some(Unparsable) => []
    case Some(Naive(t)) => [if lower then NotBefore(t) else NotAfter(t)]
    case Some(Aware(t)) => [if lower then NotBefore(t) else NotAfter(t)]
  }

  /** The same, as written: comparing an aware bound with the naive timestamps raises, so that stage is skipped too. */
  function AsWrittenTimeStage(bound: Option<TimeBound>, lower: bool): seq<Stage>
  {
    match bound
    case Some(Naive(t)) => [if lower then NotBefore(t) else NotAfter(t)]
    case _ => []
  }

  function ListStages(f: FilterConfig): seq<Stage>
  {
    When(|f.whitelist| > 0, Whitelist(f.whitelist)) +
    When(|f.blacklist| > 0, Blacklist(f.blacklist)) +
    When(|f.keywords| > 0, Keywords(f.keywords))
  }

  function VisitStages(f: FilterConfig): seq<Stage>
  {
    When(f.minVisits > 1, MinVisits(f.minVisits)) +
    When(f.maxVisits.Some? && f.maxVisits.value != 0, MaxVisits(f.maxVisits.GetOr(0)))
  }

  function ContentStages(f: FilterConfig): seq<Stage>
  {
    ListStages(f) + VisitStages(f)
  }

  /** The stages the pipeline runs, in order. */
  function ActiveStages(f: FilterConfig): seq<Stage>
  {
    ListStages(f) + BoundStages(f)
  }

  /** The stages after the keyword stage. */
  function BoundStages(f: FilterConfig): seq<Stage>
  {
    VisitStages(f) + TimeStages(f)
  }

  function TimeStages(f: FilterConfig): seq<Stage>
  {
    TimeStage(f.timeFrom, true) + TimeStage(f.timeTo, false)
  }

  function AsWrittenActiveStages(f: FilterConfig): seq<Stage>
  {
    ListStages(f) + (VisitStages(f) + (AsWrittenTimeStage(f.timeFrom, true) + AsWrittenTimeStage(f.timeTo, false)))
  }

  /**
   * What the pipeline as written returns: the input records, in order, that
   * pass the list and visit-count rules and the naive time bounds; an aware
   * bound limits nothing.
   */
  function AsWrittenFiltered(h: seq<Record>, f: FilterConfig, m: Matcher): (r: seq<Record>)
    ensures IsSubsequence(r, h)
    ensures forall e :: e in r <==> e in h && PassesLists(f, m, e) && PassesVisits(f, e) && PassesNaiveTimes(f, e)
  {
    SelectFacts(h, AsWrittenActiveStages(f), f.useRegex, m, NoRecord);
    AsWrittenMembership(h, f, m);
    Select(h, AsWrittenActiveStages(f), f.useRegex, m)
  }

  lemma AsWrittenMembership(h: seq<Record>, f: FilterConfig, m: Matcher)
    ensures forall e :: e in Select(h, AsWrittenActiveStages(f), f.useRegex, m) <==>
              e in h && PassesLists(f, m, e) && PassesVisits(f, e) && PassesNaiveTimes(f, e)
  {
    forall e ensures e in Select(h, AsWrittenActiveStages(f), f.useRegex, m) <==>
                     e in h && PassesLists(f, m, e) && PassesVisits(f, e) && PassesNaiveTimes(f, e)
    {
      SelectFacts(h, AsWrittenActiveStages(f), f.useRegex, m, e);
      AdmitsAsWrittenStages(f, m, e);
    }
  }

  /** Without an aware bound, the pipeline as written and the corrected one return the same records. */
  lemma AsWrittenAgreesWithoutAwareBounds(h: seq<Record>, f: FilterConfig, m: Matcher)
    requires !(f.timeFrom.Some? && f.timeFrom.value.Aware?) && !(f.timeTo.Some? && f.timeTo.value.Aware?)
    ensures AsWrittenFiltered(h, f, m) == Select(h, ActiveStages(f), f.useRegex, m)
  {
    assert AsWrittenActiveStages(f) == ActiveStages(f);
  }

  const NoRecord: Record := Record(Chrome, "", "", 0, 0)

  /** The domain and keyword rules of the configured lists. */
  predicate PassesLists(f: FilterConfig, m: Matcher, e: Record)
  {
    && (|f.whitelist| > 0 ==> AnyDomainHit(f.useRegex, m, f.whitelist, e))
    && (|f.blacklist| > 0 ==> !AnyDomainHit(f.useRegex, m, f.blacklist, e))
    && (|f.keywords| > 0 ==> AnyKeywordHit(f.useRegex, m, f.keywords, e))
  }

  /** The visit-count bounds, when switched on. */
  predicate PassesVisits(f: FilterConfig, e: Record)
  {
    && (f.minVisits > 1 ==> e.visitCount >= f.minVisits)
    && (f.maxVisits.Some? && f.maxVisits.value != 0 ==> e.visitCount <= f.maxVisits.value)
  }

  /** Each parseable time bound, inclusively. */
  predicate PassesTimes(f: FilterConfig, e: Record)
  {
    && (f.timeFrom.Some? && f.timeFrom.value.Naive? ==> e.timestamp >= f.timeFrom.value.at)
    && (f.timeFrom.Some? && f.timeFrom.value.Aware? ==> e.timestamp >= f.timeFrom.value.utc)
    && (f.timeTo.Some? && f.timeTo.value.Naive? ==> e.timestamp <= f.timeTo.value.at)
    && (f.timeTo.Some? && f.timeTo.value.Aware? ==> e.timestamp <= f.timeTo.value.utc)
  }

  /** Only the naive time bounds, as the pipeline as written applies them. */
  predicate PassesNaiveTimes(f: FilterConfig, e: Record)
  {
    && (f.timeFrom.Some? && f.timeFrom.value.Naive? ==> e.timestamp >= f.timeFrom.value.at)
    && (f.timeTo.Some? && f.timeTo.value.Naive? ==> e.timestamp <= f.timeTo.value.at)
  }

  /** What a record must satisfy to survive the pipeline. */
  predicate Passes(f: FilterConfig, m: Matcher, e: Record)
  {
    PassesLists(f, m, e) && PassesVisits(f, e) && PassesTimes(f, e)
  }

  lemma AdmitsListStages(f: FilterConfig, m: Matcher, e: Record)
    ensures Admits(ListStages(f), f.useRegex, m, e) <==> PassesLists(f, m, e)
  {
    var u := f.useRegex;
    var w := When(|f.whitelist| > 0, Whitelist(f.whitelist));
    var b := When(|f.blacklist| > 0, Blacklist(f.blacklist));
    var k := When(|f.keywords| > 0, Keywords(f.keywords));
    AdmitsWhen(|f.whitelist| > 0, Whitelist(f.whitelist), u, m, e);
    AdmitsWhen(|f.blacklist| > 0, Blacklist(f.blacklist), u, m, e);
    AdmitsWhen(|f.keywords| > 0, Keywords(f.keywords), u, m, e);
    AdmitsAppend(w, b, u, m, e);
    AdmitsAppend(w + b, k, u, m, e);
  }

  lemma AdmitsVisitStages(f: FilterConfig, m: Matcher, e: Record)
    ensures Admits(VisitStages(f), f.useRegex, m, e) <==> PassesVisits(f, e)
  {
    var u := f.useRegex;
    var lo := When(f.minVisits > 1, MinVisits(f.minVisits));
    var hi := When(f.maxVisits.Some? && f.maxVisits.value != 0, MaxVisits(f.maxVisits.GetOr(0)));
    AdmitsWhen(f.minVisits > 1, MinVisits(f.minVisits), u, m, e);
    AdmitsWhen(f.maxVisits.Some? && f.maxVisits.value != 0, MaxVisits(f.maxVisits.GetOr(0)), u, m, e);
    AdmitsAppend(lo, hi, u, m, e);
  }

  lemma AdmitsTimeStages(f: FilterConfig, m: Matcher, e: Record)
    ensures Admits(TimeStages(f), f.useRegex, m, e) <==> PassesTimes(f, e)
  {
    var from := TimeStage(f.timeFrom, true);
    var to := TimeStage(f.timeTo, false);
    if from != [] { AdmitsSingle(from[0], f.useRegex, m, e); }
    if to != [] { AdmitsSingle(to[0], f.useRegex, m, e); }
    AdmitsAppend(from, to, f.useRegex, m, e);
  }

  lemma AdmitsActiveStages(f: FilterConfig, m: Matcher, e: Record)
    ensures Admits(ActiveStages(f), f.useRegex, m, e) <==> Passes(f, m, e)
  {
    AdmitsListStages(f, m, e);
    AdmitsVisitStages(f, m, e);
    AdmitsTimeStages(f, m, e);
    AdmitsAppend(VisitStages(f), TimeStages(f), f.useRegex, m, e);
    AdmitsAppend(ListStages(f), BoundStages(f), f.useRegex, m, e);
  }

  lemma AdmitsAsWrittenStages(f: FilterConfig, m: Matcher, e: Record)
    ensures Admits(AsWrittenActiveStages(f), f.useRegex, m, e) <==>
              PassesLists(f, m, e) && PassesVisits(f, e) && PassesNaiveTimes(f, e)
  {
    var from := AsWrittenTimeStage(f.timeFrom, true);
    var to := AsWrittenTimeStage(f.timeTo, false);
    if from != [] { AdmitsSingle(from[0], f.useRegex, m, e); }
    if to != [] { AdmitsSingle(to[0], f.useRegex, m, e); }
    AdmitsAppend(from, to, f.useRegex, m, e);
    AdmitsListStages(f, m, e);
    AdmitsVisitStages(f, m, e);
    AdmitsAppend(VisitStages(f), from + to, f.useRegex, m, e);
    AdmitsAppend(ListStages(f), VisitStages(f) + (from + to), f.useRegex, m, e);
  }

  /** The records the pipeline returns are the input records that pass every configured rule, in input order. */
  lemma ActiveStagesSelect(h: seq<Record>, f: FilterConfig, m: Matcher)
    ensures IsSubsequence(Select(h, ActiveStages(f), f.useRegex, m), h)
    ensures forall e :: e in Select(h, ActiveStages(f), f.useRegex, m) <==> e in h && Passes(f, m, e)
  {
    forall e ensures e in Select(h, ActiveStages(f), f.useRegex, m) <==> e in h && Passes(f, m, e) {
      SelectFacts(h, ActiveStages(f), f.useRegex, m, e);
      AdmitsActiveStages(f, m, e);
    }
    SelectFacts(h, ActiveStages(f), f.useRegex, m, NoRecord);
  }

  // ---------------------------------------------------------------------
  // The pipeline.
  // ---------------------------------------------------------------------

  /** The keyword stage: a loop appending each record some keyword matches. */
  method KeywordStage(entries: seq<Record>, keywords: seq<string>, useRegex: bool, m: Matcher)
    returns (matches: seq<Record>)
    ensures matches == Narrow(entries, Keywords(keywords), useRegex, m)
  {
    matches := [];
    var i := 0;
    while i < |entries|
      invariant 0 <= i <= |entries|
      invariant matches + Narrow(entries[i..], Keywords(keywords), useRegex, m) ==
                Narrow(entries, Keywords(keywords), useRegex, m)
    {
      var e := entries[i];
      NarrowStep(entries, i, matches, Keywords(keywords), useRegex, m);
      if AnyKeywordHit(useRegex, m, keywords, e) {
        matches := matches + [e];
      }
      i := i + 1;
    }
  }

  /** Deciding one more record: the kept prefix plus the rest's comprehension stays the whole comprehension. */
  lemma NarrowStep(h: seq<Record>, i: int, kept: seq<Record>, s: Stage, useRegex: bool, m: Matcher)
    requires 0 <= i < |h|
    requires kept + Narrow(h[i..], s, useRegex, m) == Narrow(h, s, useRegex, m)
    ensures (if Keeps(s, useRegex, m, h[i]) then kept + [h[i]] else kept) + Narrow(h[i + 1..], s, useRegex, m)
            == Narrow(h, s, useRegex, m)
  {
    assert h[i..][1..] == h[i + 1..];
    if Keeps(s, useRegex, m, h[i]) {
      assert kept + Narrow(h[i..], s, useRegex, m) == (kept + [h[i]]) + Narrow(h[i + 1..], s, useRegex, m);
    } else {
      assert Narrow(h[i..], s, useRegex, m) == Narrow(h[i + 1..], s, useRegex, m);
    }
  }

  lemma {:induction false} SelectAppend(h: seq<Record>, a: seq<Stage>, b: seq<Stage>, useRegex: bool, m: Matcher)
    ensures Select(h, a + b, useRegex, m) == Select(Select(h, a, useRegex, m), b, useRegex, m)
    decreases |a|
  {
    if a == [] {
      assert a + b == b;
    } else {
      assert (a + b)[0] == a[0] && (a + b)[1..] == a[1..] + b;
      SelectAppend(Narrow(h, a[0], useRegex, m), a[1..], b, useRegex, m);
    }
  }

  /** `apply_filters`, with timezone-aware bounds compared on the UTC scale. */
  method ApplyFilters(history: seq<Record>, f: FilterConfig, m: Matcher) returns (filtered: seq<Record>)
    ensures filtered == Select(history, ActiveStages(f), f.useRegex, m)
    ensures IsSubsequence(filtered, history)
    ensures forall e :: e in filtered <==> e in history && Passes(f, m, e)
  {
    filtered := ApplyListFilters(history, f, m);
    ghost var afterLists := filtered;
    filtered := ApplyVisitFilters(filtered, f, m);
    filtered := ApplyTimeFilters(filtered, f, m);
    SelectAppend(afterLists, VisitStages(f), TimeStages(f), f.useRegex, m);
    SelectAppend(history, ListStages(f), BoundStages(f), f.useRegex, m);
    ActiveStagesSelect(history, f, m);
  }

  /** The list stages of `apply_filters`: whitelist, blacklist and keywords. */
  method ApplyListFilters(history: seq<Record>, f: FilterConfig, m: Matcher) returns (filtered: seq<Record>)
    ensures filtered == Select(history, ListStages(f), f.useRegex, m)
  {
    var useRegex := f.useRegex;
    filtered := history;
    ghost var applied: seq<Stage> := [];
    if |f.whitelist| > 0 {
      SelectSnoc(history, applied, Whitelist(f.whitelist), useRegex, m);
      filtered := Narrow(filtered, Whitelist(f.whitelist), useRegex, m);
      applied := applied + [Whitelist(f.whitelist)];
    }
    if |f.blacklist| > 0 {
      SelectSnoc(history, applied, Blacklist(f.blacklist), useRegex, m);
      filtered := Narrow(filtered, Blacklist(f.blacklist), useRegex, m);
      applied := applied + [Blacklist(f.blacklist)];
    }
    if |f.keywords| > 0 {
      SelectSnoc(history, applied, Keywords(f.keywords), useRegex, m);
      filtered := KeywordStage(filtered, f.keywords, useRegex, m);
      applied := applied + [Keywords(f.keywords)];
    }
    assert applied == ListStages(f);
  }

  /** The visit-count stages of `apply_filters`. */
  method ApplyVisitFilters(history: seq<Record>, f: FilterConfig, m: Matcher) returns (filtered: seq<Record>)
    ensures filtered == Select(history, VisitStages(f), f.useRegex, m)
  {
    filtered := history;
    ghost var applied: seq<Stage> := [];
    if f.minVisits > 1 {
      SelectSnoc(history, applied, MinVisits(f.minVisits), f.useRegex, m);
      filtered := Narrow(filtered, MinVisits(f.minVisits), f.useRegex, m);
      applied := applied + [MinVisits(f.minVisits)];
    }
    if f.maxVisits.Some? && f.maxVisits.value != 0 {
      SelectSnoc(history, applied, MaxVisits(f.maxVisits.value), f.useRegex, m);
      filtered := Narrow(filtered, MaxVisits(f.maxVisits.value), f.useRegex, m);
      applied := applied + [MaxVisits(f.maxVisits.value)];
    }
    assert applied == VisitStages(f);
  }

  /**
   * The time stages of `apply_filters`. An unparsable bound only prints a
   * warning; an aware bound is compared on the UTC scale.
   */
  method ApplyTimeFilters(history: seq<Record>, f: FilterConfig, m: Matcher) returns (filtered: seq<Record>)
    ensures filtered == Select(history, TimeStages(f), f.useRegex, m)
  {
    filtered := history;
    ghost var applied: seq<Stage> := [];
    if f.timeFrom.Some? && !f.timeFrom.value.Unparsable? {
      var from := if f.timeFrom.value.Naive? then f.timeFrom.value.at else f.timeFrom.value.utc;
      SelectSnoc(history, applied, NotBefore(from), f.useRegex, m);
      filtered := Narrow(filtered, NotBefore(from), f.useRegex, m);
      applied := applied + [NotBefore(from)];
    }
    if f.timeTo.Some? && !f.timeTo.value.Unparsable? {
      var to := if f.timeTo.value.Naive? then f.timeTo.value.at else f.timeTo.value.utc;
      SelectSnoc(history, applied, NotAfter(to), f.useRegex, m);
      filtered := Narrow(filtered, NotAfter(to), f.useRegex, m);
      applied := applied + [NotAfter(to)];
    }
    assert applied == TimeStages(f);
  }

  /**
   * With every list empty, the minimum at most 1, the maximum unset or 0
   * and no parseable time bound, the pipeline returns its input unchanged.
   */
  lemma NoFiltersIsIdentity(h: seq<Record>, f: FilterConfig, m: Matcher)
    requires f.whitelist == [] && f.blacklist == [] && f.keywords == [] && f.minVisits <= 1
    requires f.maxVisits.None? || f.maxVisits.value == 0
    requires f.timeFrom.None? || f.timeFrom.value.Unparsable?
    requires f.timeTo.None? || f.timeTo.value.Unparsable?
    ensures Select(h, ActiveStages(f), f.useRegex, m) == h
  {
    assert ActiveStages(f) == [];
  }

  /** The aware-bound defect: an old record survives a `time_from` written with an offset. */
  lemma AwareBoundSkippedAsWritten(m: Matcher)
    ensures var stale := Record(Chrome, "https://a.example/", "A", 1, 0);
            var f := FilterConfig([], [], [], 1, None, Some(Aware(1000)), None, false);
            && AsWrittenFiltered([stale], f, m) == [stale]
            && Select([stale], ActiveStages(f), false, m) == []
  {
    var stale := Record(Chrome, "https://a.example/", "A", 1, 0);
    var f := FilterConfig([], [], [], 1, None, Some(Aware(1000)), None, false);
    assert AsWrittenActiveStages(f) == [];
    assert ActiveStages(f) == [NotBefore(1000)];
    assert Narrow([stale], NotBefore(1000), false, m) == [];
  }
}
