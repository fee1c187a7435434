/**
 * The collector: how many rows each browser is asked for, which browsers
 * are read, and how their records are merged.
 */
module Collector {
  import opened Wrappers
  import opened Sorting
  import opened Timestamps
  import opened Records
  import opened Adapters
  import opened Filters

  /** A content filter is set, so more rows than the display limit are fetched. */
  predicate HasActiveFilters(f: FilterConfig)
  {
    |f.whitelist| > 0 || |f.blacklist| > 0 || |f.keywords| > 0 ||
    f.minVisits > 1 || (f.maxVisits.Some? && f.maxVisits.value != 0)
  }

  /** Content filters are active exactly when the pipeline will run a list or visit-count stage. */
  lemma HasActiveFiltersIffContentStage(f: FilterConfig)
    ensures HasActiveFilters(f) <==> ContentStages(f) != []
  {
  }

  const Unlimited: int := 999999

  /** The row limit handed to every adapter. */
  function FetchLimit(searchAll: bool, noTimeFilter: bool, f: FilterConfig, limit: int): (r: int)
    ensures searchAll || noTimeFilter ==> r == Unlimited
    ensures !searchAll && !noTimeFilter && HasActiveFilters(f) ==> r == limit * 10
    ensures !searchAll && !noTimeFilter && !HasActiveFilters(f) ==> r == limit
    ensures !searchAll && !noTimeFilter && limit >= 0 ==> r >= limit
  {
    if searchAll || noTimeFilter then Unlimited
    else if HasActiveFilters(f) then limit * 10
    else limit
  }

  /**
   * One run's inputs: the `[browsers]` enable flags, each browser's
   * database when its path was found, the clock, `days_back`, the configured
   * limit, the command-line switches and the local UTC offset. `now` is the
   * clock's reading and, like any `datetime.now()`, lies in years 1..9999
   * (`Representable`); only `days_back` can then make the cutoff overflow
   * (`ZeroDaysBackNeverOverflows`).
   */
  datatype RunSettings = RunSettings(
    enabled: map<string, bool>,
    databases: map<Browser, HistoryDb>,
    now: int,
    daysBack: int,
    limit: int,
    filters: FilterConfig,
    debug: bool,
    searchAll: bool,
    noTimeFilter: bool,
    localOffset: int)

  function Cutoff(st: RunSettings): int
  {
    st.now - st.daysBack * MicrosPerDay
  }

  function Limit(st: RunSettings): int
  {
    FetchLimit(st.searchAll, st.noTimeFilter, st.filters, st.limit)
  }

  /** `config["browsers"].get(name, False)`. */
  predicate Enabled(st: RunSettings, b: Browser)
  {
    ConfigKey(b) in st.enabled && st.enabled[ConfigKey(b)]
  }

  /** What the browser's adapter returns for its database. */
  function Extracted(b: Browser, db: HistoryDb, st: RunSettings): seq<Record>
  {
    match FamilyOf(b)
    case ChromiumFamily =>
      RecordsFrom(ChromiumQuery(db, Cutoff(st), st.noTimeFilter, Limit(st)), Stamp(b, ChromiumFamily, 0))
    case MozillaFamily =>
      RecordsFrom(FirefoxQuery(db, Cutoff(st), st.noTimeFilter, Limit(st), st.localOffset),
                  Stamp(b, MozillaFamily, st.localOffset))
    case SafariFamily =>
      ExtractedSafari(db, Cutoff(st), Limit(st), st.debug)
  }

  /** A disabled browser, or one whose history was not found, contributes nothing. */
  function Contribution(b: Browser, st: RunSettings): seq<Record>
  {
    if Enabled(st, b) && b in st.databases then Extracted(b, st.databases[b], st) else []
  }

  /** The per-browser lists concatenated in the order given. */
  function Gathered(bs: seq<Browser>, st: RunSettings): seq<Record>
  {
    if bs == [] then [] else Gathered(bs[..|bs| - 1], st) + Contribution(bs[|bs| - 1], st)
  }

  /** The records a browser contributes carry its name and, unless the time filter is off, are no older than the cutoff. */
  lemma ContributionFacts(b: Browser, st: RunSettings, e: Record)
    requires e in Contribution(b, st)
    ensures e.browser == b && Enabled(st, b) && b in st.databases
    ensures Representable(e.timestamp)
    ensures !st.noTimeFilter ==> e.timestamp >= Cutoff(st)
  {
    var db := st.databases[b];
    match FamilyOf(b)
    case ChromiumFamily =>
      ChromiumLikeAfterCutoff(ChromiumQuery(db, Cutoff(st), st.noTimeFilter, Limit(st)),
                              Stamp(b, ChromiumFamily, 0), Cutoff(st), st.noTimeFilter, e);
    case MozillaFamily =>
      ChromiumLikeAfterCutoff(FirefoxQuery(db, Cutoff(st), st.noTimeFilter, Limit(st), st.localOffset),
                              Stamp(b, MozillaFamily, st.localOffset), Cutoff(st), st.noTimeFilter, e);
    case SafariFamily =>
      SafariAfterCutoff(db, Cutoff(st), Limit(st), st.debug, e);
  }

  lemma {:induction false} GatheredFacts(bs: seq<Browser>, st: RunSettings, e: Record)
    requires e in Gathered(bs, st)
    ensures e.browser in bs && Enabled(st, e.browser) && e.browser in st.databases
    ensures Representable(e.timestamp)
    ensures !st.noTimeFilter ==> e.timestamp >= Cutoff(st)
  {
    var init := bs[..|bs| - 1];
    var last := bs[|bs| - 1];
    if e in Gathered(init, st) {
      GatheredFacts(init, st, e);
      assert e.browser in bs by { var k :| 0 <= k < |init| && init[k] == e.browser; assert bs[k] == e.browser; }
    } else {
      ContributionFacts(last, st, e);
    }
  }

  /** Reading one more browser appends its contribution. */
  lemma GatheredStep(st: RunSettings, i: nat)
    requires i < |DeclaredOrder|
    ensures Gathered(DeclaredOrder[..i + 1], st) == Gathered(DeclaredOrder[..i], st) + Contribution(DeclaredOrder[i], st)
  {
    assert DeclaredOrder[..i + 1][..i] == DeclaredOrder[..i];
  }

  /** The `extract_func` registered for a browser: its family's adapter, run on its database. */
  method ReadBrowser(b: Browser, db: HistoryDb, st: RunSettings, cutoff: int, limit: int) returns (h: seq<Record>)
    requires cutoff == Cutoff(st) && limit == Limit(st)
    ensures h == Extracted(b, db, st)
  {
    match FamilyOf(b) {
      case ChromiumFamily =>
        h := ExtractChromiumHistory(db, b, cutoff, st.noTimeFilter, limit);
      case MozillaFamily =>
        h := ExtractFirefoxHistory(db, b, cutoff, st.noTimeFilter, limit, st.localOffset);
      case SafariFamily =>
        h := ExtractSafariHistory(db, cutoff, limit, st.debug);
    }
  }

  /** The largest day count a `timedelta` accepts. */
  const MaxTimedeltaDays: int := 999999999

  /**
   * `datetime.now() - timedelta(days=days_back)` raises `OverflowError`:
   * the day count is beyond what a `timedelta` holds, or the difference
   * falls outside years 1 to 9999.
   */
  predicate CutoffOverflows(st: RunSettings)
  {
    !(-MaxTimedeltaDays <= st.daysBack <= MaxTimedeltaDays) || !Representable(Cutoff(st))
  }

  /** With a representable clock and `days_back == 0` the cutoff is `now` and never overflows. */
  lemma ZeroDaysBackNeverOverflows(st: RunSettings)
    requires Representable(st.now) && st.daysBack == 0
    ensures !CutoffOverflows(st)
  {
  }

  /**
   * The browser's adapter is called and computes the cutoff before its
   * `try`: Safari's always does, the other two families' only with the
   * time filter on.
   */
  predicate ComputesCutoff(st: RunSettings, b: Browser)
  {
    Enabled(st, b) && b in st.databases && (FamilyOf(b) == SafariFamily || !st.noTimeFilter)
  }

  /** The run ends with the cutoff's `OverflowError`: some adapter computes a cutoff that overflows. */
  ghost predicate Aborts(st: RunSettings)
  {
    CutoffOverflows(st) && exists b :: ComputesCutoff(st, b)
  }

  /** With the time filter off, only Safari's adapter still computes the cutoff. */
  lemma NoTimeFilterComputesOnlyForSafari(st: RunSettings)
    requires st.noTimeFilter
    ensures (exists b :: ComputesCutoff(st, b)) <==> Enabled(st, Safari) && Safari in st.databases
  {
    if Enabled(st, Safari) && Safari in st.databases {
      assert ComputesCutoff(st, Safari);
    }
  }

  /**
   * The collector's state after the first `i` browsers of the declared
   * order: `all` is their concatenated records, and when the cutoff
   * overflows none of them has computed it yet.
   */
  ghost predicate Collecting(st: RunSettings, i: int, overflows: bool, all: seq<Record>)
  {
    && 0 <= i <= |DeclaredOrder|
    && overflows == CutoffOverflows(st)
    && all == Gathered(DeclaredOrder[..i], st)
    && (overflows ==> NoneComputesBefore(st, i))
  }

  /**
   * One pass of the collector's loop: an enabled browser whose history was
   * found is read and its records appended, unless computing its cutoff
   * raises, which ends the run.
   */
  method Visit(st: RunSettings, i: int, overflows: bool, cutoff: int, limit: int, all: seq<Record>)
    returns (next: Option<seq<Record>>)
    requires i < |DeclaredOrder| && Collecting(st, i, overflows, all)
    requires cutoff == Cutoff(st) && limit == Limit(st)
    ensures next.None? ==> Aborts(st)
    ensures next.Some? ==> Collecting(st, i + 1, overflows, next.value)
  {
    var b := DeclaredOrder[i];
    GatheredStep(st, i);
    if Enabled(st, b) && b in st.databases {
      if overflows && ComputesCutoff(st, b) {
        AbortsAt(st, b);
        return None;
      }
      var read := ReadBrowser(b, st.databases[b], st, cutoff, limit);
      next := Some(all + read);
    } else {
      next := Some(all);
    }
    if overflows {
      NoCutoffStep(st, i);
    }
  }

  /** `collect_browser_history`; `None` is the uncaught `OverflowError` that ends the run. */
  method CollectBrowserHistory(st: RunSettings) returns (history: Option<seq<Record>>)
    ensures history.None? <==> Aborts(st)
    ensures history.Some? ==> history.value == SortDesc(Gathered(DeclaredOrder, st), Timestamp)
  {
    var limit := Limit(st);
    var cutoff := Cutoff(st);
    var overflows := CutoffOverflows(st);
    var all: seq<Record> := [];
    var i := 0;
    while i < |DeclaredOrder|
      invariant 0 <= i <= |DeclaredOrder| && Collecting(st, i, overflows, all)
    {
      var next := Visit(st, i, overflows, cutoff, limit, all);
      if next.None? {
        return None;
      }
      all := next.value;
      i := i + 1;
    }
    CollectedAll(st, overflows, all);
    history := Some(SortDesc(all, Timestamp));
  }

  /** After the last browser nothing has raised, and the records are the whole concatenation. */
  lemma CollectedAll(st: RunSettings, overflows: bool, all: seq<Record>)
    requires Collecting(st, |DeclaredOrder|, overflows, all)
    ensures !Aborts(st) && all == Gathered(DeclaredOrder, st)
  {
    assert DeclaredOrder[..|DeclaredOrder|] == DeclaredOrder;
    if overflows {
      NoBrowserComputesCutoff(st);
    }
  }

  /** None of the first `i` browsers of the declared order computes the cutoff. */
  ghost predicate NoneComputesBefore(st: RunSettings, i: int)
  {
    forall k :: 0 <= k < i && k < |DeclaredOrder| ==> !ComputesCutoff(st, DeclaredOrder[k])
  }

  lemma NoCutoffStep(st: RunSettings, i: nat)
    requires i < |DeclaredOrder| && !ComputesCutoff(st, DeclaredOrder[i]) && NoneComputesBefore(st, i)
    ensures NoneComputesBefore(st, i + 1)
  {
  }

  /** A browser that computes an overflowing cutoff ends the run. */
  lemma AbortsAt(st: RunSettings, b: Browser)
    requires CutoffOverflows(st) && ComputesCutoff(st, b)
    ensures Aborts(st)
  {
  }

  /** Every browser appears in the declared order, so checking that order checks them all. */
  lemma NoBrowserComputesCutoff(st: RunSettings)
    requires NoneComputesBefore(st, |DeclaredOrder|)
    ensures !Aborts(st)
  {
    DeclaredOrderIsComplete();
    forall b: Browser ensures !ComputesCutoff(st, b) {
      assert b in DeclaredOrder;
      var k :| 0 <= k < |DeclaredOrder| && DeclaredOrder[k] == b;
    }
  }

  /**
   * The merged history is newest first, a permutation of the concatenated
   * per-browser lists, keeps records with equal timestamps in concatenation
   * order, holds only enabled browsers whose history was found, and, with
   * the time filter on, nothing older than the cutoff.
   */
  lemma CollectedHistoryFacts(st: RunSettings)
    ensures var history := SortDesc(Gathered(DeclaredOrder, st), Timestamp);
            && SortedDesc(history, Timestamp)
            && multiset(history) == multiset(Gathered(DeclaredOrder, st))
            && (forall v :: WithKey(history, Timestamp, v) == WithKey(Gathered(DeclaredOrder, st), Timestamp, v))
            && (forall e :: e in history ==> Enabled(st, e.browser) && e.browser in st.databases)
            && (!st.noTimeFilter ==> forall e :: e in history ==> e.timestamp >= Cutoff(st))
  {
    var all := Gathered(DeclaredOrder, st);
    var history := SortDesc(all, Timestamp);
    forall v ensures WithKey(history, Timestamp, v) == WithKey(all, Timestamp, v) {
      SortDescStable(all, Timestamp, v);
    }
    forall e | e in history
      ensures Enabled(st, e.browser) && e.browser in st.databases
      ensures !st.noTimeFilter ==> e.timestamp >= Cutoff(st)
    {
      assert e in multiset(all);
      GatheredFacts(DeclaredOrder, st, e);
    }
  }

  /** A browser left out of the `[browsers]` table is not read. */
  lemma UnlistedBrowserContributesNothing(b: Browser, st: RunSettings)
    requires ConfigKey(b) !in st.enabled
    ensures Contribution(b, st) == []
  {
  }
}
