# chronika: a verified model of the history pipeline

chronika reads the history databases of ten browsers and turns their rows
into one newest-first list of visit records. It filters that list by domain,
keyword, visit count and time, and it summarises the result as browsing
patterns, statistics and per-browser usage. This project models that
pipeline in Dafny, from the rows the databases return to the records that are
printed, and proves what each stage promises.

- `timestamps.dfy` defines an instant as an integer count of microseconds since 1601-01-01. It also holds the
  Chromium (1601), Unix (1970) and Safari (2001) epochs, the range that `datetime` can represent, each family's
  native cutoff, and the hour, weekday and calendar-month keys.
- `records.dfy` holds the ten browsers in the collector's declared order, the canonical record, the raw row, and a
  database given as the rows of each table the queries read, with each join as one row set. A `None` table
  makes the query that reads it raise.
- `adapters.dfy` covers the query semantics (`WHERE time > ?`, `ORDER BY time DESC`, `LIMIT ?`). It also has the
  Chromium/Firefox row loop, Safari's candidate queries with first-success selection, and the Safari row loop.
- `collector.dfy` has `has_active_filters`, the fetch-limit rule, the concatenation in declared order, the
  stable newest-first merge, and the `OverflowError` that the cutoff computation raises before any adapter's `try`.
- `filters.dfy` is `apply_filters`: a chain of narrowing stages, including the keyword loop.
- `patterns.dfy` is `analyze_browsing_patterns`.
- `stats.dfy` has `generate_stats` and the aggregation loop of `display_browser_usage`.
- `seqs.dfy`, `sorting.dfy`, `counting.dfy`, `text.dfy` and `wrappers.dfy` are the supporting library:
  - Python's stable `sorted(..., reverse=True)` as an insertion sort;
  - `Counter` and `defaultdict(int)` as counts and weights in first-seen order;
  - `most_common(n)` and the slice `[:n]`;
  - `str.lower` and `in`.

Some inputs become parameters:
- The clock becomes one `now` instant shared by the three adapters.
- The local UTC offset that `fromtimestamp` applies becomes `localOffset`.
- The domain extractor `extract_domain` becomes a function parameter `domain`, so every filter and ranking
  property holds for any extractor.
- Regular-expression search becomes a function parameter `search(pattern, text)`.

Behaviour of the code that the model keeps:
- **Overflow in the Chromium and Firefox loops.** A time outside `datetime`'s range raises inside these loops. The
  outer handler then returns the records built so far, so the remaining rows are lost (`Adapters.Canonical`).
  Safari catches the error per row and only drops that row.
- **Safari ignores `--no-time-filter`.** Safari always filters by time.
- **The unfiltered Safari query.** This query runs only in debug mode, and it re-checks `timestamp >= cutoff`.
- **An overflowing cutoff ends the run.** `datetime.now() - timedelta(days=days_back)` is computed before each
  adapter's `try` (chronika.py:295, 390 and 481), and `collect_browser_history` does not catch it. A `days_back` that
  reaches before year 1 or after year 9999, or beyond a `timedelta`'s day range, raises `OverflowError` as soon as the
  first enabled browser with a database computes it. Chromium and Firefox compute it only with the time filter on;
  Safari always does. `Collector.CollectBrowserHistory` returns `None` for that case.
- **Debug-only counting queries.** The Chromium and Firefox adapters count the rows of `urls` and of `moz_places` in
  debug mode. These tables are also read by the main query, so a count fails only when the main query fails too. A
  main query can still fail where the count succeeds: Firefox's join also needs `moz_historyvisits`, and Chromium's
  query needs `last_visit_time`. Either way the outer handler returns no records. For these two adapters the result
  is therefore the same with or without `debug`. Safari's debug-only `PRAGMA` is the exception (see Left out).

## Model

| member | source | states |
|---|---|---|
| Timestamps.NativeCutoffAgrees | chronika.py:294-298 | For every family, a raw column value exceeds the cutoff written in the family's own units exactly when its instant is after the cutoff (for Safari this includes the floor of the fractional cutoff). |
| Timestamps.HourOfDay | chronika.py:757 | The hour key always lies in 0..23. |
| Timestamps.WeekdayIndex | chronika.py:761 | The weekday key always lies in 0..6, with 0 = Monday. |
| Timestamps.ChromiumEpochExample | chronika.py:358-360 | 154498 days and 10 hours after the Chromium epoch is Tuesday 2024-01-02, hour 10. |
| Timestamps.SafariEpochExample | chronika.py:574-576 | Safari's 726000000 s is 2024-01-03, hour 18. |
| Records.DeclaredOrderIsComplete | chronika.py:822-833 | The collector's table lists every browser exactly once, and display names are distinct. |
| Seqs.SqlLimit | chronika.py:339-346 | `LIMIT n` returns a prefix of the ordered rows: all of them for a negative n, otherwise min(n, rows). |
| Seqs.MostCommonTake | chronika.py:1024 | `most_common(n)` is a prefix of the sorted items: empty for n <= 0, otherwise min(n, items) long. |
| Seqs.SlicePrefix | chronika.py:1025 | The slice `[:n]` is a prefix: min(n, len) long for n >= 0, and len + n (at least 0) for negative n. |
| Sorting.SortDesc | chronika.py:849 | The newest-first sort returns a permutation of its input, ordered by descending key. |
| Sorting.SortDescStable | chronika.py:849 | The sort is stable: for every key value, the elements with that key keep their input order. |
| Sorting.TopKeepsTieOrder | chronika.py:1024-1025 | A prefix of the stable sort keeps, for each key, the input's first elements with that key in input order. |
| Sorting.TopRanksFirst | chronika.py:1024-1025 | No element left out of a prefix of the descending sort has a larger key than one kept. |
| Counting.FirstSeenCardinality | chronika.py:999-1000 | `len(set(xs))` equals the number of first occurrences in `xs`. |
| Counting.CounterOfFacts | chronika.py:1011 | Each item of `Counter(xs)` carries its key's number of occurrences (always positive), and the counts add up to `len(xs)`. |
| Counting.TallyOne | chronika.py:1017-1021 | Feeding one more key and weight keeps the counter and the summing dictionary exact: the order stays first-seen, and each count and total matches the keys fed so far. |
| Counting.CountsPartition | chronika.py:767 | When each key is listed once, the per-key counts add up to the number of elements. |
| Text.ContainsIffOccurs | chronika.py:639 | `pat in text` holds exactly when `pat` occurs at some position of `text`. |
| Text.Lower | chronika.py:636 | Lower-casing keeps the length and maps each character. |
| Adapters.QueryRows | chronika.py:330-346 | The query returns only database rows, each newer than the cutoff when one is given. The rows come newest first, with at most `limit` of them when the limit is not negative. |
| Adapters.TitleOrDefault | chronika.py:364 | The stored title is never empty. It is "No Title" exactly when the row's title is NULL, empty or itself "No Title". |
| Adapters.CanonicalKeepsRowsBeforeOverflow | chronika.py:355-368 | The loop's output is the conversion, in row order, of every row with a truthy time before the first row whose time overflows. |
| Adapters.CanonicalOrigin | chronika.py:355-368 | Every emitted record comes from a row with a truthy time: the browser is set, the timestamp is epoch + raw and representable, the title falls back, and the visit count is copied. |
| Adapters.CanonicalizeRows | chronika.py:355-368 | The row loop computes exactly `Canonical` (skip falsy times, stop at the first overflow). |
| Adapters.Canonical | chronika.py:355-368 | The records the Chromium/Firefox loop returns; specified by `Adapters.CanonicalKeepsRowsBeforeOverflow` and `Adapters.CanonicalOrigin`. |
| Adapters.ExtractChromiumHistory | chronika.py:290-382 | This is the `urls` query (time-filtered unless `no_time_filter`) followed by the row loop. A query that raises gives no records. |
| Adapters.ExtractFirefoxHistory | chronika.py:385-475 | This is the joined `moz_places`/`moz_historyvisits` query on the Unix epoch, shifted to local time, followed by the row loop. |
| Adapters.ChromiumLikeAfterCutoff | chronika.py:339-368 | Every Chromium- or Firefox-family record belongs to its browser and has a representable timestamp. That timestamp is after the cutoff unless time filtering is off. |
| Adapters.SafariCandidates | chronika.py:513-550 | The join is a candidate iff both tables exist, the direct query iff `history_items` exists, and the unfiltered query iff debug mode is on and `history_items` exists. Candidates keep the order join, direct, unfiltered. |
| Adapters.FirstProductive | chronika.py:552-601 | No candidate is chosen iff every candidate raises or returns no rows. Otherwise the choice is the first candidate that returns rows, and every earlier candidate raised or returned none. |
| Adapters.ConvertSafariRows | chronika.py:569-587 | The Safari row loop computes `SafariRecords`: rows need a truthy url and time, overflowing rows are dropped, and the unfiltered query keeps only `timestamp >= cutoff`. |
| Adapters.SafariRecord | chronika.py:573-587 | One Safari row's record, or none; specified through `Adapters.ConvertSafariRow` and `Adapters.SafariRecordsFacts`. |
| Adapters.SafariRecords | chronika.py:569-587 | The Safari loop's records; specified by `Adapters.SafariRecordsKeepsRows` (complete and in row order) and `Adapters.SafariRecordsFacts` (where each record comes from). |
| Adapters.SafariConvertAll | chronika.py:573-587 | For rows that each convert, one record per row in the same order, each the record `SafariRecord` builds from its row. |
| Adapters.SafariRecordsKeepsRows | chronika.py:569-587 | The Safari loop's records are exactly the records of the rows `SafariRecord` keeps, one per kept row, in row order; the other rows are dropped. With `Adapters.SafariRecordsFacts` this makes the loop sound and complete. |
| Adapters.ConvertSafariRow | chronika.py:573-587 | The loop body for one row computes `SafariRecord`: a row with a truthy time and url whose instant is representable (and, for the unfiltered query, not older than the cutoff) gives one record; any other row gives none. |
| Adapters.ExtractSafariHistory | chronika.py:478-614 | The candidate loop with `break` returns the records of the first productive candidate, or nothing. |
| Adapters.SafariRecordsFacts | chronika.py:569-587 | Every Safari record is built from one of the rows: its url (non-empty), `title or "No Title"`, `visit_count or 1` (so non-zero) and `safari_epoch + visit_time` seconds as timestamp. That timestamp is representable and at or after the cutoff. |
| Adapters.SafariAfterCutoff | chronika.py:478-614 | Every record Safari extraction yields comes from a row of the first productive candidate, built as above. It has browser Safari, a url, a non-zero visit count and a timestamp at or after the cutoff. |
| Collector.HasActiveFiltersIffContentStage | chronika.py:781-795 | Content filters count as active exactly when the pipeline will run a list or visit-count stage. |
| Collector.HasActiveFilters | chronika.py:781-795 | Whether content filters are active; specified by `Collector.HasActiveFiltersIffContentStage`. |
| Collector.FetchLimit | chronika.py:803-819 | The limit is 999999 in search-all or no-time-filter mode, `limit*10` when content filters are active, and `limit` otherwise. Outside search mode, and for a non-negative `limit`, it is never below `limit`. |
| Collector.ContributionFacts | chronika.py:835-841 | A browser's contribution comes from that browser only when it is enabled and has a database. Its timestamps are representable and, with time filtering on, at or after the cutoff. |
| Collector.GatheredFacts | chronika.py:835-846 | The same holds for every record of the concatenation over a browser list. |
| Collector.ReadBrowser | chronika.py:822-833 | The extractor registered for a browser is its family's adapter: Chromium, Firefox or Safari, run with the run's cutoff (from the single `now`) and row limit. |
| Collector.CutoffOverflows | chronika.py:481 | The cutoff computation raises: `days_back` is beyond a `timedelta`'s ±999999999 days, or `now - days_back` days lies outside years 1 to 9999. |
| Collector.ZeroDaysBackNeverOverflows | chronika.py:481 | With a clock reading in years 1..9999 and `days_back == 0`, computing the cutoff does not raise. |
| Collector.ComputesCutoff | chronika.py:292-295 | An adapter computes the cutoff when its browser is enabled and has a database, and either it is Safari or the time filter is on. |
| Collector.Aborts | chronika.py:835-841 | The run ends in the cutoff's `OverflowError`: the cutoff overflows and some browser computes it. |
| Collector.NoTimeFilterComputesOnlyForSafari | chronika.py:478-481 | With `--no-time-filter`, a cutoff is computed iff Safari is enabled and has a database. |
| Collector.Visit | chronika.py:835-846 | One pass of the collector loop either ends the run (and then the run aborts) or appends that browser's contribution, keeping the concatenation and the no-overflow-yet state exact. |
| Collector.CollectBrowserHistory | chronika.py:798-849 | The run ends in `OverflowError` (`None`) exactly when the cutoff overflows and some enabled browser with a database computes it. Otherwise the collector returns the stable newest-first sort of the per-browser lists, concatenated in declared order. |
| Collector.CollectedHistoryFacts | chronika.py:848-849 | The collected history is sorted newest first and is a permutation of the concatenation. Ties keep concatenation order. Every record comes from an enabled, installed browser and respects the cutoff when time filtering is on. |
| Collector.UnlistedBrowserContributesNothing | chronika.py:836 | A browser absent from `[browsers]` contributes nothing. |
| Filters.AnyDomainHit | chronika.py:636-640 | A domain list matches iff one of its patterns matches the record's domain. |
| Filters.AnyKeywordHit | chronika.py:687-693 | A keyword list matches iff one keyword occurs in the lower-cased title or the lower-cased url. |
| Filters.Narrow | chronika.py:631-634 | One stage's list comprehension: no longer than its input, only input records, each kept by the stage. |
| Filters.Select | chronika.py:617-746 | Stages applied one after another: no longer than the input and only input records; specified further by `Filters.SelectFacts`. |
| Filters.SelectFacts | chronika.py:617-746 | Chaining stages yields a subsequence of the input. A record survives iff it is in the input and every stage keeps it. |
| Filters.SelectOrderIrrelevant | chronika.py:617-746 | The stages are independent: running the same set of stages in any order gives the same list. |
| Filters.AdmitsListStages | chronika.py:626-703 | The whitelist, blacklist and keyword stages keep a record iff it matches the whitelist, misses the blacklist and hits a keyword. Each condition applies only when its list is non-empty. |
| Filters.AdmitsVisitStages | chronika.py:709-721 | The visit stages keep `visit_count >= min` only when min > 1, and `visit_count <= max` only when max is truthy. |
| Filters.AdmitsTimeStages | chronika.py:723-744 | The time stages keep `from <= timestamp <= to` (inclusive). An unparsable bound imposes nothing. |
| Filters.AdmitsActiveStages | chronika.py:617-746 | The configured stages keep a record iff it passes every configured rule. |
| Filters.KeywordStage | chronika.py:663-703 | The keyword loop's `matches_found` is the keyword stage applied to its input. |
| Filters.ApplyListFilters | chronika.py:625-707 | The domain and keyword part of the pipeline equals the list stages chained. |
| Filters.ApplyVisitFilters | chronika.py:709-721 | The visit-count part of the pipeline equals the visit stages chained. |
| Filters.ApplyTimeFilters | chronika.py:723-745 | The time part of the pipeline equals the time stages chained, with aware bounds compared on the UTC scale (see Findings). |
| Filters.ApplyFilters | chronika.py:617-746 | `apply_filters` returns a subsequence of its input: records are never altered or reordered. A record is kept iff it passes every configured rule. |
| Filters.NoFiltersIsIdentity | chronika.py:617-746 | With no list, no visit bound and no parseable time bound, the input comes back unchanged. |
| Filters.AsWrittenFiltered | chronika.py:723-745 | The pipeline as written (aware bounds skipped) returns a subsequence of its input. A record is kept iff it is in the input and passes the lists, the visit bounds and the naive time bounds. |
| Filters.AsWrittenAgreesWithoutAwareBounds | chronika.py:723-745 | With no offset-carrying time bound, the pipeline as written equals the corrected one. |
| Filters.AwareBoundSkippedAsWritten | chronika.py:726-734 | With `time_from` carrying an offset, the code as written keeps a record older than the bound, and the corrected pipeline drops it. |
| Patterns.ParseGrouping | chronika.py:756-765 | "day", "weekday" and "month" select their grouping. Any other string groups by hour. |
| Patterns.BucketKey | chronika.py:756-765 | The key of an instant under each grouping; an hour key lies in 0..23 and a weekday key in 0..6. |
| Patterns.DayKeyMonotonic | chronika.py:759 | Later instants never get an earlier day key. |
| Patterns.Tally | chronika.py:751-767 | The counting loop lists keys in first-seen order, with each key's count equal to its occurrences. |
| Patterns.BucketsCoverAll | chronika.py:767-776 | When every occurring key is listed once, the buckets count each record exactly once, and the counts add up to the number of records. |
| Patterns.WeekdayKeysListed | chronika.py:772-774 | The seven weekday keys are distinct and cover every record's weekday. |
| Patterns.AscendingKeys | chronika.py:770-776 | Sorting the distinct keys gives strictly ascending keys. |
| Patterns.AscendingKeysOccur | chronika.py:770-776 | The sorted keys are exactly the keys that occur. |
| Patterns.AnalyzeBrowsingPatterns | chronika.py:749-778 | Each bucket holds its key's count and the counts add up to the number of records. The weekday output has exactly Monday..Sunday in order, zero-filled. Every other grouping lists exactly the occurring keys in ascending order. |
| Stats.CountItems | chronika.py:1014-1021 | The domain counter lists the non-empty domains in first-seen order, each with its number of records. |
| Stats.VisitItems | chronika.py:1015-1021 | The visit sums list the same domains, each with the summed visit counts of its records. |
| Stats.DomainKeysMembership | chronika.py:1017-1021 | A domain is tallied iff it is non-empty and is the domain of some record. |
| Stats.TallyDomains | chronika.py:1014-1021 | The tally loop's counter and sums agree with `Count` and `WeightOf` over the non-empty domains, and its order is first-seen. |
| Stats.ItemsOf | chronika.py:1014-1025 | `.items()` of the tally loop's counter and visit sums is exactly the ranked list `CountItems` / `VisitItems` of the domain column. |
| Stats.TopByCountFacts | chronika.py:1024 | The top domains by count are none for n <= 0 and otherwise exactly min(n, number of distinct domains). They are sorted by count, descending. Each is a non-empty domain with its true count, and no omitted domain has more records than a listed one. Ties keep first-seen order. |
| Stats.TopByVisitsFacts | chronika.py:1025 | The same holds for summed visits, with the prefix taken by the slice `[:n]`: min(n, distinct domains) long for n >= 0, and distinct domains + n (at least 0) for negative n. |
| Stats.TopByCount | chronika.py:1024 | `domain_counter.most_common(n)`; specified by `Stats.TopByCountFacts`. |
| Stats.TopByVisits | chronika.py:1025 | `sorted(domain_visits.items(), ...)[:n]`; specified by `Stats.TopByVisitsFacts`. |
| Stats.Least | chronika.py:1005 | `min` is an element and is no larger than any element. |
| Stats.Greatest | chronika.py:1006 | `max` is an element and is no smaller than any element. |
| Stats.RangeOf | chronika.py:1002-1008 | The earliest and latest timestamps belong to the history and bound every record. The span is the whole, non-negative number of days between them. |
| Stats.GenerateStats | chronika.py:989-1049 | An empty history gives nothing. Otherwise the result holds: the entry and visit totals; the distinct domain and url counts; the time range; `Counter` of browsers and of visit counts; both top-domain rankings; and the browsing patterns, each bucket with its count and the counts adding up to the number of records. The weekday patterns list Monday..Sunday in order; every other grouping lists exactly the occurring keys, ascending. |
| Stats.SummaryBounds | chronika.py:996-1000 | On a non-empty history, the distinct domain and url counts lie between 1 and the number of entries. |
| Stats.BrowserUsage | chronika.py:933-942 | The aggregation has an entry exactly for the browsers present. Each entry holds that browser's record count, its summed visits and its set of non-empty domains. |
| Stats.DomainsSeenByMembership | chronika.py:937-942 | A domain is in a browser's set iff it is non-empty and is the domain of one of that browser's records. |
| Stats.UsageOfStep | chronika.py:935-942 | One more record changes only its own browser's figures: count + 1, visits + its visit count, and its domain if non-empty. |
| Stats.BrowserUsageAddsUp | chronika.py:948-958 | Over the browsers, the per-browser counts add up to the number of entries and the visits to the total visits. The percentages therefore refer to the whole. |

## Left out

- **Browser path discovery.** The `get_*_history_path` functions are OS-dependent file probing. The model takes the
  set of browsers whose database was found as part of its input (`RunSettings.databases`).
- **Database and file I/O.** This covers the temporary copy through `cp`, `sqlite3` connection and cursor handling,
  and `os.remove`. A database holds the rows of each table a query reads (each join as one row set), or `None` when
  that query raises. The model evaluates `WHERE`, `ORDER BY` and `LIMIT` over those rows itself. SQLite's order
  among rows with equal times is unspecified; the model fixes it as the stored order.
- **NULL `url` or `visit_count` in Chromium and Firefox rows.** `Row.url` is a string and `Row.visitCount` an
  integer, so rows where either column is NULL are not modelled. The source copies both columns into the record
  unchanged (chronika.py:363, 365, 456, 458), so such a record holds `None`. A `None` visit count then raises
  `TypeError` in the visit-count filters (chronika.py:713, 718), in the display (895) and in the `sum` of the
  statistics (949, 998). A `None` url raises `AttributeError` or `TypeError` in the keyword filter (676, 690).
  Safari is not affected: it skips rows without a url (573) and turns a NULL visit count into 1 (584).
- **Safari's debug-only schema dump.** In debug mode Safari runs `PRAGMA table_info({table})` for every table whose
  name contains "history", with the name unquoted (chronika.py:505-510). The statement is inside the outer `try`, so
  a table name that is not a plain SQL identifier makes debug mode return no records where normal mode returns rows.
  The model's `debug` flag only adds the unfiltered candidate query.
- **Clock and time zones.** Each adapter calls `datetime.now()` itself (chronika.py:295, 390 and 481), so in the
  source the three cutoffs can differ by the time the earlier adapters took. The model reads the clock once: the
  `now` parameter. `fromtimestamp`'s local time zone is a fixed `localOffset`, so daylight-saving changes within a
  history are not modelled.
- **Firefox's `cutoff_time.timestamp()`.** It converts the naive cutoff through the platform's local-time functions,
  which can raise for instants near the ends of `datetime`'s range even when the subtraction did not. The model
  treats only the subtraction and the `timedelta` as able to raise.
- **Floating point.**
  - The cutoffs are computed through float seconds; the model uses exact integers.
  - Firefox converts `visit_date` with `fromtimestamp(visit_date / 1000000)`, a float division; the model keeps the
    exact microsecond count.
  - Safari times are modelled as whole seconds, so fractional seconds are not modelled.
  - Not modelled: the average `round(total_visits / total_entries, 2)` and the percentages and averages printed by
    `display_browser_usage`.
- **Regular expressions.** Regex mode is the abstract `search` parameter. A malformed pattern raises uncaught in the
  source; that error path is not modelled.
- **`extract_domain`.** It is the abstract `domain` parameter, so `urlparse` and the except branch that returns ""
  are not modelled.
- **`str.lower`.** The model lower-cases ASCII letters only, so Unicode case mapping is not modelled.
- **Key and date formatting.**
  - Not modelled: the `strftime` keys and `date_str` strings, and `isoformat` in `time_range`. Pattern keys are
    integers (hour, day number, weekday 0 = Monday, `year*12 + month - 1`) that sort as the strings do for years
    1000..9999.
  - The `%A` weekday names are those of an English locale.
  - `fromisoformat` parsing is not modelled: a bound is already parsed into `TimeBound`.
- **Output.** Printing, debug messages, `display_*` layout (including the sort by name in `display_browser_usage`),
  the exports, `load_config`/`create_default_config`, `anonymize_url` (randomised `hash`) and `main` are not modelled.
- **Configuration shape.** `Stats.GenerateStats` takes the already-read `top_domains_limit` and `group_patterns_by`.
  A non-integer or `None` limit is not modelled.

## Findings

| source | as written | input that shows it | evidently intended | confidence | as-written member | corrected member |
|---|---|---|---|---|---|---|
| chronika.py:726-744 | `time_from`/`time_to` are parsed after turning a trailing `Z` into `+00:00`, so such a bound becomes a timezone-aware `datetime`. Comparing it with the naive record timestamps raises `TypeError`, and the bare `except` skips the stage with an "Invalid format" warning. | `time_from = "2024-01-01T00:00:00Z"` with a non-empty history: every record, however old, passes (`Filters.AwareBoundSkippedAsWritten`: a record at instant 0 survives a bound at 1000). | The `Z` rewrite shows that UTC bounds were meant to work: an aware bound should limit records like a naive one, compared on the UTC scale. | not executed; the TypeError on naive/aware comparison is standard Python behaviour | Filters.AwareBoundSkippedAsWritten | Filters.ApplyFilters |
