/**
 * The source adapters: the history query each browser family runs and the
 * loop that turns its rows into visit records.
 */
module Adapters {
  import opened Wrappers
  import opened Seqs
  import opened Sorting
  import opened Timestamps
  import opened Records

  // ---------------------------------------------------------------------
  // The query `SELECT url, title, visit_count, time ... [WHERE time > after]
  // ORDER BY time DESC LIMIT limit`, evaluated over a table's rows. SQLite
  // orders NULLs last under DESC and leaves ties unspecified; the model
  // keeps tied rows in table order.
  // ---------------------------------------------------------------------

  predicate NewerThan(after: Option<int>, row: Row)
  {
    row.time.Some? && (after.None? || row.time.value > after.value)
  }

  predicate NullTime(row: Row) { row.time.None? }

  function RowTime(row: Row): int { row.time.GetOr(0) }

  /** The rows the WHERE clause keeps. */
  function Matching(rows: seq<Row>, after: Option<int>): seq<Row>
  {
    Filter(rows, (row: Row) => NewerThan(after, row))
  }

  /** Without a WHERE clause, rows with a NULL time also qualify; they sort last. */
  function NullRows(rows: seq<Row>, after: Option<int>): seq<Row>
  {
    if after.None? then Filter(rows, NullTime) else []
  }

  /** `ORDER BY time DESC` as SQLite does it: newest first, NULL times last. */
  predicate NewestFirst(s: seq<Row>)
  {
    forall i, j :: 0 <= i < j < |s| && s[j].time.Some? ==>
      s[i].time.Some? && s[i].time.value >= s[j].time.value
  }

  function QueryRows(rows: seq<Row>, after: Option<int>, limit: int): (r: seq<Row>)
    ensures forall i :: 0 <= i < |r| ==> r[i] in rows
    ensures limit >= 0 ==> |r| <= limit
    ensures after.Some? ==> forall i :: 0 <= i < |r| ==> NewerThan(after, r[i])
    ensures NewestFirst(r)
  {
    var ordered := SortDesc(Matching(rows, after), RowTime) + NullRows(rows, after);
    OrderedRowsFacts(rows, after);
    var r := SqlLimit(ordered, limit);
    assert forall i :: 0 <= i < |r| ==> r[i] == ordered[i];
    r
  }

  lemma OrderedRowsFacts(rows: seq<Row>, after: Option<int>)
    ensures forall i :: 0 <= i < |SortDesc(Matching(rows, after), RowTime) + NullRows(rows, after)| ==>
              (SortDesc(Matching(rows, after), RowTime) + NullRows(rows, after))[i] in rows
    ensures after.Some? ==>
              forall i :: 0 <= i < |SortDesc(Matching(rows, after), RowTime) + NullRows(rows, after)| ==>
                NewerThan(after, (SortDesc(Matching(rows, after), RowTime) + NullRows(rows, after))[i])
    ensures NewestFirst(SortDesc(Matching(rows, after), RowTime) + NullRows(rows, after))
  {
    var sorted := SortDesc(Matching(rows, after), RowTime);
    var nulls := NullRows(rows, after);
    var ordered := sorted + nulls;
    forall y | y in sorted ensures y in rows && NewerThan(after, y) {
      assert y in multiset(Matching(rows, after));
      FilterMembership(rows, (row: Row) => NewerThan(after, row), y);
    }
    forall y | y in nulls ensures y in rows && y.time.None? {
      FilterMembership(rows, NullTime, y);
    }
    forall i | 0 <= i < |ordered|
      ensures ordered[i] in rows
      ensures i < |sorted| ==> ordered[i] == sorted[i] && NewerThan(after, ordered[i])
      ensures i >= |sorted| ==> ordered[i].time.None? && after.None?
    {
      if i < |sorted| {
        assert sorted[i] in sorted;
      } else {
        assert ordered[i] == nulls[i - |sorted|] && nulls[i - |sorted|] in nulls;
      }
    }
    forall i, j | 0 <= i < j < |ordered| && ordered[j].time.Some?
      ensures ordered[i].time.Some? && ordered[i].time.value >= ordered[j].time.value
    {
      assert RowTime(sorted[i]) >= RowTime(sorted[j]);
    }
  }

  // ---------------------------------------------------------------------
  // Chromium- and Mozilla-family row loop.
  // ---------------------------------------------------------------------

  /** `title or "No Title"`: a NULL or empty title becomes the placeholder. */
  function TitleOrDefault(title: Option<string>): (r: string)
    ensures r != ""
    ensures r == NoTitle <==> title.None? || title.value == "" || title.value == NoTitle
  {
    if title.Some? && title.value != "" then title.value else NoTitle
  }

  /** The time column is truthy: neither NULL nor 0. */
  predicate HasVisitTime(row: Row) { row.time.Some? && row.time.value != 0 }

  /** Who stamps the records: browser name, epoch family, local UTC offset. */
  datatype Stamp = Stamp(browser: Browser, family: Family, localOffset: int)

  function ConvertRow(row: Row, s: Stamp): Record
    requires HasVisitTime(row)
  {
    Record(s.browser, row.url, TitleOrDefault(row.title), row.visitCount,
           Instant(s.family, row.time.value, s.localOffset))
  }

  /**
   * What the loop does with one row: skip it, append its record, or raise
   * `OverflowError` because its instant is outside `datetime`'s range. The
   * error leaves the loop; the adapter's handler returns what was appended.
   */
  datatype Step = Skip | Emit(record: Record) | Overflow

  function RowStep(row: Row, s: Stamp): Step
  {
    if !HasVisitTime(row) then Skip
    else if Representable(Instant(s.family, row.time.value, s.localOffset)) then Emit(ConvertRow(row, s))
    else Overflow
  }

  /** The records the loop returns for `rows`. */
  function Canonical(rows: seq<Row>, s: Stamp): seq<Record>
  {
    if rows == [] then []
    else match RowStep(rows[0], s)
      case Skip => Canonical(rows[1..], s)
      case Emit(e) => [e] + Canonical(rows[1..], s)
      case Overflow => []
  }

  /** Index of the first row that overflows, or `|rows|`. */
  function FirstOverflow(rows: seq<Row>, s: Stamp): (k: nat)
    ensures k <= |rows|
    ensures forall j :: 0 <= j < k ==> !RowStep(rows[j], s).Overflow?
    ensures k < |rows| ==> RowStep(rows[k], s).Overflow?
  {
    if rows == [] || RowStep(rows[0], s).Overflow? then 0 else 1 + FirstOverflow(rows[1..], s)
  }

  function ConvertAll(kept: seq<Row>, s: Stamp): (r: seq<Record>)
    requires forall i :: 0 <= i < |kept| ==> HasVisitTime(kept[i])
    ensures |r| == |kept|
    ensures forall i :: 0 <= i < |kept| ==> r[i] == ConvertRow(kept[i], s)
  {
    if kept == [] then [] else [ConvertRow(kept[0], s)] + ConvertAll(kept[1..], s)
  }

  /**
   * The row loop's result: the rows before the first overflowing one that
   * have a truthy time, each converted (url and visit count copied, title
   * defaulted, time converted with the family's epoch), in row order.
   */
  lemma {:induction false} CanonicalKeepsRowsBeforeOverflow(rows: seq<Row>, s: Stamp)
    ensures Canonical(rows, s) == ConvertAll(Filter(rows[..FirstOverflow(rows, s)], HasVisitTime), s)
  {
    var k := FirstOverflow(rows, s);
    if rows != [] && !RowStep(rows[0], s).Overflow? {
      CanonicalKeepsRowsBeforeOverflow(rows[1..], s);
      assert rows[..k][1..] == rows[1..][..k - 1];
      var rest := Filter(rows[1..][..k - 1], HasVisitTime);
      if HasVisitTime(rows[0]) {
        assert Filter(rows[..k], HasVisitTime) == [rows[0]] + rest;
        assert ([rows[0]] + rest)[1..] == rest;
      } else {
        assert Filter(rows[..k], HasVisitTime) == rest;
      }
    }
  }

  /** Every record comes from a row with a truthy, representable time. */
  lemma {:induction false} CanonicalOrigin(rows: seq<Row>, s: Stamp, e: Record)
    requires e in Canonical(rows, s)
    ensures exists row :: row in rows && HasVisitTime(row) && e == ConvertRow(row, s)
    ensures Representable(e.timestamp) && e.browser == s.browser
  {
    if RowStep(rows[0], s).Emit? && e == RowStep(rows[0], s).record {
    } else {
      CanonicalOrigin(rows[1..], s, e);
      var row :| row in rows[1..] && HasVisitTime(row) && e == ConvertRow(row, s);
      assert row in rows;
    }
  }

  /** The extractors' `for row in rows` loop. */
  method CanonicalizeRows(rows: seq<Row>, s: Stamp) returns (entries: seq<Record>)
    ensures entries == Canonical(rows, s)
  {
    entries := [];
    var i := 0;
    while i < |rows|
      invariant 0 <= i <= |rows|
      invariant entries + Canonical(rows[i..], s) == Canonical(rows, s)
    {
      assert rows[i..][1..] == rows[i + 1..];
      var row := rows[i];
      if row.time.Some? && row.time.value != 0 {
        var ts := Instant(s.family, row.time.value, s.localOffset);
        if !(MinInstant <= ts <= MaxInstant) {
          break;
        }
        entries := entries + [Record(s.browser, row.url, TitleOrDefault(row.title), row.visitCount, ts)];
      }
      i := i + 1;
    }
  }

  /** Chromium family: `urls`, microseconds since 1601. */
  function ChromiumQuery(db: HistoryDb, cutoff: int, noTimeFilter: bool, limit: int): Option<seq<Row>>
  {
    if db.urls.None? then None
    else Some(QueryRows(db.urls.value,
                        if noTimeFilter then None else Some(NativeCutoff(ChromiumFamily, cutoff, 0)), limit))
  }

  /** Mozilla family: `moz_places` joined with `moz_historyvisits`, microseconds since 1970. */
  function FirefoxQuery(db: HistoryDb, cutoff: int, noTimeFilter: bool, limit: int, localOffset: int): Option<seq<Row>>
  {
    if db.places.None? then None
    else Some(QueryRows(db.places.value,
                        if noTimeFilter then None else Some(NativeCutoff(MozillaFamily, cutoff, localOffset)), limit))
  }

  /** A query that raises yields no records; otherwise the row loop's records. */
  function RecordsFrom(result: Option<seq<Row>>, s: Stamp): seq<Record>
  {
    if result.None? then [] else Canonical(result.value, s)
  }

  method ExtractChromiumHistory(db: HistoryDb, b: Browser, cutoff: int, noTimeFilter: bool, limit: int)
    returns (entries: seq<Record>)
    ensures entries == RecordsFrom(ChromiumQuery(db, cutoff, noTimeFilter, limit), Stamp(b, ChromiumFamily, 0))
  {
    var result := ChromiumQuery(db, cutoff, noTimeFilter, limit);
    if result.None? {
      return [];
    }
    entries := CanonicalizeRows(result.value, Stamp(b, ChromiumFamily, 0));
  }

  method ExtractFirefoxHistory(db: HistoryDb, b: Browser, cutoff: int, noTimeFilter: bool, limit: int, localOffset: int)
    returns (entries: seq<Record>)
    ensures entries == RecordsFrom(FirefoxQuery(db, cutoff, noTimeFilter, limit, localOffset), Stamp(b, MozillaFamily, localOffset))
  {
    var result := FirefoxQuery(db, cutoff, noTimeFilter, limit, localOffset);
    if result.None? {
      return [];
    }
    entries := CanonicalizeRows(result.value, Stamp(b, MozillaFamily, localOffset));
  }

  /**
   * With the time filter on, every Chromium- or Mozilla-family record is
   * newer than the cutoff; records always carry the extractor's browser.
   */
  lemma ChromiumLikeAfterCutoff(result: Option<seq<Row>>, s: Stamp, cutoff: int, noTimeFilter: bool, e: Record)
    requires result.Some? && !noTimeFilter ==>
               forall i :: 0 <= i < |result.value| ==>
                 NewerThan(Some(NativeCutoff(s.family, cutoff, s.localOffset)), result.value[i])
    requires e in RecordsFrom(result, s)
    ensures e.browser == s.browser && Representable(e.timestamp)
    ensures !noTimeFilter ==> e.timestamp > cutoff
  {
    CanonicalOrigin(result.value, s, e);
    var row :| row in result.value && HasVisitTime(row) && e == ConvertRow(row, s);
    NativeCutoffAgrees(s.family, row.time.value, cutoff, s.localOffset);
  }

  // ---------------------------------------------------------------------
  // Safari: schema probing over candidate queries.
  // ---------------------------------------------------------------------

  /** The candidate queries, in the order they are tried. */
  datatype SafariQuery = JoinedVisits | DirectItems | AllItems

  function Rank(q: SafariQuery): int
  {
    match q
    case JoinedVisits => 0
    case DirectItems => 1
    case AllItems => 2
  }

  /** The candidates for the tables present: the join needs both tables, the unfiltered query debug mode. */
  function SafariCandidates(tables: set<string>, debug: bool): (r: seq<SafariQuery>)
    ensures JoinedVisits in r <==> "history_visits" in tables && "history_items" in tables
    ensures DirectItems in r <==> "history_items" in tables
    ensures AllItems in r <==> debug && "history_items" in tables
    ensures forall i, j :: 0 <= i < j < |r| ==> Rank(r[i]) < Rank(r[j])
  {
    (if "history_visits" in tables && "history_items" in tables then [JoinedVisits] else []) +
    (if "history_items" in tables then [DirectItems] + (if debug then [AllItems] else []) else [])
  }

  /** Runs one candidate; `None` when the statement raises. */
  function RunQuery(q: SafariQuery, db: HistoryDb, cutoff: int, limit: int): Option<seq<Row>>
  {
    var after := Some(NativeCutoff(SafariFamily, cutoff, 0));
    match q
    case JoinedVisits =>
      if db.safariVisits.None? then None else Some(QueryRows(db.safariVisits.value, after, limit))
    case DirectItems =>
      if db.safariItems.None? then None else Some(QueryRows(db.safariItems.value, after, limit))
    case AllItems =>
      if db.safariItems.None? then None else Some(QueryRows(db.safariItems.value, None, limit))
  }

  /** The candidate ran and returned at least one row. */
  predicate Productive(result: Option<seq<Row>>)
  {
    result.Some? && |result.value| > 0
  }

  /** The first candidate that returns rows, with its rows; later candidates are never run. */
  function FirstProductive(cands: seq<SafariQuery>, db: HistoryDb, cutoff: int, limit: int)
    : (r: Option<(SafariQuery, seq<Row>)>)
    ensures r.None? <==> forall i :: 0 <= i < |cands| ==> !Productive(RunQuery(cands[i], db, cutoff, limit))
    ensures r.Some? ==>
              exists i :: 0 <= i < |cands| && cands[i] == r.value.0 &&
                RunQuery(cands[i], db, cutoff, limit) == Some(r.value.1) && |r.value.1| > 0 &&
                forall j :: 0 <= j < i ==> !Productive(RunQuery(cands[j], db, cutoff, limit))
  {
    if cands == [] then None
    else
      var result := RunQuery(cands[0], db, cutoff, limit);
      if Productive(result) then Some((cands[0], result.value))
      else
        var rest := FirstProductive(cands[1..], db, cutoff, limit);
        assert forall i :: 0 < i < |cands| ==> cands[i] == cands[1..][i - 1];
        rest
  }

  /**
   * What the Safari loop makes of one row: url and time must be truthy, an
   * overflowing time drops only this row, the unfiltered candidate also
   * drops rows older than the cutoff, and a zero visit count becomes 1.
   */
  function SafariRecord(row: Row, q: SafariQuery, cutoff: int): Option<Record>
  {
    if !(HasVisitTime(row) && row.url != "") then None
    else
      var ts := Instant(SafariFamily, row.time.value, 0);
      if !Representable(ts) then None
      else if q == AllItems && ts < cutoff then None
      else Some(Record(Safari, row.url, TitleOrDefault(row.title),
                       if row.visitCount == 0 then 1 else row.visitCount, ts))
  }

  /** The Safari loop over the chosen candidate's rows. */
  function SafariRecords(rows: seq<Row>, q: SafariQuery, cutoff: int): seq<Record>
  {
    if rows == [] then []
    else
      var rest := SafariRecords(rows[1..], q, cutoff);
      match SafariRecord(rows[0], q, cutoff)
      case None => rest
      case Some(e) => [e] + rest
  }

  /** What the Safari extractor returns for a database. */
  function ExtractedSafari(db: HistoryDb, cutoff: int, limit: int, debug: bool): seq<Record>
  {
    match FirstProductive(SafariCandidates(db.tables, debug), db, cutoff, limit)
    case None => []
    case Some((q, rows)) => SafariRecords(rows, q, cutoff)
  }

  /** Appending row `i`'s record, if any, keeps the loop's output a prefix of the whole conversion. */
  lemma SafariRecordsStep(rows: seq<Row>, i: nat, q: SafariQuery, cutoff: int, entries: seq<Record>)
    requires i < |rows| && entries + SafariRecords(rows[i..], q, cutoff) == SafariRecords(rows, q, cutoff)
    ensures var kept := SafariRecord(rows[i], q, cutoff);
            (if kept.Some? then entries + [kept.value] else entries) + SafariRecords(rows[i + 1..], q, cutoff)
              == SafariRecords(rows, q, cutoff)
  {
    var kept := SafariRecord(rows[i], q, cutoff);
    var rest := SafariRecords(rows[i + 1..], q, cutoff);
    assert rows[i..][0] == rows[i] && rows[i..][1..] == rows[i + 1..];
    if kept.Some? {
      assert SafariRecords(rows[i..], q, cutoff) == [kept.value] + rest;
      assert entries + [kept.value] + rest == entries + ([kept.value] + rest);
    } else {
      assert SafariRecords(rows[i..], q, cutoff) == rest;
    }
  }

  /** The body of the Safari loop for one row, with its `try`/`except` around the conversion. */
  method ConvertSafariRow(row: Row, q: SafariQuery, cutoff: int) returns (kept: Option<Record>)
    ensures kept == SafariRecord(row, q, cutoff)
  {
    kept := None;
    if row.time.Some? && row.time.value != 0 && row.url != "" {
      var ts := Instant(SafariFamily, row.time.value, 0);
      if Representable(ts) && (q != AllItems || ts >= cutoff) {
        var count := if row.visitCount == 0 then 1 else row.visitCount;
        kept := Some(Record(Safari, row.url, TitleOrDefault(row.title), count, ts));
      }
    }
  }

  method ConvertSafariRows(rows: seq<Row>, q: SafariQuery, cutoff: int) returns (entries: seq<Record>)
    ensures entries == SafariRecords(rows, q, cutoff)
  {
    entries := [];
    var i := 0;
    while i < |rows|
      invariant 0 <= i <= |rows|
      invariant entries + SafariRecords(rows[i..], q, cutoff) == SafariRecords(rows, q, cutoff)
    {
      SafariRecordsStep(rows, i, q, cutoff, entries);
      var kept := ConvertSafariRow(rows[i], q, cutoff);
      if kept.Some? {
        entries := entries + [kept.value];
      }
      i := i + 1;
    }
  }

  /** The search over the remaining candidates either stops at the next one or moves past it. */
  lemma FirstProductiveStep(cands: seq<SafariQuery>, i: int, db: HistoryDb, cutoff: int, limit: int)
    requires 0 <= i < |cands|
    ensures FirstProductive(cands[i..], db, cutoff, limit) ==
              if Productive(RunQuery(cands[i], db, cutoff, limit))
              then Some((cands[i], RunQuery(cands[i], db, cutoff, limit).value))
              else FirstProductive(cands[i + 1..], db, cutoff, limit)
  {
    assert cands[i..][0] == cands[i] && cands[i..][1..] == cands[i + 1..];
  }

  /** The first `i` candidates have run without returning rows. */
  ghost predicate Searching(db: HistoryDb, cutoff: int, limit: int, debug: bool, i: int)
  {
    var cands := SafariCandidates(db.tables, debug);
    0 <= i <= |cands| && FirstProductive(cands[i..], db, cutoff, limit) == FirstProductive(cands, db, cutoff, limit)
  }

  /** Running candidate `i` either settles the extraction or moves the search past it. */
  lemma SearchStep(db: HistoryDb, cutoff: int, limit: int, debug: bool, i: int)
    requires Searching(db, cutoff, limit, debug, i) && i < |SafariCandidates(db.tables, debug)|
    ensures var q := SafariCandidates(db.tables, debug)[i];
            var result := RunQuery(q, db, cutoff, limit);
            && (Productive(result) ==> ExtractedSafari(db, cutoff, limit, debug) == SafariRecords(result.value, q, cutoff))
            && (!Productive(result) ==> Searching(db, cutoff, limit, debug, i + 1))
  {
    FirstProductiveStep(SafariCandidates(db.tables, debug), i, db, cutoff, limit);
  }

  /** No candidate returned rows: Safari contributes nothing. */
  lemma SearchExhausted(db: HistoryDb, cutoff: int, limit: int, debug: bool)
    requires Searching(db, cutoff, limit, debug, |SafariCandidates(db.tables, debug)|)
    ensures ExtractedSafari(db, cutoff, limit, debug) == []
  {
    var cands := SafariCandidates(db.tables, debug);
    assert cands[|cands|..] == [];
  }

  /** The candidate loop: the first candidate that returns rows is converted and the loop stops. */
  method ExtractSafariHistory(db: HistoryDb, cutoff: int, limit: int, debug: bool) returns (entries: seq<Record>)
    ensures entries == ExtractedSafari(db, cutoff, limit, debug)
  {
    var candidates := SafariCandidates(db.tables, debug);
    var i := 0;
    while i < |candidates|
      invariant 0 <= i <= |candidates| && Searching(db, cutoff, limit, debug, i)
    {
      SearchStep(db, cutoff, limit, debug, i);
      var q := candidates[i];
      var result := RunQuery(q, db, cutoff, limit);
      if Productive(result) {
        entries := ConvertSafariRows(result.value, q, cutoff);
        return;
      }
      i := i + 1;
    }
    SearchExhausted(db, cutoff, limit, debug);
    entries := [];
  }

  /**
   * `e` is the record the Safari loop builds from `row`: a truthy time and
   * url, the instant `safari_epoch + visit_time` seconds, `title or "No
   * Title"` and `visit_count or 1`.
   */
  predicate SafariOrigin(row: Row, e: Record)
  {
    && HasVisitTime(row) && row.url != ""
    && e == Record(Safari, row.url, TitleOrDefault(row.title),
                   if row.visitCount == 0 then 1 else row.visitCount,
                   Epoch2001 + row.time.value * MicrosPerSecond)
  }

  /** The rows the Safari loop turns into a record. */
  function SafariKeeps(q: SafariQuery, cutoff: int): Row -> bool
  {
    row => SafariRecord(row, q, cutoff).Some?
  }

  /** The records of rows that each convert. */
  function SafariConvertAll(kept: seq<Row>, q: SafariQuery, cutoff: int): (r: seq<Record>)
    requires forall i :: 0 <= i < |kept| ==> SafariKeeps(q, cutoff)(kept[i])
    ensures |r| == |kept|
    ensures forall i :: 0 <= i < |kept| ==> Some(r[i]) == SafariRecord(kept[i], q, cutoff)
  {
    if kept == [] then []
    else
      assert SafariKeeps(q, cutoff)(kept[0]);
      [SafariRecord(kept[0], q, cutoff).value] + SafariConvertAll(kept[1..], q, cutoff)
  }

  /**
   * The Safari loop drops exactly the rows `SafariRecord` rejects: every
   * other row yields its record, in row order.
   */
  lemma {:induction false} SafariRecordsKeepsRows(rows: seq<Row>, q: SafariQuery, cutoff: int)
    ensures SafariRecords(rows, q, cutoff) == SafariConvertAll(Filter(rows, SafariKeeps(q, cutoff)), q, cutoff)
  {
    if rows != [] {
      SafariRecordsKeepsRows(rows[1..], q, cutoff);
      var rest := Filter(rows[1..], SafariKeeps(q, cutoff));
      if SafariKeeps(q, cutoff)(rows[0]) {
        assert Filter(rows, SafariKeeps(q, cutoff)) == [rows[0]] + rest;
        assert ([rows[0]] + rest)[1..] == rest;
      } else {
        assert Filter(rows, SafariKeeps(q, cutoff)) == rest;
      }
    }
  }

  /** Every Safari record comes from a row, has a url, a non-zero visit count and a time no older than the cutoff. */
  lemma {:induction false} SafariRecordsFacts(rows: seq<Row>, q: SafariQuery, cutoff: int, e: Record)
    requires q != AllItems ==>
               forall i :: 0 <= i < |rows| ==> NewerThan(Some(NativeCutoff(SafariFamily, cutoff, 0)), rows[i])
    requires e in SafariRecords(rows, q, cutoff)
    ensures exists row :: row in rows && SafariOrigin(row, e)
    ensures e.browser == Safari && e.url != "" && e.visitCount != 0
    ensures Representable(e.timestamp) && e.timestamp >= cutoff
  {
    var first := SafariRecord(rows[0], q, cutoff);
    if first.Some? && e == first.value {
      NativeCutoffAgrees(SafariFamily, rows[0].time.value, cutoff, 0);
      assert SafariOrigin(rows[0], e);
    } else {
      assert forall i :: 0 <= i < |rows[1..]| ==> rows[1..][i] == rows[i + 1];
      SafariRecordsFacts(rows[1..], q, cutoff, e);
    }
  }

  lemma SafariAfterCutoff(db: HistoryDb, cutoff: int, limit: int, debug: bool, e: Record)
    requires e in ExtractedSafari(db, cutoff, limit, debug)
    ensures var chosen := FirstProductive(SafariCandidates(db.tables, debug), db, cutoff, limit);
            chosen.Some? && exists row :: row in chosen.value.1 && SafariOrigin(row, e)
    ensures e.browser == Safari && e.url != "" && e.visitCount != 0
    ensures Representable(e.timestamp) && e.timestamp >= cutoff
  {
    var cands := SafariCandidates(db.tables, debug);
    var (q, rows) := FirstProductive(cands, db, cutoff, limit).value;
    var i :| 0 <= i < |cands| && cands[i] == q && RunQuery(cands[i], db, cutoff, limit) == Some(rows);
    FilteredQueryRowsNewer(q, db, cutoff, limit);
    SafariRecordsFacts(rows, q, cutoff, e);
  }

  /** The two time-filtered candidates return only rows newer than Safari's native cutoff. */
  lemma FilteredQueryRowsNewer(q: SafariQuery, db: HistoryDb, cutoff: int, limit: int)
    requires RunQuery(q, db, cutoff, limit).Some?
    ensures var rows := RunQuery(q, db, cutoff, limit).value;
            q != AllItems ==> forall i :: 0 <= i < |rows| ==> NewerThan(Some(NativeCutoff(SafariFamily, cutoff, 0)), rows[i])
  {
  }
}
