/** The canonical visit record and the raw shapes it is built from. */
module Records {
  import opened Wrappers
  import opened Timestamps

  datatype Browser = Chrome | Firefox | Safari | Brave | Opera | Edge | Vivaldi | TorBrowser | Chromium | LibreWolf

  /** The order of the collector's browser table; results are concatenated in this order. */
  const DeclaredOrder: seq<Browser> :=
    [Chrome, Firefox, Safari, Brave, Opera, Edge, Vivaldi, TorBrowser, Chromium, LibreWolf]

  /** The key under `[browsers]` in the configuration that enables a browser. */
  function ConfigKey(b: Browser): string
  {
    match b
    case Chrome => "chrome"
    case Firefox => "firefox"
    case Safari => "safari"
    case Brave => "brave"
    case Opera => "opera"
    case Edge => "edge"
    case Vivaldi => "vivaldi"
    case TorBrowser => "tor"
    case Chromium => "chromium"
    case LibreWolf => "librewolf"
  }

  /** The name stored in a record's `browser` field. */
  function DisplayName(b: Browser): string
  {
    match b
    case Chrome => "Chrome"
    case Firefox => "Firefox"
    case Safari => "Safari"
    case Brave => "Brave"
    case Opera => "Opera"
    case Edge => "Edge"
    case Vivaldi => "Vivaldi"
    case TorBrowser => "Tor Browser"
    case Chromium => "Chromium"
    case LibreWolf => "LibreWolf"
  }

  /** Which extractor (and so which epoch) reads a browser's database. */
  function FamilyOf(b: Browser): Family
  {
    match b
    case Firefox | TorBrowser | LibreWolf => MozillaFamily
    case Safari => SafariFamily
    case _ => ChromiumFamily
  }

  /** The table lists every browser once, and display names tell browsers apart. */
  lemma DeclaredOrderIsComplete()
    ensures forall b: Browser :: b in DeclaredOrder
    ensures forall i, j :: 0 <= i < j < |DeclaredOrder| ==> DeclaredOrder[i] != DeclaredOrder[j]
    ensures forall a: Browser, b: Browser :: DisplayName(a) == DisplayName(b) ==> a == b
  {
    forall b: Browser ensures b in DeclaredOrder {
      match b
      case Chrome => assert DeclaredOrder[0] == b;
      case Firefox => assert DeclaredOrder[1] == b;
      case Safari => assert DeclaredOrder[2] == b;
      case Brave => assert DeclaredOrder[3] == b;
      case Opera => assert DeclaredOrder[4] == b;
      case Edge => assert DeclaredOrder[5] == b;
      case Vivaldi => assert DeclaredOrder[6] == b;
      case TorBrowser => assert DeclaredOrder[7] == b;
      case Chromium => assert DeclaredOrder[8] == b;
      case LibreWolf => assert DeclaredOrder[9] == b;
    }
  }

  const NoTitle: string := "No Title"

  /** A visit record; `timestamp` is an instant (see `Timestamps`). */
  datatype Record = Record(browser: Browser, url: string, title: string, visitCount: int, timestamp: int)

  function Timestamp(e: Record): int { e.timestamp }

  /**
   * One result row `(url, title, visit_count, time)`. A NULL `title` or
   * `time` is `None`; `url` and `visit_count` are taken to be non-NULL.
   */
  datatype Row = Row(url: string, title: Option<string>, visitCount: int, time: Option<int>)

  /**
   * The content of one browser's history database, as far as the queries see
   * it. A `None` table makes the query that reads it raise (missing table or
   * column, unreadable copy).
   *   urls          Chromium `urls`
   *   places        Mozilla `moz_places` joined with `moz_historyvisits`
   *   safariVisits  Safari `history_items` joined with `history_visits`
   *   safariItems   Safari `history_items`
   */
  datatype HistoryDb = HistoryDb(
    tables: set<string>,
    urls: Option<seq<Row>>,
    places: Option<seq<Row>>,
    safariVisits: Option<seq<Row>>,
    safariItems: Option<seq<Row>>)
}
