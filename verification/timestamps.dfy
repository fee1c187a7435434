/**
 * The three epoch families. An instant is an integer count of microseconds
 * since 1601-01-01T00:00:00, a naive (zone-less) `datetime`: the Windows/
 * Chromium epoch is therefore 0.
 */
module Timestamps {

  const MicrosPerSecond: int := 1000000
  const MicrosPerHour: int := 3600 * MicrosPerSecond
  const MicrosPerDay: int := 86400 * MicrosPerSecond

  /** 1970-01-01: 134774 days after 1601-01-01. */
  const Epoch1970: int := 11644473600 * MicrosPerSecond
  /** 2001-01-01: 146097 days (one Gregorian cycle) after 1601-01-01. */
  const Epoch2001: int := 12622780800 * MicrosPerSecond

  /** `datetime.min` (0001-01-01) and `datetime.max` (9999-12-31 23:59:59.999999). */
  const MinInstant: int := -584388 * MicrosPerDay
  const MaxInstant: int := 3067671 * MicrosPerDay - 1

  /** A `datetime` exists for this instant; outside the range Python raises `OverflowError`. */
  predicate Representable(t: int)
  {
    MinInstant <= t <= MaxInstant
  }

  datatype Family = ChromiumFamily | MozillaFamily | SafariFamily

  /**
   * The instant a raw column value denotes. Chromium: microseconds since
   * 1601; Mozilla: microseconds since 1970, shown in local time (`localOffset`
   * microseconds ahead of UTC); Safari: whole seconds since 2001.
   */
  function Instant(f: Family, raw: int, localOffset: int): int
  {
    match f
    case ChromiumFamily => raw
    case MozillaFamily => Epoch1970 + raw + localOffset
    case SafariFamily => Epoch2001 + raw * MicrosPerSecond
  }

  /**
   * The cutoff instant expressed in the family's column units, as put in the
   * `WHERE column > ?` clause. For Safari the cutoff is a fractional number
   * of seconds; since the column is a whole number of seconds, comparing with
   * its floor gives the same answer.
   */
  function NativeCutoff(f: Family, cutoff: int, localOffset: int): int
  {
    match f
    case ChromiumFamily => cutoff
    case MozillaFamily => cutoff - Epoch1970 - localOffset
    case SafariFamily => (cutoff - Epoch2001) / MicrosPerSecond
  }

  /** The query's native comparison selects exactly the rows newer than the cutoff. */
  lemma NativeCutoffAgrees(f: Family, raw: int, cutoff: int, localOffset: int)
    ensures raw > NativeCutoff(f, cutoff, localOffset) <==> Instant(f, raw, localOffset) > cutoff
  {
    if f == SafariFamily {
      var q := (cutoff - Epoch2001) / MicrosPerSecond;
      assert cutoff - Epoch2001 == q * MicrosPerSecond + (cutoff - Epoch2001) % MicrosPerSecond;
      if raw > q {
        assert raw * MicrosPerSecond >= q * MicrosPerSecond + MicrosPerSecond;
      } else {
        assert raw * MicrosPerSecond <= q * MicrosPerSecond;
      }
    }
  }

  /** Later raw values denote later instants, in every family. */
  lemma InstantMonotonic(f: Family, a: int, b: int, localOffset: int)
    requires a <= b
    ensures Instant(f, a, localOffset) <= Instant(f, b, localOffset)
  {
  }

  /** Whole days since 1601-01-01 (floor, as `datetime` does before 1601 too). */
  function DayNumber(t: int): int
  {
    t / MicrosPerDay
  }

  /** `%H`: the hour of the day. */
  function HourOfDay(t: int): (h: int)
    ensures 0 <= h < 24
  {
    (t % MicrosPerDay) / MicrosPerHour
  }

  /** `weekday()`: 0 is Monday; 1601-01-01 was a Monday. */
  function WeekdayIndex(t: int): (d: int)
    ensures 0 <= d < 7
  {
    DayNumber(t) % 7
  }

  const WeekdayNames: seq<string> :=
    ["Monday", "Tuesday", "Wednesday", "Thursday", "Friday", "Saturday", "Sunday"]

  /** The proleptic Gregorian (year, month, day) of a day number. */
  function CivilDate(days: int): (int, int, int)
  {
    var z := days + 584694;  // days since 0000-03-01
    var era := z / 146097;
    var doe := z - era * 146097;
    var yoe := (doe - doe / 1460 + doe / 36524 - doe / 146096) / 365;
    var doy := doe - (365 * yoe + yoe / 4 - yoe / 100);
    var mp := (5 * doy + 2) / 153;
    var d := doy - (153 * mp + 2) / 5 + 1;
    var m := if mp < 10 then mp + 3 else mp - 9;
    (yoe + era * 400 + (if m <= 2 then 1 else 0), m, d)
  }

  /** `%Y-%m` as a number that orders months chronologically. */
  function MonthIndex(t: int): int
  {
    var (y, m, _) := CivilDate(DayNumber(t));
    y * 12 + m - 1
  }

  /** An instant splits uniquely into its day number and the time within that day. */
  lemma SplitInstant(days: int, micros: int)
    requires 0 <= micros < MicrosPerDay
    ensures DayNumber(days * MicrosPerDay + micros) == days
    ensures (days * MicrosPerDay + micros) % MicrosPerDay == micros
  {
  }

  /** 2024-01-02T10:00:00 is a Tuesday, 154498 days and 10 hours after the Chromium epoch. */
  lemma ChromiumEpochExample()
    ensures var t := Instant(ChromiumFamily, 154498 * MicrosPerDay + 10 * MicrosPerHour, 0);
            CivilDate(DayNumber(t)) == (2024, 1, 2) && HourOfDay(t) == 10 &&
            WeekdayNames[WeekdayIndex(t)] == "Tuesday"
  {
    SplitInstant(154498, 10 * MicrosPerHour);
    assert CivilDate(154498) == (2024, 1, 2) by {
      assert 739192 / 146097 == 5 && 739192 - 5 * 146097 == 8707;
      assert 8707 / 1460 == 5 && 8707 / 36524 == 0 && 8707 / 146096 == 0 && 8702 / 365 == 23;
      assert 23 / 4 == 5 && 23 / 100 == 0 && (5 * 307 + 2) / 153 == 10 && (153 * 10 + 2) / 5 == 306;
    }
  }

  /** Safari's 726000000 is 726000000 seconds after 2001-01-01: 2024-01-03T18:40:00. */
  lemma SafariEpochExample()
    ensures var t := Instant(SafariFamily, 726000000, 0);
            t == Epoch2001 + 726000000 * MicrosPerSecond &&
            CivilDate(DayNumber(t)) == (2024, 1, 3) && HourOfDay(t) == 18
  {
    assert Epoch2001 + 726000000 * MicrosPerSecond == 154499 * MicrosPerDay + 67200000000;
    SplitInstant(154499, 67200000000);
    assert CivilDate(154499) == (2024, 1, 3) by {
      assert 739193 / 146097 == 5 && 739193 - 5 * 146097 == 8708;
      assert 8708 / 1460 == 5 && 8708 / 36524 == 0 && 8708 / 146096 == 0 && 8703 / 365 == 23;
      assert 23 / 4 == 5 && 23 / 100 == 0 && (5 * 308 + 2) / 153 == 10 && (153 * 10 + 2) / 5 == 306;
    }
  }
}
