/**
 * Date formatting for backend timestamps, which are in seconds. The locale-dependent
 * formatters (`toLocaleDateString`, `toLocaleString`, `toISOString`) are parameters taking
 * milliseconds, and the current time is a parameter in seconds.
 */
module FormatDate {
  import opened Wrappers
  import Text

  /** `!timestamp`: `undefined`, `null` and `0` are all falsy. */
  predicate Falsy(timestamp: Option<int>) {
    timestamp.None? || timestamp.value == 0
  }

  function FormatDate(timestamp: Option<int>, localeDate: int -> string): string {
    if Falsy(timestamp) then "" else localeDate(timestamp.value * 1000)
  }

  function FormatDateTime(timestamp: Option<int>, localeDateTime: int -> string): string {
    if Falsy(timestamp) then "" else localeDateTime(timestamp.value * 1000)
  }

  function FormatISODate(timestamp: Option<int>, isoString: int -> string): string {
    if Falsy(timestamp) then "" else isoString(timestamp.value * 1000)
  }

  const Minute := 60
  const Hour := 3600
  const Day := 86400
  const Week := 604800

  /** "just now", whole minutes, hours or days ago, and the plain date from a week on. */
  function FormatRelativeTime(timestamp: Option<int>, now: int, localeDate: int -> string): string {
    if Falsy(timestamp) then ""
    else
      var diff := now - timestamp.value;
      if diff < Minute then "just now"
      else if diff < Hour then Text.NatToString(diff / Minute) + " min ago"
      else if diff < Day then Text.NatToString(diff / Hour) + " hours ago"
      else if diff < Week then Text.NatToString(diff / Day) + " days ago"
      else FormatDate(timestamp, localeDate)
  }

  /** Every formatter gives the empty string for a missing or zero timestamp, and only then asks the formatter nothing. */
  lemma FalsyTimestampFormatsEmpty(timestamp: Option<int>, now: int, f: int -> string)
    ensures Falsy(timestamp) ==>
      FormatDate(timestamp, f) == "" && FormatDateTime(timestamp, f) == "" &&
      FormatISODate(timestamp, f) == "" && FormatRelativeTime(timestamp, now, f) == ""
    ensures !Falsy(timestamp) ==>
      FormatDate(timestamp, f) == f(timestamp.value * 1000) &&
      FormatDateTime(timestamp, f) == f(timestamp.value * 1000) &&
      FormatISODate(timestamp, f) == f(timestamp.value * 1000)
  {
  }

  /** Within a minute of `now`, and for any time in the future, the rendering is "just now". */
  lemma RelativeJustNow(ts: int, now: int, localeDate: int -> string)
    requires ts != 0 && now - ts < Minute
    ensures FormatRelativeTime(Some(ts), now, localeDate) == "just now"
  {
  }

  lemma MulCancel(a: int, b: int, unit: int)
    requires unit > 0 && a * unit < b * unit
    ensures a < b
  {
  }

  /** The unique whole count `n` with `n * unit <= diff < (n + 1) * unit` is `diff / unit`. */
  lemma WholeUnits(diff: int, unit: int, n: int)
    requires unit > 0 && n * unit <= diff < (n + 1) * unit
    ensures diff / unit == n
  {
    var q, m := diff / unit, diff % unit;
    assert diff == q * unit + m && 0 <= m < unit;
    assert (q + 1) * unit == q * unit + unit;
    MulCancel(q, n + 1, unit);
    MulCancel(n, q + 1, unit);
  }

  /** Between a minute and an hour ago: the whole minutes elapsed, from 1 to 59. */
  lemma RelativeMinutes(ts: int, now: int, localeDate: int -> string, n: nat)
    requires ts != 0 && 1 <= n < 60 && n * Minute <= now - ts < (n + 1) * Minute
    ensures FormatRelativeTime(Some(ts), now, localeDate) == Text.NatToString(n) + " min ago"
  {
    WholeUnits(now - ts, Minute, n);
  }

  /** Between an hour and a day ago: the whole hours elapsed, from 1 to 23. */
  lemma RelativeHours(ts: int, now: int, localeDate: int -> string, n: nat)
    requires ts != 0 && 1 <= n < 24 && n * Hour <= now - ts < (n + 1) * Hour
    ensures FormatRelativeTime(Some(ts), now, localeDate) == Text.NatToString(n) + " hours ago"
  {
    WholeUnits(now - ts, Hour, n);
  }

  /** Between a day and a week ago: the whole days elapsed, from 1 to 6. */
  lemma RelativeDays(ts: int, now: int, localeDate: int -> string, n: nat)
    requires ts != 0 && 1 <= n < 7 && n * Day <= now - ts < (n + 1) * Day
    ensures FormatRelativeTime(Some(ts), now, localeDate) == Text.NatToString(n) + " days ago"
  {
    WholeUnits(now - ts, Day, n);
  }

  /** From a week on, the plain localized date. */
  lemma RelativeWeekOrMore(ts: int, now: int, localeDate: int -> string)
    requires ts != 0 && Week <= now - ts
    ensures FormatRelativeTime(Some(ts), now, localeDate) == FormatDate(Some(ts), localeDate)
  {
  }

  /**
   * The buckets cover every elapsed time from a minute to a week: the formatter shows the
   * whole count `n` of its bucket's unit, and `n` lies in the bucket's range.
   */
  lemma RelativeBucketsExhaustive(ts: int, now: int, localeDate: int -> string)
    requires ts != 0
    ensures var diff, r := now - ts, FormatRelativeTime(Some(ts), now, localeDate);
      Minute <= diff < Hour ==> var n := diff / Minute;
        1 <= n < 60 && n * Minute <= diff < (n + 1) * Minute && r == Text.NatToString(n) + " min ago"
    ensures var diff, r := now - ts, FormatRelativeTime(Some(ts), now, localeDate);
      Hour <= diff < Day ==> var n := diff / Hour;
        1 <= n < 24 && n * Hour <= diff < (n + 1) * Hour && r == Text.NatToString(n) + " hours ago"
    ensures var diff, r := now - ts, FormatRelativeTime(Some(ts), now, localeDate);
      Day <= diff < Week ==> var n := diff / Day;
        1 <= n < 7 && n * Day <= diff < (n + 1) * Day && r == Text.NatToString(n) + " days ago"
  {
  }
}
