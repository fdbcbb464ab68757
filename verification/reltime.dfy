/**
 The relative-time labels ("5m ago", "2h ago") that the Reddit and StockTwits
 adapters attach to each comment, and a reader for them that shows the labels
 carry exactly the elapsed minutes or whole hours.
 */
module RelativeTime {
  import opened Basics
  import opened Text

  const MinutesPerHour: int := 60
  const MinutesPerDay: int := 1440

  /** `Math.floor((now - then) / 60000)`: whole minutes elapsed, rounded down
      (also for a `then` in the future, where the difference is negative). */
  function DiffMinutes(nowMs: int, thenMs: int): (m: int)
    ensures m * MsPerMinute <= nowMs - thenMs < (m + 1) * MsPerMinute
  {
    (nowMs - thenMs) / MsPerMinute
  }

  /** What a label says about its age. */
  datatype Ago = MinutesAgo(minutes: int) | HoursAgo(hours: int) | Unrecognised

  /** Reads a label back: "<int>m ago" or "<int>h ago". */
  function ParseAgo(s: string): Ago
  {
    if |s| >= 5 && s[|s| - 5..] == "m ago" then
      match ParseInt(s[..|s| - 5])
      case Some(n) => MinutesAgo(n)
      case None => Unrecognised
    else if |s| >= 5 && s[|s| - 5..] == "h ago" then
      match ParseInt(s[..|s| - 5])
      case Some(n) => HoursAgo(n)
      case None => Unrecognised
    else
      Unrecognised
  }

  /** Reading back `number + suffix` recovers the number. */
  lemma ParseLabel(n: int, suffix: string)
    requires suffix == "m ago" || suffix == "h ago"
    ensures ParseAgo(IntToString(n) + suffix) == if suffix == "m ago" then MinutesAgo(n) else HoursAgo(n)
  {
    var s := IntToString(n) + suffix;
    assert s[|s| - 5..] == suffix;
    assert s[..|s| - 5] == IntToString(n);
    IntToStringRoundTrip(n);
  }

  /**
   The shared label format: under an hour (including a negative difference)
   the minute count, under a day the whole hours, otherwise the locale clock
   text, which is an input here. A label younger than a day reads back as
   exactly the minutes or the whole hours it was made from.
   */
  function FormatAgo(diffMins: int, clockText: string): (r: string)
    ensures diffMins < MinutesPerHour ==> ParseAgo(r) == MinutesAgo(diffMins)
    ensures MinutesPerHour <= diffMins < MinutesPerDay ==> ParseAgo(r) == HoursAgo(diffMins / MinutesPerHour)
    ensures MinutesPerDay <= diffMins ==> r == clockText
  {
    if diffMins < MinutesPerHour then
      ParseLabel(diffMins, "m ago");
      IntToString(diffMins) + "m ago"
    else if diffMins < MinutesPerDay then
      ParseLabel(diffMins / MinutesPerHour, "h ago");
      IntToString(diffMins / MinutesPerHour) + "h ago"
    else
      clockText
  }

  /** Whole hours are whole minutes divided by sixty: `floor(floor(d / 60000) / 60) == floor(d / 3600000)`. */
  lemma HoursOfMinutes(d: int)
    ensures DiffMinutes(d, 0) / MinutesPerHour == d / (MsPerMinute * MinutesPerHour)
  {
    var m := DiffMinutes(d, 0);
    var h := m / MinutesPerHour;
    assert h * MinutesPerHour <= m < (h + 1) * MinutesPerHour;
    assert h * 3600000 <= d < (h + 1) * 3600000;
  }

  /**
   The label of a moment `thenMs` seen at `nowMs`, both in milliseconds. Read
   back, it gives the elapsed whole minutes under an hour (a moment in the
   future included) and the elapsed whole hours under a day; from a day on it
   is the clock text.
   */
  function Label(nowMs: int, thenMs: int, clockText: string): (r: string)
    ensures var d := nowMs - thenMs;
      && (d < 3600000 ==> ParseAgo(r) == MinutesAgo(d / 60000))
      && (3600000 <= d < 86400000 ==> ParseAgo(r) == HoursAgo(d / 3600000))
      && (86400000 <= d ==> r == clockText)
  {
    HoursOfMinutes(nowMs - thenMs);
    FormatAgo(DiffMinutes(nowMs, thenMs), clockText)
  }
}
