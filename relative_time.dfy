/**
 * Relative time labels (src/utils/date.ts): how long ago a timestamp was, in
 * whole minutes or hours, falling back to a locale date string after a day.
 * Timestamps and the clock reading are integers of milliseconds; the locale
 * formatter is a parameter.
 */
module RelativeTime {
  import opened Text

  const Minute: int := 60 * 1000
  const Hour: int := 60 * 60 * 1000
  const Day: int := 24 * 60 * 60 * 1000

  /** Which of getRelativeTime's four answers applies. */
  datatype Label = JustNow | MinutesAgo(minutes: nat) | HoursAgo(hours: nat) | Absolute

  /** The label for a difference `now - timestamp`; `Math.floor` of a positive quotient is `/`. */
  function Classify(diff: int): (r: Label)
    // under a minute, including any timestamp in the future
    ensures r.JustNow? <==> diff < Minute
    ensures r.MinutesAgo? <==> Minute <= diff < Hour
    ensures r.HoursAgo? <==> Hour <= diff < Day
    ensures r.Absolute? <==> Day <= diff
    // whole minutes, rounded down, between 1 and 59
    ensures r.MinutesAgo? ==> 1 <= r.minutes <= 59 && r.minutes * Minute <= diff < (r.minutes + 1) * Minute
    // whole hours, rounded down, between 1 and 23
    ensures r.HoursAgo? ==> 1 <= r.hours <= 23 && r.hours * Hour <= diff < (r.hours + 1) * Hour
  {
    if diff < Minute then JustNow
    else if diff < Hour then MinutesAgo(diff / Minute)
    else if diff < Day then HoursAgo(diff / Hour)
    else Absolute
  }

  /** `N minute ago` is singular exactly when N is 1. */
  function Counted(n: nat, unit: string): string {
    NatToString(n) + " " + (if n == 1 then unit else unit + "s") + " ago"
  }

  /**
   * `r` is the count `n` in decimal digits that read back as `n`, followed by `one`
   * when `n` is 1 and by `many` otherwise.
   */
  predicate CountText(r: string, n: nat, one: string, many: string) {
    var k := |NatToString(n)|;
    && k < |r| && AllDigits(r[..k]) && DigitsValue(r[..k]) == n
    && r[k..] == (if n == 1 then one else many)
  }

  /** The text for a label: the count in decimal, then the unit, singular exactly when the count is 1. */
  function Render(kind: Label, timestamp: int, formatDateTime: int -> string): (r: string)
    ensures kind.JustNow? ==> r == "just now"
    ensures kind.MinutesAgo? ==> CountText(r, kind.minutes, " minute ago", " minutes ago")
    ensures kind.HoursAgo? ==> CountText(r, kind.hours, " hour ago", " hours ago")
    ensures kind.Absolute? ==> r == formatDateTime(timestamp)
  {
    match kind
    case JustNow => "just now"
    case MinutesAgo(n) => CountedReadsBack(n, "minute"); Counted(n, "minute")
    case HoursAgo(n) => CountedReadsBack(n, "hour"); Counted(n, "hour")
    case Absolute => formatDateTime(timestamp)
  }

  /** getRelativeTime with the clock reading `now` as a parameter. */
  function GetRelativeTime(timestamp: int, now: int, formatDateTime: int -> string): string {
    Render(Classify(now - timestamp), timestamp, formatDateTime)
  }

  /**
   * The count printed at the front of a label reads back as the number of whole units,
   * and the rest is the unit, singular exactly when the count is 1, and "ago".
   */
  lemma CountedReadsBack(n: nat, unit: string)
    ensures CountText(Counted(n, unit), n, " " + unit + " ago", " " + unit + "s ago")
  {
    var r := Counted(n, unit);
    var k := |NatToString(n)|;
    assert r[..k] == NatToString(n);
    assert r[k..] == " " + (if n == 1 then unit else unit + "s") + " ago";
    assert " " + (unit + "s") + " ago" == " " + unit + "s ago";
    NatToStringRoundTrip(n);
  }

  /** The labels for the worked cases: 30 s, 1 and 5 minutes, 1 and 2 hours, 2 days back. */
  lemma WorkedExamples(now: int, formatDateTime: int -> string)
    ensures GetRelativeTime(now - 30 * 1000, now, formatDateTime) == "just now"
    ensures GetRelativeTime(now - 5 * Minute, now, formatDateTime) == "5 minutes ago"
    ensures GetRelativeTime(now - Minute, now, formatDateTime) == "1 minute ago"
    ensures GetRelativeTime(now - 2 * Hour, now, formatDateTime) == "2 hours ago"
    ensures GetRelativeTime(now - Hour, now, formatDateTime) == "1 hour ago"
    ensures GetRelativeTime(now - 2 * Day, now, formatDateTime) == formatDateTime(now - 2 * Day)
  {
    assert NatToString(5) == "5" && NatToString(1) == "1" && NatToString(2) == "2";
    assert Classify(now - (now - 30 * 1000)) == JustNow;
    assert Classify(now - (now - 5 * Minute)) == MinutesAgo(5);
    assert Classify(now - (now - Minute)) == MinutesAgo(1);
    assert Classify(now - (now - 2 * Hour)) == HoursAgo(2);
    assert Classify(now - (now - Hour)) == HoursAgo(1);
    assert Classify(now - (now - 2 * Day)) == Absolute;
    assert Counted(5, "minute") == "5 minutes ago" && Counted(1, "minute") == "1 minute ago";
    assert Counted(2, "hour") == "2 hours ago" && Counted(1, "hour") == "1 hour ago";
  }

  /** A timestamp in the future is "just now", not a formatted date. */
  lemma FutureIsJustNow(timestamp: int, now: int, formatDateTime: int -> string)
    requires timestamp > now
    ensures GetRelativeTime(timestamp, now, formatDateTime) == "just now"
  {
  }

  /** Within a day, the label depends on the timestamp only through `now - timestamp`. */
  lemma OnlyDifferenceMatters(timestamp: int, now: int, shift: int, formatDateTime: int -> string)
    requires now - timestamp < Day
    ensures GetRelativeTime(timestamp + shift, now + shift, formatDateTime)
            == GetRelativeTime(timestamp, now, formatDateTime)
  {
    assert (now + shift) - (timestamp + shift) == now - timestamp;
  }

  /**
   * Older timestamps never get a smaller count or a more recent kind: the label is
   * monotone in the difference.
   */
  lemma ClassifyMonotone(d1: int, d2: int)
    requires d1 <= d2
    ensures Classify(d1).MinutesAgo? && Classify(d2).MinutesAgo? ==> Classify(d1).minutes <= Classify(d2).minutes
    ensures Classify(d1).HoursAgo? && Classify(d2).HoursAgo? ==> Classify(d1).hours <= Classify(d2).hours
    ensures Classify(d1).Absolute? ==> Classify(d2).Absolute?
    ensures Classify(d2).JustNow? ==> Classify(d1).JustNow?
    ensures Classify(d1).MinutesAgo? ==> !Classify(d2).JustNow?
    ensures Classify(d1).HoursAgo? ==> Classify(d2).HoursAgo? || Classify(d2).Absolute?
  {
  }
}
