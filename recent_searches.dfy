/**
 * The recent-searches strip: nothing when the history is empty, otherwise
 * one chip per entry showing its term, its language label and how long ago
 * it was saved.
 */
module RecentSearches {
  import opened Wrappers
  import opened Text
  import opened History

  /** The relative-time label `formatTimeAgo` returns, before it is turned into text. */
  datatype TimeAgo =
    | JustNow
    | MinutesAgo(minutes: nat)
    | HoursAgo(hours: nat)
    | DaysAgo(days: nat)
    | OnDate(timestamp: int)    // past a week: the date itself, formatted by the locale

  const SecondsPerMinute: nat := 60
  const SecondsPerHour: nat := 3600
  const SecondsPerDay: nat := 86400
  const SecondsPerWeek: nat := 604800

  /**
   * Whole seconds between `timestamp` and `now` (both in milliseconds), rounded
   * down as `Math.floor` does, also when `timestamp` lies in the future.
   */
  function ElapsedSeconds(timestamp: int, now: int): (s: int)
    ensures s * 1000 <= now - timestamp < (s + 1) * 1000
  {
    (now - timestamp) / 1000
  }

  /** `formatTimeAgo`, with the clock reading `now` passed in. */
  function FormatTimeAgo(timestamp: int, now: int): (r: TimeAgo)
    ensures var s := ElapsedSeconds(timestamp, now);
            && (r.JustNow? <==> s < SecondsPerMinute)
            && (r.MinutesAgo? <==> SecondsPerMinute <= s < SecondsPerHour)
            && (r.HoursAgo? <==> SecondsPerHour <= s < SecondsPerDay)
            && (r.DaysAgo? <==> SecondsPerDay <= s < SecondsPerWeek)
            && (r.OnDate? <==> SecondsPerWeek <= s)
    ensures var s := ElapsedSeconds(timestamp, now);
            r.MinutesAgo? ==> 1 <= r.minutes <= 59
                              && r.minutes * SecondsPerMinute <= s < (r.minutes + 1) * SecondsPerMinute
    ensures var s := ElapsedSeconds(timestamp, now);
            r.HoursAgo? ==> 1 <= r.hours <= 23
                            && r.hours * SecondsPerHour <= s < (r.hours + 1) * SecondsPerHour
    ensures var s := ElapsedSeconds(timestamp, now);
            r.DaysAgo? ==> 1 <= r.days <= 6
                           && r.days * SecondsPerDay <= s < (r.days + 1) * SecondsPerDay
    ensures r.OnDate? ==> r.timestamp == timestamp
  {
    var s := ElapsedSeconds(timestamp, now);
    if s < SecondsPerMinute then JustNow
    else if s < SecondsPerHour then MinutesAgo(s / SecondsPerMinute)
    else if s < SecondsPerDay then HoursAgo(s / SecondsPerHour)
    else if s < SecondsPerWeek then DaysAgo(s / SecondsPerDay)
    else OnDate(timestamp)
  }

  /** The buckets from youngest to oldest. */
  function Rank(t: TimeAgo): nat
  {
    match t
    case JustNow => 0
    case MinutesAgo(_) => 1
    case HoursAgo(_) => 2
    case DaysAgo(_) => 3
    case OnDate(_) => 4
  }

  /** The count a label displays, zero where it shows none. */
  function Count(t: TimeAgo): nat
  {
    match t
    case MinutesAgo(m) => m
    case HoursAgo(h) => h
    case DaysAgo(d) => d
    case _ => 0
  }

  /** As the clock advances, an entry never moves to a younger bucket, nor does its count go down. */
  lemma LaterNeverLooksYounger(timestamp: int, now1: int, now2: int)
    requires now1 <= now2
    ensures var a, b := FormatTimeAgo(timestamp, now1), FormatTimeAgo(timestamp, now2);
            Rank(a) <= Rank(b) && (Rank(a) == Rank(b) ==> Count(a) <= Count(b))
  {
    var s1, s2 := ElapsedSeconds(timestamp, now1), ElapsedSeconds(timestamp, now2);
    assert s1 <= s2;
    var a, b := FormatTimeAgo(timestamp, now1), FormatTimeAgo(timestamp, now2);
    if a.MinutesAgo? && b.MinutesAgo? {
      assert a.minutes * 60 <= s2 < (b.minutes + 1) * 60;
    } else if a.HoursAgo? && b.HoursAgo? {
      assert a.hours * 3600 <= s2 < (b.hours + 1) * 3600;
    } else if a.DaysAgo? && b.DaysAgo? {
      assert a.days * 86400 <= s2 < (b.days + 1) * 86400;
    }
  }

  /** The text of a label; `localeDate` is the `toLocaleDateString("no-NO", …)` formatting of a timestamp. */
  function LabelText(t: TimeAgo, localeDate: int -> string): (r: string)
    ensures t.JustNow? ==> r == "Nettopp"
    ensures t.MinutesAgo? ==> |r| > 10 && r[|r| - 10..] == " min siden" && IsDecimalOf(r[..|r| - 10], t.minutes)
    ensures t.HoursAgo? ==> |r| > 8 && r[|r| - 8..] == " t siden" && IsDecimalOf(r[..|r| - 8], t.hours)
    ensures t.DaysAgo? ==> |r| > 8 && r[|r| - 8..] == " d siden" && IsDecimalOf(r[..|r| - 8], t.days)
    ensures t.OnDate? ==> r == localeDate(t.timestamp)
  {
    match t
    case JustNow => "Nettopp"
    case MinutesAgo(m) =>
      DecimalRoundTrip(m);
      var r := Decimal(m) + " min siden";
      assert r[..|r| - 10] == Decimal(m);
      r
    case HoursAgo(h) =>
      DecimalRoundTrip(h);
      var r := Decimal(h) + " t siden";
      assert r[..|r| - 8] == Decimal(h);
      r
    case DaysAgo(d) =>
      DecimalRoundTrip(d);
      var r := Decimal(d) + " d siden";
      assert r[..|r| - 8] == Decimal(d);
      r
    case OnDate(ts) => localeDate(ts)
  }

  /** One chip of the strip. */
  datatype Chip = Chip(id: string, term: string, languageLabel: string, age: TimeAgo)

  /** The rendered strip: nothing for an empty history, else one chip per entry in history order. */
  function View(history: seq<HistoryItem>, now: int): (r: Option<seq<Chip>>)
    ensures r.None? <==> history == []
    ensures r.Some? ==> |r.value| == |history|
    ensures r.Some? ==> forall i :: 0 <= i < |history| ==>
      && r.value[i].id == history[i].id
      && r.value[i].term == history[i].term
      && r.value[i].languageLabel == history[i].languageLabel
      && r.value[i].age == FormatTimeAgo(history[i].timestamp, now)
  {
    if |history| == 0 then None
    else Some(seq(|history|, i requires 0 <= i < |history| =>
      Chip(history[i].id, history[i].term, history[i].languageLabel,
           FormatTimeAgo(history[i].timestamp, now))))
  }
}
