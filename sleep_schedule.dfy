/**
 * The clock side of redrawing (src/inkycal/main.py): `_parse_hhmm`, the
 * sleep window that may wrap past midnight, and the hourly refresh floor.
 */
module SleepSchedule {
  import opened Wrappers
  import opened Text
  import opened EventModel

  // ------------------------------------------------------------ _parse_hhmm

  /** A `datetime.time` with whole hours and minutes. */
  datatype TimeOfDay = TimeOfDay(hour: int, minute: int)

  predicate ValidTime(t: TimeOfDay) {
    0 <= t.hour <= 23 && 0 <= t.minute <= 59
  }

  /** Why `_parse_hhmm` raises `ValueError`. */
  datatype HHMMError = NotTwoFields | NotAnInteger | OutOfRange

  /** `_parse_hhmm`: exactly two `:`-separated integers, hour 0-23 and minute 0-59. */
  function ParseHHMM(s: string): (r: Result<TimeOfDay, HHMMError>)
    ensures r.Ok? ==> ValidTime(r.value)
    ensures r == Err(NotTwoFields) <==> |SplitOn(s, ':')| != 2
  {
    var parts := SplitOn(s, ':');
    if |parts| != 2 then Err(NotTwoFields)
    else
      match (ParseInt(parts[0]), ParseInt(parts[1]))
      case (Some(h), Some(m)) =>
        if 0 <= h <= 23 && 0 <= m <= 59 then Ok(TimeOfDay(h, m)) else Err(OutOfRange)
      case _ => Err(NotAnInteger)
  }

  /** The `H:M` text of a time. */
  function FormatHHMM(t: TimeOfDay): string {
    IntToString(t.hour) + ":" + IntToString(t.minute)
  }

  lemma IntToStringHasNoColon(i: int)
    ensures ':' !in IntToString(i)
  {
    var s := IntToString(i);
    var digits := NatToString(if i < 0 then -i else i);
    if i < 0 {
      assert s == "-" + digits;
    }
    forall k | 0 <= k < |s| ensures s[k] != ':' {
      if i < 0 && k > 0 {
        assert s[k] == digits[k - 1];
      }
    }
  }

  /** Every valid time read back from its text is itself. */
  lemma ParseFormatHHMM(t: TimeOfDay)
    requires ValidTime(t)
    ensures ParseHHMM(FormatHHMM(t)) == Ok(t)
  {
    var h, m := IntToString(t.hour), IntToString(t.minute);
    IntToStringHasNoColon(t.hour);
    IntToStringHasNoColon(t.minute);
    SplitTwo(h, m);
    assert SplitOn(FormatHHMM(t), ':') == [h, m];
    ParseIntOfIntToString(t.hour);
    ParseIntOfIntToString(t.minute);
    assert ParseInt(h) == Some(t.hour) && ParseInt(m) == Some(t.minute);
    assert ParseHHMM(FormatHHMM(t)).Ok?;
  }

  lemma SplitTwo(a: string, b: string)
    requires ':' !in a && ':' !in b
    ensures SplitOn(a + ":" + b, ':') == [a, b]
  {
    assert JoinOn([a, b], ':') == a + ":" + b;
    SplitOnJoinOn([a, b], ':');
  }

  // ------------------------------------------------------------ _is_in_sleep_window

  function MinuteOf(t: TimeOfDay): int {
    t.hour * 60 + t.minute
  }

  /**
   * `_is_in_sleep_window`, with the local wall-clock time given as minutes
   * since midnight. The bounds are whole minutes, so comparing the truncated
   * minute with them decides exactly as comparing the full time does.
   */
  predicate InSleepWindow(minuteOfDay: int, start: TimeOfDay, end: TimeOfDay) {
    var s, e := MinuteOf(start), MinuteOf(end);
    if s < e then s <= minuteOfDay < e else minuteOfDay >= s || minuteOfDay < e
  }

  /**
   * A window that ends later the same day is `[start, end)`; one that ends
   * earlier wraps past midnight and is the complement of `[end, start)`;
   * equal bounds cover the whole day.
   */
  lemma SleepWindowCases(minuteOfDay: int, start: TimeOfDay, end: TimeOfDay)
    requires 0 <= minuteOfDay < 24 * 60
    ensures MinuteOf(start) < MinuteOf(end) ==>
      (InSleepWindow(minuteOfDay, start, end) <==> MinuteOf(start) <= minuteOfDay < MinuteOf(end))
    ensures MinuteOf(start) > MinuteOf(end) ==>
      (InSleepWindow(minuteOfDay, start, end) <==> !(MinuteOf(end) <= minuteOfDay < MinuteOf(start)))
    ensures MinuteOf(start) == MinuteOf(end) ==> InSleepWindow(minuteOfDay, start, end)
    ensures MinuteOf(start) != MinuteOf(end) ==>
      (InSleepWindow(minuteOfDay, start, end) <==> !InSleepWindow(minuteOfDay, end, start))
  {
  }

  /** The overnight window 22:30-06:30 holds 23:00 and 05:00 but not 12:00. */
  lemma OvernightWindowExample()
    ensures var start, end := TimeOfDay(22, 30), TimeOfDay(6, 30);
      && InSleepWindow(23 * 60, start, end)
      && InSleepWindow(5 * 60, start, end)
      && !InSleepWindow(12 * 60, start, end)
  {
  }

  // ------------------------------------------------------------ _should_force_hourly_refresh

  /** What `datetime.fromisoformat` gives: an aware instant, or a naive wall-clock reading. */
  datatype IsoTime = Aware(instant: int) | Naive(wallClock: int)

  /** The parser: `None` where `fromisoformat` raises `ValueError`. */
  type IsoParser = string -> Option<IsoTime>

  /**
   * `_should_force_hourly_refresh`. A naive timestamp gets `now`'s zone
   * attached, and Python subtracts two datetimes sharing one zone object by
   * wall clock, so the gap is `now`'s wall clock minus the stored reading.
   */
  function ShouldForceHourlyRefresh(lastRenderedIso: string, now: DateTime, thresholdSeconds: int,
                                    parseIso: IsoParser): bool
  {
    if lastRenderedIso == "" then false
    else
      match parseIso(lastRenderedIso)
      case None => false
      case Some(Aware(instant)) => now.seconds - instant >= thresholdSeconds
      case Some(Naive(wallClock)) => now.seconds + now.offset - wallClock >= thresholdSeconds
  }

  /**
   * The floor is never reached without a readable last render; after a render
   * whose ISO text parses back to its instant, it is reached exactly when the
   * threshold has passed since that instant.
   */
  lemma HourlyRefreshCases(lastRenderedIso: string, now: DateTime, thresholdSeconds: int,
                           parseIso: IsoParser, rendered: DateTime, formatIso: DateTime -> string)
    ensures lastRenderedIso == "" || parseIso(lastRenderedIso) == None ==>
      !ShouldForceHourlyRefresh(lastRenderedIso, now, thresholdSeconds, parseIso)
    ensures formatIso(rendered) != "" && parseIso(formatIso(rendered)) == Some(Aware(rendered.seconds)) ==>
      (ShouldForceHourlyRefresh(formatIso(rendered), now, thresholdSeconds, parseIso) <==>
         now.seconds - rendered.seconds >= thresholdSeconds)
  {
  }
}
