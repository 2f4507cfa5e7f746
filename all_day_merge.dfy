/**
 * `_merge_all_day_events` (src/inkycal/main.py): every all-day event is
 * folded into one synthetic "merged" event that is placed first, followed by
 * the timed events in display order.
 */
module AllDayMerge {
  import opened Wrappers
  import opened Text
  import opened EventModel
  import Sorting

  /** `[e for e in events if e.all_day]`. */
  function AllDayEvents(events: seq<Event>): (r: seq<Event>)
    ensures forall e :: e in r <==> e in events && e.allDay
    ensures |r| <= |events|
  {
    if events == [] then []
    else (if events[0].allDay then [events[0]] else []) + AllDayEvents(events[1..])
  }

  /** `[e for e in events if not e.all_day]`. */
  function TimedEvents(events: seq<Event>): (r: seq<Event>)
    ensures forall e :: e in r <==> e in events && !e.allDay
    ensures |r| <= |events|
  {
    if events == [] then []
    else (if events[0].allDay then [] else [events[0]]) + TimedEvents(events[1..])
  }

  /** The two comprehensions split the input: each event goes to exactly one side. */
  lemma {:induction false} SplitCounts(events: seq<Event>)
    ensures |AllDayEvents(events)| + |TimedEvents(events)| == |events|
    ensures AllDayEvents(events) == [] ==> TimedEvents(events) == events
  {
    if events != [] {
      SplitCounts(events[1..]);
      if AllDayEvents(events) == [] {
        assert !events[0].allDay;
        assert events == [events[0]] + events[1..];
      }
    }
  }

  /** `[e.title.strip() for e in all_day_events if e.title.strip()]`, before sorting. */
  function NonBlankTitles(allDay: seq<Event>): (r: seq<string>)
    ensures forall t :: t in r ==> t != []
  {
    if allDay == [] then []
    else
      var t := Strip(allDay[0].title);
      (if t != [] then [t] else []) + NonBlankTitles(allDay[1..])
  }

  /** Sorted by Python's case-sensitive code-point order. */
  function SortedTitles(allDay: seq<Event>): (r: seq<string>)
    ensures multiset(r) == multiset(NonBlankTitles(allDay))
    ensures Sorting.SortedBy(r, StrLe)
  {
    StrLeTotalPreorder();
    Sorting.SortBySorted(NonBlankTitles(allDay), StrLe);
    Sorting.SortBy(NonBlankTitles(allDay), StrLe)
  }

  lemma StrLeTotalPreorder()
    ensures Sorting.TotalPreorder(StrLe)
  {
    forall a, b ensures StrLe(a, b) || StrLe(b, a) {
      StrLeTotal(a, b);
    }
    forall a, b, c | StrLe(a, b) && StrLe(b, c) ensures StrLe(a, c) {
      StrLeTransitive(a, b, c);
    }
  }

  /** The summary title built from the sorted, stripped, non-blank titles. */
  function SummaryTitle(titles: seq<string>): string {
    if |titles| == 0 then "All-day events"
    else if |titles| == 1 then "All-day: " + titles[0]
    else if |titles| == 2 then "All-day: " + titles[0] + ", " + titles[1]
    else "All-day: " + titles[0] + ", " + titles[1] + ", +" + IntToString(|titles| - 2) + " more"
  }

  /** `min(e.start for e in s)`: the first event whose instant is smallest. */
  function EarliestStart(s: seq<Event>): (r: DateTime)
    requires s != []
    ensures exists i :: 0 <= i < |s| && s[i].start == r
    ensures forall i :: 0 <= i < |s| ==> r.seconds <= s[i].start.seconds
  {
    if |s| == 1 then s[0].start
    else
      var rest := EarliestStart(s[1..]);
      assert forall i :: 1 <= i < |s| ==> s[i] == s[1..][i - 1];
      if rest.seconds < s[0].start.seconds then rest else s[0].start
  }

  /** `max(e.end for e in s)`: the first event whose instant is largest. */
  function LatestEnd(s: seq<Event>): (r: DateTime)
    requires s != []
    ensures exists i :: 0 <= i < |s| && s[i].end == r
    ensures forall i :: 0 <= i < |s| ==> s[i].end.seconds <= r.seconds
  {
    if |s| == 1 then s[0].end
    else
      var rest := LatestEnd(s[1..]);
      assert forall i :: 1 <= i < |s| ==> s[i] == s[1..][i - 1];
      if rest.seconds > s[0].end.seconds then rest else s[0].end
  }

  /** `_merge_all_day_events`. */
  function MergeAllDayEvents(events: seq<Event>): seq<Event> {
    var allDay := AllDayEvents(events);
    var timed := TimedEvents(events);
    if allDay == [] then timed
    else
      var merged := Event("merged", SummaryTitle(SortedTitles(allDay)),
                          EarliestStart(allDay), LatestEnd(allDay), true, None, None);
      [merged] + SortEvents(timed)
  }

  /** Without all-day events the input comes back unchanged and in input order. */
  lemma MergeAllDayWithoutAllDay(events: seq<Event>)
    requires AllDayEvents(events) == []
    ensures MergeAllDayEvents(events) == events
  {
    SplitCounts(events);
  }

  /**
   * With all-day events the result starts with one merged all-day event that
   * spans from the earliest all-day start to the latest all-day end.
   */
  lemma MergeAllDaySummary(events: seq<Event>)
    requires AllDayEvents(events) != []
    ensures var r := MergeAllDayEvents(events);
      var allDay := AllDayEvents(events);
      && |r| == |TimedEvents(events)| + 1
      && r[0].source == "merged" && r[0].allDay
      && r[0].location == None && r[0].travelTimeText == None
      && r[0].title == SummaryTitle(SortedTitles(allDay))
      && (forall e :: e in allDay ==> r[0].start.seconds <= e.start.seconds && e.end.seconds <= r[0].end.seconds)
      && (exists e :: e in allDay && e.start == r[0].start)
      && (exists e :: e in allDay && e.end == r[0].end)
  {
    var allDay := AllDayEvents(events);
    var s := EarliestStart(allDay);
    var k :| 0 <= k < |allDay| && allDay[k].start == s;
    assert allDay[k] in allDay;
    var t := LatestEnd(allDay);
    var m :| 0 <= m < |allDay| && allDay[m].end == t;
    assert allDay[m] in allDay;
    forall e | e in allDay ensures s.seconds <= e.start.seconds && e.end.seconds <= t.seconds {
      var j :| 0 <= j < |allDay| && allDay[j] == e;
    }
  }

  /** After the merged event come all the timed events, each once, in display order. */
  lemma MergeAllDayTimed(events: seq<Event>)
    requires AllDayEvents(events) != []
    ensures var r := MergeAllDayEvents(events);
      && multiset(r[1..]) == multiset(TimedEvents(events))
      && Sorting.SortedBy(r[1..], EventLe)
      && (forall i :: 1 <= i < |r| ==> !r[i].allDay)
  {
    var r := MergeAllDayEvents(events);
    var timed := TimedEvents(events);
    assert r[1..] == SortEvents(timed);
    forall i | 1 <= i < |r| ensures !r[i].allDay {
      assert r[i] == r[1..][i - 1];
      assert r[i] in multiset(r[1..]);
      assert r[i] in timed;
    }
  }

  /** The merged list holds at most one all-day event, and it is first. */
  lemma MergeAllDayAtMostOneAllDay(events: seq<Event>)
    ensures var r := MergeAllDayEvents(events);
      forall i :: 0 < i < |r| ==> !r[i].allDay
  {
    var r := MergeAllDayEvents(events);
    if AllDayEvents(events) == [] {
      forall i | 0 < i < |r| ensures !r[i].allDay {
        assert r[i] in TimedEvents(events);
      }
    } else {
      MergeAllDayTimed(events);
    }
  }

  /** The summary title names the first two sorted titles and counts the rest. */
  lemma SummaryTitleCases(allDay: seq<Event>)
    ensures var ts := SortedTitles(allDay);
      var n := |NonBlankTitles(allDay)|;
      && (n == 0 ==> SummaryTitle(ts) == "All-day events")
      && (n == 1 ==> SummaryTitle(ts) == "All-day: " + ts[0])
      && (n == 2 ==> SummaryTitle(ts) == "All-day: " + ts[0] + ", " + ts[1] && StrLe(ts[0], ts[1]))
      && (n >= 3 ==> SummaryTitle(ts) == "All-day: " + ts[0] + ", " + ts[1] + ", +" + IntToString(n - 2) + " more"
                     && ParseInt(IntToString(n - 2)) == Some(n - 2))
      && (forall t :: t in ts ==> t != [] && exists e :: e in allDay && Strip(e.title) == t)
  {
    var ts := SortedTitles(allDay);
    assert |ts| == |multiset(ts)| == |multiset(NonBlankTitles(allDay))|;
    ParseIntOfIntToString(|ts| - 2);
    NonBlankTitlesFrom(allDay);
    forall t | t in ts ensures t in NonBlankTitles(allDay) {
      assert t in multiset(ts);
    }
  }

  lemma {:induction false} NonBlankTitlesFrom(allDay: seq<Event>)
    ensures forall t :: t in NonBlankTitles(allDay) ==> exists e :: e in allDay && Strip(e.title) == t
  {
    if allDay != [] {
      NonBlankTitlesFrom(allDay[1..]);
      forall t | t in NonBlankTitles(allDay) ensures exists e :: e in allDay && Strip(e.title) == t {
        if t in NonBlankTitles(allDay[1..]) {
          var e :| e in allDay[1..] && Strip(e.title) == t;
          assert e in allDay;
        } else {
          assert allDay[0] in allDay;
        }
      }
    }
  }
}
