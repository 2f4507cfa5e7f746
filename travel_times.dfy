/**
 * `_apply_travel_times` and `_process_events` (src/inkycal/main.py): after
 * deduplication and the all-day merge, every timed event with a location is
 * annotated with the drive time to it. The drive starts at the configured
 * origin, or at the previous timed event's location when that event ended no
 * more than the back-to-back window before this one starts.
 */
module TravelTimes {
  import opened Wrappers
  import opened EventModel
  import opened Travel
  import Dedupe
  import AllDayMerge

  /** The answer of a resolver as a function of the two addresses. */
  type Estimator = (string, string) -> Option<TravelEstimate>

  /** A fresh `TravelTimeResolver` over the two services answers as this function does. */
  function ResolverEstimator(geocoder: string -> Option<Coordinates>,
                             router: (Coordinates, Coordinates) -> Option<int>): Estimator
  {
    (origin: string, destination: string) => EstimateFor(geocoder, router, origin, destination)
  }

  /** Where the drive to `e` starts, given the last timed event before it. */
  function OriginFor(previous: Option<Event>, e: Event, originAddress: string, windowMinutes: int): string {
    if previous.Some?
       && e.start.seconds - previous.value.end.seconds <= windowMinutes * 60
       && Present(previous.value.location)
    then previous.value.location.value
    else originAddress
  }

  /** `"Travel: {estimate.text}"` when `e` has a location and an estimate exists. */
  function TravelText(estimate: Estimator, origin: string, e: Event): Option<string> {
    if !Present(e.location) then None
    else
      match estimate(origin, e.location.value)
      case None => None
      case Some(x) => Some("Travel: " + x.text)
  }

  /** A copy of `e` whose travel text is computed afresh; nothing else changes. */
  function Annotate(e: Event, origin: string, estimate: Estimator): Event {
    e.(travelTimeText := TravelText(estimate, origin, e))
  }

  /** The loop of `_apply_travel_times` from a point where `previous` was the last timed event seen. */
  function AnnotateFrom(events: seq<Event>, previous: Option<Event>, originAddress: string,
                        windowMinutes: int, estimate: Estimator): seq<Event>
    decreases |events|
  {
    if events == [] then []
    else
      var e := events[0];
      if e.allDay then [e] + AnnotateFrom(events[1..], previous, originAddress, windowMinutes, estimate)
      else
        [Annotate(e, OriginFor(previous, e, originAddress, windowMinutes), estimate)]
          + AnnotateFrom(events[1..], Some(e), originAddress, windowMinutes, estimate)
  }

  /** What `_apply_travel_times` returns: the input itself when no origin is configured. */
  function TravelSpec(events: seq<Event>, originAddress: string, windowMinutes: int,
                      estimate: Estimator): seq<Event>
  {
    if originAddress == "" then events else AnnotateFrom(events, None, originAddress, windowMinutes, estimate)
  }

  /** `_apply_travel_times`, with one fresh resolver for the whole list. */
  method ApplyTravelTimes(events: seq<Event>, originAddress: string, windowMinutes: int,
                          geocoder: string -> Option<Coordinates>,
                          router: (Coordinates, Coordinates) -> Option<int>)
    returns (processed: seq<Event>)
    ensures processed == TravelSpec(events, originAddress, windowMinutes, ResolverEstimator(geocoder, router))
  {
    var estimate := ResolverEstimator(geocoder, router);
    if originAddress == "" {
      return events;
    }
    var resolver := new TravelTimeResolver(geocoder, router);
    processed := [];
    var previous: Option<Event> := None;
    assert events[0..] == events;
    for i := 0 to |events|
      invariant resolver.Valid() && resolver.geocoder == geocoder && resolver.router == router
      invariant processed + AnnotateFrom(events[i..], previous, originAddress, windowMinutes, estimate)
             == AnnotateFrom(events, None, originAddress, windowMinutes, estimate)
    {
      var e := events[i];
      AnnotateFromStep(events, i, previous, originAddress, windowMinutes, estimate);
      if e.allDay {
        assert (processed + [e]) + AnnotateFrom(events[i + 1..], previous, originAddress, windowMinutes, estimate)
            == processed + ([e] + AnnotateFrom(events[i + 1..], previous, originAddress, windowMinutes, estimate));
        processed := processed + [e];
        continue;
      }
      var annotated := AnnotateWith(resolver, previous, e, originAddress, windowMinutes);
      assert (processed + [annotated]) + AnnotateFrom(events[i + 1..], Some(e), originAddress, windowMinutes, estimate)
          == processed + ([annotated] + AnnotateFrom(events[i + 1..], Some(e), originAddress, windowMinutes, estimate));
      processed := processed + [annotated];
      previous := Some(e);
    }
  }

  /** The body of the loop in `_apply_travel_times` for a timed event: pick the origin, ask the resolver. */
  method AnnotateWith(resolver: TravelTimeResolver, previous: Option<Event>, e: Event,
                      originAddress: string, windowMinutes: int)
    returns (annotated: Event)
    requires resolver.Valid()
    modifies resolver
    ensures resolver.Valid()
    ensures annotated == Annotate(e, OriginFor(previous, e, originAddress, windowMinutes),
                                  ResolverEstimator(resolver.geocoder, resolver.router))
  {
    var origin := originAddress;
    if previous.Some? {
      var gap := e.start.seconds - previous.value.end.seconds;
      if gap <= windowMinutes * 60 && Present(previous.value.location) {
        origin := previous.value.location.value;
      }
    }
    var travelText: Option<string> := None;
    if Present(e.location) {
      var x := resolver.Estimate(origin, e.location.value);
      if x.Some? {
        travelText := Some("Travel: " + x.value.text);
      }
    }
    annotated := e.(travelTimeText := travelText);
  }

  /** One turn of the loop in `_apply_travel_times`. */
  lemma AnnotateFromStep(events: seq<Event>, i: int, previous: Option<Event>, originAddress: string,
                         windowMinutes: int, estimate: Estimator)
    requires 0 <= i < |events|
    ensures var e := events[i];
      AnnotateFrom(events[i..], previous, originAddress, windowMinutes, estimate)
        == if e.allDay then [e] + AnnotateFrom(events[i + 1..], previous, originAddress, windowMinutes, estimate)
           else [Annotate(e, OriginFor(previous, e, originAddress, windowMinutes), estimate)]
                  + AnnotateFrom(events[i + 1..], Some(e), originAddress, windowMinutes, estimate)
  {
    assert events[i..][1..] == events[i + 1..];
  }

  // ------------------------------------------------------------ properties

  /** The last timed event of `s`, if any. */
  function LastTimed(s: seq<Event>): (r: Option<Event>)
    ensures r.Some? ==> r.value in s && !r.value.allDay
  {
    if s == [] then None
    else if !s[|s| - 1].allDay then Some(s[|s| - 1])
    else LastTimed(s[..|s| - 1])
  }

  lemma {:induction false} LastTimedCons(x: Event, s: seq<Event>)
    ensures LastTimed([x] + s)
         == if LastTimed(s).Some? then LastTimed(s) else if !x.allDay then Some(x) else None
  {
    if s != [] {
      assert ([x] + s)[..|s|] == [x] + s[..|s| - 1];
      LastTimedCons(x, s[..|s| - 1]);
    }
  }

  /** No event is lost or added, and each keeps its place. */
  lemma {:induction false} AnnotateFromLength(events: seq<Event>, previous: Option<Event>, originAddress: string,
                                             windowMinutes: int, estimate: Estimator)
    ensures |AnnotateFrom(events, previous, originAddress, windowMinutes, estimate)| == |events|
  {
    if events != [] {
      AnnotateFromLength(events[1..], if events[0].allDay then previous else Some(events[0]),
                         originAddress, windowMinutes, estimate);
    }
  }

  /**
   * Event `i` of the output is event `i` of the input if it is all-day, and
   * otherwise that event annotated from the last timed event before it
   * (falling back to `previous` when there is none).
   */
  lemma {:induction false} AnnotateFromAt(events: seq<Event>, previous: Option<Event>, originAddress: string,
                                         windowMinutes: int, estimate: Estimator, i: int)
    requires 0 <= i < |events|
    ensures |AnnotateFrom(events, previous, originAddress, windowMinutes, estimate)| == |events|
    ensures var before := if LastTimed(events[..i]).Some? then LastTimed(events[..i]) else previous;
      AnnotateFrom(events, previous, originAddress, windowMinutes, estimate)[i]
        == if events[i].allDay then events[i]
           else Annotate(events[i], OriginFor(before, events[i], originAddress, windowMinutes), estimate)
    decreases i
  {
    AnnotateFromLength(events, previous, originAddress, windowMinutes, estimate);
    if i > 0 {
      var next := if events[0].allDay then previous else Some(events[0]);
      var rest := events[1..];
      AnnotateFromAt(rest, next, originAddress, windowMinutes, estimate, i - 1);
      assert events[..i] == [events[0]] + rest[..i - 1];
      LastTimedCons(events[0], rest[..i - 1]);
    }
  }

  /**
   * `_apply_travel_times` keeps every event in place: all-day events pass
   * through untouched; a timed event keeps every field but the travel text,
   * which is `"Travel: " + text` exactly when the event has a location and
   * the resolver gives an estimate from the origin chosen for it. That
   * origin is the previous timed event's location when that event had one
   * and ended at most the window before this one starts, and the configured
   * origin otherwise. With no configured origin nothing changes.
   */
  lemma TravelSpecAt(events: seq<Event>, originAddress: string, windowMinutes: int,
                     estimate: Estimator, i: int)
    requires 0 <= i < |events|
    ensures var r := TravelSpec(events, originAddress, windowMinutes, estimate);
      var e := events[i];
      var previous := LastTimed(events[..i]);
      var origin := OriginFor(previous, e, originAddress, windowMinutes);
      && |r| == |events|
      && (originAddress == "" || e.allDay ==> r[i] == e)
      && (originAddress != "" && !e.allDay ==>
            && r[i] == e.(travelTimeText := r[i].travelTimeText)
            && (r[i].travelTimeText.Some? <==> Present(e.location) && estimate(origin, e.location.value).Some?)
            && (r[i].travelTimeText.Some? ==>
                  r[i].travelTimeText.value == "Travel: " + estimate(origin, e.location.value).value.text)
            && (origin != originAddress ==>
                  && previous.Some? && Present(previous.value.location)
                  && origin == previous.value.location.value
                  && e.start.seconds - previous.value.end.seconds <= windowMinutes * 60))
  {
    if originAddress != "" {
      AnnotateFromAt(events, None, originAddress, windowMinutes, estimate, i);
    }
  }

  /** `_process_events`: deduplicate, merge all-day events, then add travel times if enabled. */
  method ProcessEvents(events: seq<Event>, travelEnabled: bool, originAddress: string, windowMinutes: int,
                       geocoder: string -> Option<Coordinates>,
                       router: (Coordinates, Coordinates) -> Option<int>)
    returns (processed: seq<Event>)
    ensures processed == ProcessSpec(events, travelEnabled, originAddress, windowMinutes,
                                     ResolverEstimator(geocoder, router))
  {
    processed := Dedupe.DedupeEvents(events);
    processed := AllDayMerge.MergeAllDayEvents(processed);
    if travelEnabled {
      processed := ApplyTravelTimes(processed, originAddress, windowMinutes, geocoder, router);
    }
  }

  function ProcessSpec(events: seq<Event>, travelEnabled: bool, originAddress: string, windowMinutes: int,
                       estimate: Estimator): seq<Event>
  {
    var merged := AllDayMerge.MergeAllDayEvents(Dedupe.KeepFirst(SortEvents(events)));
    if travelEnabled then TravelSpec(merged, originAddress, windowMinutes, estimate) else merged
  }

  lemma {:induction false} KeepFirstShorter(s: seq<Event>)
    ensures |Dedupe.KeepFirst(s)| <= |s|
  {
    if s != [] {
      KeepFirstShorter(s[..|s| - 1]);
    }
  }

  /** Travel annotation never adds, drops or reorders events, and leaves all-day events alone. */
  lemma TravelSpecKeepsAllDay(events: seq<Event>, originAddress: string, windowMinutes: int, estimate: Estimator)
    ensures var r := TravelSpec(events, originAddress, windowMinutes, estimate);
      && |r| == |events|
      && forall i :: 0 <= i < |r| ==> r[i].allDay == events[i].allDay && (events[i].allDay ==> r[i] == events[i])
  {
    var r := TravelSpec(events, originAddress, windowMinutes, estimate);
    AnnotateFromLength(events, None, originAddress, windowMinutes, estimate);
    forall i | 0 <= i < |r| ensures r[i].allDay == events[i].allDay && (events[i].allDay ==> r[i] == events[i]) {
      TravelSpecAt(events, originAddress, windowMinutes, estimate, i);
    }
  }

  /**
   * The processed list is never longer than the input, at most its first
   * event is all-day, and an all-day first event is the merged one.
   */
  lemma ProcessSpecShape(events: seq<Event>, travelEnabled: bool, originAddress: string, windowMinutes: int,
                         estimate: Estimator)
    ensures var r := ProcessSpec(events, travelEnabled, originAddress, windowMinutes, estimate);
      && |r| <= |events|
      && (forall i :: 0 < i < |r| ==> !r[i].allDay)
      && (r != [] && r[0].allDay ==> r[0].source == "merged" && r[0].travelTimeText == None)
  {
    var deduped := Dedupe.KeepFirst(SortEvents(events));
    var merged := AllDayMerge.MergeAllDayEvents(deduped);
    MergedShape(events);
    TravelSpecKeepsAllDay(merged, originAddress, windowMinutes, estimate);
  }

  /** The same shape before travel annotation. */
  lemma MergedShape(events: seq<Event>)
    ensures var r := AllDayMerge.MergeAllDayEvents(Dedupe.KeepFirst(SortEvents(events)));
      && |r| <= |events|
      && (forall i :: 0 < i < |r| ==> !r[i].allDay)
      && (r != [] && r[0].allDay ==> r[0].source == "merged" && r[0].travelTimeText == None)
  {
    var sorted := SortEvents(events);
    var deduped := Dedupe.KeepFirst(sorted);
    KeepFirstShorter(sorted);
    AllDayMerge.SplitCounts(deduped);
    AllDayMerge.MergeAllDayAtMostOneAllDay(deduped);
    if AllDayMerge.AllDayEvents(deduped) != [] {
      AllDayMerge.MergeAllDaySummary(deduped);
    } else {
      var r := AllDayMerge.MergeAllDayEvents(deduped);
      AllDayMerge.MergeAllDayWithoutAllDay(deduped);
      if r != [] {
        assert r[0] in AllDayMerge.TimedEvents(deduped);
      }
    }
  }
}
