/**
 * `_events_signature` (src/inkycal/main.py): the payload of everything that
 * affects the drawing, hashed to detect changes.
 */
module Signature {
  import opened Wrappers
  import opened JsonValue
  import opened EventModel

  // ------------------------------------------------------------ _events_signature

  /**
   * `_event_payload`: the fields that affect drawing. Start and end are
   * rendered in the one display zone of the run, so the ISO text there is
   * determined by the instant.
   */
  datatype EventPayload = EventPayload(
    source: string, title: string, start: int, end: int, allDay: bool,
    location: string, travelTimeText: string)

  /** The UPS part of the payload, with the `.get` defaults applied. */
  datatype UpsPayload = UpsPayload(present: Json, status: Json, capacity: Json, online: Json)

  datatype SignaturePayload = SignaturePayload(
    headerDate: string, sleepBanner: bool, wifiStatus: string, ups: UpsPayload,
    events: seq<EventPayload>, tomorrowEvents: seq<EventPayload>)

  /** `value or ""`. */
  function OrEmpty(value: Option<string>): (r: string)
    ensures value.Some? ==> r == value.value
    ensures value.None? ==> r == ""
  {
    if value.Some? then value.value else ""
  }

  function EventPayloadOf(e: Event): EventPayload {
    EventPayload(e.source, e.title, e.start.seconds, e.end.seconds, e.allDay,
                 OrEmpty(e.location), OrEmpty(e.travelTimeText))
  }

  function UpsPayloadOf(ups: map<string, Json>): UpsPayload {
    UpsPayload(Get(ups, "present", Bool(false)), Get(ups, "status", Str("")),
               Get(ups, "capacity", Null), Get(ups, "online", Null))
  }

  function PayloadsOf(events: seq<Event>): (r: seq<EventPayload>)
    ensures |r| == |events|
    ensures forall i :: 0 <= i < |events| ==> r[i] == EventPayloadOf(events[i])
  {
    seq(|events|, i requires 0 <= i < |events| => EventPayloadOf(events[i]))
  }

  /** The JSON serialisation followed by SHA-256, as one function of the payload. */
  type Hasher = SignaturePayload -> string

  /** `_events_signature`. */
  function EventsSignature(hash: Hasher, events: seq<Event>, tomorrowEvents: seq<Event>, headerDate: string,
                           sleepBanner: bool, wifiStatus: string, ups: map<string, Json>): string
  {
    hash(SignaturePayload(headerDate, sleepBanner, wifiStatus, UpsPayloadOf(ups),
                          PayloadsOf(events), PayloadsOf(tomorrowEvents)))
  }

  /** Two events look the same on screen: every drawn field agrees, with `None` read as `""`. */
  predicate DrawnAlike(a: Event, b: Event) {
    && a.source == b.source && a.title == b.title
    && a.start.seconds == b.start.seconds && a.end.seconds == b.end.seconds
    && a.allDay == b.allDay
    && OrEmpty(a.location) == OrEmpty(b.location)
    && OrEmpty(a.travelTimeText) == OrEmpty(b.travelTimeText)
  }

  predicate AllDrawnAlike(a: seq<Event>, b: seq<Event>) {
    |a| == |b| && forall i :: 0 <= i < |a| ==> DrawnAlike(a[i], b[i])
  }

  /** Two events give the same payload exactly when they are drawn alike. */
  lemma EventPayloadExact(a: Event, b: Event)
    ensures EventPayloadOf(a) == EventPayloadOf(b) <==> DrawnAlike(a, b)
  {
  }

  /** UPS maps that agree on the four keys, defaults included, give one payload. */
  lemma UpsPayloadExact(u: map<string, Json>, v: map<string, Json>)
    ensures UpsPayloadOf(u) == UpsPayloadOf(v) <==>
      && Get(u, "present", Bool(false)) == Get(v, "present", Bool(false))
      && Get(u, "status", Str("")) == Get(v, "status", Str(""))
      && Get(u, "capacity", Null) == Get(v, "capacity", Null)
      && Get(u, "online", Null) == Get(v, "online", Null)
    ensures UpsPayloadOf(map[]) == UpsPayload(Bool(false), Str(""), Null, Null)
  {
  }

  /** The signature depends only on what is drawn: everything else can change freely. */
  lemma SignatureOnlyDrawn(hash: Hasher, events1: seq<Event>, events2: seq<Event>,
                           tomorrow1: seq<Event>, tomorrow2: seq<Event>, headerDate: string,
                           sleepBanner: bool, wifiStatus: string, ups1: map<string, Json>, ups2: map<string, Json>)
    requires AllDrawnAlike(events1, events2) && AllDrawnAlike(tomorrow1, tomorrow2)
    requires UpsPayloadOf(ups1) == UpsPayloadOf(ups2)
    ensures EventsSignature(hash, events1, tomorrow1, headerDate, sleepBanner, wifiStatus, ups1)
         == EventsSignature(hash, events2, tomorrow2, headerDate, sleepBanner, wifiStatus, ups2)
  {
    assert PayloadsOf(events1) == PayloadsOf(events2);
    assert PayloadsOf(tomorrow1) == PayloadsOf(tomorrow2);
  }

  ghost predicate Injective(hash: Hasher) {
    forall p, q :: hash(p) == hash(q) ==> p == q
  }

  /**
   * With a hash that has no collisions the converse holds too: equal
   * signatures mean the same header, banner flag, Wi-Fi text, UPS payload and
   * drawn events.
   */
  lemma SignatureDetectsChange(hash: Hasher, events1: seq<Event>, events2: seq<Event>,
                               tomorrow1: seq<Event>, tomorrow2: seq<Event>,
                               headerDate1: string, headerDate2: string, sleepBanner1: bool, sleepBanner2: bool,
                               wifiStatus1: string, wifiStatus2: string,
                               ups1: map<string, Json>, ups2: map<string, Json>)
    requires Injective(hash)
    requires EventsSignature(hash, events1, tomorrow1, headerDate1, sleepBanner1, wifiStatus1, ups1)
          == EventsSignature(hash, events2, tomorrow2, headerDate2, sleepBanner2, wifiStatus2, ups2)
    ensures headerDate1 == headerDate2 && sleepBanner1 == sleepBanner2 && wifiStatus1 == wifiStatus2
    ensures UpsPayloadOf(ups1) == UpsPayloadOf(ups2)
    ensures AllDrawnAlike(events1, events2) && AllDrawnAlike(tomorrow1, tomorrow2)
  {
    var p1, p2 := PayloadsOf(events1), PayloadsOf(events2);
    var q1, q2 := PayloadsOf(tomorrow1), PayloadsOf(tomorrow2);
    assert p1 == p2 && q1 == q2;
    forall i | 0 <= i < |events1| ensures DrawnAlike(events1[i], events2[i]) {
      assert p1[i] == p2[i];
    }
    forall i | 0 <= i < |tomorrow1| ensures DrawnAlike(tomorrow1[i], tomorrow2[i]) {
      assert q1[i] == q2[i];
    }
  }
}
