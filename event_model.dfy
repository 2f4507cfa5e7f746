/**
 * The calendar event record and the display order shared by every stage of
 * the pipeline in `main.py`.
 */
module EventModel {
  import opened Wrappers
  import opened Text
  import Sorting

  /**
   * A timezone-aware `datetime`: the instant in seconds since the epoch and
   * the UTC offset in seconds. Python compares aware datetimes by instant;
   * `isoformat()` also shows the offset, so two datetimes at the same
   * instant with different offsets have different ISO strings.
   */
  datatype DateTime = DateTime(seconds: int, offset: int)

  /** The frozen `Event` dataclass. */
  datatype Event = Event(
    source: string,
    title: string,
    start: DateTime,
    end: DateTime,
    allDay: bool,
    location: Option<string>,
    travelTimeText: Option<string>)

  /** Python truthiness of an optional string: neither `None` nor `""`. */
  predicate Present(value: Option<string>) {
    value.Some? && value.value != ""
  }

  /** `_normalize_text`: `None` and `""` give `""`, otherwise whitespace-collapsed, trimmed, lower case. */
  function NormalizeText(value: Option<string>): (r: string)
    ensures IsNormalized(r)
    ensures !Present(value) ==> r == ""
  {
    if !Present(value) then ""
    else
      NormalizeSpacesShape(value.value);
      NormalizeSpaces(value.value)
  }

  /** A missing location and an empty one normalise alike. */
  lemma NoneAndEmptyNormalizeAlike()
    ensures NormalizeText(None) == NormalizeText(Some("")) == ""
  {
  }

  /** First component of `_event_sort_key`: all-day events come first. */
  function Rank(e: Event): int {
    if e.allDay then 0 else 1
  }

  /**
   * `_event_sort_key(a) <= _event_sort_key(b)`: the tuple
   * (0 if all-day else 1, start instant, lower-cased title), compared left to right.
   */
  predicate EventLe(a: Event, b: Event) {
    || Rank(a) < Rank(b)
    || (Rank(a) == Rank(b) && a.start.seconds < b.start.seconds)
    || (Rank(a) == Rank(b) && a.start.seconds == b.start.seconds && StrLe(Lower(a.title), Lower(b.title)))
  }

  lemma EventLeTotalPreorder()
    ensures Sorting.TotalPreorder(EventLe)
  {
    forall a, b ensures EventLe(a, b) || EventLe(b, a) {
      StrLeTotal(Lower(a.title), Lower(b.title));
    }
    forall a, b, c | EventLe(a, b) && EventLe(b, c) ensures EventLe(a, c) {
      if Rank(a) == Rank(b) == Rank(c) && a.start.seconds == b.start.seconds == c.start.seconds {
        StrLeTransitive(Lower(a.title), Lower(b.title), Lower(c.title));
      }
    }
  }

  /** `sorted(events, key=_event_sort_key)`. */
  function SortEvents(events: seq<Event>): (r: seq<Event>)
    ensures multiset(r) == multiset(events)
    ensures Sorting.SortedBy(r, EventLe)
  {
    EventLeTotalPreorder();
    Sorting.SortBySorted(events, EventLe);
    Sorting.SortBy(events, EventLe)
  }
}
