/**
 * `_dedupe_events` (src/inkycal/main.py): sort the events into display order,
 * then keep the first event for each exact key (normalised title, start,
 * end, all-day flag, normalised location).
 */
module Dedupe {
  import opened Wrappers
  import opened EventModel
  import Sorting

  /** The tuple the source puts in its `seen` set; `isoformat()` is injective, so the datetimes stand for it. */
  datatype DedupeKey = DedupeKey(title: string, start: DateTime, end: DateTime, allDay: bool, location: string)

  function KeyOf(e: Event): DedupeKey {
    DedupeKey(NormalizeText(Some(e.title)), e.start, e.end, e.allDay, NormalizeText(e.location))
  }

  function KeySet(s: seq<Event>): set<DedupeKey> {
    set e | e in s :: KeyOf(e)
  }

  lemma KeySetSnoc(s: seq<Event>, x: Event)
    ensures KeySet(s + [x]) == KeySet(s) + {KeyOf(x)}
  {
    assert forall e :: e in s + [x] <==> e in s || e == x;
  }

  lemma KeySetLast(s: seq<Event>)
    requires s != []
    ensures KeySet(s) == KeySet(s[..|s| - 1]) + {KeyOf(s[|s| - 1])}
  {
    assert s == s[..|s| - 1] + [s[|s| - 1]];
    KeySetSnoc(s[..|s| - 1], s[|s| - 1]);
  }

  /** The events whose key did not occur earlier in `s`, in their order in `s`. */
  function KeepFirst(s: seq<Event>): seq<Event> {
    if s == [] then []
    else
      var init, last := s[..|s| - 1], s[|s| - 1];
      if KeyOf(last) in KeySet(init) then KeepFirst(init) else KeepFirst(init) + [last]
  }

  /** One more event of the prefix: kept exactly when its key is new, and its key is now seen. */
  lemma KeepFirstStep(s: seq<Event>, i: nat)
    requires i < |s|
    ensures KeySet(s[..i + 1]) == KeySet(s[..i]) + {KeyOf(s[i])}
    ensures KeepFirst(s[..i + 1]) ==
      if KeyOf(s[i]) in KeySet(s[..i]) then KeepFirst(s[..i]) else KeepFirst(s[..i]) + [s[i]]
  {
    assert s[..i + 1] == s[..i] + [s[i]];
    KeySetSnoc(s[..i], s[i]);
    assert s[..i + 1][..i] == s[..i];
  }

  /** `_dedupe_events`. */
  method DedupeEvents(events: seq<Event>) returns (deduped: seq<Event>)
    ensures deduped == KeepFirst(SortEvents(events))
  {
    var ordered := SortEvents(events);
    deduped := [];
    var seen: set<DedupeKey> := {};
    for i := 0 to |ordered|
      invariant deduped == KeepFirst(ordered[..i])
      invariant seen == KeySet(ordered[..i])
    {
      var e := ordered[i];
      var key := KeyOf(e);
      KeepFirstStep(ordered, i);
      if key in seen {
        continue;
      }
      seen := seen + {key};
      deduped := deduped + [e];
    }
    assert ordered[..|ordered|] == ordered;
  }

  // ------------------------------------------------------------ properties

  lemma {:induction false} KeepFirstMembers(s: seq<Event>)
    ensures forall e :: e in KeepFirst(s) ==> e in s
  {
    if s != [] {
      KeepFirstMembers(s[..|s| - 1]);
    }
  }

  /** No two kept events share a key. */
  lemma {:induction false} KeepFirstUniqueKeys(s: seq<Event>)
    ensures forall i, j :: 0 <= i < j < |KeepFirst(s)| ==> KeyOf(KeepFirst(s)[i]) != KeyOf(KeepFirst(s)[j])
  {
    if s != [] {
      var init, last := s[..|s| - 1], s[|s| - 1];
      KeepFirstUniqueKeys(init);
      KeepFirstMembers(init);
      var p := KeepFirst(init);
      if KeyOf(last) !in KeySet(init) {
        forall i | 0 <= i < |p| ensures KeyOf(p[i]) != KeyOf(last) {
          assert p[i] in p;
        }
      }
    }
  }

  /** Every key of the input is the key of some kept event, and no other. */
  lemma {:induction false} KeepFirstKeys(s: seq<Event>)
    ensures KeySet(KeepFirst(s)) == KeySet(s)
  {
    if s != [] {
      var init, last := s[..|s| - 1], s[|s| - 1];
      KeepFirstKeys(init);
      KeySetLast(s);
      KeySetSnoc(KeepFirst(init), last);
    }
  }

  /** The first event (in the order of `s`) with each key is the one kept. */
  lemma {:induction false} KeepFirstKeepsFirstOccurrence(s: seq<Event>)
    ensures forall i :: 0 <= i < |s| && KeyOf(s[i]) !in KeySet(s[..i]) ==> s[i] in KeepFirst(s)
  {
    if s != [] {
      var init := s[..|s| - 1];
      KeepFirstKeepsFirstOccurrence(init);
      forall i | 0 <= i < |s| - 1 && KeyOf(s[i]) !in KeySet(s[..i]) ensures s[i] in KeepFirst(s) {
        assert init[i] == s[i] && init[..i] == s[..i];
      }
      assert s[..|s| - 1] == init;
    }
  }

  /** The number of kept events is the number of distinct keys. */
  lemma {:induction false} KeepFirstCount(s: seq<Event>)
    ensures |KeepFirst(s)| == |KeySet(s)|
  {
    if s != [] {
      var init, last := s[..|s| - 1], s[|s| - 1];
      KeepFirstCount(init);
      KeySetLast(s);
      var before, k := KeySet(init), KeyOf(last);
      if k in before {
        assert KeySet(s) == before;
      } else {
        assert |before + {k}| == |before| + 1;
      }
    }
  }

  /** An input that is in order stays in order. */
  lemma {:induction false} KeepFirstSorted(s: seq<Event>)
    requires Sorting.SortedBy(s, EventLe)
    ensures Sorting.SortedBy(KeepFirst(s), EventLe)
  {
    if s != [] {
      var init, last := s[..|s| - 1], s[|s| - 1];
      KeepFirstSorted(init);
      KeepFirstMembers(init);
      var p := KeepFirst(init);
      forall i | 0 <= i < |p| ensures EventLe(p[i], last) {
        assert p[i] in init;
        var k :| 0 <= k < |init| && init[k] == p[i];
        assert s[k] == p[i];
      }
    }
  }

  /** Without repeated keys nothing is dropped. */
  lemma {:induction false} KeepFirstOfUnique(s: seq<Event>)
    requires forall i, j :: 0 <= i < j < |s| ==> KeyOf(s[i]) != KeyOf(s[j])
    ensures KeepFirst(s) == s
  {
    if s != [] {
      var init, last := s[..|s| - 1], s[|s| - 1];
      assert s == init + [last];
      assert forall i, j :: 0 <= i < j < |init| ==> init[i] == s[i] && init[j] == s[j];
      KeepFirstOfUnique(init);
      forall e | e in init ensures KeyOf(e) != KeyOf(last) {
        var k :| 0 <= k < |init| && init[k] == e;
        assert s[k] == e;
      }
      assert KeyOf(last) !in KeySet(init);
    }
  }

  /**
   * What `_dedupe_events` returns, all at once: display order, one event per
   * key, every input key represented by the first event with that key in
   * display order, and nothing that was not in the input.
   */
  lemma DedupeProperties(events: seq<Event>)
    ensures var r := KeepFirst(SortEvents(events));
      && Sorting.SortedBy(r, EventLe)
      && (forall i, j :: 0 <= i < j < |r| ==> KeyOf(r[i]) != KeyOf(r[j]))
      && KeySet(r) == KeySet(events)
      && (forall e :: e in r ==> e in events)
      && |r| == |KeySet(events)|
      && (forall i :: 0 <= i < |events| && KeyOf(SortEvents(events)[i]) !in KeySet(SortEvents(events)[..i])
            ==> SortEvents(events)[i] in r)
  {
    var sorted := SortEvents(events);
    KeepFirstSorted(sorted);
    KeepFirstUniqueKeys(sorted);
    KeepFirstKeys(sorted);
    KeepFirstMembers(sorted);
    KeepFirstCount(sorted);
    KeepFirstKeepsFirstOccurrence(sorted);
    SortedKeySet(events);
    forall e | e in sorted ensures e in events {
      assert e in multiset(sorted);
    }
  }

  lemma SortedKeySet(events: seq<Event>)
    ensures KeySet(SortEvents(events)) == KeySet(events)
  {
    var sorted := SortEvents(events);
    forall e ensures e in sorted <==> e in events {
      assert e in sorted <==> e in multiset(sorted);
      assert e in events <==> e in multiset(events);
    }
  }

  /** Deduplicating an already deduplicated list changes nothing. */
  lemma DedupeIdempotent(events: seq<Event>)
    ensures KeepFirst(SortEvents(KeepFirst(SortEvents(events)))) == KeepFirst(SortEvents(events))
  {
    var r := KeepFirst(SortEvents(events));
    DedupeProperties(events);
    Sorting.SortByOfSorted(r, EventLe);
    KeepFirstOfUnique(r);
  }

  /**
   * Two events collapse to one exactly when their keys agree: so titles that
   * differ only in case or spacing collapse, while the same title and time
   * at two different normalised locations are both kept.
   */
  lemma DedupePair(a: Event, b: Event)
    ensures |KeepFirst(SortEvents([a, b]))| == (if KeyOf(a) == KeyOf(b) then 1 else 2)
  {
    var sorted := SortEvents([a, b]);
    KeepFirstCount(sorted);
    SortedKeySet([a, b]);
    KeySetPair(a, b);
    PairSize(KeyOf(a), KeyOf(b));
  }

  lemma PairSize(ka: DedupeKey, kb: DedupeKey)
    ensures |{ka, kb}| == if ka == kb then 1 else 2
  {
    if ka == kb {
      assert {ka, kb} == {ka};
    } else {
      assert {ka, kb} == {ka} + {kb};
    }
  }

  lemma KeySetPair(a: Event, b: Event)
    ensures KeySet([a, b]) == {KeyOf(a), KeyOf(b)}
  {
    assert forall e :: e in [a, b] <==> e == a || e == b;
  }

  /** A missing location and an empty one do not keep two otherwise equal events apart. */
  lemma DedupeNoneLocationIsEmpty(a: Event)
    ensures |KeepFirst(SortEvents([a.(location := None), a.(location := Some(""))]))| == 1
  {
    DedupePair(a.(location := None), a.(location := Some("")));
  }
}
