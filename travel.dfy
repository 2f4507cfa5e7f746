/**
 * `TravelTimeResolver` (src/inkycal/travel.py): a memo in front of two
 * network services. Geocoding (address -> coordinates) and routing
 * (coordinates -> driving seconds) are the oracles `geocoder` and `router`;
 * `None` stands for every failure the source catches (HTTP errors, empty
 * results, malformed JSON).
 */
module Travel {
  import opened Wrappers
  import opened Text

  datatype TravelEstimate = TravelEstimate(minutes: int, text: string)

  /** A geocoded `(lat, lon)` pair; the source's floats are opaque here. */
  datatype Coordinates = Coordinates(lat: int, lon: int)

  /** `_normalize`: trim, lower-case, collapse whitespace runs to one space. */
  function Normalize(value: string): (r: string)
    ensures IsNormalized(r)
  {
    NormalizeSpacesShape(value);
    NormalizeSpaces(value)
  }

  /** Normalising twice is normalising once. */
  lemma NormalizeIdempotent(value: string)
    ensures Normalize(Normalize(value)) == Normalize(value)
  {
    NormalizeSpacesIdempotent(value);
  }

  /** Python's `round(seconds / 60)` for whole seconds: halves go to the even neighbour. */
  function RoundMinutes(seconds: int): int {
    var q, rem := seconds / 60, seconds % 60;
    if rem < 30 then q
    else if rem > 30 then q + 1
    else if q % 2 == 0 then q
    else q + 1
  }

  lemma RoundMinutesNearest(seconds: int)
    ensures var m := RoundMinutes(seconds); -30 <= seconds - 60 * m <= 30
  {
  }

  /** `max(1, round(seconds / 60))` minutes, shown as `"{minutes} min"`. */
  function RouteEstimate(seconds: int): (e: TravelEstimate)
    ensures e.minutes >= 1
    ensures e.minutes == RoundMinutes(seconds) || (e.minutes == 1 && RoundMinutes(seconds) < 1)
    ensures e.text == IntToString(e.minutes) + " min"
  {
    var m := RoundMinutes(seconds);
    var minutes := if m < 1 then 1 else m;
    TravelEstimate(minutes, NatToString(minutes) + " min")
  }

  /** The estimate for two equal normalised addresses. */
  const ZeroEstimate := TravelEstimate(0, "0 min")

  /** Geocode both ends, then route; `None` if any step fails. */
  function Lookup(geocoder: string -> Option<Coordinates>,
                  router: (Coordinates, Coordinates) -> Option<int>,
                  origin: string, destination: string): Option<TravelEstimate>
  {
    var a, b := geocoder(origin), geocoder(destination);
    if a.None? || b.None? then None
    else
      match router(a.value, b.value)
      case None => None
      case Some(seconds) => Some(RouteEstimate(seconds))
  }

  /** What is stored under a normalised `(origin, destination)` key. */
  function Uncached(geocoder: string -> Option<Coordinates>,
                    router: (Coordinates, Coordinates) -> Option<int>,
                    origin: string, destination: string): Option<TravelEstimate>
  {
    if origin == destination then Some(ZeroEstimate) else Lookup(geocoder, router, origin, destination)
  }

  /** What `estimate(origin, destination)` answers, as if nothing were cached. */
  function EstimateFor(geocoder: string -> Option<Coordinates>,
                       router: (Coordinates, Coordinates) -> Option<int>,
                       origin: string, destination: string): Option<TravelEstimate>
  {
    var o, d := Normalize(origin), Normalize(destination);
    if o == "" || d == "" then None else Uncached(geocoder, router, o, d)
  }

  /**
   * Blank inputs give nothing, equal normalised addresses give zero minutes,
   * and any other estimate is a routed one of at least one minute whose text
   * is `"{minutes} min"`.
   */
  lemma EstimateForCases(geocoder: string -> Option<Coordinates>,
                         router: (Coordinates, Coordinates) -> Option<int>,
                         origin: string, destination: string)
    ensures var r := EstimateFor(geocoder, router, origin, destination);
      var o, d := Normalize(origin), Normalize(destination);
      && (o == "" || d == "" ==> r == None)
      && (o != "" && o == d ==> r == Some(ZeroEstimate))
      && (o != "" && d != "" && o != d && r.Some? ==>
            && r.value.minutes >= 1
            && r.value.text == IntToString(r.value.minutes) + " min"
            && geocoder(o).Some? && geocoder(d).Some?
            && router(geocoder(o).value, geocoder(d).value).Some?)
      && (r.Some? ==> r.value.minutes >= 0)
  {
  }

  /** The resolver answers the same for addresses that normalise alike. */
  lemma EstimateForNormalizes(geocoder: string -> Option<Coordinates>,
                              router: (Coordinates, Coordinates) -> Option<int>,
                              origin: string, destination: string)
    ensures EstimateFor(geocoder, router, Normalize(origin), Normalize(destination))
         == EstimateFor(geocoder, router, origin, destination)
  {
    NormalizeIdempotent(origin);
    NormalizeIdempotent(destination);
  }

  class TravelTimeResolver {
    const geocoder: string -> Option<Coordinates>
    const router: (Coordinates, Coordinates) -> Option<int>
    var geocodeCache: map<string, Option<Coordinates>>
    var durationCache: map<(string, string), Option<TravelEstimate>>
    /** Every address handed to the geocoder, in order. */
    ghost var lookups: seq<string>
    /** Every coordinate pair handed to the router, in order. */
    ghost var routes: seq<(Coordinates, Coordinates)>

    /** Every cached answer, including a cached failure, is the one the services give. */
    ghost predicate Valid()
      reads this
    {
      && (forall a :: a in geocodeCache ==> geocodeCache[a] == geocoder(a))
      && (forall k :: k in durationCache ==> durationCache[k] == Uncached(geocoder, router, k.0, k.1))
    }

    constructor (geocoder: string -> Option<Coordinates>, router: (Coordinates, Coordinates) -> Option<int>)
      ensures Valid()
      ensures this.geocoder == geocoder && this.router == router
      ensures geocodeCache == map[] && durationCache == map[]
      ensures lookups == [] && routes == []
    {
      this.geocoder := geocoder;
      this.router := router;
      geocodeCache := map[];
      durationCache := map[];
      lookups := [];
      routes := [];
    }

    /** `_geocode`: answer from the cache, or ask the service and remember the answer, failure included. */
    method Geocode(address: string) returns (r: Option<Coordinates>)
      requires Valid()
      modifies this`geocodeCache, this`lookups
      ensures Valid()
      ensures r == geocoder(address)
      ensures address in old(geocodeCache) ==> geocodeCache == old(geocodeCache) && lookups == old(lookups)
      ensures address !in old(geocodeCache) ==> lookups == old(lookups) + [address]
      ensures geocodeCache == old(geocodeCache)[address := r]
    {
      if address in geocodeCache {
        r := geocodeCache[address];
        assert geocodeCache == geocodeCache[address := r];
        return;
      }
      r := geocoder(address);
      lookups := lookups + [address];
      geocodeCache := geocodeCache[address := r];
    }

    /** The cached part of `estimate`, for a key of two non-empty normalised addresses. */
    method Resolve(key: (string, string)) returns (r: Option<TravelEstimate>)
      requires Valid()
      modifies this
      ensures Valid()
      ensures r == Uncached(geocoder, router, key.0, key.1)
      ensures durationCache == old(durationCache)[key := r]
      ensures key in old(durationCache) ==> r == old(durationCache)[key] && geocodeCache == old(geocodeCache)
      ensures key in old(durationCache) || key.0 == key.1 ==> lookups == old(lookups) && routes == old(routes)
      ensures key !in old(durationCache) && key.0 == key.1 ==> geocodeCache == old(geocodeCache)
      ensures key !in old(durationCache) && key.0 != key.1 ==>
        && geocodeCache == old(geocodeCache)[key.0 := geocoder(key.0)][key.1 := geocoder(key.1)]
        && lookups == old(lookups) + (if key.0 in old(geocodeCache) then [] else [key.0])
                                   + (if key.1 in old(geocodeCache) then [] else [key.1])
        && routes == old(routes) + (if geocoder(key.0).Some? && geocoder(key.1).Some?
                                    then [(geocoder(key.0).value, geocoder(key.1).value)] else [])
    {
      if key in durationCache {
        r := durationCache[key];
        assert durationCache == durationCache[key := r];
        return;
      }
      if key.0 == key.1 {
        r := Some(ZeroEstimate);
        durationCache := durationCache[key := r];
        return;
      }
      r := Route(key.0, key.1);
      durationCache := durationCache[key := r];
    }

    /** The uncached branch of `estimate` for two different addresses: geocode both, then route. */
    method Route(origin: string, destination: string) returns (r: Option<TravelEstimate>)
      requires Valid()
      requires origin != destination
      modifies this`geocodeCache, this`lookups, this`routes
      ensures Valid()
      ensures r == Uncached(geocoder, router, origin, destination)
      ensures geocodeCache == old(geocodeCache)[origin := geocoder(origin)][destination := geocoder(destination)]
      ensures lookups == old(lookups) + (if origin in old(geocodeCache) then [] else [origin])
                                      + (if destination in old(geocodeCache) then [] else [destination])
      ensures routes == old(routes) + (if geocoder(origin).Some? && geocoder(destination).Some?
                                       then [(geocoder(origin).value, geocoder(destination).value)] else [])
    {
      var originCoords := Geocode(origin);
      var destinationCoords := Geocode(destination);
      if originCoords.None? || destinationCoords.None? {
        r := None;
      } else {
        var seconds := router(originCoords.value, destinationCoords.value);
        routes := routes + [(originCoords.value, destinationCoords.value)];
        r := if seconds.None? then None else Some(RouteEstimate(seconds.value));
      }
    }

    /**
     * `estimate`: blank inputs are answered `None` without touching the
     * caches or the services; otherwise the answer for the normalised pair is
     * cached, and an entry once cached is never replaced and is answered
     * without asking either service again.
     */
    method Estimate(origin: string, destination: string) returns (r: Option<TravelEstimate>)
      requires Valid()
      modifies this
      ensures Valid()
      ensures r == EstimateFor(geocoder, router, origin, destination)
      ensures Normalize(origin) == "" || Normalize(destination) == "" ==>
        durationCache == old(durationCache) && geocodeCache == old(geocodeCache)
      ensures Normalize(origin) == "" || Normalize(destination) == "" ==>
        lookups == old(lookups) && routes == old(routes)
      ensures (Normalize(origin), Normalize(destination)) in old(durationCache) ==>
        lookups == old(lookups) && routes == old(routes)
      ensures Normalize(origin) != "" && Normalize(destination) != "" ==>
        durationCache == old(durationCache)[(Normalize(origin), Normalize(destination)) := r]
      ensures forall k :: k in old(durationCache) ==> k in durationCache && durationCache[k] == old(durationCache)[k]
    {
      var originNorm := Normalize(origin);
      var destinationNorm := Normalize(destination);
      if originNorm == "" || destinationNorm == "" {
        return None;
      }
      r := Resolve((originNorm, destinationNorm));
    }
  }
}
