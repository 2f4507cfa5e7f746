/**
 * `probe_ups` of src/inkycal/ups.py: the power-supply entries under sysfs
 * are ordered batteries first, then by name, and the first one that shows a
 * capacity or a recognised charging status is reported.
 */
module Ups {
  import opened Wrappers
  import opened Text
  import Sorting
  import opened Sysfs

  /**
   * One entry of the power-supply directory: its name, whether it is a
   * directory, and the contents of its `type`, `capacity` and `status` files
   * (`None` when the file cannot be read).
   */
  datatype Supply = Supply(name: string, isDir: bool,
                           typeFile: Option<string>, capacityFile: Option<string>, statusFile: Option<string>)

  /** The normalised dict `{"present", "percent", "power_source"}`. */
  datatype UpsStatus = UpsStatus(present: bool, percent: Option<int>, powerSource: Option<string>)

  const NotPresent := UpsStatus(false, None, None)

  /** `_power_source_from_status`: only "battery", "external" or nothing. */
  function PowerSourceFromStatus(status: string): (r: Option<string>)
    ensures r == None || r == Some("battery") || r == Some("external")
  {
    Classify(Lower(Strip(status)))
  }

  function Classify(normalized: string): (r: Option<string>)
    ensures r == None || r == Some("battery") || r == Some("external")
  {
    if normalized == "" then None
    else if normalized == "discharging" then Some("battery")
    else if normalized in {"charging", "full", "not charging"} then Some("external")
    else None
  }

  /** Which normalised statuses map to which power source, in both directions. */
  lemma PowerSourceCases(status: string)
    ensures var n := Lower(Strip(status));
      && (PowerSourceFromStatus(status) == Some("battery") <==> n == "discharging")
      && (PowerSourceFromStatus(status) == Some("external") <==> n in {"charging", "full", "not charging"})
      && (PowerSourceFromStatus(status) == None <==> n !in {"discharging", "charging", "full", "not charging"})
  {
  }

  /** Surrounding whitespace and letter case do not matter. */
  lemma PowerSourceNormalizes(status: string)
    ensures PowerSourceFromStatus(Lower(Strip(status))) == PowerSourceFromStatus(status)
  {
    var n := Lower(Strip(status));
    LowerKeepsTrimmed(Strip(status));
    LowerIdempotent(Strip(status));
    assert Lower(Strip(n)) == n;
  }

  /** The first element of `sort_key`: 0 for a supply whose type reads "battery". */
  function SupplyRank(s: Supply): int {
    if Lower(ReadText(s.typeFile)) == "battery" then 0 else 1
  }

  /** The order of `sorted(supplies)`: by entry name. */
  predicate NameLe(a: Supply, b: Supply) {
    StrLe(a.name, b.name)
  }

  /** The order of `sorted(supplies, key=sort_key)`: batteries first, then by name. */
  predicate SupplyLe(a: Supply, b: Supply) {
    SupplyRank(a) < SupplyRank(b) || (SupplyRank(a) == SupplyRank(b) && StrLe(a.name, b.name))
  }

  lemma SupplyLeTotalPreorder()
    ensures Sorting.TotalPreorder(SupplyLe)
  {
    forall a, b ensures SupplyLe(a, b) || SupplyLe(b, a) {
      StrLeTotal(a.name, b.name);
    }
    forall a, b, c | SupplyLe(a, b) && SupplyLe(b, c) ensures SupplyLe(a, c) {
      if SupplyRank(a) == SupplyRank(b) == SupplyRank(c) {
        StrLeTransitive(a.name, b.name, c.name);
      }
    }
  }

  /** `[path for path in entries if path.is_dir()]`. */
  function Directories(entries: seq<Supply>): (r: seq<Supply>)
    ensures forall s :: s in r <==> s in entries && s.isDir
  {
    if entries == [] then []
    else (if entries[0].isDir then [entries[0]] else []) + Directories(entries[1..])
  }

  /** The order in which the supplies are tried. */
  function ProbeOrder(entries: seq<Supply>): (r: seq<Supply>)
    ensures forall s :: s in r <==> s in entries && s.isDir
    ensures Sorting.SortedBy(r, SupplyLe)
  {
    var byName := Sorting.SortBy(Directories(entries), NameLe);
    Sorting.SortByMembers(Directories(entries), NameLe);
    Sorting.SortByMembers(byName, SupplyLe);
    SupplyLeTotalPreorder();
    Sorting.SortBySorted(byName, SupplyLe);
    Sorting.SortBy(byName, SupplyLe)
  }

  /** The capacity and power source read from one supply. */
  function StatusOf(s: Supply): UpsStatus {
    UpsStatus(true, ParseInt(ReadText(s.capacityFile)), PowerSourceFromStatus(ReadText(s.statusFile)))
  }

  /** A supply is reported when it shows a capacity or a known status. */
  predicate Qualifies(s: Supply) {
    StatusOf(s).percent.Some? || StatusOf(s).powerSource.Some?
  }

  /** The status of the first qualifying supply of `order`. */
  function FirstReading(order: seq<Supply>): UpsStatus {
    var i := Sorting.FirstIndex(order, Qualifies);
    if i == |order| then NotPresent else StatusOf(order[i])
  }

  /** What `probe_ups` returns for a directory listing; `None` is a listing that failed. */
  function ProbeSpec(listing: Option<seq<Supply>>): UpsStatus {
    match listing
    case None => NotPresent
    case Some(entries) => if Directories(entries) == [] then NotPresent else FirstReading(ProbeOrder(entries))
  }

  /** `probe_ups`. */
  method ProbeUps(listing: Option<seq<Supply>>) returns (r: UpsStatus)
    ensures r == ProbeSpec(listing)
  {
    if listing.None? {
      return NotPresent;
    }
    var supplies := Directories(listing.value);
    if supplies == [] {
      return NotPresent;
    }
    r := FirstQualifying(ProbeOrder(listing.value));
  }

  /** The loop of `probe_ups`: read each supply in turn and report the first that shows something. */
  method FirstQualifying(order: seq<Supply>) returns (r: UpsStatus)
    ensures r == FirstReading(order)
  {
    for i := 0 to |order|
      invariant forall j :: 0 <= j < i ==> !Qualifies(order[j])
    {
      var capacity := ParseInt(ReadText(order[i].capacityFile));
      var status := ReadText(order[i].statusFile);
      var powerSource := PowerSourceFromStatus(status);
      if capacity.None? && powerSource.None? {
        continue;
      }
      Sorting.FirstIndexAt(order, Qualifies, i);
      return UpsStatus(true, capacity, powerSource);
    }
    Sorting.FirstIndexAt(order, Qualifies, |order|);
    return NotPresent;
  }

  /**
   * A supply is reported exactly when some directory qualifies; the one
   * reported qualifies and comes first in the battery-then-name order among
   * all qualifying directories, and a report always carries a capacity or a
   * power source.
   */
  lemma ProbeSpecCases(listing: Option<seq<Supply>>)
    ensures var r := ProbeSpec(listing);
      && (listing.None? ==> r == NotPresent)
      && (!r.present ==> r == NotPresent)
      && (r.present ==> r.percent.Some? || r.powerSource.Some?)
      && (listing.Some? ==> (r.present <==> exists s :: s in listing.value && s.isDir && Qualifies(s)))
      && (r.present ==> exists s :: s in listing.value && s.isDir && Qualifies(s) && r == StatusOf(s)
                          && forall t :: t in listing.value && t.isDir && Qualifies(t) ==> SupplyLe(s, t))
  {
    if listing.Some? && Directories(listing.value) != [] {
      var order := ProbeOrder(listing.value);
      var i := Sorting.FirstIndex(order, Qualifies);
      Sorting.FirstIndexNone(order, Qualifies);
      if i < |order| {
        SupplyLeTotalPreorder();
        Sorting.FirstIndexIsLeast(order, Qualifies, SupplyLe);
        assert order[i] in order;
      }
    }
  }

  /** A qualifying battery always wins over every non-battery supply. */
  lemma ProbePrefersBatteries(entries: seq<Supply>, battery: Supply)
    requires battery in entries && battery.isDir && Qualifies(battery) && SupplyRank(battery) == 0
    ensures ProbeSpec(Some(entries)).present
    ensures exists s :: s in entries && s.isDir && SupplyRank(s) == 0 && ProbeSpec(Some(entries)) == StatusOf(s)
  {
    ProbeSpecCases(Some(entries));
    var r := ProbeSpec(Some(entries));
    var s :| s in entries && s.isDir && Qualifies(s) && r == StatusOf(s)
             && forall t :: t in entries && t.isDir && Qualifies(t) ==> SupplyLe(s, t);
    assert SupplyLe(s, battery);
  }
}
