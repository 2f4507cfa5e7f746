/**
 * `get_wifi_status` of src/inkycal/network.py: the first wireless interface
 * in name order decides, from its `carrier` and then its `operstate` file.
 */
module Network {
  import opened Wrappers
  import opened Text
  import Sorting
  import opened Sysfs

  /**
   * One entry of the network-class directory: its name, whether it is a
   * directory, whether it has a `wireless` sub-directory, and the contents of
   * its `carrier` and `operstate` files (`None` when unreadable).
   */
  datatype NetEntry = NetEntry(name: string, isDir: bool, hasWireless: bool,
                               carrierFile: Option<string>, operstateFile: Option<string>)

  const Connected := "connected"
  const Disconnected := "disconnected"

  /** The order of `sorted(iterdir())` for entries of one directory: by name. */
  predicate NameLe(a: NetEntry, b: NetEntry) {
    StrLe(a.name, b.name)
  }

  lemma NameLeTotalPreorder()
    ensures Sorting.TotalPreorder(NameLe)
  {
    forall a, b ensures NameLe(a, b) || NameLe(b, a) {
      StrLeTotal(a.name, b.name);
    }
    forall a, b, c | NameLe(a, b) && NameLe(b, c) ensures NameLe(a, c) {
      StrLeTransitive(a.name, b.name, c.name);
    }
  }

  /** Interfaces the loop does not skip. */
  predicate IsWirelessInterface(e: NetEntry) {
    e.isDir && e.hasWireless
  }

  /** The status read from one wireless interface. */
  function InterfaceStatus(e: NetEntry): (r: string)
    ensures r == Connected || r == Disconnected || r == ""
  {
    var carrier := ReadText(e.carrierFile);
    if carrier == "1" then Connected
    else if carrier == "0" then Disconnected
    else
      var operstate := Lower(ReadText(e.operstateFile));
      if operstate in {"up", "unknown"} then Connected
      else if operstate != "" then Disconnected
      else ""
  }

  /**
   * The carrier flag wins when it is "1" or "0"; otherwise an operational
   * state of "up" or "unknown" means connected, any other non-empty state
   * disconnected, and no state at all gives "".
   */
  lemma InterfaceStatusCases(e: NetEntry)
    ensures var carrier := ReadText(e.carrierFile);
      var operstate := Lower(ReadText(e.operstateFile));
      && (InterfaceStatus(e) == Connected <==>
            carrier == "1" || (carrier != "0" && operstate in {"up", "unknown"}))
      && (InterfaceStatus(e) == Disconnected <==>
            carrier == "0" || (carrier != "1" && operstate !in {"up", "unknown", ""}))
      && (InterfaceStatus(e) == "" <==> carrier != "1" && carrier != "0" && operstate == "")
  {
  }

  /** What `get_wifi_status` returns for a directory listing; `None` is a listing that failed. */
  function WifiStatusSpec(listing: Option<seq<NetEntry>>): string {
    match listing
    case None => ""
    case Some(entries) =>
      var order := Sorting.SortBy(entries, NameLe);
      var i := Sorting.FirstIndex(order, IsWirelessInterface);
      if i == |order| then "" else InterfaceStatus(order[i])
  }

  /** `get_wifi_status`. */
  method GetWifiStatus(listing: Option<seq<NetEntry>>) returns (r: string)
    ensures r == WifiStatusSpec(listing)
  {
    if listing.None? {
      return "";
    }
    var interfaces := Sorting.SortBy(listing.value, NameLe);
    for i := 0 to |interfaces|
      invariant forall j :: 0 <= j < i ==> !IsWirelessInterface(interfaces[j])
    {
      var iface := interfaces[i];
      if !iface.isDir {
        continue;
      }
      if !iface.hasWireless {
        continue;
      }
      Sorting.FirstIndexAt(interfaces, IsWirelessInterface, i);
      var carrier := ReadText(iface.carrierFile);
      if carrier == "1" {
        return Connected;
      }
      if carrier == "0" {
        return Disconnected;
      }
      var operstate := Lower(ReadText(iface.operstateFile));
      if operstate in {"up", "unknown"} {
        return Connected;
      }
      if operstate != "" {
        return Disconnected;
      }
      return "";
    }
    Sorting.FirstIndexAt(interfaces, IsWirelessInterface, |interfaces|);
    return "";
  }

  /**
   * The answer is one of the three strings; it is "" whenever no entry is a
   * wireless interface, and otherwise it is the status of the wireless
   * interface whose name comes first.
   */
  lemma WifiStatusCases(listing: Option<seq<NetEntry>>)
    ensures var r := WifiStatusSpec(listing);
      && (r == Connected || r == Disconnected || r == "")
      && (listing.None? ==> r == "")
      && (listing.Some? && (forall e :: e in listing.value ==> !IsWirelessInterface(e)) ==> r == "")
      && (listing.Some? && r != "" ==>
            exists e :: e in listing.value && IsWirelessInterface(e) && r == InterfaceStatus(e)
              && forall f :: f in listing.value && IsWirelessInterface(f) ==> StrLe(e.name, f.name))
  {
    if listing.Some? {
      var order := Sorting.SortBy(listing.value, NameLe);
      var i := Sorting.FirstIndex(order, IsWirelessInterface);
      Sorting.SortByMembers(listing.value, NameLe);
      Sorting.FirstIndexNone(order, IsWirelessInterface);
      if i < |order| {
        NameLeTotalPreorder();
        Sorting.SortBySorted(listing.value, NameLe);
        Sorting.FirstIndexIsLeast(order, IsWirelessInterface, NameLe);
        assert order[i] in order;
      }
    }
  }
}
