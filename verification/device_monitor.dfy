/**
 * The device monitor page of src/pages/DeviceMonitor.tsx: a search box and a
 * status selector narrow the device list, and three badges count the devices
 * of each status.
 */
module DeviceMonitor {
  import opened Text
  import opened Seqs
  import opened MockData

  /** The status selector: `all`, or one status literal. */
  datatype StatusFilter = AllStatuses | OnlyStatus(status: Status)

  /** The name matches case-insensitively, the IP address case-sensitively. */
  predicate MatchesSearch(d: Device, term: string)
  {
    Contains(Lower(d.name), Lower(term)) || Contains(d.ipAddress, term)
  }

  predicate MatchesStatus(d: Device, f: StatusFilter)
  {
    f.AllStatuses? || d.status == f.status
  }

  function Shown(term: string, f: StatusFilter): Device -> bool
  {
    (d: Device) => MatchesSearch(d, term) && MatchesStatus(d, f)
  }

  /** `filteredDevices`: the devices matching both the search and the status filter. */
  function FilteredDevices(devices: seq<Device>, term: string, f: StatusFilter): (r: seq<Device>)
    ensures |r| <= |devices|
    ensures forall d :: d in r <==> d in devices && MatchesSearch(d, term) && MatchesStatus(d, f)
  {
    Filter(devices, Shown(term, f))
  }

  /** The filtered list keeps the order of the device list. */
  lemma FilteredDevicesInOrder(devices: seq<Device>, term: string, f: StatusFilter)
    ensures IsSubsequence(FilteredDevices(devices, term, f), devices)
  {
    FilterIsSubsequence(devices, Shown(term, f));
  }

  /** An empty search with the `all` filter shows every device. */
  lemma EmptySearchShowsAll(devices: seq<Device>)
    ensures FilteredDevices(devices, "", AllStatuses) == devices
  {
    forall k | 0 <= k < |devices| ensures Shown("", AllStatuses)(devices[k]) {
      ContainsEmpty(Lower(devices[k].name));
    }
    FilterKeepsAll(devices, Shown("", AllStatuses));
  }

  /** A status filter shows the devices of that status among those the search alone shows. */
  lemma StatusFilterNarrows(devices: seq<Device>, term: string, s: Status)
    ensures IsSubsequence(FilteredDevices(devices, term, OnlyStatus(s)), FilteredDevices(devices, term, AllStatuses))
    ensures forall d :: d in FilteredDevices(devices, term, OnlyStatus(s)) <==>
                        d in FilteredDevices(devices, term, AllStatuses) && d.status == s
  {
    NarrowerFilter(devices, term, s);
    FilterIsSubsequence(FilteredDevices(devices, term, AllStatuses), (d: Device) => d.status == s);
  }

  lemma {:induction false} NarrowerFilter(devices: seq<Device>, term: string, s: Status)
    ensures FilteredDevices(devices, term, OnlyStatus(s))
         == Filter(FilteredDevices(devices, term, AllStatuses), (d: Device) => d.status == s)
    decreases |devices|
  {
    if devices != [] {
      NarrowerFilter(devices[1..], term, s);
    }
  }

  /** `mockDevices.filter(d => d.status === s).length`. */
  function StatusCount(devices: seq<Device>, s: Status): (n: nat)
    ensures n <= |devices|
  {
    |Filter(devices, (d: Device) => d.status == s)|
  }

  /** The three badges add up to the number of devices. */
  lemma {:induction false} StatusCountsSum(devices: seq<Device>)
    ensures StatusCount(devices, Safe) + StatusCount(devices, Suspicious) + StatusCount(devices, Critical) == |devices|
    decreases |devices|
  {
    if devices != [] {
      StatusCountsSum(devices[1..]);
    }
  }

  /** "Showing n of m devices": the shown count never exceeds the total. */
  lemma ShownCountBounded(devices: seq<Device>, term: string, f: StatusFilter)
    ensures |FilteredDevices(devices, term, f)| <= |devices|
    ensures f.OnlyStatus? ==> |FilteredDevices(devices, term, f)| <= StatusCount(devices, f.status)
  {
    if f.OnlyStatus? {
      NarrowerFilter(devices, term, f.status);
      SearchNarrowsStatus(devices, term, f.status);
    }
  }

  lemma {:induction false} SearchNarrowsStatus(devices: seq<Device>, term: string, s: Status)
    ensures |FilteredDevices(devices, term, OnlyStatus(s))| <= StatusCount(devices, s)
    decreases |devices|
  {
    if devices != [] {
      SearchNarrowsStatus(devices[1..], term, s);
    }
  }
}
