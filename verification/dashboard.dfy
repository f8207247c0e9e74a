/**
 * The state the Dashboard page of src/pages/Dashboard.tsx keeps and the
 * updates its simulation subscriber applies: a rolling 60-sample traffic
 * window, the alert list with live alerts prepended, and the toast list with
 * its delayed and manual removals. The page's React state is a class whose
 * fields the updater expressions replace; each 5 s toast cleanup is a pending
 * event that `CleanupFires` consumes.
 */
module Dashboard {
  import opened Wrappers
  import opened Seqs
  import opened MockData
  import opened Simulation
  import opened Arith

  // --------------------------------------------------------- traffic window

  /** `[...prev.slice(-59), sample]`. */
  function NextWindow(prev: seq<TrafficSample>, sample: TrafficSample): seq<TrafficSample>
  {
    TakeLast(prev, 59) + [sample]
  }

  /**
   * The window keeps the last `min(|prev|, 59)` samples and appends the new
   * one: it never exceeds 60 samples, ends with the new sample, is a suffix of
   * `prev + [sample]`, and drops nothing while `prev` has fewer than 60.
   */
  lemma NextWindowSpec(prev: seq<TrafficSample>, sample: TrafficSample)
    ensures var w := NextWindow(prev, sample);
      && |w| == (if |prev| < 59 then |prev| else 59) + 1
      && |w| <= 60
      && w[|w| - 1] == sample
      && w == (prev + [sample])[|prev| + 1 - |w|..]
      && (|prev| < 60 ==> w == prev + [sample])
  {
    var w := NextWindow(prev, sample);
    var kept := TakeLast(prev, 59);
    assert prev == prev[..|prev| - |kept|] + kept;
    assert (prev + [sample])[|prev| + 1 - |w|..] == prev[|prev| - |kept|..] + [sample];
  }

  /** Timestamps strictly increase along the window. */
  predicate Chronological(s: seq<TrafficSample>)
  {
    forall i, j :: 0 <= i < j < |s| ==> s[i].timestamp < s[j].timestamp
  }

  /** A chronological window stays chronological when the new sample is later than all it holds. */
  lemma NextWindowChronological(prev: seq<TrafficSample>, sample: TrafficSample)
    requires Chronological(prev)
    requires prev != [] ==> prev[|prev| - 1].timestamp < sample.timestamp
    ensures Chronological(NextWindow(prev, sample))
  {
    ChronologicalAppend(prev, sample);
    NextWindowSpec(prev, sample);
    var w := NextWindow(prev, sample);
    ChronologicalSuffix(prev + [sample], |prev| + 1 - |w|);
  }

  lemma ChronologicalAppend(prev: seq<TrafficSample>, sample: TrafficSample)
    requires Chronological(prev)
    requires prev != [] ==> prev[|prev| - 1].timestamp < sample.timestamp
    ensures Chronological(prev + [sample])
  {
    var full := prev + [sample];
    forall i, j | 0 <= i < j < |full| ensures full[i].timestamp < full[j].timestamp {
      if j < |prev| {
        assert full[i] == prev[i] && full[j] == prev[j];
      } else if i < |prev| - 1 {
        assert full[i] == prev[i] && full[j] == sample;
        assert prev[i].timestamp < prev[|prev| - 1].timestamp;
      }
    }
  }

  lemma ChronologicalSuffix(s: seq<TrafficSample>, off: nat)
    requires Chronological(s) && off <= |s|
    ensures Chronological(s[off..])
  {
    var w := s[off..];
    forall i, j | 0 <= i < j < |w| ensures w[i].timestamp < w[j].timestamp {
      assert w[i] == s[off + i] && w[j] == s[off + j];
    }
  }

  // ------------------------------------------------------------------ alerts

  /** Live alerts are prepended in emission order, keeping the newest-first order when they are newest. */
  lemma PrependKeepsNewestFirst(emitted: seq<Alert>, prev: seq<Alert>)
    requires NewestFirst(emitted) && NewestFirst(prev)
    requires forall a, b :: a in emitted && b in prev ==> a.timestamp >= b.timestamp
    ensures NewestFirst(emitted + prev)
    ensures |emitted + prev| == |emitted| + |prev|
    ensures (emitted + prev)[|emitted|..] == prev
  {
    var s := emitted + prev;
    forall i, j | 0 <= i < j < |s| ensures s[i].timestamp >= s[j].timestamp {
      if i < |emitted| && j >= |emitted| {
        assert s[i] in emitted && s[j] in prev;
      }
    }
  }

  // ------------------------------------------------------------------ toasts

  /** `prev.filter(a => !batch.includes(a))`, the cleanup 5 s after a batch was shown. */
  function RemoveBatch(toasts: seq<Alert>, batch: seq<Alert>): seq<Alert>
  {
    Filter(toasts, (a: Alert) => a !in batch)
  }

  /** `prev.filter(a => a.id !== id)`, closing one toast. */
  function CloseById(toasts: seq<Alert>, id: string): seq<Alert>
  {
    Filter(toasts, (a: Alert) => a.id != id)
  }

  /** The cleanup removes exactly the batch's alerts and keeps the rest in order. */
  lemma RemoveBatchSpec(toasts: seq<Alert>, batch: seq<Alert>)
    ensures forall a :: a in batch ==> a !in RemoveBatch(toasts, batch)
    ensures forall a :: a !in batch ==> (a in RemoveBatch(toasts, batch) <==> a in toasts)
    ensures IsSubsequence(RemoveBatch(toasts, batch), toasts)
  {
    FilterIsSubsequence(toasts, (a: Alert) => a !in batch);
  }

  /** Closing removes every toast with that id and keeps the rest in order. */
  lemma CloseByIdSpec(toasts: seq<Alert>, id: string)
    ensures forall a :: a in CloseById(toasts, id) ==> a.id != id
    ensures forall a :: a in toasts && a.id != id ==> a in CloseById(toasts, id)
    ensures IsSubsequence(CloseById(toasts, id), toasts)
  {
    FilterIsSubsequence(toasts, (a: Alert) => a.id != id);
  }

  /** `recentToasts.slice(-3)`: at most the three newest toasts are shown. */
  function VisibleToasts(toasts: seq<Alert>): (r: seq<Alert>)
    ensures |r| <= 3
    ensures |toasts| <= 3 ==> r == toasts
    ensures |toasts| > 3 ==> r == toasts[|toasts| - 3..]
  {
    TakeLast(toasts, 3)
  }

  // ---------------------------------------------------------------- figures

  /** `mockDevices.filter(d => d.status !== 'critical').length`. */
  function ActiveDevices(devices: seq<Device>): nat
  {
    |Filter(devices, (d: Device) => d.status != Critical)|
  }

  /** The active and the critical devices together are all devices. */
  lemma ActiveDevicesComplement(devices: seq<Device>)
    ensures ActiveDevices(devices) + |Filter(devices, (d: Device) => d.status == Critical)| == |devices|
  {
    FilterPartition(devices, (d: Device) => d.status == Critical, (d: Device) => d.status != Critical);
  }

  /**
   * `Math.floor(highCount / alerts.length * 100)`, absent (`NaN`) when there
   * are no alerts. The value is a percentage and is 100 exactly when every
   * alert is high.
   */
  function RiskScore(alerts: seq<Alert>): (r: Option<int>)
    ensures r.None? <==> alerts == []
    ensures r.Some? ==> 0 <= r.value <= 100
    ensures r.Some? ==> (r.value == 100 <==> |Filter(alerts, (a: Alert) => a.severity == High)| == |alerts|)
  {
    if alerts == [] then None
    else
      var high := |Filter(alerts, (a: Alert) => a.severity == High)|;
      var n := |alerts|;
      PercentBounds(high, n);
      Some((high * 100) / n)
  }

  lemma PercentBounds(part: nat, n: nat)
    requires 0 < n && part <= n
    ensures 0 <= (part * 100) / n <= 100
    ensures (part * 100) / n == 100 <==> part == n
  {
    var x := part * 100;
    DivAtLeast(x, n, 0);
    DivBelow(x, n, 101);
    if part == n {
      DivAtLeast(x, n, 100);
    } else {
      DivBelow(x, n, 100);
    }
  }

  /** `a.timestamp >= today`, with `today` the start of the local day in milliseconds. */
  function Today(midnight: int): Alert -> bool
  {
    (a: Alert) => a.timestamp >= midnight
  }

  /** `todayAlerts`: how many alerts are at or after midnight. */
  function AlertsToday(alerts: seq<Alert>, midnight: int): (r: nat)
    ensures r <= |alerts|
  {
    |Filter(alerts, Today(midnight))|
  }

  /** How many leading alerts are at or after midnight. */
  function TodayPrefixLength(alerts: seq<Alert>, midnight: int): (n: nat)
    ensures n <= |alerts|
  {
    if alerts == [] || alerts[0].timestamp < midnight then 0
    else 1 + TodayPrefixLength(alerts[1..], midnight)
  }

  /** On a newest-first list, an alert is today's exactly when it lies in the leading run. */
  lemma {:induction false} TodayPrefixExact(alerts: seq<Alert>, midnight: int)
    requires NewestFirst(alerts)
    ensures forall k :: 0 <= k < |alerts| ==> (k < TodayPrefixLength(alerts, midnight) <==> alerts[k].timestamp >= midnight)
    decreases |alerts|
  {
    if alerts != [] {
      var rest := alerts[1..];
      assert NewestFirst(rest);
      TodayPrefixExact(rest, midnight);
      forall k | 0 < k < |alerts| ensures alerts[k] == rest[k - 1] { }
    }
  }

  /** On a newest-first list, filtering today's alerts keeps the leading run. */
  lemma {:induction false} FilterTodayIsPrefix(alerts: seq<Alert>, midnight: int)
    requires NewestFirst(alerts)
    ensures Filter(alerts, Today(midnight)) == alerts[..TodayPrefixLength(alerts, midnight)]
    decreases |alerts|
  {
    if alerts != [] {
      var rest := alerts[1..];
      if alerts[0].timestamp >= midnight {
        assert NewestFirst(rest);
        FilterTodayIsPrefix(rest, midnight);
        assert alerts[..TodayPrefixLength(alerts, midnight)] == [alerts[0]] + rest[..TodayPrefixLength(rest, midnight)];
      } else {
        forall k | 0 <= k < |alerts| ensures !Today(midnight)(alerts[k]) {
          assert alerts[k].timestamp <= alerts[0].timestamp;
        }
        FilterNone(alerts, Today(midnight));
      }
    }
  }

  /** On a newest-first alert list, today's alerts are exactly its first `AlertsToday` entries. */
  lemma AlertsTodayArePrefix(alerts: seq<Alert>, midnight: int)
    requires NewestFirst(alerts)
    ensures Filter(alerts, Today(midnight)) == alerts[..AlertsToday(alerts, midnight)]
    ensures forall k :: 0 <= k < |alerts| ==> (k < AlertsToday(alerts, midnight) <==> alerts[k].timestamp >= midnight)
  {
    FilterTodayIsPrefix(alerts, midnight);
    TodayPrefixExact(alerts, midnight);
  }

  // -------------------------------------------------------------- the page

  class DashboardPage {
    var trafficData: seq<TrafficSample>
    var alerts: seq<Alert>
    var recentToasts: seq<Alert>
    /** The batches whose 5 s cleanup is scheduled and has not fired, oldest first. */
    var pendingCleanups: seq<seq<Alert>>
    /** The identity of the subscriber callback this page registers. */
    const listener: ListenerId

    /** The page's initial state: the seed traffic and alerts, no toasts. */
    constructor(seedTraffic: seq<TrafficSample>, seedAlerts: seq<Alert>, listener: ListenerId)
      ensures trafficData == seedTraffic && alerts == seedAlerts && recentToasts == []
      ensures pendingCleanups == [] && this.listener == listener
    {
      trafficData := seedTraffic;
      alerts := seedAlerts;
      recentToasts := [];
      pendingCleanups := [];
      this.listener := listener;
    }

    /**
     * The subscriber callback: slides the traffic window; when the payload
     * carries alerts, prepends them to the alert list, appends them to the
     * toasts and schedules their cleanup.
     */
    method OnData(data: Payload)
      modifies this`trafficData, this`alerts, this`recentToasts, this`pendingCleanups
      ensures trafficData == NextWindow(old(trafficData), data.traffic)
      ensures |trafficData| <= 60 && trafficData[|trafficData| - 1] == data.traffic
      ensures data.alerts.None? ==>
        alerts == old(alerts) && recentToasts == old(recentToasts) && pendingCleanups == old(pendingCleanups)
      ensures data.alerts.Some? ==>
        && alerts == data.alerts.value + old(alerts)
        && recentToasts == old(recentToasts) + data.alerts.value
        && pendingCleanups == old(pendingCleanups) + [data.alerts.value]
    {
      NextWindowSpec(trafficData, data.traffic);
      trafficData := TakeLast(trafficData, 59) + [data.traffic];
      if data.alerts.Some? {
        var emitted := data.alerts.value;
        alerts := emitted + alerts;
        recentToasts := recentToasts + emitted;
        pendingCleanups := pendingCleanups + [emitted];
      }
    }

    /** The oldest scheduled cleanup fires: that batch's toasts disappear, the others stay in order. */
    method CleanupFires()
      requires pendingCleanups != []
      modifies this`recentToasts, this`pendingCleanups
      ensures recentToasts == RemoveBatch(old(recentToasts), old(pendingCleanups)[0])
      ensures pendingCleanups == old(pendingCleanups)[1..]
      ensures forall a :: a in old(pendingCleanups)[0] ==> a !in recentToasts
    {
      var batch := pendingCleanups[0];
      RemoveBatchSpec(recentToasts, batch);
      recentToasts := Filter(recentToasts, (a: Alert) => a !in batch);
      pendingCleanups := pendingCleanups[1..];
    }

    /** A toast's close button: every toast with that id disappears. */
    method CloseToast(id: string)
      modifies this`recentToasts
      ensures recentToasts == CloseById(old(recentToasts), id)
      ensures forall a :: a in recentToasts ==> a.id != id
    {
      CloseByIdSpec(recentToasts, id);
      recentToasts := Filter(recentToasts, (a: Alert) => a.id != id);
    }

    /** Mounting: start the service, then register this page's callback. */
    method Mount(service: SimulationService)
      requires service.Valid()
      modifies service
      ensures service.Valid()
      ensures service.interval.Some? && |service.liveTimers| == 1
      ensures service.listeners == old(service.listeners) + [listener]
      ensures service.currentMode == old(service.currentMode)
      ensures service.pendingReversions == old(service.pendingReversions)
    {
      service.Start();
      service.Subscribe(listener);
    }

    /** Unmounting: unregister the callback, then stop the service. */
    method Unmount(service: SimulationService)
      requires service.Valid()
      modifies service
      ensures service.Valid()
      ensures service.interval.None? && service.liveTimers == {}
      ensures service.listeners == Without(old(service.listeners), listener)
      ensures listener !in service.listeners
      ensures service.currentMode == old(service.currentMode)
      ensures service.pendingReversions == old(service.pendingReversions)
    {
      service.Unsubscribe(listener);
      service.Stop();
    }
  }
}
