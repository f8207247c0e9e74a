/**
 * The live-feed simulator of src/services/simulationService.ts: a service
 * object holding its subscribers, the handle of its repeating timer and the
 * current traffic mode. Timers are explicit events: the repeating timer's
 * firing is the method `Tick`, and each one-shot reversion scheduled by
 * `SimulateAttack` is a pending event that `ReversionFires` consumes.
 * Callbacks are opaque ids compared by identity; random draws and the clock
 * are parameters.
 */
module Simulation {
  import opened Wrappers
  import opened Text
  import opened Seqs
  import opened MockData

  datatype Mode = Normal | Attack | PortScan | Bot

  /** A subscriber callback, known only by its identity. */
  type ListenerId = nat

  /** What one tick hands to every subscriber: `{ traffic, alerts? }`. */
  datatype Payload = Payload(traffic: TrafficSample, alerts: Option<seq<Alert>>)

  /** One invocation of one subscriber. */
  datatype Delivery = Delivery(listener: ListenerId, payload: Payload)

  // ---------------------------------------------------------- traffic point

  /** The traffic-shaping profile of a mode: multiplier and noise fraction. */
  datatype Profile = Profile(multiplier: real, noise: real)

  function ModeProfile(mode: Mode): Profile
  {
    match mode
    case Normal => Profile(1.0, 0.2)
    case Attack => Profile(3.0, 0.5)
    case PortScan => Profile(2.0, 0.3)
    case Bot => Profile(1.5, 0.4)
  }

  /** `Math.floor(base * multiplier * (1 + (r - 0.5) * noise))` for a draw `r` in [0, 1). */
  function Noisy(base: real, p: Profile, r: real): int
  {
    (base * p.multiplier * (1.0 + (r - 0.5) * p.noise)).Floor
  }

  /**
   * The draws of one tick: one uniform value per traffic field, the `> 0.7`
   * alert test, and (used only when it passes) the device index, the
   * attack-type index and the score draw.
   */
  datatype TickDraws = TickDraws(packets: real, bandwidth: real, connections: real,
                                 alertFires: bool, deviceIndex: nat, attackIndex: nat, score: nat)

  predicate ValidTickDraws(d: TickDraws, mode: Mode, populationSize: nat)
  {
    && 0.0 <= d.packets < 1.0 && 0.0 <= d.bandwidth < 1.0 && 0.0 <= d.connections < 1.0
    && d.deviceIndex < populationSize
    && d.attackIndex < |LiveAttackTypes|
    && d.score < SeverityScoreSpan(ModeSeverity(mode))
  }

  /** `generateTrafficPoint()`: bases 3500 packets, 35 Mbps, 75 connections. */
  function TrafficPoint(mode: Mode, d: TickDraws, now: int): TrafficSample
  {
    var p := ModeProfile(mode);
    TrafficSample(now, Noisy(3500.0, p, d.packets), Noisy(35.0, p, d.bandwidth), Noisy(75.0, p, d.connections))
  }

  /** The field ranges each mode's samples fall in, for every draw in [0, 1). */
  lemma TrafficPointRanges(mode: Mode, d: TickDraws, now: int)
    requires 0.0 <= d.packets < 1.0 && 0.0 <= d.bandwidth < 1.0 && 0.0 <= d.connections < 1.0
    ensures var t := TrafficPoint(mode, d, now);
      && t.timestamp == now
      && (mode == Normal ==> 3150 <= t.packetsPerMinute <= 3849 && 31 <= t.bandwidth <= 38 && 67 <= t.connections <= 82)
      && (mode == Attack ==> 7875 <= t.packetsPerMinute <= 13124 && 78 <= t.bandwidth <= 131 && 168 <= t.connections <= 281)
      && (mode == PortScan ==> 5950 <= t.packetsPerMinute <= 8049 && 59 <= t.bandwidth <= 80 && 127 <= t.connections <= 172)
      && (mode == Bot ==> 4200 <= t.packetsPerMinute <= 6299 && 42 <= t.bandwidth <= 62 && 90 <= t.connections <= 134)
  {
  }

  /** Every field of a sample in mode `hi` is larger than that field of any sample in mode `lo`. */
  predicate Dominates(hi: TrafficSample, lo: TrafficSample)
  {
    hi.packetsPerMinute > lo.packetsPerMinute && hi.bandwidth > lo.bandwidth && hi.connections > lo.connections
  }

  /**
   * The modes order the traffic they produce: whatever the draws, an attack or
   * bot sample exceeds a normal one field by field, a port-scan sample exceeds
   * a normal one, and an attack sample exceeds a bot one.
   */
  lemma ModesOrderTraffic(d1: TickDraws, d2: TickDraws, now1: int, now2: int)
    requires 0.0 <= d1.packets < 1.0 && 0.0 <= d1.bandwidth < 1.0 && 0.0 <= d1.connections < 1.0
    requires 0.0 <= d2.packets < 1.0 && 0.0 <= d2.bandwidth < 1.0 && 0.0 <= d2.connections < 1.0
    ensures Dominates(TrafficPoint(Attack, d1, now1), TrafficPoint(Normal, d2, now2))
    ensures Dominates(TrafficPoint(Bot, d1, now1), TrafficPoint(Normal, d2, now2))
    ensures Dominates(TrafficPoint(PortScan, d1, now1), TrafficPoint(Normal, d2, now2))
    ensures Dominates(TrafficPoint(Attack, d1, now1), TrafficPoint(Bot, d2, now2))
  {
    TrafficPointRanges(Attack, d1, now1);
    TrafficPointRanges(Bot, d1, now1);
    TrafficPointRanges(PortScan, d1, now1);
    TrafficPointRanges(Normal, d2, now2);
    TrafficPointRanges(Bot, d2, now2);
  }

  // ------------------------------------------------------------ live alert

  /** The four-entry catalog of the live feed. */
  const LiveAttackTypes: seq<string> := ["Port Scan", "DDoS Attack", "Unauthorized Access", "Brute Force"]

  /** The live catalog is a sub-list of the seed generator's eight-entry catalog. */
  lemma LiveAttackTypesInSeedCatalog()
    ensures forall t :: t in LiveAttackTypes ==> t in AttackTypes
  {
    assert LiveAttackTypes[0] == AttackTypes[0];
    assert LiveAttackTypes[1] == AttackTypes[1];
    assert LiveAttackTypes[2] == AttackTypes[2];
    assert LiveAttackTypes[3] == AttackTypes[4];
  }

  /** The severity of live alerts depends on the mode alone. */
  function ModeSeverity(mode: Mode): Severity
  {
    if mode == Normal then Low else if mode == Attack then High else Medium
  }

  /** `generateAlert()`: one alert for a drawn device of the population. */
  function LiveAlert(mode: Mode, population: seq<Device>, d: TickDraws, now: int): (a: Alert)
    requires ValidTickDraws(d, mode, |population|)
    ensures a.severity == ModeSeverity(mode)
    ensures InSeverityBand(a.severity, a.anomalyScore)
    ensures a.attackType in LiveAttackTypes
    ensures FromSomeDevice(a, population)
    ensures a.timestamp == now
  {
    var device := population[d.deviceIndex];
    var severity := ModeSeverity(mode);
    var attackType := LiveAttackTypes[d.attackIndex];
    SeverityScoreInBand(severity, d.score);
    Alert(
      id := "alert-" + NumberString(now),
      timestamp := now,
      deviceId := device.id,
      deviceName := device.name,
      severity := severity,
      anomalyScore := SeverityScoreBase(severity) + d.score,
      attackType := attackType,
      description := Describe(attackType, device.ipAddress))
  }

  /** The body of the interval callback, up to the call of `notify`. */
  function TickPayload(mode: Mode, population: seq<Device>, d: TickDraws, now: int): (p: Payload)
    requires ValidTickDraws(d, mode, |population|)
    ensures p.alerts.Some? <==> d.alertFires
    ensures p.alerts.Some? ==> |p.alerts.value| == 1
    ensures p.traffic.timestamp == now
  {
    var traffic := TrafficPoint(mode, d, now);
    Payload(traffic, if d.alertFires then Some([LiveAlert(mode, population, d, now)]) else None)
  }

  // ------------------------------------------------------------ listeners

  /** The listener list after `listeners.filter(cb => cb !== callback)`. */
  function Without(listeners: seq<ListenerId>, callback: ListenerId): seq<ListenerId>
  {
    Filter(listeners, (cb: ListenerId) => cb != callback)
  }

  /**
   * Unsubscribing removes every registration of that callback, keeps every
   * other callback, in the original relative order, and is harmless when
   * repeated.
   */
  lemma WithoutSpec(listeners: seq<ListenerId>, callback: ListenerId)
    ensures callback !in Without(listeners, callback)
    ensures forall cb :: cb != callback ==> (cb in Without(listeners, callback) <==> cb in listeners)
    ensures IsSubsequence(Without(listeners, callback), listeners)
    ensures Without(Without(listeners, callback), callback) == Without(listeners, callback)
  {
    FilterIsSubsequence(listeners, (cb: ListenerId) => cb != callback);
    FilterIdempotent(listeners, (cb: ListenerId) => cb != callback);
  }

  /** Subscribing then unsubscribing a callback that was not registered restores the list. */
  lemma SubscribeUnsubscribe(listeners: seq<ListenerId>, callback: ListenerId)
    requires callback !in listeners
    ensures Without(listeners + [callback], callback) == listeners
  {
    var p := (cb: ListenerId) => cb != callback;
    FilterAppend(listeners, [callback], p);
    FilterKeepsAll(listeners, p);
  }

  /** Unsubscribing one callback does not disturb a later registration of another. */
  lemma UnsubscribeOther(listeners: seq<ListenerId>, added: ListenerId, removed: ListenerId)
    requires added != removed
    ensures Without(listeners + [added], removed) == Without(listeners, removed) + [added]
  {
    FilterAppend(listeners, [added], (cb: ListenerId) => cb != removed);
  }

  // ---------------------------------------------------------------- service

  class SimulationService {
    /** The device population live alerts are drawn from (`mockDevices`). */
    const population: seq<Device>
    var listeners: seq<ListenerId>
    /** The handle of the repeating timer, `null` when stopped. */
    var interval: Option<nat>
    var currentMode: Mode
    /** One-shot `setMode('normal')` calls scheduled and not yet fired. */
    var pendingReversions: nat
    /** The timer handles the host has issued so far are 1 .. timersIssued. */
    var timersIssued: nat
    /** The repeating timers the host is running for this service. */
    ghost var liveTimers: set<nat>

    ghost predicate Valid()
      reads this
    {
      && |population| > 0
      && liveTimers == (if interval.Some? then {interval.value} else {})
      && (interval.Some? ==> 0 < interval.value <= timersIssued)
    }

    /** The service as created at module load: no listeners, stopped, in normal mode. */
    constructor(population: seq<Device>)
      requires |population| > 0
      ensures Valid()
      ensures this.population == population && listeners == [] && interval == None
      ensures currentMode == Normal && pendingReversions == 0 && timersIssued == 0
    {
      this.population := population;
      listeners := [];
      interval := None;
      currentMode := Normal;
      pendingReversions := 0;
      timersIssued := 0;
      liveTimers := {};
    }

    /** `subscribe(callback)`: registers the callback after all existing ones. */
    method Subscribe(callback: ListenerId)
      requires Valid()
      modifies this`listeners
      ensures Valid()
      ensures listeners == old(listeners) + [callback]
    {
      listeners := listeners + [callback];
    }

    /** The function `subscribe` returns: removes every registration of the callback. */
    method Unsubscribe(callback: ListenerId)
      requires Valid()
      modifies this`listeners
      ensures Valid()
      ensures listeners == Without(old(listeners), callback)
      ensures callback !in listeners
    {
      listeners := Filter(listeners, (cb: ListenerId) => cb != callback);
      WithoutSpec(old(listeners), callback);
    }

    /**
     * `notify(data)`: calls every listener registered when it starts, once
     * each, in registration order, with the same payload. The result is the
     * sequence of calls made.
     */
    method Notify(data: Payload) returns (deliveries: seq<Delivery>)
      ensures |deliveries| == |listeners|
      ensures forall k :: 0 <= k < |deliveries| ==> deliveries[k] == Delivery(listeners[k], data)
    {
      var snapshot := listeners;
      deliveries := [];
      var k := 0;
      while k < |snapshot|
        invariant 0 <= k <= |snapshot|
        invariant |deliveries| == k
        invariant forall j :: 0 <= j < k ==> deliveries[j] == Delivery(snapshot[j], data)
      {
        deliveries := deliveries + [Delivery(snapshot[k], data)];
        k := k + 1;
      }
    }

    /** `start()`: creates a repeating timer unless one is already held. */
    method Start()
      requires Valid()
      modifies this`interval, this`timersIssued, this`liveTimers
      ensures Valid()
      ensures old(interval).Some? ==> interval == old(interval) && timersIssued == old(timersIssued)
      ensures old(interval).None? ==> interval == Some(old(timersIssued) + 1) && timersIssued == old(timersIssued) + 1
      ensures |liveTimers| == 1
    {
      if interval.Some? {
        return;
      }
      timersIssued := timersIssued + 1;
      interval := Some(timersIssued);
      liveTimers := liveTimers + {timersIssued};
    }

    /** `stop()`: clears the repeating timer if one is held. */
    method Stop()
      requires Valid()
      modifies this`interval, this`liveTimers
      ensures Valid()
      ensures interval == None && liveTimers == {}
    {
      if interval.Some? {
        liveTimers := liveTimers - {interval.value};
        interval := None;
      }
    }

    /** `setMode(mode)`: affects only later ticks. */
    method SetMode(mode: Mode)
      modifies this`currentMode
      ensures currentMode == mode
    {
      currentMode := mode;
    }

    /** `simulateAttack(type)`: switches mode now and schedules one reversion to normal. */
    method SimulateAttack(mode: Mode)
      requires Valid()
      modifies this`currentMode, this`pendingReversions
      ensures Valid()
      ensures currentMode == mode && pendingReversions == old(pendingReversions) + 1
    {
      SetMode(mode);
      pendingReversions := pendingReversions + 1;
    }

    /** A scheduled reversion fires, 15 s after its `simulateAttack`; `stop` does not cancel it. */
    method ReversionFires()
      requires Valid() && pendingReversions > 0
      modifies this`currentMode, this`pendingReversions
      ensures Valid()
      ensures currentMode == Normal && pendingReversions == old(pendingReversions) - 1
    {
      SetMode(Normal);
      pendingReversions := pendingReversions - 1;
    }

    /**
     * The repeating timer fires (every 3 s, only while a timer is held): one
     * traffic sample shaped by the current mode, an alert exactly when the
     * alert test passes, delivered to every current listener.
     */
    method Tick(d: TickDraws, now: int) returns (data: Payload, deliveries: seq<Delivery>)
      requires Valid() && interval.Some?
      requires ValidTickDraws(d, currentMode, |population|)
      ensures data == TickPayload(currentMode, population, d, now)
      ensures data.traffic == TrafficPoint(currentMode, d, now)
      ensures data.alerts.Some? <==> d.alertFires
      ensures |deliveries| == |listeners|
      ensures forall k :: 0 <= k < |deliveries| ==> deliveries[k] == Delivery(listeners[k], data)
    {
      var traffic := TrafficPoint(currentMode, d, now);
      var alerts := if d.alertFires then Some([LiveAlert(currentMode, population, d, now)]) else None;
      data := Payload(traffic, alerts);
      deliveries := Notify(data);
    }
  }
}
