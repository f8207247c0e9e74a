/**
 * The seed generators of src/services/mockData.ts: the entity shapes, the two
 * catalogs, and the loops that build the initial devices, alerts and traffic
 * samples. Every `Math.random()` is an explicit draw: a threshold test is a
 * boolean, `Math.floor(Math.random() * k)` is a natural below `k`, and a
 * random millisecond offset is a natural below its bound. The wall clock is
 * the parameter `now` (milliseconds).
 */
module MockData {
  import opened Wrappers
  import opened Text
  import opened Seqs

  // ------------------------------------------------------------ data model

  datatype Status = Safe | Suspicious | Critical
  datatype Severity = Low | Medium | High

  /** The string literal the source stores for a status. */
  function StatusName(s: Status): string
  {
    match s
    case Safe => "safe"
    case Suspicious => "suspicious"
    case Critical => "critical"
  }

  /** The string literal the source stores for a severity. */
  function SeverityName(s: Severity): string
  {
    match s
    case Low => "low"
    case Medium => "medium"
    case High => "high"
  }

  /** Timestamps are milliseconds since the epoch. */
  datatype Device = Device(
    id: string,
    name: string,
    deviceType: string,
    ipAddress: string,
    status: Status,
    behaviorScore: int,
    lastSeen: int,
    macAddress: string)

  datatype Alert = Alert(
    id: string,
    timestamp: int,
    deviceId: string,
    deviceName: string,
    severity: Severity,
    anomalyScore: int,
    attackType: string,
    description: string)

  datatype TrafficSample = TrafficSample(
    timestamp: int,
    packetsPerMinute: int,
    bandwidth: int,
    connections: int)

  datatype ProtocolShare = ProtocolShare(protocol: string, percentage: nat, count: nat)

  const DeviceTypes: seq<string> := ["Smart TV", "Security Camera", "Smart Lock", "Thermostat",
    "Smart Speaker", "Light Bulb", "Door Sensor", "Motion Detector", "Smart Plug"]

  const AttackTypes: seq<string> := ["Port Scan", "DDoS Attack", "Unauthorized Access",
    "Data Exfiltration", "Brute Force", "Man-in-the-Middle", "Malware Activity", "DNS Tunneling"]

  // ----------------------------------------------------------------- bands

  /** The behaviour-score band each status's score formula yields (mockData.ts:49-51). */
  predicate InStatusBand(s: Status, score: int)
  {
    match s
    case Critical => 80 <= score <= 99
    case Suspicious => 50 <= score <= 79
    case Safe => 10 <= score <= 49
  }

  /** The anomaly-score band each severity's score formula yields (mockData.ts:72-74). */
  predicate InSeverityBand(s: Severity, score: int)
  {
    match s
    case High => 80 <= score <= 99
    case Medium => 50 <= score <= 79
    case Low => 20 <= score <= 49
  }

  /** Offset and width `k` of `Math.floor(Math.random() * k) + offset` for a behaviour score. */
  function StatusScoreBase(s: Status): int
  {
    match s
    case Critical => 80
    case Suspicious => 50
    case Safe => 10
  }

  function StatusScoreSpan(s: Status): nat
  {
    match s
    case Critical => 20
    case Suspicious => 30
    case Safe => 40
  }

  /** Offset and width `k` of `Math.floor(Math.random() * k) + offset` for an anomaly score. */
  function SeverityScoreBase(s: Severity): int
  {
    match s
    case High => 80
    case Medium => 50
    case Low => 20
  }

  function SeverityScoreSpan(s: Severity): nat
  {
    match s
    case High => 20
    case Medium => 30
    case Low => 30
  }

  /** A draw below the span lands in the band: offsets and widths agree with the bands. */
  lemma StatusScoreInBand(s: Status, draw: nat)
    requires draw < StatusScoreSpan(s)
    ensures InStatusBand(s, StatusScoreBase(s) + draw)
  {
  }

  lemma SeverityScoreInBand(s: Severity, draw: nat)
    requires draw < SeverityScoreSpan(s)
    ensures InSeverityBand(s, SeverityScoreBase(s) + draw)
  {
  }

  // --------------------------------------------------------------- devices

  /**
   * The random draws of one iteration of `generateDevices`: the `> 0.85` test,
   * the `> 0.95` test (only consulted when the first fails), the score draw
   * below the status's span, and the `lastSeen` offset. The offset is at most
   * one hour, not below it: `new Date` drops the fraction of a millisecond of
   * `Date.now() - Math.random() * 3600000`, so a draw just under one hour
   * lands exactly one hour back.
   */
  datatype DeviceDraw = DeviceDraw(aboveSuspicious: bool, aboveCritical: bool, score: nat, lastSeenOffset: nat)

  function DrawnStatus(d: DeviceDraw): Status
  {
    if d.aboveSuspicious then Suspicious else if d.aboveCritical then Critical else Safe
  }

  predicate ValidDeviceDraw(d: DeviceDraw)
  {
    d.score < StatusScoreSpan(DrawnStatus(d)) && d.lastSeenOffset <= 3600000
  }

  function DeviceId(i: nat): string { "device-" + DecimalString(i + 1) }

  function DeviceTypeAt(i: nat): string { DeviceTypes[i % |DeviceTypes|] }

  function DeviceName(i: nat): string
  {
    DeviceTypeAt(i) + " " + DecimalString(i / |DeviceTypes| + 1)
  }

  function DeviceIp(i: nat): string { "192.168.1." + DecimalString(10 + i) }

  /** `i.toString(16).padStart(2, '0').toUpperCase()`. */
  function MacSuffix(i: nat): string { Upper(PadStart(HexString(i), 2, '0')) }

  function DeviceMac(i: nat): string { "AA:BB:CC:DD:EE:" + MacSuffix(i) }

  /** The device pushed by iteration `i` of `generateDevices`. */
  function DeviceAt(i: nat, d: DeviceDraw, now: int): Device
  {
    var status := DrawnStatus(d);
    Device(
      id := DeviceId(i),
      name := DeviceName(i),
      deviceType := DeviceTypeAt(i),
      ipAddress := DeviceIp(i),
      status := status,
      behaviorScore := StatusScoreBase(status) + d.score,
      lastSeen := now - d.lastSeenOffset,
      macAddress := DeviceMac(i))
  }

  /** Different loop indices give different ids and different IP addresses. */
  lemma DeviceIdsDistinct(i: nat, j: nat)
    requires i != j
    ensures DeviceId(i) != DeviceId(j)
    ensures DeviceIp(i) != DeviceIp(j)
  {
    if DeviceId(i) == DeviceId(j) {
      assert DeviceId(i)[7..] == DecimalString(i + 1);
      assert DeviceId(j)[7..] == DecimalString(j + 1);
      DecimalInjective(i + 1, j + 1);
    }
    if DeviceIp(i) == DeviceIp(j) {
      assert DeviceIp(i)[10..] == DecimalString(10 + i);
      assert DeviceIp(j)[10..] == DecimalString(10 + j);
      DecimalInjective(10 + i, 10 + j);
    }
  }

  /**
   * The MAC suffix is two upper-case hexadecimal digits exactly while the
   * index is below 256; from 256 on it grows to three or more characters.
   */
  lemma MacSuffixDigits(i: nat)
    ensures i < 256 ==> MacSuffix(i) == [UpperHexDigit(i / 16), UpperHexDigit(i % 16)]
    ensures i >= 256 ==> |MacSuffix(i)| >= 3
  {
    var h := HexString(i);
    if i < 256 {
      var padded := [LowerHexDigit(i / 16), LowerHexDigit(i % 16)];
      if i < 16 {
        assert h == [LowerHexDigit(i)];
        assert PadStart(h, 2, '0') == padded;
      } else {
        assert h == HexString(i / 16) + [LowerHexDigit(i % 16)];
        assert PadStart(h, 2, '0') == padded;
      }
      assert Upper(padded) == [UpperChar(padded[0]), UpperChar(padded[1])];
    }
  }

  lemma HexPairDistinct(i: nat, j: nat)
    requires i < 256 && j < 256 && i != j
    ensures [UpperHexDigit(i / 16), UpperHexDigit(i % 16)] != [UpperHexDigit(j / 16), UpperHexDigit(j % 16)]
  {
    if i / 16 != j / 16 {
      UpperHexDigitDistinct(i / 16, j / 16);
    } else {
      UpperHexDigitDistinct(i % 16, j % 16);
    }
  }

  /** Two devices below index 256 have different MAC addresses. */
  lemma DeviceMacsDistinct(i: nat, j: nat)
    requires i < 256 && j < 256 && i != j
    ensures DeviceMac(i) != DeviceMac(j)
  {
    MacSuffixDigits(i);
    MacSuffixDigits(j);
    HexPairDistinct(i, j);
    assert DeviceMac(i)[15..] == MacSuffix(i);
    assert DeviceMac(j)[15..] == MacSuffix(j);
  }

  /**
   * The status policy of one iteration: the first test decides `suspicious`,
   * then the second, independent test decides `critical`; the score lands in
   * the status's band, and the device's name is its type followed by the
   * instance number, which grows each time the nine-entry catalog wraps.
   */
  lemma DeviceAtPolicy(i: nat, d: DeviceDraw, now: int)
    requires ValidDeviceDraw(d)
    ensures DeviceAt(i, d, now).status == Suspicious <==> d.aboveSuspicious
    ensures DeviceAt(i, d, now).status == Critical <==> !d.aboveSuspicious && d.aboveCritical
    ensures InStatusBand(DeviceAt(i, d, now).status, DeviceAt(i, d, now).behaviorScore)
    ensures now - 3600000 <= DeviceAt(i, d, now).lastSeen <= now
    ensures DeviceAt(i, d, now).deviceType == DeviceTypes[i % 9]
    ensures DeviceAt(i, d, now).name == DeviceAt(i, d, now).deviceType + " " + DecimalString(i / 9 + 1)
    ensures DeviceAt(i, d, now).deviceType == DeviceAt(i + 9, d, now).deviceType
  {
    StatusScoreInBand(DrawnStatus(d), d.score);
  }

  /** Devices built index by index from the draws. */
  predicate BuiltFrom(devices: seq<Device>, draws: seq<DeviceDraw>, now: int)
  {
    |devices| <= |draws| && forall k :: 0 <= k < |devices| ==> devices[k] == DeviceAt(k, draws[k], now)
  }

  /**
   * A device list built index by index from valid draws has ids `device-1`,
   * `device-2`, ..., every score inside its status's band, distinct ids and
   * IP addresses, and distinct MAC addresses up to 256 devices.
   */
  lemma BuiltDevicesSpec(devices: seq<Device>, draws: seq<DeviceDraw>, now: int)
    requires BuiltFrom(devices, draws, now)
    requires forall k :: 0 <= k < |devices| ==> ValidDeviceDraw(draws[k])
    ensures forall k :: 0 <= k < |devices| ==> devices[k].id == "device-" + DecimalString(k + 1)
    ensures forall k :: 0 <= k < |devices| ==> InStatusBand(devices[k].status, devices[k].behaviorScore)
    ensures forall j, k :: 0 <= j < k < |devices| ==> devices[j].id != devices[k].id
    ensures forall j, k :: 0 <= j < k < |devices| ==> devices[j].ipAddress != devices[k].ipAddress
    ensures |devices| <= 256 ==> forall j, k :: 0 <= j < k < |devices| ==> devices[j].macAddress != devices[k].macAddress
  {
    forall k | 0 <= k < |devices|
      ensures InStatusBand(devices[k].status, devices[k].behaviorScore)
    {
      StatusScoreInBand(DrawnStatus(draws[k]), draws[k].score);
    }
    forall j, k | 0 <= j < k < |devices|
      ensures devices[j].id != devices[k].id && devices[j].ipAddress != devices[k].ipAddress
    {
      DeviceIdsDistinct(j, k);
    }
    if |devices| <= 256 {
      forall j, k | 0 <= j < k < |devices|
        ensures devices[j].macAddress != devices[k].macAddress
      {
        DeviceMacsDistinct(j, k);
      }
    }
  }

  /**
   * `generateDevices(count)`: `count` devices (none when count <= 0), the i-th
   * built from the i-th draw, every score inside its status's band, all ids
   * and IP addresses distinct.
   */
  method GenerateDevices(count: int, draws: seq<DeviceDraw>, now: int) returns (devices: seq<Device>)
    requires count <= |draws|
    requires forall k :: 0 <= k < count ==> ValidDeviceDraw(draws[k])
    ensures |devices| == if count <= 0 then 0 else count
    ensures forall k :: 0 <= k < |devices| ==> devices[k] == DeviceAt(k, draws[k], now)
    ensures forall k :: 0 <= k < |devices| ==> devices[k].id == "device-" + DecimalString(k + 1)
    ensures forall k :: 0 <= k < |devices| ==> InStatusBand(devices[k].status, devices[k].behaviorScore)
    ensures forall j, k :: 0 <= j < k < |devices| ==> devices[j].id != devices[k].id
    ensures forall j, k :: 0 <= j < k < |devices| ==> devices[j].ipAddress != devices[k].ipAddress
    ensures count <= 256 ==> forall j, k :: 0 <= j < k < |devices| ==> devices[j].macAddress != devices[k].macAddress
  {
    devices := [];
    var i := 0;
    while i < count
      invariant 0 <= i <= if count <= 0 then 0 else count
      invariant |devices| == i
      invariant BuiltFrom(devices, draws, now)
    {
      devices := devices + [DeviceAt(i, draws[i], now)];
      i := i + 1;
    }
    BuiltDevicesSpec(devices, draws, now);
  }

  // ---------------------------------------------------------------- alerts

  /**
   * The random draws of one iteration of `generateAlerts`: the device index
   * (`Math.floor(Math.random() * devices.length)`), the `> 0.7` and `> 0.4`
   * tests, the attack-type index, the age and the score draw. The age is at
   * most one day, as `new Date` drops the fraction of a millisecond.
   */
  datatype AlertDraw = AlertDraw(deviceIndex: nat, aboveHigh: bool, aboveMedium: bool,
                                 attackIndex: nat, ageMs: nat, score: nat)

  function DrawnSeverity(d: AlertDraw): Severity
  {
    if d.aboveHigh then High else if d.aboveMedium then Medium else Low
  }

  /** `Math.floor(Math.random() * n)` is below `n`, and is 0 when `n` is 0. */
  predicate ValidAlertDraw(d: AlertDraw, deviceCount: nat)
  {
    && (if deviceCount == 0 then d.deviceIndex == 0 else d.deviceIndex < deviceCount)
    && d.attackIndex < |AttackTypes|
    && d.ageMs <= 86400000
    && d.score < SeverityScoreSpan(DrawnSeverity(d))
  }

  /** The failure `generateAlerts` can meet: reading `.id` of an undefined device throws. */
  datatype GenError = UndefinedDevice

  /** The text both alert generators put in `description`. */
  function Describe(attackType: string, ipAddress: string): string
  {
    attackType + " detected from " + ipAddress + ". Unusual traffic pattern observed."
  }

  /** The alert pushed by iteration `i` of `generateAlerts`, for the device the draw picked. */
  function AlertAt(i: nat, device: Device, d: AlertDraw, now: int): Alert
    requires d.attackIndex < |AttackTypes|
  {
    var severity := DrawnSeverity(d);
    var attackType := AttackTypes[d.attackIndex];
    Alert(
      id := "alert-" + DecimalString(i + 1),
      timestamp := now - d.ageMs,
      deviceId := device.id,
      deviceName := device.name,
      severity := severity,
      anomalyScore := SeverityScoreBase(severity) + d.score,
      attackType := attackType,
      description := Describe(attackType, device.ipAddress))
  }

  /** The alerts in the order the loop pushes them, before sorting. */
  function PushedAlerts(devices: seq<Device>, n: nat, draws: seq<AlertDraw>, now: int): (r: seq<Alert>)
    requires devices != [] && n <= |draws|
    requires forall k :: 0 <= k < n ==> ValidAlertDraw(draws[k], |devices|)
    ensures |r| == n
    decreases n
  {
    if n == 0 then []
    else
      var d := draws[n - 1];
      assert ValidAlertDraw(d, |devices|);
      PushedAlerts(devices, n - 1, draws, now) + [AlertAt(n - 1, devices[d.deviceIndex], d, now)]
  }

  /** Alert `a` copies the identity of one of `devices`. */
  predicate FromSomeDevice(a: Alert, devices: seq<Device>)
  {
    exists k :: 0 <= k < |devices| && a.deviceId == devices[k].id && a.deviceName == devices[k].name
  }

  /** What every generated alert satisfies. */
  predicate WellFormedSeedAlert(a: Alert, devices: seq<Device>)
  {
    && InSeverityBand(a.severity, a.anomalyScore)
    && FromSomeDevice(a, devices)
    && a.attackType in AttackTypes
  }

  lemma PushedAlertsWellFormed(devices: seq<Device>, n: nat, draws: seq<AlertDraw>, now: int)
    requires devices != [] && n <= |draws|
    requires forall k :: 0 <= k < n ==> ValidAlertDraw(draws[k], |devices|)
    ensures forall a :: a in PushedAlerts(devices, n, draws, now) ==> WellFormedSeedAlert(a, devices)
  {
    var s := PushedAlerts(devices, n, draws, now);
    forall a | a in s ensures WellFormedSeedAlert(a, devices) {
      var k :| 0 <= k < n && s[k] == a;
      PushedAlertAt(devices, n, draws, now, k);
      var d := draws[k];
      SeverityScoreInBand(DrawnSeverity(d), d.score);
      assert a.deviceId == devices[d.deviceIndex].id;
    }
  }

  lemma {:induction false} PushedAlertAt(devices: seq<Device>, n: nat, draws: seq<AlertDraw>, now: int, k: nat)
    requires devices != [] && n <= |draws|
    requires forall k :: 0 <= k < n ==> ValidAlertDraw(draws[k], |devices|)
    requires k < n
    ensures PushedAlerts(devices, n, draws, now)[k] == AlertAt(k, devices[draws[k].deviceIndex], draws[k], now)
    decreases n
  {
    if k < n - 1 {
      PushedAlertAt(devices, n - 1, draws, now, k);
    }
  }

  /** Sorted newest first: timestamps never increase along the sequence. */
  predicate NewestFirst(s: seq<Alert>)
  {
    forall i, j :: 0 <= i < j < |s| ==> s[i].timestamp >= s[j].timestamp
  }

  /** `(a, b) => b.timestamp - a.timestamp` read as "a may come before b". */
  function NewerOrSame(a: Alert, b: Alert): bool
  {
    b.timestamp - a.timestamp <= 0
  }

  /** `alerts.sort((a, b) => b.timestamp.getTime() - a.timestamp.getTime())`. */
  function SortNewestFirst(s: seq<Alert>): seq<Alert>
  {
    SortBy(s, NewerOrSame)
  }

  /** The sort returns a newest-first permutation of its input. */
  lemma SortNewestFirstCorrect(s: seq<Alert>)
    ensures NewestFirst(SortNewestFirst(s))
    ensures multiset(SortNewestFirst(s)) == multiset(s)
  {
    assert TotalPreorder(NewerOrSame);
    SortBySorted(s, NewerOrSame);
  }

  /**
   * `generateAlerts(devices, count)`: throws when it must read a device and
   * there is none; otherwise `count` alerts (none when count <= 0), a
   * newest-first permutation of the alerts the loop pushed, each naming one
   * of `devices`, drawing its attack type from the catalog and its score from
   * its severity's band.
   */
  method GenerateAlerts(devices: seq<Device>, count: int, draws: seq<AlertDraw>, now: int)
    returns (r: Result<seq<Alert>, GenError>)
    requires count <= |draws|
    requires forall k :: 0 <= k < count ==> ValidAlertDraw(draws[k], |devices|)
    ensures r.Failure? <==> count > 0 && devices == []
    ensures r.Success? ==> |r.value| == if count <= 0 then 0 else count
    ensures r.Success? && devices != [] ==>
      multiset(r.value) == multiset(PushedAlerts(devices, |r.value|, draws, now))
    ensures r.Success? ==> NewestFirst(r.value)
    ensures r.Success? ==> forall a :: a in r.value ==> WellFormedSeedAlert(a, devices)
  {
    var alerts: seq<Alert> := [];
    var i := 0;
    while i < count
      invariant 0 <= i <= if count <= 0 then 0 else count
      invariant devices != [] ==> alerts == PushedAlerts(devices, i, draws, now)
      invariant devices == [] ==> alerts == [] && i == 0
    {
      if devices == [] {
        // `devices[0]` is undefined and reading its `id` throws
        return Failure(UndefinedDevice);
      }
      var device := devices[draws[i].deviceIndex];
      alerts := alerts + [AlertAt(i, device, draws[i], now)];
      i := i + 1;
    }
    SortNewestFirstCorrect(alerts);
    var sorted := SortNewestFirst(alerts);
    if devices != [] {
      PushedAlertsWellFormed(devices, i, draws, now);
      forall a | a in sorted ensures WellFormedSeedAlert(a, devices) {
        assert a in multiset(sorted);
      }
    }
    r := Success(sorted);
  }

  // --------------------------------------------------------------- traffic

  /** The draws of one sample of `generateTrafficData`, below 5000, 50 and 100. */
  datatype TrafficDraw = TrafficDraw(packets: nat, bandwidth: nat, connections: nat)

  predicate ValidTrafficDraw(d: TrafficDraw)
  {
    d.packets < 5000 && d.bandwidth < 50 && d.connections < 100
  }

  function SeedSample(timestamp: int, d: TrafficDraw): TrafficSample
  {
    TrafficSample(timestamp, d.packets + 3000, d.bandwidth + 20, d.connections + 50)
  }

  /** The field ranges the formulas of mockData.ts:89-91 yield for a seed sample. */
  predicate InSeedRanges(s: TrafficSample)
  {
    && 3000 <= s.packetsPerMinute <= 7999
    && 20 <= s.bandwidth <= 69
    && 50 <= s.connections <= 149
  }

  /**
   * `generateTrafficData(points)`: `points` samples (none when points <= 0),
   * one minute apart, the last at `now`, each field in its range; the k-th
   * sample uses the k-th draw.
   */
  method GenerateTrafficData(points: int, draws: seq<TrafficDraw>, now: int) returns (data: seq<TrafficSample>)
    requires points <= |draws|
    requires forall k :: 0 <= k < points ==> ValidTrafficDraw(draws[k])
    ensures |data| == if points <= 0 then 0 else points
    ensures forall k :: 0 <= k < |data| ==> data[k] == SeedSample(now - (|data| - 1 - k) * 60000, draws[k])
    ensures forall k :: 0 <= k < |data| ==> InSeedRanges(data[k])
    ensures forall k :: 0 < k < |data| ==> data[k].timestamp == data[k - 1].timestamp + 60000
    ensures |data| > 0 ==> data[0].timestamp == now - (points - 1) * 60000 && data[|data| - 1].timestamp == now
  {
    data := [];
    var i := points - 1;
    while i >= 0
      invariant i <= points - 1 && (points > 0 ==> i >= -1) && (points <= 0 ==> i == points - 1)
      invariant |data| == points - 1 - i
      invariant forall k :: 0 <= k < |data| ==> data[k] == SeedSample(now - (points - 1 - k) * 60000, draws[k])
    {
      data := data + [SeedSample(now - i * 60000, draws[points - 1 - i])];
      i := i - 1;
    }
  }

  // ------------------------------------------------------------- protocols

  /** `generateProtocolData()`: the fixed breakdown. */
  function ProtocolData(): seq<ProtocolShare>
  {
    [ProtocolShare("HTTP", 35, 3500), ProtocolShare("HTTPS", 30, 3000), ProtocolShare("MQTT", 15, 1500),
     ProtocolShare("CoAP", 10, 1000), ProtocolShare("DNS", 7, 700), ProtocolShare("Other", 3, 300)]
  }

  function PercentTotal(s: seq<ProtocolShare>): nat
  {
    if s == [] then 0 else s[0].percentage + PercentTotal(s[1..])
  }

  /** The six shares add up to 100 percent and every count is proportional to its share. */
  lemma ProtocolDataConsistent()
    ensures |ProtocolData()| == 6
    ensures PercentTotal(ProtocolData()) == 100
    ensures forall k :: 0 <= k < 6 ==> ProtocolData()[k].count == ProtocolData()[k].percentage * 100
  {
    var s := ProtocolData();
    assert PercentTotal(s[5..]) == 3;
    assert PercentTotal(s[4..]) == 10;
    assert PercentTotal(s[3..]) == 20;
    assert PercentTotal(s[2..]) == 35;
    assert PercentTotal(s[1..]) == 65;
  }

  // ------------------------------------------------------- module constants

  /** The default arguments: 15 devices, 50 alerts and 60 traffic samples. */
  const DefaultDeviceCount := 15
  const DefaultAlertCount := 50
  const DefaultTrafficPoints := 60

  /**
   * The module-level `mockDevices`, `mockAlerts`, `mockTrafficData` and
   * `mockProtocolData`: the generators called with their default arguments,
   * the alerts drawn from the generated devices. With 15 devices nothing
   * fails, every MAC address is distinct, and every alert names one of them.
   */
  method MockSeed(deviceDraws: seq<DeviceDraw>, alertDraws: seq<AlertDraw>, trafficDraws: seq<TrafficDraw>, now: int)
    returns (devices: seq<Device>, alerts: seq<Alert>, traffic: seq<TrafficSample>, protocols: seq<ProtocolShare>)
    requires DefaultDeviceCount <= |deviceDraws|
    requires forall k :: 0 <= k < DefaultDeviceCount ==> ValidDeviceDraw(deviceDraws[k])
    requires DefaultAlertCount <= |alertDraws|
    requires forall k :: 0 <= k < DefaultAlertCount ==> ValidAlertDraw(alertDraws[k], DefaultDeviceCount)
    requires DefaultTrafficPoints <= |trafficDraws|
    requires forall k :: 0 <= k < DefaultTrafficPoints ==> ValidTrafficDraw(trafficDraws[k])
    ensures |devices| == DefaultDeviceCount
    ensures forall j, k :: 0 <= j < k < |devices| ==> devices[j].macAddress != devices[k].macAddress
    ensures |alerts| == DefaultAlertCount && NewestFirst(alerts)
    ensures forall a :: a in alerts ==> WellFormedSeedAlert(a, devices)
    ensures |traffic| == DefaultTrafficPoints && traffic[|traffic| - 1].timestamp == now
    ensures forall k :: 0 <= k < |traffic| ==> InSeedRanges(traffic[k])
    ensures PercentTotal(protocols) == 100
  {
    devices := GenerateDevices(DefaultDeviceCount, deviceDraws, now);
    var r := GenerateAlerts(devices, DefaultAlertCount, alertDraws, now);
    alerts := r.value;
    traffic := GenerateTrafficData(DefaultTrafficPoints, trafficDraws, now);
    protocols := ProtocolData();
    ProtocolDataConsistent();
  }
}
