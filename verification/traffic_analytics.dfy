/**
 * The traffic analytics page of src/pages/TrafficAnalytics.tsx: a time-range
 * selector picks how many samples to generate, the samples are mapped to
 * the connection-spike chart, and three cards show integer averages.
 */
module TrafficAnalytics {
  import opened Wrappers
  import opened MockData
  import opened Arith

  datatype TimeRange = Hour | Day | Week

  /** `getDataPoints()`. */
  function DataPoints(r: TimeRange): (n: nat)
    ensures 24 <= n <= 168
  {
    match r
    case Hour => 60
    case Day => 24
    case Week => 168
  }

  /** The date-fns pattern of the chart labels. */
  function TimePattern(r: TimeRange): string
  {
    if r == Hour then "HH:mm" else "MM/dd HH:mm"
  }

  // ------------------------------------------------------ spike chart data

  datatype SpikePoint = SpikePoint(time: string, connections: int, packets: int)

  /**
   * `connectionSpikeData`: one point per sample, in order, with the
   * connections copied and the packet rate in hundreds, rounded down;
   * `format` stands for date-fns `format`.
   */
  function SpikeData(data: seq<TrafficSample>, r: TimeRange, format: (int, string) -> string): (points: seq<SpikePoint>)
    ensures |points| == |data|
    ensures forall k :: 0 <= k < |data| ==>
      && points[k].time == format(data[k].timestamp, TimePattern(r))
      && points[k].connections == data[k].connections
      && points[k].packets * 100 <= data[k].packetsPerMinute < (points[k].packets + 1) * 100
  {
    seq(|data|, k requires 0 <= k < |data| =>
      SpikePoint(format(data[k].timestamp, TimePattern(r)), data[k].connections, data[k].packetsPerMinute / 100))
  }

  // -------------------------------------------------------------- averages

  datatype Metric = Packets | Bandwidth | Connections

  function MetricOf(s: TrafficSample, m: Metric): int
  {
    match m
    case Packets => s.packetsPerMinute
    case Bandwidth => s.bandwidth
    case Connections => s.connections
  }

  /** `trafficData.map(d => d.<field>)`. */
  function Column(data: seq<TrafficSample>, m: Metric): (xs: seq<int>)
    ensures |xs| == |data| && forall k :: 0 <= k < |data| ==> xs[k] == MetricOf(data[k], m)
  {
    seq(|data|, k requires 0 <= k < |data| => MetricOf(data[k], m))
  }

  /** `reduce((sum, x) => sum + x, 0)`. */
  function Sum(xs: seq<int>): int
  {
    if xs == [] then 0 else xs[0] + Sum(xs[1..])
  }

  /**
   * `Math.floor(sum / length)`: the largest integer whose multiple by the
   * length does not exceed the sum; no value for an empty list, where the
   * source divides by zero.
   */
  function Average(xs: seq<int>): (r: Option<int>)
    ensures r.None? <==> xs == []
    ensures r.Some? ==> r.value * |xs| <= Sum(xs) < (r.value + 1) * |xs|
  {
    if xs == [] then None
    else
      DivBounds(Sum(xs), |xs|);
      Some(Sum(xs) / |xs|)
  }

  lemma {:induction false} SumBounds(xs: seq<int>, lo: int, hi: int)
    requires forall k :: 0 <= k < |xs| ==> lo <= xs[k] <= hi
    ensures |xs| * lo <= Sum(xs) <= |xs| * hi
    decreases |xs|
  {
    if xs != [] {
      SumBounds(xs[1..], lo, hi);
      assert |xs| * lo == lo + |xs[1..]| * lo;
      assert |xs| * hi == hi + |xs[1..]| * hi;
    }
  }

  /** An average of values in [lo, hi] lies in [lo, hi]. */
  lemma AverageWithin(xs: seq<int>, lo: int, hi: int)
    requires xs != []
    requires forall k :: 0 <= k < |xs| ==> lo <= xs[k] <= hi
    ensures lo <= Average(xs).value <= hi
  {
    var q := Average(xs).value;
    var n := |xs|;
    SumBounds(xs, lo, hi);
    assert lo * n < (q + 1) * n;
    FactorBelow(lo, q + 1, n);
    assert q * n < (hi + 1) * n;
    FactorBelow(q, hi + 1, n);
  }

  function Minimum(xs: seq<int>): (m: int)
    requires xs != []
    ensures m in xs && forall k :: 0 <= k < |xs| ==> m <= xs[k]
  {
    if |xs| == 1 then xs[0]
    else
      var m := Minimum(xs[1..]);
      assert forall k :: 1 <= k < |xs| ==> xs[k] == xs[1..][k - 1];
      if xs[0] <= m then xs[0] else m
  }

  function Maximum(xs: seq<int>): (m: int)
    requires xs != []
    ensures m in xs && forall k :: 0 <= k < |xs| ==> xs[k] <= m
  {
    if |xs| == 1 then xs[0]
    else
      var m := Maximum(xs[1..]);
      assert forall k :: 1 <= k < |xs| ==> xs[k] == xs[1..][k - 1];
      if xs[0] >= m then xs[0] else m
  }

  /** Each average lies between the smallest and the largest value it averages. */
  lemma AverageBetweenMinAndMax(xs: seq<int>)
    requires xs != []
    ensures Minimum(xs) <= Average(xs).value <= Maximum(xs)
  {
    AverageWithin(xs, Minimum(xs), Maximum(xs));
  }

  // ------------------------------------------------------------------ page

  /**
   * Rendering the page for a range: the generated samples (as many as the
   * range asks for, one minute apart whatever the range, so a day covers 23
   * minutes and a week 167), and the three averages, each inside the range
   * its field is generated in.
   */
  method ShowAnalytics(r: TimeRange, draws: seq<TrafficDraw>, now: int)
    returns (data: seq<TrafficSample>, avgPackets: int, avgBandwidth: int, avgConnections: int)
    requires DataPoints(r) <= |draws|
    requires forall k :: 0 <= k < DataPoints(r) ==> ValidTrafficDraw(draws[k])
    ensures |data| == DataPoints(r)
    ensures data[|data| - 1].timestamp - data[0].timestamp == (DataPoints(r) - 1) * 60000
    ensures Average(Column(data, Packets)) == Some(avgPackets)
    ensures Average(Column(data, Bandwidth)) == Some(avgBandwidth)
    ensures Average(Column(data, Connections)) == Some(avgConnections)
    ensures 3000 <= avgPackets <= 7999 && 20 <= avgBandwidth <= 69 && 50 <= avgConnections <= 149
  {
    data := GenerateTrafficData(DataPoints(r), draws, now);
    AverageWithin(Column(data, Packets), 3000, 7999);
    AverageWithin(Column(data, Bandwidth), 20, 69);
    AverageWithin(Column(data, Connections), 50, 149);
    avgPackets := Average(Column(data, Packets)).value;
    avgBandwidth := Average(Column(data, Bandwidth)).value;
    avgConnections := Average(Column(data, Connections)).value;
  }
}
