/** The composite performance index of a driver's fastest lap, and the
    radar view that normalises five of its metrics across drivers and plots
    the five best drivers. */
module CompositePerformance {

  import opened Common
  import opened Sorting

  // ------------------------------------------------------------ the index

  /** The car data of a fastest lap: one sample per row of each channel,
      with the distance and session time at that sample. */
  datatype CarData = CarData(
    speed: seq<real>,
    distance: seq<real>,
    time: seq<real>,
    brake: seq<bool>,
    throttle: seq<real>,
    lapTime: Seconds)

  /** Every channel covers every sample, there is at least one and speeds
      are positive. */
  predicate WellFormed(c: CarData)
  {
    && |c.speed| > 0
    && |c.distance| == |c.speed| && |c.time| == |c.speed|
    && |c.brake| == |c.speed| && |c.throttle| == |c.speed|
    && (forall i :: 0 <= i < |c.speed| ==> c.speed[i] > 0.0)
  }

  /** The car data the analyser reads: well formed. */
  type Car = c: CarData | WellFormed(c) witness CarData([1.0], [0.0], [0.0], [false], [0.0], 1.0)

  /** `x / y` with an infinite or undefined quotient replaced by 0. */
  function Ratio(x: real, y: real): real
  {
    if y == 0.0 then 0.0 else x / y
  }

  /** The change of speed over the change of distance at each sample; the
      first sample has no difference and gets 0. */
  function Accelerations(speed: seq<real>, distance: seq<real>): (a: seq<real>)
    requires |distance| == |speed|
    ensures |a| == |speed|
    ensures |a| > 0 ==> a[0] == 0.0
  {
    seq(|speed|, i requires 0 <= i < |speed| =>
      if i == 0 then 0.0 else Ratio(speed[i] - speed[i - 1], distance[i] - distance[i - 1]))
  }

  predicate Positive(v: real)
  {
    v > 0.0
  }

  /** The mean of the positive accelerations, or 0.1 when there is none
      (the mean of nothing is NaN). Either way the factor is positive. */
  function AccelerationFactor(a: seq<real>): (f: real)
    ensures f > 0.0
    ensures CountWhere(a, Positive) == 0 ==> f == 0.1
    ensures CountWhere(a, Positive) > 0 ==>
      MinOf(Filter(a, Positive)) <= f <= MaxOf(Filter(a, Positive))
  {
    var p := Filter(a, Positive);
    if |p| == 0 then 0.1
    else
      MinMeanMax(p);
      MeanPositive(p);
      Mean(p)
  }

  /** `(flag * time.diff()).sum()`: the time since the sample before,
      summed over the flagged samples; the first sample has no time step. */
  function FlaggedTime(flag: seq<bool>, time: seq<real>): real
    requires |time| == |flag|
  {
    if |flag| < 2 then 0.0
    else
      var n := |flag|;
      FlaggedTime(flag[..n - 1], time[..n - 1]) + (if flag[n - 1] then time[n - 1] - time[n - 2] else 0.0)
  }

  /** With time running forward, the flagged time is not negative and at
      most the time elapsed. */
  lemma {:induction false} FlaggedTimeBounds(flag: seq<bool>, time: seq<real>)
    requires |time| == |flag| > 0
    requires forall i, j :: 0 <= i <= j < |time| ==> time[i] <= time[j]
    ensures 0.0 <= FlaggedTime(flag, time) <= time[|time| - 1] - time[0]
  {
    if |flag| >= 2 {
      var n := |flag|;
      var flag', time' := flag[..n - 1], time[..n - 1];
      FlaggedTimeBounds(flag', time');
      assert time'[0] == time[0] && time'[n - 2] == time[n - 2];
      assert time[n - 2] <= time[n - 1];
    }
  }

  /** The low-speed mask: the samples below 70% of the mean speed. */
  function LowSpeed(speed: seq<real>): (m: seq<bool>)
    requires |speed| > 0
    ensures |m| == |speed|
    ensures forall i :: 0 <= i < |m| ==> (m[i] <==> speed[i] < Mean(speed) * 0.7)
  {
    var threshold := Mean(speed) * 0.7;
    seq(|speed|, i requires 0 <= i < |speed| => speed[i] < threshold)
  }

  /** `max(brake_efficiency + handling_time, 1)`: never below 1, so the
      index is always defined. */
  function Denominator(brakeEfficiency: real, handlingTime: real): (r: real)
    ensures r >= 1.0 && r >= brakeEfficiency + handlingTime
    ensures r == 1.0 || r == brakeEfficiency + handlingTime
  {
    if brakeEfficiency + handlingTime > 1.0 then brakeEfficiency + handlingTime else 1.0
  }

  /** Speed times acceleration over the denominator: positive whenever
      both factors are. */
  function CompositeIndex(speedFactor: real, accelerationFactor: real, brakeEfficiency: real, handlingTime: real): (r: real)
    ensures r * Denominator(brakeEfficiency, handlingTime) == speedFactor * accelerationFactor
    ensures speedFactor > 0.0 && accelerationFactor > 0.0 ==> r > 0.0
  {
    var d := Denominator(brakeEfficiency, handlingTime);
    Quotient(speedFactor * accelerationFactor, d)
  }

  datatype CompositeRecord = CompositeRecord(
    driver: string,
    team: string,
    index: real,
    speedFactor: real,
    accelerationFactor: real,
    brakeEfficiency: real,
    handlingTime: real,
    topSpeed: real,
    speedConsistency: real,
    throttleEfficiency: real,
    lapTime: real)

  /** The abbreviation and team the session lists for a driver. */
  datatype DriverInfo = DriverInfo(abbreviation: string, teamName: string)

  /** The record of one driver's fastest lap. */
  function RecordOf(info: DriverInfo, c: Car, std: Deviation): (r: CompositeRecord)
    ensures r.driver == info.abbreviation && r.team == info.teamName
    ensures r.speedFactor > 0.0 && r.accelerationFactor > 0.0 && r.index > 0.0
    ensures r.topSpeed >= r.speedFactor
    ensures r.speedConsistency <= 1.0
  {
    var lap := c.lapTime as real;
    var brakeEfficiency := Quotient(FlaggedTime(c.brake, c.time), lap) * 100.0;
    var speedFactor := Mean(c.speed);
    MeanPositive(c.speed);
    MinMeanMax(c.speed);
    var accelerationFactor := AccelerationFactor(Accelerations(c.speed, c.distance));
    var handlingTime := FlaggedTime(LowSpeed(c.speed), c.time);
    CompositeRecord(info.abbreviation, info.teamName,
      CompositeIndex(speedFactor, accelerationFactor, brakeEfficiency, handlingTime),
      speedFactor, accelerationFactor, brakeEfficiency, handlingTime,
      MaxOf(c.speed), 1.0 - Quotient(std(c.speed), speedFactor), Mean(c.throttle), lap)
  }

  /** A driver's record, or None when the driver has no laps, no fastest
      lap or no car data for it (`telemetry` yields None then). */
  function DriverRecord(d: string, telemetry: string -> Option<Car>, info: string -> DriverInfo, std: Deviation): (r: Option<CompositeRecord>)
    ensures r.Some? <==> telemetry(d).Some?
    ensures r.Some? ==> r.value.index > 0.0 && r.value.driver == info(d).abbreviation
  {
    var c := telemetry(d);
    if c.None? then None else Some(RecordOf(info(d), c.value, std))
  }

  function RecordRow(telemetry: string -> Option<Car>, info: string -> DriverInfo, std: Deviation): string -> Option<CompositeRecord>
  {
    d => DriverRecord(d, telemetry, info, std)
  }

  /** `calculate_composite_performance`: the records of the requested
      drivers that have car data, in request order. */
  method CalculateCompositePerformance(drivers: seq<string>, telemetry: string -> Option<Car>, info: string -> DriverInfo, std: Deviation)
    returns (results: seq<CompositeRecord>)
    ensures results == Collect(drivers, RecordRow(telemetry, info, std))
  {
    results := CollectRecords(drivers, RecordRow(telemetry, info, std));
  }

  /** The driver loop, for any way `row` of computing a driver's record: a
      driver without one is skipped and the others are kept in order. */
  method CollectRecords(drivers: seq<string>, row: string -> Option<CompositeRecord>) returns (results: seq<CompositeRecord>)
    ensures results == Collect(drivers, row)
  {
    results := [];
    for i := 0 to |drivers|
      invariant results == Collect(drivers[..i], row)
    {
      CollectStep(drivers, row, i);
      var r := row(drivers[i]);
      if r.Some? {
        results := results + [r.value];
      }
    }
    assert drivers[..|drivers|] == drivers;
  }

  /** Every record has a positive index. */
  lemma {:induction false} RecordsPositive(drivers: seq<string>, telemetry: string -> Option<Car>, info: string -> DriverInfo, std: Deviation)
    ensures forall k :: 0 <= k < |Collect(drivers, RecordRow(telemetry, info, std))| ==>
      Collect(drivers, RecordRow(telemetry, info, std))[k].index > 0.0
  {
    CollectAll(drivers, RecordRow(telemetry, info, std), (r: CompositeRecord) => r.index > 0.0);
  }

  // ------------------------------------------------------------ ordering and top five

  function NegatedIndex(r: CompositeRecord): real
  {
    -r.index
  }

  /** `sort_values('Composite_Performance_Index', ascending=False)`: the
      bar view, best index first; None for an empty table. */
  function BarOrder(records: seq<CompositeRecord>): (r: Option<seq<CompositeRecord>>)
    ensures r.None? <==> records == []
    ensures r.Some? ==> multiset(r.value) == multiset(records)
    ensures r.Some? ==> forall i, j :: 0 <= i < j < |r.value| ==> r.value[i].index >= r.value[j].index
  {
    if records == [] then None
    else
      var s := SortBy(records, NegatedIndex);
      assert forall i, j :: 0 <= i < j < |s| ==> NegatedIndex(s[i]) <= NegatedIndex(s[j]);
      Some(s)
  }

  /** `nlargest(5, 'Composite_Performance_Index')`: the first five records
      of the table sorted by descending index, ties kept in table order. */
  function TopFive(records: seq<CompositeRecord>): (top: seq<CompositeRecord>)
    ensures |top| == if |records| < 5 then |records| else 5
    ensures forall k :: 0 <= k < |top| ==> top[k] in records
  {
    var s := SortBy(records, NegatedIndex);
    PrefixMembers(s, records, 5);
    Take(s, 5)
  }

  /** A prefix of a permutation of `t` holds only elements of `t`. */
  lemma {:induction false} PrefixMembers<T>(s: seq<T>, t: seq<T>, n: nat)
    requires multiset(s) == multiset(t)
    ensures forall k :: 0 <= k < |Take(s, n)| ==> Take(s, n)[k] in t
  {
    forall k | 0 <= k < |Take(s, n)|
      ensures Take(s, n)[k] in t
    {
      assert Take(s, n)[k] == s[k];
      assert s[k] in multiset(s);
    }
  }

  /** The top five are ordered best first. */
  lemma {:induction false} TopFiveOrdered(records: seq<CompositeRecord>)
    ensures forall i, j :: 0 <= i < j < |TopFive(records)| ==> TopFive(records)[i].index >= TopFive(records)[j].index
  {
    var s := SortBy(records, NegatedIndex);
    var top := TopFive(records);
    assert top == s[..|top|];
    forall i, j | 0 <= i < j < |top|
      ensures top[i].index >= top[j].index
    {
      assert NegatedIndex(s[i]) <= NegatedIndex(s[j]);
    }
  }

  /** No record left out of the top five has a larger index than one kept. */
  lemma {:induction false} TopFiveLargest(records: seq<CompositeRecord>)
    ensures multiset(TopFive(records)) <= multiset(records)
    ensures forall x, i :: x in multiset(records) - multiset(TopFive(records)) && 0 <= i < |TopFive(records)| ==>
      x.index <= TopFive(records)[i].index
  {
    var s := SortBy(records, NegatedIndex);
    var top := TopFive(records);
    SortedPrefix(records, s, NegatedIndex, top);
    forall x, i | x in multiset(records) - multiset(top) && 0 <= i < |top|
      ensures x.index <= top[i].index
    {
      assert NegatedIndex(top[i]) <= NegatedIndex(x);
    }
  }

  // ------------------------------------------------------------ radar normalisation

  /** `(v - min) / (max - min)` over a column, or 0.5 everywhere when the
      column is constant. */
  function Normalize(col: seq<real>): (r: seq<real>)
    requires |col| > 0
    ensures |r| == |col|
  {
    var lo, hi := MinOf(col), MaxOf(col);
    if hi != lo then Spread(col, lo, hi)
    else seq(|col|, i requires 0 <= i < |col| => 0.5)
  }

  /** Every value of a column moved and scaled so that `lo` maps to 0 and
      `hi` to 1. */
  function Spread(col: seq<real>, lo: real, hi: real): (r: seq<real>)
    requires lo != hi
    ensures |r| == |col|
    ensures forall i :: 0 <= i < |col| ==> r[i] == (col[i] - lo) / (hi - lo)
  {
    seq(|col|, i requires 0 <= i < |col| => (col[i] - lo) / (hi - lo))
  }

  /** One value of a column whose extremes differ, normalised: in [0, 1],
      0 exactly at the minimum and 1 exactly at the maximum. */
  lemma NormalizedValue(v: real, lo: real, hi: real)
    requires lo <= v <= hi && lo < hi
    ensures 0.0 <= (v - lo) / (hi - lo) <= 1.0
    ensures (v - lo) / (hi - lo) == 0.0 <==> v == lo
    ensures (v - lo) / (hi - lo) == 1.0 <==> v == hi
  {
    var q, w := Quotient(v - lo, hi - lo), hi - lo;
    assert (1.0 - q) * w == hi - v;
    PositiveFactor(1.0 - q, w);
  }

  lemma PositiveFactor(a: real, b: real)
    requires b > 0.0
    ensures a * b >= 0.0 ==> a >= 0.0
    ensures a * b == 0.0 ==> a == 0.0
  {
  }

  /** Normalising keeps the order of two values. */
  lemma NormalizedOrder(v: real, v': real, lo: real, hi: real)
    requires v <= v' && lo < hi
    ensures (v - lo) / (hi - lo) <= (v' - lo) / (hi - lo)
  {
    var q, q', w := Quotient(v - lo, hi - lo), Quotient(v' - lo, hi - lo), hi - lo;
    assert (q' - q) * w == v' - v;
    PositiveFactor(q' - q, w);
  }

  /** Every normalised value lies in [0, 1], the column's minimum maps to 0
      and its maximum to 1, and the order of the values is kept. */
  lemma {:induction false} NormalizeFacts(col: seq<real>)
    requires |col| > 0 && MaxOf(col) != MinOf(col)
    ensures forall i :: 0 <= i < |col| ==> 0.0 <= Normalize(col)[i] <= 1.0
    ensures forall i :: 0 <= i < |col| ==> (Normalize(col)[i] == 0.0 <==> col[i] == MinOf(col))
    ensures forall i :: 0 <= i < |col| ==> (Normalize(col)[i] == 1.0 <==> col[i] == MaxOf(col))
    ensures forall i, j :: 0 <= i < |col| && 0 <= j < |col| && col[i] <= col[j] ==> Normalize(col)[i] <= Normalize(col)[j]
  {
    var lo, hi := MinOf(col), MaxOf(col);
    NormalizeSpread(col, lo, hi);
  }

  /** The facts of NormalizeFacts, for any bounds that enclose the column. */
  lemma {:induction false} NormalizeSpread(col: seq<real>, lo: real, hi: real)
    requires lo < hi && forall i :: 0 <= i < |col| ==> lo <= col[i] <= hi
    ensures forall i :: 0 <= i < |col| ==> 0.0 <= Spread(col, lo, hi)[i] <= 1.0
    ensures forall i :: 0 <= i < |col| ==> (Spread(col, lo, hi)[i] == 0.0 <==> col[i] == lo)
    ensures forall i :: 0 <= i < |col| ==> (Spread(col, lo, hi)[i] == 1.0 <==> col[i] == hi)
    ensures forall i, j :: 0 <= i < |col| && 0 <= j < |col| && col[i] <= col[j] ==> Spread(col, lo, hi)[i] <= Spread(col, lo, hi)[j]
  {
    var r := Spread(col, lo, hi);
    forall i | 0 <= i < |col|
      ensures 0.0 <= r[i] <= 1.0
      ensures r[i] == 0.0 <==> col[i] == lo
      ensures r[i] == 1.0 <==> col[i] == hi
    {
      NormalizedValue(col[i], lo, hi);
    }
    forall i, j | 0 <= i < |col| && 0 <= j < |col| && col[i] <= col[j]
      ensures r[i] <= r[j]
    {
      NormalizedOrder(col[i], col[j], lo, hi);
    }
  }

  /** A constant column normalises to 0.5 everywhere. */
  lemma {:induction false} NormalizeConstant(col: seq<real>)
    requires |col| > 0
    requires forall i :: 0 <= i < |col| ==> col[i] == col[0]
    ensures forall i :: 0 <= i < |col| ==> Normalize(col)[i] == 0.5
  {
    assert MinOf(col) == col[0] && MaxOf(col) == col[0] by {
      assert MinOf(col) in col && MaxOf(col) in col;
    }
  }

  /** The radar metrics in the order of the chart: speed factor,
      acceleration factor, speed consistency, throttle efficiency, index. */
  function Metric(r: CompositeRecord, m: nat): real
  {
    if m == 0 then r.speedFactor
    else if m == 1 then r.accelerationFactor
    else if m == 2 then r.speedConsistency
    else if m == 3 then r.throttleEfficiency
    else r.index
  }

  const MetricCount := 5

  function MetricColumn(records: seq<CompositeRecord>, m: nat): (c: seq<real>)
    ensures |c| == |records|
  {
    seq(|records|, i requires 0 <= i < |records| => Metric(records[i], m))
  }

  /** The normalisation loop: a copy of the metric columns, each overwritten
      in turn by its normalised values. */
  method NormalizeMetrics(records: seq<CompositeRecord>) returns (normalized: seq<seq<real>>)
    requires records != []
    ensures |normalized| == MetricCount
    ensures forall m :: 0 <= m < MetricCount ==> normalized[m] == Normalize(MetricColumn(records, m))
  {
    normalized := seq(MetricCount, m requires 0 <= m < MetricCount => MetricColumn(records, m));
    for m := 0 to MetricCount
      invariant |normalized| == MetricCount
      invariant forall k :: 0 <= k < m ==> normalized[k] == Normalize(MetricColumn(records, k))
      invariant forall k :: m <= k < MetricCount ==> normalized[k] == MetricColumn(records, k)
    {
      normalized := normalized[m := Normalize(normalized[m])];
    }
  }

  /** The first row of the table with the abbreviation of record `x`, as
      `normalized_data[normalized_data['Driver'] == ...].iloc[0]` finds it. */
  function RowOf(records: seq<CompositeRecord>, x: CompositeRecord): (k: nat)
    requires x in records
    ensures k < |records| && records[k].driver == x.driver
    ensures forall j :: 0 <= j < k ==> records[j].driver != x.driver
  {
    if records[0].driver == x.driver then 0
    else RowOf(records[1..], x) + 1
  }

  /** One radar series: the driver's normalised metrics, closed by repeating
      the first. */
  function Series(normalized: seq<seq<real>>, row: nat): (s: seq<real>)
    requires |normalized| == MetricCount
    requires forall m :: 0 <= m < MetricCount ==> row < |normalized[m]|
    ensures |s| == MetricCount + 1 && s[MetricCount] == s[0]
    ensures forall m :: 0 <= m < MetricCount ==> s[m] == normalized[m][row]
  {
    var values := seq(MetricCount, m requires 0 <= m < MetricCount => normalized[m][row]);
    values + [values[0]]
  }

  datatype RadarTrace = RadarTrace(driver: string, team: string, values: seq<real>)

  /** The five normalised metric columns of the table. */
  function Columns(records: seq<CompositeRecord>): (c: seq<seq<real>>)
    requires records != []
    ensures |c| == MetricCount
    ensures forall m :: 0 <= m < MetricCount ==> c[m] == Normalize(MetricColumn(records, m))
    ensures forall m :: 0 <= m < MetricCount ==> |c[m]| == |records|
  {
    seq(MetricCount, m requires 0 <= m < MetricCount => Normalize(MetricColumn(records, m)))
  }

  /** The radar trace of record `x`: its driver and team, and the
      normalised metrics of its first row in the table, closed by
      repeating the first. */
  function TraceFor(records: seq<CompositeRecord>, x: CompositeRecord): RadarTrace
    requires x in records
  {
    RadarTrace(x.driver, x.team, Series(Columns(records), RowOf(records, x)))
  }

  lemma {:induction false} TraceForValues(records: seq<CompositeRecord>, x: CompositeRecord)
    requires x in records
    ensures var t := TraceFor(records, x);
      && t.driver == x.driver && t.team == x.team
      && |t.values| == MetricCount + 1 && t.values[MetricCount] == t.values[0]
      && forall m :: 0 <= m < MetricCount ==> t.values[m] == Normalize(MetricColumn(records, m))[RowOf(records, x)]
  {
  }

  lemma {:induction false} TraceOfSeries(records: seq<CompositeRecord>, normalized: seq<seq<real>>, x: CompositeRecord)
    requires x in records && normalized == Columns(records)
    ensures RadarTrace(x.driver, x.team, Series(normalized, RowOf(records, x))) == TraceFor(records, x)
  {
  }

  /** `create_performance_radar`: None for an empty table; otherwise one
      closed series for each of the five best drivers, best first. */
  method PerformanceRadar(records: seq<CompositeRecord>) returns (r: Option<seq<RadarTrace>>)
    ensures records == [] <==> r.None?
    ensures r.Some? ==> |r.value| == |TopFive(records)|
    ensures r.Some? ==> forall k :: 0 <= k < |r.value| ==> r.value[k] == TraceFor(records, TopFive(records)[k])
  {
    if records == [] {
      return None;
    }
    var normalized := NormalizeMetrics(records);
    assert normalized == Columns(records);
    var traces := RadarTraces(records, normalized, TopFive(records));
    r := Some(traces);
  }

  /** The trace loop of `create_performance_radar` over the chosen records. */
  method RadarTraces(records: seq<CompositeRecord>, normalized: seq<seq<real>>, top: seq<CompositeRecord>)
    returns (traces: seq<RadarTrace>)
    requires records != [] && normalized == Columns(records)
    requires forall k :: 0 <= k < |top| ==> top[k] in records
    ensures |traces| == |top|
    ensures forall k :: 0 <= k < |top| ==> traces[k] == TraceFor(records, top[k])
  {
    traces := [];
    for k := 0 to |top|
      invariant |traces| == k
      invariant forall j :: 0 <= j < k ==> traces[j] == TraceFor(records, top[j])
    {
      var row := RowOf(records, top[k]);
      var s := Series(normalized, row);
      var trace := RadarTrace(top[k].driver, top[k].team, s);
      TraceOfSeries(records, normalized, top[k]);
      traces := traces + [trace];
    }
  }

  /** Every value of a radar series lies in [0, 1]. */
  lemma {:induction false} SeriesBounded(records: seq<CompositeRecord>, m: nat, row: nat)
    requires records != [] && row < |records|
    ensures 0.0 <= Normalize(MetricColumn(records, m))[row] <= 1.0
  {
    var c := MetricColumn(records, m);
    if MaxOf(c) != MinOf(c) {
      NormalizeFacts(c);
    }
  }
}
