/** The mechanical analyser: speed-band grip scores and tyre degradation
    from a driver's fastest-lap telemetry and lap times, and component
    stress shares with the reliability score derived from them. */
module MechanicalAnalysis {

  import opened Common
  import opened Laps
  import opened Telemetry

  // ---------------------------------------------------------------------
  // Speed bands
  // ---------------------------------------------------------------------

  /** Low-speed corners: below 100 km/h. */
  predicate LowBand(v: real)
  {
    v < 100.0
  }

  /** Medium-speed corners: from 100 up to, not including, 200 km/h. */
  predicate MediumBand(v: real)
  {
    100.0 <= v < 200.0
  }

  /** High-speed sections: 200 km/h and above. */
  predicate HighBand(v: real)
  {
    v >= 200.0
  }

  /** Every sample falls in exactly one band, so the three band sizes add
      up to the number of samples. */
  lemma {:induction false} BandsPartition(s: seq<real>)
    ensures CountWhere(s, LowBand) + CountWhere(s, MediumBand) + CountWhere(s, HighBand) == |s|
    ensures forall i :: 0 <= i < |s| ==>
      (LowBand(s[i]) || MediumBand(s[i]) || HighBand(s[i]))
      && !(LowBand(s[i]) && MediumBand(s[i])) && !(LowBand(s[i]) && HighBand(s[i])) && !(MediumBand(s[i]) && HighBand(s[i]))
  {
    if s != [] {
      BandsPartition(s[1..]);
      assert forall i :: 1 <= i < |s| ==> s[i] == s[1..][i - 1];
    }
  }

  /** `100 - std / mean * 100` over a band of positive speeds: at most 100,
      and exactly 100 when the band's speeds do not spread. */
  function Consistency(band: seq<real>, std: Deviation): (r: real)
    requires |band| > 0
    requires forall i :: 0 <= i < |band| ==> band[i] > 0.0
    ensures r <= 100.0
    ensures r == 100.0 <==> std(band) == 0.0
  {
    MeanPositive(band);
    100.0 - Quotient(std(band), Mean(band)) * 100.0
  }

  /** The low-speed consistency score; 50 when no sample is below 100 km/h. */
  function LowSpeedConsistency(s: seq<real>, std: Deviation): (r: real)
    requires forall i :: 0 <= i < |s| ==> s[i] > 0.0
    ensures r <= 100.0
    ensures CountWhere(s, LowBand) == 0 ==> r == 50.0
    ensures CountWhere(s, LowBand) > 0 ==> (r == 100.0 <==> std(Filter(s, LowBand)) == 0.0)
  {
    var band := Filter(s, LowBand);
    if |band| > 0 then Consistency(band, std) else 50.0
  }

  /** The medium-speed efficiency, the band's mean speed over 150 km/h in
      percent; 50 when the band is empty. */
  function MediumSpeedEfficiency(s: seq<real>): (r: real)
    ensures CountWhere(s, MediumBand) == 0 ==> r == 50.0
    ensures CountWhere(s, MediumBand) > 0 ==> 200.0 / 3.0 <= r < 400.0 / 3.0
  {
    var band := Filter(s, MediumBand);
    if |band| > 0 then
      MinMeanMax(band);
      Mean(band) / 150.0 * 100.0
    else 50.0
  }

  /** The high-speed stability score; 50 when no sample reaches 200 km/h. */
  function HighSpeedStability(s: seq<real>, std: Deviation): (r: real)
    requires forall i :: 0 <= i < |s| ==> s[i] > 0.0
    ensures r <= 100.0
    ensures CountWhere(s, HighBand) == 0 ==> r == 50.0
    ensures CountWhere(s, HighBand) > 0 ==> (r == 100.0 <==> std(Filter(s, HighBand)) == 0.0)
  {
    var band := Filter(s, HighBand);
    if |band| > 0 then Consistency(band, std) else 50.0
  }

  // ---------------------------------------------------------------------
  // Tyre degradation
  // ---------------------------------------------------------------------

  /** The degradation rate over a driver's timed laps: the change of the mean
      lap time from the first half (`n // 2` laps) to the rest, in percent
      of the first half; 0 with fewer than ten timed laps. */
  function DegradationRate(t: seq<real>): (r: real)
    requires forall i :: 0 <= i < |t| ==> t[i] > 0.0
    ensures |t| < 10 ==> r == 0.0
    ensures |t| >= 10 ==> (r > 0.0 <==> Mean(t[|t| / 2..]) > Mean(t[..|t| / 2]))
    ensures |t| >= 10 ==> (r == 0.0 <==> Mean(t[|t| / 2..]) == Mean(t[..|t| / 2]))
  {
    if |t| < 10 then 0.0
    else
      var first := t[..|t| / 2];
      MeanPositive(first);
      Quotient(Mean(t[|t| / 2..]) - Mean(first), Mean(first)) * 100.0
  }

  /** Lap times that do not change show no degradation. */
  lemma {:induction false} DegradationConstant(t: seq<real>, c: real)
    requires c > 0.0
    requires forall i :: 0 <= i < |t| ==> t[i] == c
    ensures DegradationRate(t) == 0.0
  {
    if |t| >= 10 {
      var first, second := t[..|t| / 2], t[|t| / 2..];
      MeanBounds(first, c, c);
      MeanBounds(second, c, c);
    }
  }

  // ---------------------------------------------------------------------
  // Mechanical grip table
  // ---------------------------------------------------------------------

  /** A row of the grip table (the percentage strings hold these values). */
  datatype GripRecord = GripRecord(
    driver: string,
    lowSpeedGrip: real,
    mediumSpeedBalance: real,
    highSpeedStability: real,
    mechanicalScore: real,
    tireDegradation: real)

  /** The grip row of driver `d`: None when the driver has no laps, when the
      fastest lap's telemetry cannot be read, or when it has no Speed
      channel. */
  function GripOf(d: string, laps: seq<Lap>, fastest: string -> Option<Trace>, std: Deviation): (r: Option<GripRecord>)
    ensures r.Some? <==> LapsOf(d, laps) != [] && fastest(d).Some? && fastest(d).value.speed.Some?
    ensures r.Some? ==> r.value.driver == d
    ensures r.Some? ==> r.value.mechanicalScore == (r.value.lowSpeedGrip + r.value.mediumSpeedBalance + r.value.highSpeedStability) / 3.0
    ensures r.Some? ==> r.value.tireDegradation == DegradationRate(TimesOf(TimedRows(d, laps)))
  {
    if LapsOf(d, laps) == [] then None
    else
      match fastest(d)
      case None => None
      case Some(trace) =>
        match trace.speed
        case None => None
        case Some(s) =>
          var low := LowSpeedConsistency(s, std);
          var medium := MediumSpeedEfficiency(s);
          var high := HighSpeedStability(s, std);
          Some(GripRecord(d, low, medium, high, (low + medium + high) / 3.0, DegradationRate(TimesOf(TimedRows(d, laps)))))
  }

  function GripRow(laps: seq<Lap>, fastest: string -> Option<Trace>, std: Deviation): string -> Option<GripRecord>
  {
    d => GripOf(d, laps, fastest, std)
  }

  /** The band scores of a grip row bound its mechanical score: no band
      scores above 100 except the medium one, which stays under 400/3. */
  lemma {:induction false} GripScoreBounds(d: string, laps: seq<Lap>, fastest: string -> Option<Trace>, std: Deviation)
    requires GripOf(d, laps, fastest, std).Some?
    ensures GripOf(d, laps, fastest, std).value.lowSpeedGrip <= 100.0
    ensures GripOf(d, laps, fastest, std).value.highSpeedStability <= 100.0
    ensures GripOf(d, laps, fastest, std).value.mediumSpeedBalance < 400.0 / 3.0
    ensures GripOf(d, laps, fastest, std).value.mechanicalScore < 1000.0 / 9.0
  {
  }

  /** `analyze_mechanical_grip`: the grip rows of the requested drivers,
      skipping those without one. */
  method AnalyzeMechanicalGrip(drivers: seq<string>, laps: seq<Lap>, fastest: string -> Option<Trace>, std: Deviation)
    returns (grip: seq<GripRecord>)
    ensures grip == Collect(drivers, GripRow(laps, fastest, std))
  {
    grip := [];
    for i := 0 to |drivers|
      invariant grip == Collect(drivers[..i], GripRow(laps, fastest, std))
    {
      CollectStep(drivers, GripRow(laps, fastest, std), i);
      var r := GripOf(drivers[i], laps, fastest, std);
      if r.Some? {
        grip := grip + [r.value];
      }
    }
    assert drivers[..|drivers|] == drivers;
  }

  /** A requested driver with laps and a Speed channel has its row in the
      grip table, and every row there belongs to a requested driver. */
  lemma {:induction false} GripTableExactly(drivers: seq<string>, laps: seq<Lap>, fastest: string -> Option<Trace>, std: Deviation, d: string)
    ensures d in drivers && LapsOf(d, laps) != [] && fastest(d).Some? && fastest(d).value.speed.Some? ==>
      GripOf(d, laps, fastest, std).value in Collect(drivers, GripRow(laps, fastest, std))
    ensures forall k :: 0 <= k < |Collect(drivers, GripRow(laps, fastest, std))| ==>
      Collect(drivers, GripRow(laps, fastest, std))[k].driver in drivers
  {
    var f := GripRow(laps, fastest, std);
    CollectExactly(drivers, f, d);
    var table := Collect(drivers, f);
    forall k | 0 <= k < |table|
      ensures table[k].driver in drivers
    {
      var j :| 0 <= j < |drivers| && f(drivers[j]) == Some(table[k]);
    }
  }

  // ---------------------------------------------------------------------
  // Component stress
  // ---------------------------------------------------------------------

  /** Engine stress: the share of RPM samples above the channel's 0.9
      quantile; 50 when the channel is missing or empty. */
  function EngineStress(rpm: Option<seq<real>>, quantile: Statistic): (r: real)
    ensures 0.0 <= r <= 100.0
    ensures rpm.None? || rpm.value == [] ==> r == 50.0
    ensures rpm.Some? && rpm.value != [] ==>
      (r == 0.0 <==> forall i :: 0 <= i < |rpm.value| ==> rpm.value[i] <= quantile(rpm.value))
  {
    if rpm.None? || rpm.value == [] then 50.0 else ShareAbove(rpm.value, quantile(rpm.value))
  }

  /** Brake stress: the share of brake samples above 80; 50 when the channel
      is missing or empty. */
  function BrakeStress(brake: Option<seq<real>>): (r: real)
    ensures 0.0 <= r <= 100.0
    ensures brake.None? || brake.value == [] ==> r == 50.0
    ensures brake.Some? && brake.value != [] ==>
      (r == 0.0 <==> forall i :: 0 <= i < |brake.value| ==> brake.value[i] <= 80.0)
  {
    if brake.None? || brake.value == [] then 50.0 else ShareAbove(brake.value, 80.0)
  }

  /** Throttle stress: the share of samples at full throttle; 50 when the
      channel is missing or empty. */
  function ThrottleStress(throttle: Option<seq<real>>): (r: real)
    ensures 0.0 <= r <= 100.0
    ensures throttle.None? || throttle.value == [] ==> r == 50.0
    ensures throttle.Some? && throttle.value != [] ==>
      (r == 0.0 <==> CountFull(throttle.value) == 0)
  {
    if throttle.None? || throttle.value == [] then 50.0
    else Percentage(CountFull(throttle.value), |throttle.value|)
  }

  /** `max(0, 100 - avg_stress)`. */
  function Reliability(avg: real): (r: real)
    ensures r >= 0.0
    ensures avg >= 0.0 ==> r <= 100.0
  {
    if 100.0 - avg > 0.0 then 100.0 - avg else 0.0
  }

  /** A row of the stress table. */
  datatype StressRecord = StressRecord(
    driver: string,
    engineStress: real,
    brakeStress: real,
    throttleStress: real,
    reliabilityScore: real,
    overallStress: real)

  /** The stress row of driver `d`: None when the driver has no laps or the
      fastest lap's telemetry cannot be read. */
  function StressOf(d: string, laps: seq<Lap>, fastest: string -> Option<Trace>, quantile: Statistic): (r: Option<StressRecord>)
    ensures r.Some? <==> LapsOf(d, laps) != [] && fastest(d).Some?
    ensures r.Some? ==> r.value.driver == d
    ensures r.Some? ==> r.value.overallStress == (r.value.engineStress + r.value.brakeStress + r.value.throttleStress) / 3.0
  {
    if LapsOf(d, laps) == [] then None
    else
      match fastest(d)
      case None => None
      case Some(trace) =>
        var engine := EngineStress(trace.rpm, quantile);
        var brake := BrakeStress(trace.brake);
        var throttle := ThrottleStress(trace.throttle);
        var avg := (engine + brake + throttle) / 3.0;
        Some(StressRecord(d, engine, brake, throttle, Reliability(avg), avg))
  }

  function StressRow(laps: seq<Lap>, fastest: string -> Option<Trace>, quantile: Statistic): string -> Option<StressRecord>
  {
    d => StressOf(d, laps, fastest, quantile)
  }

  /** Every stress share lies in [0, 100], so their mean does too, and the
      clamp at 0 never engages: reliability is exactly 100 minus the mean
      stress. */
  lemma {:induction false} StressBounds(d: string, laps: seq<Lap>, fastest: string -> Option<Trace>, quantile: Statistic)
    requires StressOf(d, laps, fastest, quantile).Some?
    ensures var r := StressOf(d, laps, fastest, quantile).value;
      && 0.0 <= r.overallStress <= 100.0
      && r.reliabilityScore == 100.0 - r.overallStress
      && 0.0 <= r.reliabilityScore <= 100.0
  {
    var trace := fastest(d).value;
    var engine := EngineStress(trace.rpm, quantile);
    var brake := BrakeStress(trace.brake);
    var throttle := ThrottleStress(trace.throttle);
    var avg := (engine + brake + throttle) / 3.0;
    assert 0.0 <= avg <= 100.0;
  }

  /** `analyze_component_stress`: the stress rows of the requested drivers,
      skipping those without one. */
  method AnalyzeComponentStress(drivers: seq<string>, laps: seq<Lap>, fastest: string -> Option<Trace>, quantile: Statistic)
    returns (stress: seq<StressRecord>)
    ensures stress == Collect(drivers, StressRow(laps, fastest, quantile))
  {
    stress := [];
    for i := 0 to |drivers|
      invariant stress == Collect(drivers[..i], StressRow(laps, fastest, quantile))
    {
      CollectStep(drivers, StressRow(laps, fastest, quantile), i);
      var r := StressOf(drivers[i], laps, fastest, quantile);
      if r.Some? {
        stress := stress + [r.value];
      }
    }
    assert drivers[..|drivers|] == drivers;
  }

  predicate ReliabilityInRange(r: StressRecord)
  {
    0.0 <= r.reliabilityScore <= 100.0 && r.reliabilityScore == 100.0 - r.overallStress
  }

  /** Every row of the stress table has a reliability in [0, 100] equal to
      100 minus its mean stress. */
  lemma {:induction false} StressTableBounds(drivers: seq<string>, laps: seq<Lap>, fastest: string -> Option<Trace>, quantile: Statistic)
    ensures forall k :: 0 <= k < |Collect(drivers, StressRow(laps, fastest, quantile))| ==>
      ReliabilityInRange(Collect(drivers, StressRow(laps, fastest, quantile))[k])
  {
    var f := StressRow(laps, fastest, quantile);
    forall d | f(d).Some?
      ensures ReliabilityInRange(f(d).value)
    {
      StressBounds(d, laps, fastest, quantile);
    }
    CollectAll(drivers, f, ReliabilityInRange);
  }
}
