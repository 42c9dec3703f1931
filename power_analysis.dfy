/** The power-unit analyser: top and mean speed, throttle application, a
    power-efficiency estimate and the count of acceleration zones on each
    driver's fastest lap. */
module PowerAnalysis {

  import opened Common
  import opened Laps
  import opened Telemetry

  /** A row of the power table (the formatted strings hold these values). */
  datatype PowerRecord = PowerRecord(
    driver: string,
    maxSpeed: real,
    avgSpeed: real,
    fullThrottlePct: real,
    avgThrottle: real,
    powerEfficiency: real,
    accelerationZones: nat)

  /** The samples where the throttle is above 80% and the speed is higher
      than at the previous sample; the first sample has no previous one
      (its `diff` is NaN) and never counts. */
  function AccelerationZones(speed: seq<real>, throttle: seq<real>): (n: nat)
    requires |speed| == |throttle|
    ensures |speed| > 0 ==> n <= |speed| - 1
    ensures |speed| == 0 ==> n == 0
  {
    if |speed| <= 1 then 0
    else
      var k := |speed| - 1;
      AccelerationZones(speed[..k], throttle[..k]) + (if throttle[k] > 80.0 && speed[k] > speed[k - 1] then 1 else 0)
  }

  /** No sample counts on a lap whose speed never rises, nor on one where
      the throttle never exceeds 80%. */
  lemma {:induction false} AccelerationZonesNone(speed: seq<real>, throttle: seq<real>)
    requires |speed| == |throttle|
    requires (forall i :: 0 < i < |speed| ==> speed[i] <= speed[i - 1]) || (forall i :: 0 <= i < |throttle| ==> throttle[i] <= 80.0)
    ensures AccelerationZones(speed, throttle) == 0
  {
    if |speed| > 1 {
      var k := |speed| - 1;
      AccelerationZonesNone(speed[..k], throttle[..k]);
    }
  }

  /** A fraction in (0, 1] of a percentage is again a percentage, and is zero
      only when the percentage is. */
  lemma ScaledPercentage(ratio: real, pct: real)
    requires 0.0 < ratio <= 1.0 && 0.0 <= pct <= 100.0
    ensures 0.0 <= ratio * (pct / 100.0) * 100.0 <= 100.0
    ensures ratio * (pct / 100.0) * 100.0 == 0.0 <==> pct == 0.0
  {
    assert ratio * (pct / 100.0) * 100.0 == ratio * pct;
    ProductBound(ratio, pct);
  }

  /** A positive quotient of a number by a larger one is at most 1. */
  lemma FractionAtMostOne(a: real, b: real)
    requires 0.0 < a <= b
    ensures 0.0 < a / b <= 1.0
  {
    var q := a / b;
    assert q * b == a;
  }

  lemma ProductBound(a: real, b: real)
    requires 0.0 <= a <= 1.0 && b >= 0.0
    ensures 0.0 <= a * b <= b
  {
    NonNegativeProduct(a, b);
    NonNegativeProduct(1.0 - a, b);
    assert (1.0 - a) * b == b - a * b;
  }

  lemma NonNegativeProduct(a: real, b: real)
    requires a >= 0.0 && b >= 0.0
    ensures a * b >= 0.0
  {
  }

  /** `(avg_speed / max_speed) * (avg_throttle / 100) * 100` for a lap of
      positive speeds and throttle percentages: a percentage, zero exactly
      when the throttle was never applied. */
  function PowerEfficiency(speed: seq<real>, throttle: seq<real>): (e: real)
    requires |speed| > 0 && |throttle| > 0
    requires forall i :: 0 <= i < |speed| ==> speed[i] > 0.0
    requires forall i :: 0 <= i < |throttle| ==> 0.0 <= throttle[i] <= 100.0
    ensures 0.0 <= e <= 100.0
    ensures e == 0.0 <==> Mean(throttle) == 0.0
  {
    MinMeanMax(speed);
    MeanPositive(speed);
    MeanBounds(throttle, 0.0, 100.0);
    var top := MaxOf(speed);
    var ratio := Quotient(Mean(speed), top);
    FractionAtMostOne(Mean(speed), top);
    var avgThrottle := Mean(throttle);
    ScaledPercentage(ratio, avgThrottle);
    ratio * (avgThrottle / 100.0) * 100.0
  }

  /** The power row of driver `d`: None when the driver has no laps, when the
      fastest lap's telemetry cannot be read, or when it lacks the Speed or
      the Throttle channel. */
  function PowerOf(d: string, laps: seq<Lap>, fastest: string -> Option<Trace>): (r: Option<PowerRecord>)
    ensures r.Some? <==> LapsOf(d, laps) != [] && fastest(d).Some? && fastest(d).value.speed.Some? && fastest(d).value.throttle.Some?
    ensures r.Some? ==> r.value.driver == d
    ensures r.Some? ==> 0.0 <= r.value.fullThrottlePct <= 100.0
    ensures r.Some? ==> 0.0 <= r.value.powerEfficiency <= 100.0
    ensures r.Some? ==> 0.0 < r.value.avgSpeed <= r.value.maxSpeed
    ensures r.Some? ==> r.value.accelerationZones < fastest(d).value.size
  {
    if LapsOf(d, laps) == [] then None
    else
      match fastest(d)
      case None => None
      case Some(trace) =>
        if trace.speed.None? || trace.throttle.None? then None
        else
          var speed, throttle := trace.speed.value, trace.throttle.value;
          MinMeanMax(speed);
          MeanPositive(speed);
          Some(PowerRecord(d, MaxOf(speed), Mean(speed), Percentage(CountFull(throttle), trace.size), Mean(throttle),
            PowerEfficiency(speed, throttle), AccelerationZones(speed, throttle)))
  }

  function PowerRow(laps: seq<Lap>, fastest: string -> Option<Trace>): string -> Option<PowerRecord>
  {
    d => PowerOf(d, laps, fastest)
  }

  /** `analyze_power_delivery`: the power rows of the requested drivers,
      skipping those without one. */
  method AnalyzePowerDelivery(drivers: seq<string>, laps: seq<Lap>, fastest: string -> Option<Trace>)
    returns (power: seq<PowerRecord>)
    ensures power == Collect(drivers, PowerRow(laps, fastest))
  {
    power := [];
    for i := 0 to |drivers|
      invariant power == Collect(drivers[..i], PowerRow(laps, fastest))
    {
      CollectStep(drivers, PowerRow(laps, fastest), i);
      var r := PowerOf(drivers[i], laps, fastest);
      if r.Some? {
        power := power + [r.value];
      }
    }
    assert drivers[..|drivers|] == drivers;
  }

  /** The power table lists drivers in request order, and a requested driver
      with laps, Speed and Throttle has its row there. */
  lemma {:induction false} PowerTableOrder(drivers: seq<string>, laps: seq<Lap>, fastest: string -> Option<Trace>, k1: nat, k2: nat, d: string)
    requires k1 < k2 < |Collect(drivers, PowerRow(laps, fastest))|
    ensures exists j1, j2 :: (0 <= j1 < j2 < |drivers|
      && drivers[j1] == Collect(drivers, PowerRow(laps, fastest))[k1].driver
      && drivers[j2] == Collect(drivers, PowerRow(laps, fastest))[k2].driver)
    ensures d in drivers && PowerOf(d, laps, fastest).Some? ==> PowerOf(d, laps, fastest).value in Collect(drivers, PowerRow(laps, fastest))
  {
    var f := PowerRow(laps, fastest);
    CollectOrdered(drivers, f, k1, k2);
    CollectExactly(drivers, f, d);
    var table := Collect(drivers, f);
    var j1, j2 :| 0 <= j1 < j2 < |drivers| && f(drivers[j1]) == Some(table[k1]) && f(drivers[j2]) == Some(table[k2]);
    assert drivers[j1] == table[k1].driver && drivers[j2] == table[k2].driver;
  }
}
