/** Racecraft analysis: places gained and lost from lap to lap, lap-time
    consistency as a measure of defending, and the driving style read from
    the throttle and brake traces of the fastest lap. */
module RacecraftAnalysis {

  import opened Common
  import opened Laps
  import opened Telemetry

  // ------------------------------------------------------------ overtaking

  /** The places a step `change = previous - current` gains ... */
  function Gain(change: int): nat
  {
    if change > 0 then change else 0
  }

  /** ... and the places it loses. */
  function Loss(change: int): nat
  {
    if change < 0 then -change else 0
  }

  /** The step changes `p[i-1] - p[i]` of a run of positions, in order. */
  function Changes(p: seq<int>): (c: seq<int>)
    ensures |p| > 0 ==> |c| == |p| - 1
  {
    if |p| < 2 then []
    else Changes(p[..|p| - 1]) + [p[|p| - 2] - p[|p| - 1]]
  }

  /** The places gained over a run of positions: the positive changes summed. */
  function Gained(p: seq<int>): nat
  {
    if |p| < 2 then 0
    else Gained(p[..|p| - 1]) + Gain(p[|p| - 2] - p[|p| - 1])
  }

  /** The places lost: the magnitudes of the negative changes summed. */
  function Lost(p: seq<int>): nat
  {
    if |p| < 2 then 0
    else Lost(p[..|p| - 1]) + Loss(p[|p| - 2] - p[|p| - 1])
  }

  /** The position never improves from one recorded lap to the next. */
  predicate NeverGains(p: seq<int>)
  {
    forall i :: 0 < i < |p| ==> p[i - 1] <= p[i]
  }

  /** The position never worsens from one recorded lap to the next. */
  predicate NeverLoses(p: seq<int>)
  {
    forall i :: 0 < i < |p| ==> p[i - 1] >= p[i]
  }

  /** The position never changes. */
  predicate NeverMoves(p: seq<int>)
  {
    forall i :: 0 < i < |p| ==> p[i - 1] == p[i]
  }

  /** The changes telescope: places gained less places lost is the first
      position less the last, the net change. */
  lemma {:induction false} GainedLessLost(p: seq<int>)
    requires p != []
    ensures Gained(p) - Lost(p) == p[0] - p[|p| - 1]
  {
    if |p| >= 2 {
      var q := p[..|p| - 1];
      GainedLessLost(q);
      assert q[0] == p[0] && q[|q| - 1] == p[|p| - 2];
    }
  }

  /** No place is gained exactly when the positions never improve. */
  lemma {:induction false} GainedNone(p: seq<int>)
    ensures Gained(p) == 0 <==> NeverGains(p)
  {
    if |p| >= 2 {
      var q := p[..|p| - 1];
      GainedNone(q);
      assert forall i :: 0 <= i < |q| ==> q[i] == p[i];
    }
  }

  /** No place is lost exactly when the positions never get worse. */
  lemma {:induction false} LostNone(p: seq<int>)
    ensures Lost(p) == 0 <==> NeverLoses(p)
  {
    if |p| >= 2 {
      var q := p[..|p| - 1];
      LostNone(q);
      assert forall i :: 0 <= i < |q| ==> q[i] == p[i];
    }
  }

  /** The loop over consecutive positions: it records every change and
      adds each positive one to the overtakes and each negative one, as a
      magnitude, to the places lost. */
  method PositionChanges(p: seq<int>) returns (changes: seq<int>, overtakes: nat, lost: nat)
    requires p != []
    ensures changes == Changes(p)
    ensures overtakes == Gained(p) && lost == Lost(p)
  {
    changes := [];
    overtakes := 0;
    lost := 0;
    for i := 1 to |p|
      invariant changes == Changes(p[..i])
      invariant overtakes == Gained(p[..i]) && lost == Lost(p[..i])
    {
      assert p[..i + 1][..i] == p[..i];
      var change := p[i - 1] - p[i];
      changes := changes + [change];
      if change > 0 {
        overtakes := overtakes + change;
      } else if change < 0 {
        lost := lost + (-change);
      }
    }
    assert p[..|p|] == p;
  }

  function Reals(c: seq<int>): (r: seq<real>)
    ensures |r| == |c|
  {
    seq(|c|, i requires 0 <= i < |c| => c[i] as real)
  }

  /** `racecraft_score`: 50 for a driver who made no overtake, otherwise
      100 less ten points per unit of position volatility, floored at 0. */
  function RacecraftScore(overtakes: nat, volatility: real): (r: real)
    requires volatility >= 0.0
    ensures 0.0 <= r <= 100.0
    ensures overtakes == 0 ==> r == 50.0
    ensures overtakes > 0 ==> (r == 100.0 <==> volatility == 0.0)
    ensures overtakes > 0 ==> (r == 0.0 <==> volatility >= 10.0)
  {
    if overtakes > 0 then (if 100.0 - volatility * 10.0 > 0.0 then 100.0 - volatility * 10.0 else 0.0)
    else 50.0
  }

  datatype OvertakingEntry = OvertakingEntry(
    driver: string,
    overtakesMade: nat,
    positionsLost: nat,
    netPositionChange: int,
    racingAggression: real,
    positionVolatility: real,
    racecraftScore: real)

  /** One driver's overtaking record, or None when the driver has no rows or
      fewer than two recorded positions. Aggression is the places changed
      per row (rows without a position included) in percent; volatility is
      the deviation of the step changes. */
  function DriverOvertaking(d: string, laps: seq<Lap>, std: Deviation): (r: Option<OvertakingEntry>)
    ensures r.Some? <==> |PositionsOf(LapsOf(d, laps))| >= 2
    ensures r.Some? ==> r.value.driver == d
  {
    var rows := LapsOf(d, laps);
    if rows == [] then None
    else
      var p := PositionsOf(rows);
      if |p| < 2 then None
      else
        Some(EntryOf(d, p, |rows|, std))
  }

  /** The record of a driver with positions `p` over `n` rows. */
  function EntryOf(d: string, p: seq<int>, n: nat, std: Deviation): (e: OvertakingEntry)
    requires |p| >= 2 && n > 0
    ensures e.driver == d
  {
    var volatility := std(Reals(Changes(p)));
    OvertakingEntry(d, Gained(p), Lost(p), p[0] - p[|p| - 1],
      Percentage(Gained(p) + Lost(p), n), volatility,
      RacecraftScore(Gained(p), volatility))
  }

  /** What every overtaking record promises: gained less lost is the net
      change, the counts vanish exactly when the positions never move that
      way, aggression is not negative and the score lies in [0, 100]. */
  lemma {:induction false} OvertakingEntryFacts(d: string, laps: seq<Lap>, std: Deviation)
    requires DriverOvertaking(d, laps, std).Some?
    ensures var e := DriverOvertaking(d, laps, std).value;
      var p := PositionsOf(LapsOf(d, laps));
      && e.overtakesMade - e.positionsLost == e.netPositionChange == p[0] - p[|p| - 1]
      && (e.overtakesMade == 0 <==> NeverGains(p))
      && (e.positionsLost == 0 <==> NeverLoses(p))
      && e.racingAggression >= 0.0
      && (e.racingAggression == 0.0 <==> NeverMoves(p))
      && e.positionVolatility >= 0.0
      && 0.0 <= e.racecraftScore <= 100.0
      && (e.overtakesMade == 0 ==> e.racecraftScore == 50.0)
  {
    var rows := LapsOf(d, laps);
    var p := PositionsOf(rows);
    assert DriverOvertaking(d, laps, std) == Some(EntryOf(d, p, |rows|, std));
    EntryOfFacts(d, p, |rows|, std);
  }

  lemma {:induction false} EntryOfFacts(d: string, p: seq<int>, n: nat, std: Deviation)
    requires |p| >= 2 && n > 0
    ensures var e := EntryOf(d, p, n, std);
      && e.overtakesMade - e.positionsLost == e.netPositionChange == p[0] - p[|p| - 1]
      && (e.overtakesMade == 0 <==> NeverGains(p))
      && (e.positionsLost == 0 <==> NeverLoses(p))
      && e.racingAggression >= 0.0
      && (e.racingAggression == 0.0 <==> NeverMoves(p))
      && e.positionVolatility >= 0.0
      && 0.0 <= e.racecraftScore <= 100.0
      && (e.overtakesMade == 0 ==> e.racecraftScore == 50.0)
  {
    GainedLessLost(p);
    GainedNone(p);
    LostNone(p);
  }

  /** The per-driver step of `analyze_overtaking_patterns`. */
  method OvertakingOf(d: string, laps: seq<Lap>, std: Deviation) returns (e: Option<OvertakingEntry>)
    ensures e == DriverOvertaking(d, laps, std)
  {
    var rows := LapsOf(d, laps);
    if rows == [] {
      return None;
    }
    var positions := PositionsOf(rows);
    if |positions| < 2 {
      return None;
    }
    var changes, overtakes, lost := PositionChanges(positions);
    var aggression := Percentage(overtakes + lost, |rows|);
    var net := positions[0] - positions[|positions| - 1];
    var volatility := std(Reals(changes));
    e := Some(OvertakingEntry(d, overtakes, lost, net, aggression, volatility,
      RacecraftScore(overtakes, volatility)));
  }

  function OvertakingRow(laps: seq<Lap>, std: Deviation): string -> Option<OvertakingEntry>
  {
    d => DriverOvertaking(d, laps, std)
  }

  /** `analyze_overtaking_patterns`: the records of the requested drivers
      that have one, in request order. */
  method AnalyzeOvertakingPatterns(drivers: seq<string>, laps: seq<Lap>, std: Deviation)
    returns (data: seq<OvertakingEntry>)
    ensures data == Collect(drivers, OvertakingRow(laps, std))
  {
    data := [];
    for i := 0 to |drivers|
      invariant data == Collect(drivers[..i], OvertakingRow(laps, std))
    {
      CollectStep(drivers, OvertakingRow(laps, std), i);
      var e := OvertakingOf(drivers[i], laps, std);
      if e.Some? {
        data := data + [e.value];
      }
    }
    assert drivers[..|drivers|] == drivers;
  }

  /** A requested driver has a record exactly when it has two or more
      positions, and every record belongs to a requested driver. */
  lemma {:induction false} OvertakingTableMembers(drivers: seq<string>, laps: seq<Lap>, std: Deviation, d: string)
    ensures |PositionsOf(LapsOf(d, laps))| >= 2 && d in drivers ==>
      DriverOvertaking(d, laps, std).value in Collect(drivers, OvertakingRow(laps, std))
    ensures forall k :: 0 <= k < |Collect(drivers, OvertakingRow(laps, std))| ==>
      Collect(drivers, OvertakingRow(laps, std))[k].driver in drivers
  {
    var f := OvertakingRow(laps, std);
    CollectExactly(drivers, f, d);
    forall k | 0 <= k < |Collect(drivers, f)|
      ensures Collect(drivers, f)[k].driver in drivers
    {
      var j :| 0 <= j < |drivers| && f(drivers[j]) == Some(Collect(drivers, f)[k]);
      assert Collect(drivers, f)[k].driver == drivers[j];
    }
  }

  // ------------------------------------------------------------ defensive driving

  /** The lap-time loop: the times of the rows that have one, in order. */
  method CollectLapTimes(rows: seq<Lap>) returns (t: seq<real>)
    ensures t == LapTimes(rows)
  {
    t := [];
    for i := 0 to |rows|
      invariant t + LapTimes(rows[i..]) == LapTimes(rows)
    {
      LapTimesStep(rows, i, t);
      if rows[i].lapTime.Some? {
        t := t + [rows[i].lapTime.value as real];
      }
    }
    assert t + [] == t;
  }

  /** Taking row i's time, if any, off the times of the rows from i on. */
  lemma {:induction false} LapTimesStep(rows: seq<Lap>, i: nat, t: seq<real>)
    requires i < |rows|
    ensures var first := if rows[i].lapTime.Some? then [rows[i].lapTime.value as real] else [];
      t + LapTimes(rows[i..]) == (t + first) + LapTimes(rows[i + 1..])
  {
    assert rows[i..][1..] == rows[i + 1..];
  }

  /** `t[n // 3 : 2 * n // 3]`: about a third of the laps, never empty from
      two laps on. */
  function MiddleThird(t: seq<real>): (m: seq<real>)
    ensures |t| / 3 <= |m| <= |t| / 3 + 1
    ensures |t| >= 2 ==> |m| > 0
  {
    t[|t| / 3 .. 2 * |t| / 3]
  }

  datatype DefensiveEntry = DefensiveEntry(
    driver: string,
    lapTimeConsistency: real,
    pressureHandling: real,
    defensiveScore: real,
    totalRaceLaps: nat)

  /** `max(0, 100 - 10 * cv)`. */
  function DefensiveScore(cv: real): (r: real)
    requires cv >= 0.0
    ensures 0.0 <= r <= 100.0
    ensures r == 100.0 <==> cv == 0.0
    ensures r == 0.0 <==> cv >= 10.0
  {
    if 100.0 - cv * 10.0 > 0.0 then 100.0 - cv * 10.0 else 0.0
  }

  /** One driver's defensive record, or None with fewer than five timed
      laps. Consistency is the deviation of the lap times as a percentage
      of their mean; pressure handling reads the middle third of the laps. */
  function DriverDefensive(d: string, laps: seq<Lap>, std: Deviation): (r: Option<DefensiveEntry>)
    ensures r.Some? <==> |LapTimes(LapsOf(d, laps))| >= 5
    ensures r.Some? ==> r.value.driver == d && r.value.totalRaceLaps == |LapTimes(LapsOf(d, laps))|
    ensures r.Some? ==> r.value.lapTimeConsistency >= 0.0
    ensures r.Some? ==> 0.0 <= r.value.defensiveScore <= 100.0
    ensures r.Some? ==> (r.value.defensiveScore == 100.0 <==> std(LapTimes(LapsOf(d, laps))) == 0.0)
    ensures r.Some? ==> r.value.pressureHandling <= 100.0
  {
    var rows := LapsOf(d, laps);
    if rows == [] then None
    else
      var t := LapTimes(rows);
      if |t| < 5 then None
      else
        MeanPositive(t);
        var cv := Quotient(std(t), Mean(t)) * 100.0;
        Some(DefensiveEntry(d, cv, 100.0 - std(MiddleThird(t)) * 100.0, DefensiveScore(cv), |t|))
  }

  /** The per-driver step of `analyze_defensive_driving`. */
  method DefensiveOf(d: string, laps: seq<Lap>, std: Deviation) returns (e: Option<DefensiveEntry>)
    ensures e == DriverDefensive(d, laps, std)
  {
    var rows := LapsOf(d, laps);
    if rows == [] {
      return None;
    }
    var t := CollectLapTimes(rows);
    if |t| < 5 {
      return None;
    }
    MeanPositive(t);
    var cv := Quotient(std(t), Mean(t)) * 100.0;
    var middle := MiddleThird(t);
    e := Some(DefensiveEntry(d, cv, 100.0 - std(middle) * 100.0, DefensiveScore(cv), |t|));
  }

  function DefensiveRow(laps: seq<Lap>, std: Deviation): string -> Option<DefensiveEntry>
  {
    d => DriverDefensive(d, laps, std)
  }

  /** `analyze_defensive_driving`: the records of the requested drivers
      that have one, in request order. */
  method AnalyzeDefensiveDriving(drivers: seq<string>, laps: seq<Lap>, std: Deviation)
    returns (data: seq<DefensiveEntry>)
    ensures data == Collect(drivers, DefensiveRow(laps, std))
  {
    data := [];
    for i := 0 to |drivers|
      invariant data == Collect(drivers[..i], DefensiveRow(laps, std))
    {
      CollectStep(drivers, DefensiveRow(laps, std), i);
      var e := DefensiveOf(drivers[i], laps, std);
      if e.Some? {
        data := data + [e.value];
      }
    }
    assert drivers[..|drivers|] == drivers;
  }

  /** Every defensive record covers five or more laps and scores in [0, 100]. */
  lemma {:induction false} DefensiveTableBounds(drivers: seq<string>, laps: seq<Lap>, std: Deviation)
    ensures forall k :: 0 <= k < |Collect(drivers, DefensiveRow(laps, std))| ==>
      var e := Collect(drivers, DefensiveRow(laps, std))[k];
      e.totalRaceLaps >= 5 && 0.0 <= e.defensiveScore <= 100.0
  {
    CollectAll(drivers, DefensiveRow(laps, std),
      (e: DefensiveEntry) => e.totalRaceLaps >= 5 && 0.0 <= e.defensiveScore <= 100.0);
  }

  // ------------------------------------------------------------ driving style

  function Abs(x: real): real
  {
    if x < 0.0 then -x else x
  }

  /** `s.diff().abs()` without the leading NaN. */
  function AbsDiffs(s: seq<real>): (r: seq<real>)
    ensures |s| > 0 ==> |r| == |s| - 1
    ensures forall i :: 0 <= i < |r| ==> r[i] >= 0.0
  {
    if |s| < 2 then []
    else seq(|s| - 1, i requires 0 <= i < |s| - 1 => Abs(s[i + 1] - s[i]))
  }

  /** `100 - s.diff().abs().mean()`; None for a single sample, whose only
      difference is NaN. */
  function Smoothness(s: seq<real>): (r: Option<real>)
    ensures r.Some? <==> |s| >= 2
    ensures r.Some? ==> r.value <= 100.0
  {
    if |s| < 2 then None
    else
      var a := AbsDiffs(s);
      var top := MaxOf(a);
      MeanBounds(a, 0.0, top);
      Some(100.0 - Mean(a))
  }

  /** A trace that never moves is perfectly smooth. */
  lemma {:induction false} SmoothnessConstant(s: seq<real>)
    requires |s| >= 2
    requires forall i :: 0 < i < |s| ==> s[i - 1] == s[i]
    ensures Smoothness(s) == Some(100.0)
  {
    var a := AbsDiffs(s);
    forall i | 0 <= i < |a|
      ensures a[i] == 0.0
    {
      assert a[i] == Abs(s[i + 1] - s[i]);
    }
    MeanBounds(a, 0.0, 0.0);
  }

  /** A trace of percentages has a smoothness of at least 0. */
  lemma {:induction false} SmoothnessOfPercentages(s: seq<real>)
    requires |s| >= 2
    requires forall i :: 0 <= i < |s| ==> 0.0 <= s[i] <= 100.0
    ensures 0.0 <= Smoothness(s).value <= 100.0
  {
    var a := AbsDiffs(s);
    forall i | 0 <= i < |a|
      ensures a[i] <= 100.0
    {
      assert a[i] == Abs(s[i + 1] - s[i]);
    }
    MeanBounds(a, 0.0, 100.0);
  }

  datatype StyleMetrics = StyleMetrics(
    throttleAggression: real,
    brakeAggression: real,
    throttleSmoothness: Option<real>,
    brakeSmoothness: Option<real>,
    styleScore: real)

  /** `analyze_driving_style` on the telemetry of the driver's fastest lap
      (None when it cannot be read). No record without rows, or without a
      Throttle or a Brake channel. */
  function DrivingStyle(d: string, laps: seq<Lap>, telemetry: Option<Trace>): (r: Option<StyleMetrics>)
    ensures r.Some? <==>
      (LapsOf(d, laps) != [] && telemetry.Some? && telemetry.value.throttle.Some? && telemetry.value.brake.Some?)
  {
    if LapsOf(d, laps) == [] || telemetry.None? then None
    else
      var t := telemetry.value;
      if t.throttle.None? || t.brake.None? then None
      else
        var ta := ShareAbove(t.throttle.value, 90.0);
        var ba := ShareAbove(t.brake.value, 80.0);
        Some(StyleMetrics(ta, ba, Smoothness(t.throttle.value), Smoothness(t.brake.value), (ta + ba) / 2.0))
  }

  /** Both aggressions and the style score are percentages, each aggression
      is 0 exactly when no sample passes its bound, and the throttle
      smoothness lies in [0, 100] from two samples on. */
  lemma {:induction false} DrivingStyleBounds(d: string, laps: seq<Lap>, telemetry: Option<Trace>)
    requires DrivingStyle(d, laps, telemetry).Some?
    ensures var m := DrivingStyle(d, laps, telemetry).value;
      var t := telemetry.value;
      && 0.0 <= m.throttleAggression <= 100.0 && 0.0 <= m.brakeAggression <= 100.0
      && 0.0 <= m.styleScore <= 100.0
      && (m.throttleAggression == 0.0 <==> forall i :: 0 <= i < t.size ==> t.throttle.value[i] <= 90.0)
      && (m.brakeAggression == 0.0 <==> forall i :: 0 <= i < t.size ==> t.brake.value[i] <= 80.0)
      && (m.styleScore == 0.0 <==> m.throttleAggression == 0.0 && m.brakeAggression == 0.0)
      && (m.throttleSmoothness.Some? <==> t.size >= 2)
      && (m.throttleSmoothness.Some? ==> 0.0 <= m.throttleSmoothness.value <= 100.0)
      && (m.brakeSmoothness.Some? ==> m.brakeSmoothness.value <= 100.0)
  {
    if telemetry.value.size >= 2 {
      SmoothnessOfPercentages(telemetry.value.throttle.value);
    }
  }
}
