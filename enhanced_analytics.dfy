/** The performance index, its overtaking, sector and tyre components, and
    the race-pace evolution with its stint numbering
    (utils/enhanced_analytics.py). */
module EnhancedAnalytics {

  import opened Common
  import opened Laps

  // ------------------------------------------------------------ overtakes

  /** The number of steps where the position number drops, i.e. the
      negative entries of `diff()`; the first entry of `diff()` is NaN. */
  function Gains(p: seq<int>): (n: nat)
    ensures |p| < 2 ==> n == 0
    ensures |p| > 0 ==> n < |p|
  {
    if |p| < 2 then 0
    else Gains(p[..|p| - 1]) + (if p[|p| - 1] < p[|p| - 2] then 1 else 0)
  }

  /** No gain is counted exactly when the positions never improve. */
  lemma {:induction false} GainsNone(p: seq<int>)
    ensures Gains(p) == 0 <==> forall i :: 0 < i < |p| ==> p[i - 1] <= p[i]
  {
    if |p| >= 2 {
      var q := p[..|p| - 1];
      GainsNone(q);
      assert forall i :: 0 <= i < |q| ==> q[i] == p[i];
    }
  }

  /** `_analyze_overtakes`: 0 with fewer than two positions, otherwise the
      share of steps that gain a place, capped at 1. The cap never binds:
      there are fewer steps than positions. */
  function OvertakeScore(p: seq<int>): (r: real)
    ensures 0.0 <= r < 1.0
    ensures |p| < 2 ==> r == 0.0
    ensures |p| >= 2 ==> r * |p| as real == Gains(p) as real
    ensures r > 0.0 <==> Gains(p) > 0
  {
    if |p| < 2 then 0.0 else CappedShare(Gains(p), |p|)
  }

  /** `min(1, g / n)`: for a count below the total the share lies in
      [0, 1), and is positive exactly when the count is. */
  function CappedShare(g: nat, n: nat): (r: real)
    requires g < n
    ensures 0.0 <= r < 1.0
    ensures r * n as real == g as real
    ensures r > 0.0 <==> g > 0
  {
    var q := g as real / n as real;
    assert q * n as real == g as real;
    if 1.0 < q then 1.0 else q
  }

  // ------------------------------------------------------------ sector dominance

  /** One sector column without its missing cells, in seconds. */
  function SectorColumn(rows: seq<Lap>, k: nat): (t: seq<real>)
    ensures forall i :: 0 <= i < |t| ==> t[i] > 0.0
  {
    if rows == [] then []
    else (if SectorOf(rows[0], k).Some? then [SectorOf(rows[0], k).value as real] else []) + SectorColumn(rows[1..], k)
  }

  lemma {:induction false} SectorColumnEmpty(rows: seq<Lap>, k: nat)
    ensures SectorColumn(rows, k) == [] <==> forall i :: 0 <= i < |rows| ==> SectorOf(rows[i], k).None?
  {
    if rows != [] {
      SectorColumnEmpty(rows[1..], k);
      assert forall i :: 1 <= i < |rows| ==> rows[i] == rows[1..][i - 1];
    }
  }

  /** The three sector columns one after the other, as `extend` builds them. */
  function SectorTimes(rows: seq<Lap>): (t: seq<real>)
    ensures forall i :: 0 <= i < |t| ==> t[i] > 0.0
  {
    SectorColumn(rows, 1) + SectorColumn(rows, 2) + SectorColumn(rows, 3)
  }

  /** There are no sector times exactly when no row has any sector time. */
  lemma {:induction false} SectorTimesEmpty(rows: seq<Lap>)
    ensures SectorTimes(rows) == [] <==> forall i :: 0 <= i < |rows| ==>
      rows[i].sector1.None? && rows[i].sector2.None? && rows[i].sector3.None?
  {
    SectorColumnEmpty(rows, 1);
    SectorColumnEmpty(rows, 2);
    SectorColumnEmpty(rows, 3);
    assert |SectorTimes(rows)| == |SectorColumn(rows, 1)| + |SectorColumn(rows, 2)| + |SectorColumn(rows, 3)|;
  }

  /** `_calculate_sector_dominance`: 0 without sector times, otherwise the
      25th percentile of the sector times relative to their mean. */
  function SectorDominance(rows: seq<Lap>, percentile25: Statistic): (r: real)
    ensures SectorTimes(rows) == [] ==> r == 0.0
    ensures SectorTimes(rows) != [] ==>
      && Mean(SectorTimes(rows)) > 0.0
      && r * Mean(SectorTimes(rows)) == percentile25(SectorTimes(rows))
      && (r > 0.0 <==> percentile25(SectorTimes(rows)) > 0.0)
  {
    var t := SectorTimes(rows);
    if t == [] then 0.0
    else
      MeanPositive(t);
      Quotient(percentile25(t), Mean(t))
  }

  // ------------------------------------------------------------ tyre efficiency

  /** `max(0, 1 - |slope|)`: 1 for a flat stint, 0 once the times drift a
      second or more per lap. */
  function Efficiency(slope: real): (e: real)
    ensures 0.0 <= e <= 1.0
    ensures e == 1.0 <==> slope == 0.0
    ensures e == 0.0 <==> (slope >= 1.0 || slope <= -1.0)
  {
    var a := if slope < 0.0 then -slope else slope;
    if 1.0 - a < 0.0 then 0.0 else 1.0 - a
  }

  /** `laps[laps['Compound'] == c]`. */
  function CompoundRows(rows: seq<Lap>, c: Compound): (r: seq<Lap>)
    requires forall i :: 0 <= i < |rows| ==> rows[i].lapTime.Some?
    ensures |r| <= |rows|
    ensures forall i :: 0 <= i < |r| ==> r[i].compound == c && r[i].lapTime.Some?
  {
    var r := Filter(rows, (l: Lap) => l.compound == c);
    assert forall i :: 0 <= i < |r| ==> r[i] in rows;
    r
  }

  function CompoundColumn(rows: seq<Lap>): (cs: seq<Compound>)
    ensures |cs| == |rows|
  {
    seq(|rows|, i requires 0 <= i < |rows| => rows[i].compound)
  }

  /** A compound that yields no score. */
  predicate Unscored(rows: seq<Lap>, c: Compound)
    requires forall i :: 0 <= i < |rows| ==> rows[i].lapTime.Some?
  {
    c.Missing? || |CompoundRows(rows, c)| < 3
  }

  /** The score of one compound: none for the missing value or for fewer
      than three laps, otherwise the efficiency of the regression slope of
      lap time on position within the compound. */
  function CompoundEfficiency(c: Compound, rows: seq<Lap>, slope: Regression): (e: seq<real>)
    requires forall i :: 0 <= i < |rows| ==> rows[i].lapTime.Some?
    ensures e == [] <==> Unscored(rows, c)
    ensures |e| <= 1 && forall i :: 0 <= i < |e| ==> 0.0 <= e[i] <= 1.0
  {
    if c.Missing? then []
    else
      var cr := CompoundRows(rows, c);
      if |cr| < 3 then []
      else [Efficiency(slope(Positions(|cr|), TimesOf(cr)))]
  }

  /** The scores of the compounds `cs`, in order. */
  function EfficiencyScores(cs: seq<Compound>, rows: seq<Lap>, slope: Regression): (e: seq<real>)
    requires forall i :: 0 <= i < |rows| ==> rows[i].lapTime.Some?
    ensures |e| <= |cs|
    ensures forall i :: 0 <= i < |e| ==> 0.0 <= e[i] <= 1.0
  {
    if cs == [] then []
    else EfficiencyScores(cs[..|cs| - 1], rows, slope) + CompoundEfficiency(cs[|cs| - 1], rows, slope)
  }

  lemma {:induction false} EfficiencyScoresStep(cs: seq<Compound>, i: nat, rows: seq<Lap>, slope: Regression)
    requires i < |cs|
    requires forall k :: 0 <= k < |rows| ==> rows[k].lapTime.Some?
    ensures EfficiencyScores(cs[..i + 1], rows, slope) == EfficiencyScores(cs[..i], rows, slope) + CompoundEfficiency(cs[i], rows, slope)
  {
    assert cs[..i + 1][..i] == cs[..i];
  }

  /** There is no score exactly when no compound among `cs` has three laps. */
  lemma {:induction false} EfficiencyScoresEmpty(cs: seq<Compound>, rows: seq<Lap>, slope: Regression)
    requires forall i :: 0 <= i < |rows| ==> rows[i].lapTime.Some?
    ensures EfficiencyScores(cs, rows, slope) == [] <==> forall k :: 0 <= k < |cs| ==> Unscored(rows, cs[k])
  {
    if cs != [] {
      var init := cs[..|cs| - 1];
      var c := cs[|cs| - 1];
      EfficiencyScoresEmpty(init, rows, slope);
      var e1 := EfficiencyScores(init, rows, slope);
      var e2 := CompoundEfficiency(c, rows, slope);
      assert EfficiencyScores(cs, rows, slope) == e1 + e2;
      assert |e1 + e2| == |e1| + |e2|;
      AllSplit(cs, init, (x: Compound) => Unscored(rows, x));
    }
  }

  /** `_calculate_tire_efficiency` on timed rows: 0.5 without a compound
      column or without a scored compound, otherwise the mean score. */
  function TireEfficiencyOf(rows: seq<Lap>, hasCompound: bool, slope: Regression): (r: real)
    requires forall i :: 0 <= i < |rows| ==> rows[i].lapTime.Some?
  {
    if !hasCompound then 0.5
    else
      var scores := EfficiencyScores(Unique(CompoundColumn(rows)), rows, slope);
      if scores == [] then 0.5 else Mean(scores)
  }

  /** The efficiency lies in [0, 1]; it is the 0.5 fallback when no
      compound of the rows has three or more laps, and the mean of the
      scores otherwise. */
  lemma TireEfficiencyRange(rows: seq<Lap>, hasCompound: bool, slope: Regression)
    requires forall i :: 0 <= i < |rows| ==> rows[i].lapTime.Some?
    ensures 0.0 <= TireEfficiencyOf(rows, hasCompound, slope) <= 1.0
    ensures hasCompound ==>
      ((forall i :: 0 <= i < |rows| ==> Unscored(rows, rows[i].compound))
       <==> EfficiencyScores(Unique(CompoundColumn(rows)), rows, slope) == [])
    ensures hasCompound && (forall i :: 0 <= i < |rows| ==> Unscored(rows, rows[i].compound)) ==>
      TireEfficiencyOf(rows, hasCompound, slope) == 0.5
  {
    var col := CompoundColumn(rows);
    var cs := Unique(col);
    var scores := EfficiencyScores(cs, rows, slope);
    EfficiencyScoresEmpty(cs, rows, slope);
    if scores != [] {
      MeanBounds(scores, 0.0, 1.0);
    }
    forall i | 0 <= i < |rows|
      ensures rows[i].compound in cs
    {
      assert col[i] == rows[i].compound;
    }
  }

  /** The loop of `_calculate_tire_efficiency`. */
  method TireEfficiency(rows: seq<Lap>, hasCompound: bool, slope: Regression) returns (r: real)
    requires forall i :: 0 <= i < |rows| ==> rows[i].lapTime.Some?
    ensures r == TireEfficiencyOf(rows, hasCompound, slope)
  {
    if !hasCompound {
      return 0.5;
    }
    var compounds := Unique(CompoundColumn(rows));
    var scores: seq<real> := [];
    for i := 0 to |compounds|
      invariant scores == EfficiencyScores(compounds[..i], rows, slope)
    {
      EfficiencyScoresStep(compounds, i, rows, slope);
      var c := compounds[i];
      if c.Missing? {
        continue;
      }
      var cr := CompoundRows(rows, c);
      if |cr| < 3 {
        continue;
      }
      var times := TimesOf(cr);
      // always taken: a scored compound has three laps or more
      if |times| > 1 {
        scores := scores + [Efficiency(slope(Positions(|times|), times))];
      }
    }
    assert compounds[..|compounds|] == compounds;
    r := if scores == [] then 0.5 else Mean(scores);
  }

  // ------------------------------------------------------------ performance index

  /** The weighted combination of the six components. */
  function WeightedIndex(consistency: real, speedConsistency: real, paceQuality: real,
                         overtakes: real, sectorDominance: real, tireEfficiency: real): real
  {
    consistency * 0.25 + speedConsistency * 0.20 + paceQuality * 0.25
      + overtakes * 0.10 + sectorDominance * 0.10 + tireEfficiency * 0.10
  }

  /** The weights sum to one, so the index is a weighted mean: it lies
      between the smallest and the largest component. */
  lemma WeightedIndexWithin(c: real, s: real, p: real, o: real, d: real, t: real, lo: real, hi: real)
    requires lo <= c <= hi && lo <= s <= hi && lo <= p <= hi
    requires lo <= o <= hi && lo <= d <= hi && lo <= t <= hi
    ensures lo <= WeightedIndex(c, s, p, o, d, t) <= hi
    ensures c == s == p == o == d == t ==> WeightedIndex(c, s, p, o, d, t) == c
  {
  }

  datatype PerformanceEntry = PerformanceEntry(
    driver: string,
    performanceIndex: real,
    consistencyScore: real,
    speedConsistency: real,
    paceQuality: real,
    overtakeScore: real,
    sectorDominance: real,
    tireEfficiency: real,
    totalLaps: nat,
    bestLap: real,
    averageLap: real)

  /** `1 / (1 + spread)`: 1 for a perfectly even driver, towards 0 as the
      spread grows. */
  function Consistency(spread: real): (c: real)
    requires spread >= 0.0
    ensures 0.0 < c <= 1.0
    ensures c == 1.0 <==> spread == 0.0
  {
    var c := 1.0 / (1.0 + spread);
    assert c * (1.0 + spread) == 1.0;
    c
  }

  /** `1 / mean * 100`: the inverse of the average lap, scaled (written
      here as the single quotient 100 / mean). */
  function PaceQuality(average: real): (q: real)
    requires average > 0.0
    ensures q > 0.0 && q * average == 100.0
  {
    Quotient(100.0, average)
  }

  /** The record of one driver's timed rows (three or more), given the
      tyre efficiency of those rows. The speed-trap consistency is a ratio
      over the intermediate speed column, which the lap model does not
      carry; it is a parameter. */
  function EntryOf(d: string, rows: seq<Lap>, std: Deviation, speedConsistency: seq<Lap> -> real,
                   percentile25: Statistic, tire: real): (e: PerformanceEntry)
    requires |rows| >= 3
    requires forall i :: 0 <= i < |rows| ==> rows[i].lapTime.Some?
    ensures e.driver == d && e.totalLaps == |rows| && e.tireEfficiency == tire
    ensures 0.0 < e.bestLap <= e.averageLap
    ensures 0.0 < e.consistencyScore <= 1.0
    ensures e.paceQuality == PaceQuality(e.averageLap)
    ensures 0.0 <= e.overtakeScore < 1.0
    ensures e.performanceIndex == WeightedIndex(e.consistencyScore, e.speedConsistency, e.paceQuality,
                                                e.overtakeScore, e.sectorDominance, e.tireEfficiency)
  {
    var times := TimesOf(rows);
    MinMeanMax(times);
    var best := MinOf(times);
    var avg := Mean(times);
    assert best > 0.0;
    var consistency := Consistency(std(times));
    var pace := PaceQuality(avg);
    var speed := speedConsistency(rows);
    var overtakes := OvertakeScore(PositionsOf(rows));
    var sectors := SectorDominance(rows, percentile25);
    PerformanceEntry(d, WeightedIndex(consistency, speed, pace, overtakes, sectors, tire),
                     consistency, speed, pace, overtakes, sectors, tire, |rows|, best, avg)
  }

  /** One driver of `calculate_driver_performance_index`: skipped below
      three timed laps. */
  function DriverPerformance(d: string, laps: seq<Lap>, std: Deviation, speedConsistency: seq<Lap> -> real,
                             percentile25: Statistic, slope: Regression): (r: Option<PerformanceEntry>)
    ensures r.Some? <==> |TimedRows(d, laps)| >= 3
    ensures r.Some? ==> r.value.driver == d && r.value.totalLaps == |TimedRows(d, laps)|
    ensures r.Some? ==> r.value.tireEfficiency == TireEfficiencyOf(TimedRows(d, laps), true, slope)
  {
    var rows := TimedRows(d, laps);
    if |rows| < 3 then None
    else
      Some(EntryOf(d, rows, std, speedConsistency, percentile25, TireEfficiencyOf(rows, true, slope)))
  }

  /** Every component of a driver's record is in its range: the overtake
      score in [0, 1), the consistency score in (0, 1], the tyre
      efficiency in [0, 1], and the best lap is no slower than the mean. */
  lemma {:induction false} DriverPerformanceBounds(d: string, laps: seq<Lap>, std: Deviation, speedConsistency: seq<Lap> -> real,
                                percentile25: Statistic, slope: Regression)
    ensures var r := DriverPerformance(d, laps, std, speedConsistency, percentile25, slope);
      r.Some? ==>
        && 0.0 <= r.value.overtakeScore < 1.0
        && 0.0 < r.value.consistencyScore <= 1.0
        && 0.0 <= r.value.tireEfficiency <= 1.0
        && 0.0 < r.value.bestLap <= r.value.averageLap
  {
    var rows := TimedRows(d, laps);
    if |rows| >= 3 {
      TireEfficiencyRange(rows, true, slope);
    }
  }

  function PerformanceTable(drivers: seq<string>, laps: seq<Lap>, std: Deviation, speedConsistency: seq<Lap> -> real,
                            percentile25: Statistic, slope: Regression): (r: seq<PerformanceEntry>)
    ensures |r| <= |drivers|
  {
    if drivers == [] then []
    else
      var d := drivers[|drivers| - 1];
      var e := DriverPerformance(d, laps, std, speedConsistency, percentile25, slope);
      PerformanceTable(drivers[..|drivers| - 1], laps, std, speedConsistency, percentile25, slope)
        + (if e.Some? then [e.value] else [])
  }

  function EntryDrivers(table: seq<PerformanceEntry>): (ds: seq<string>)
    ensures |ds| == |table|
    ensures forall k :: 0 <= k < |table| ==> ds[k] == table[k].driver
  {
    if table == [] then [] else EntryDrivers(table[..|table| - 1]) + [table[|table| - 1].driver]
  }

  lemma {:induction false} EntryDriversAppend(table: seq<PerformanceEntry>, x: PerformanceEntry, d: string)
    ensures d in EntryDrivers(table + [x]) <==> d in EntryDrivers(table) || d == x.driver
  {
    assert (table + [x])[..|table|] == table;
    assert EntryDrivers(table + [x]) == EntryDrivers(table) + [x.driver];
  }

  /** A driver has a row of the table exactly when requested and with at
      least three timed laps. */
  lemma {:induction false} PerformanceTableMembers(drivers: seq<string>, laps: seq<Lap>, std: Deviation,
                                                   speedConsistency: seq<Lap> -> real, percentile25: Statistic,
                                                   slope: Regression, d: string)
    ensures d in EntryDrivers(PerformanceTable(drivers, laps, std, speedConsistency, percentile25, slope))
            <==> d in drivers && |TimedRows(d, laps)| >= 3
  {
    if drivers != [] {
      var init := drivers[..|drivers| - 1];
      PerformanceTableMembers(init, laps, std, speedConsistency, percentile25, slope, d);
      MemberSplit(drivers, d);
      var prev := PerformanceTable(init, laps, std, speedConsistency, percentile25, slope);
      var last := drivers[|drivers| - 1];
      var e := DriverPerformance(last, laps, std, speedConsistency, percentile25, slope);
      var table := PerformanceTable(drivers, laps, std, speedConsistency, percentile25, slope);
      assert table == prev + (if e.Some? then [e.value] else []);
      if e.Some? {
        assert e.value.driver == last;
        EntryDriversAppend(prev, e.value, d);
      } else {
        assert table == prev && |TimedRows(last, laps)| < 3;
      }
    }
  }

  lemma {:induction false} PerformanceTableStep(drivers: seq<string>, laps: seq<Lap>, std: Deviation, speedConsistency: seq<Lap> -> real,
                             percentile25: Statistic, slope: Regression, i: nat)
    requires i < |drivers|
    ensures PerformanceTable(drivers[..i + 1], laps, std, speedConsistency, percentile25, slope) ==
      PerformanceTable(drivers[..i], laps, std, speedConsistency, percentile25, slope)
        + (var e := DriverPerformance(drivers[i], laps, std, speedConsistency, percentile25, slope);
           if e.Some? then [e.value] else [])
  {
    assert drivers[..i + 1][..i] == drivers[..i];
  }

  /** `calculate_driver_performance_index`. */
  method CalculateDriverPerformanceIndex(drivers: seq<string>, laps: seq<Lap>, std: Deviation,
                                         speedConsistency: seq<Lap> -> real, percentile25: Statistic,
                                         slope: Regression) returns (table: seq<PerformanceEntry>)
    ensures table == PerformanceTable(drivers, laps, std, speedConsistency, percentile25, slope)
  {
    table := [];
    for i := 0 to |drivers|
      invariant table == PerformanceTable(drivers[..i], laps, std, speedConsistency, percentile25, slope)
    {
      PerformanceTableStep(drivers, laps, std, speedConsistency, percentile25, slope, i);
      var e := PerformanceOf(drivers[i], laps, std, speedConsistency, percentile25, slope);
      if e.Some? {
        table := table + [e.value];
      }
    }
    assert drivers[..|drivers|] == drivers;
  }

  /** One driver of the loop: skipped with fewer than three timed laps. */
  method PerformanceOf(d: string, laps: seq<Lap>, std: Deviation, speedConsistency: seq<Lap> -> real,
                       percentile25: Statistic, slope: Regression) returns (e: Option<PerformanceEntry>)
    ensures e == DriverPerformance(d, laps, std, speedConsistency, percentile25, slope)
  {
    var rows := TimedRows(d, laps);
    if |rows| < 3 {
      return None;
    }
    var tire := TireEfficiency(rows, true, slope);
    e := Some(EntryOf(d, rows, std, speedConsistency, percentile25, tire));
  }

  // ------------------------------------------------------------ stint numbers

  /** The number of leading rows on a lap before `n`: where the loop of
      `_get_stint_number` breaks. */
  function Before(rows: seq<Lap>, n: int): (k: nat)
    ensures k <= |rows|
    ensures forall j :: 0 <= j < k ==> rows[j].lapNumber < n
    ensures k < |rows| ==> rows[k].lapNumber >= n
  {
    if rows == [] || rows[0].lapNumber >= n then 0
    else
      var k := 1 + Before(rows[1..], n);
      assert forall j :: 1 <= j < |rows| ==> rows[j] == rows[1..][j - 1];
      k
  }

  /** The changes counted walking `s` with running compound `c`: a row
      whose compound differs from the running one counts and becomes it. */
  function RunningChanges(c: Compound, s: seq<Lap>): (n: nat)
    ensures n <= |s|
    decreases |s|
  {
    if s == [] then 0
    else if Differs(s[0].compound, c) then 1 + RunningChanges(s[0].compound, s[1..])
    else RunningChanges(c, s[1..])
  }

  /** `_get_stint_number` as written: the running compound starts at the
      queried lap's own compound, so a first stint on another compound is
      counted as a change as well. */
  function AsWrittenStintOf(lap: Lap, rows: seq<Lap>): (r: nat)
    ensures 1 <= r <= 1 + Before(rows, lap.lapNumber)
    ensures Before(rows, lap.lapNumber) == 0 ==> r == 1
  {
    1 + RunningChanges(lap.compound, rows[..Before(rows, lap.lapNumber)])
  }

  /** The loop of `_get_stint_number` as written. */
  method GetStintNumberAsWritten(lap: Lap, rows: seq<Lap>) returns (stint: nat)
    ensures stint == AsWrittenStintOf(lap, rows)
  {
    ghost var k := Before(rows, lap.lapNumber);
    var current := lap.compound;
    stint := 1;
    var i := 0;
    while i < |rows|
      invariant 0 <= i <= k
      invariant stint + RunningChanges(current, rows[i..k]) == AsWrittenStintOf(lap, rows)
    {
      if rows[i].lapNumber >= lap.lapNumber {
        break;
      }
      assert rows[i..k][1..] == rows[i + 1..k];
      if Differs(rows[i].compound, current) {
        stint := stint + 1;
        current := rows[i].compound;
      }
      i := i + 1;
    }
  }

  /** The number of leading rows on lap `n` or earlier. */
  function UpTo(rows: seq<Lap>, n: int): (k: nat)
    ensures k <= |rows|
    ensures forall j :: 0 <= j < k ==> rows[j].lapNumber <= n
    ensures k < |rows| ==> rows[k].lapNumber > n
  {
    if rows == [] || rows[0].lapNumber > n then 0
    else
      var k := 1 + UpTo(rows[1..], n);
      assert forall j :: 1 <= j < |rows| ==> rows[j] == rows[1..][j - 1];
      k
  }

  /** The stint of a lap: one more than the compound changes between
      consecutive rows up to and including that lap. */
  function StintOf(lap: Lap, rows: seq<Lap>): (r: nat)
    ensures 1 <= r
    ensures UpTo(rows, lap.lapNumber) > 0 ==> r <= UpTo(rows, lap.lapNumber)
  {
    1 + |ChangeIndices(rows[..UpTo(rows, lap.lapNumber)])|
  }

  /** The stint count with the running compound started at the first row
      and the queried lap included. */
  method GetStintNumber(lap: Lap, rows: seq<Lap>) returns (stint: nat)
    ensures stint == StintOf(lap, rows)
  {
    ghost var k := UpTo(rows, lap.lapNumber);
    stint := 1;
    var i := 0;
    while i < |rows|
      invariant 0 <= i <= k
      invariant stint == 1 + |ChangeIndices(rows[..i])|
    {
      if rows[i].lapNumber > lap.lapNumber {
        break;
      }
      ChangeIndicesStep(rows, i);
      if i > 0 && Differs(rows[i - 1].compound, rows[i].compound) {
        stint := stint + 1;
      }
      i := i + 1;
    }
  }

  /** With strictly increasing lap numbers, the rows on or before row j's
      lap are the first j + 1. */
  lemma UpToIncreasing(rows: seq<Lap>, j: nat)
    requires forall a, b :: 0 <= a < b < |rows| ==> rows[a].lapNumber < rows[b].lapNumber
    requires j < |rows|
    ensures UpTo(rows, rows[j].lapNumber) == j + 1
  {
  }

  /** Intended numbering: the first lap is in stint 1, and from one lap to
      the next the number rises by one exactly at a compound change. */
  lemma {:induction false} StintOfCountsChanges(rows: seq<Lap>, j: nat)
    requires forall a, b :: 0 <= a < b < |rows| ==> rows[a].lapNumber < rows[b].lapNumber
    requires j < |rows|
    ensures j == 0 ==> StintOf(rows[j], rows) == 1
    ensures j > 0 ==>
      StintOf(rows[j], rows) == StintOf(rows[j - 1], rows) + (if Differs(rows[j - 1].compound, rows[j].compound) then 1 else 0)
  {
    UpToIncreasing(rows, j);
    assert StintOf(rows[j], rows) == 1 + |ChangeIndices(rows[..j + 1])|;
    ChangeIndicesStep(rows, j);
    if j > 0 {
      UpToIncreasing(rows, j - 1);
      assert StintOf(rows[j - 1], rows) == 1 + |ChangeIndices(rows[..j])|;
    } else {
      assert ChangeIndices(rows[..1]) == [];
    }
  }

  function TyreLap(n: int, c: string): Lap
  {
    Lap("HAM", n, Some(90.0), Tyre(c), None, None, None, None)
  }

  /** Two laps on SOFT, then two on MEDIUM. */
  function SoftThenMedium(): (rows: seq<Lap>)
    ensures |rows| == 4
  {
    [TyreLap(1, "SOFT"), TyreLap(2, "SOFT"), TyreLap(3, "MEDIUM"), TyreLap(4, "MEDIUM")]
  }

  lemma SoftThenMediumAsWritten()
    ensures AsWrittenStintOf(SoftThenMedium()[3], SoftThenMedium()) == 3
  {
    var rows := SoftThenMedium();
    var r1 := rows[1..];
    var r2 := r1[1..];
    var r3 := r2[1..];
    assert Before(r3, 4) == 0;
    assert Before(r2, 4) == 1;
    assert Before(r1, 4) == 2;
    var earlier := rows[..3];
    var e1 := earlier[1..];
    var e2 := e1[1..];
    assert e2 == [TyreLap(3, "MEDIUM")];
    assert RunningChanges(Tyre("SOFT"), e2[1..]) == 0;
    assert RunningChanges(Tyre("SOFT"), e2) == 1;
    assert RunningChanges(Tyre("SOFT"), e1) == 1;
    assert RunningChanges(Tyre("MEDIUM"), earlier) == 2;
  }

  lemma SoftThenMediumCorrected()
    ensures StintOf(SoftThenMedium()[3], SoftThenMedium()) == 2
  {
    var rows := SoftThenMedium();
    assert !Differs(rows[0].compound, rows[1].compound);
    assert Differs(rows[1].compound, rows[2].compound);
    assert !Differs(rows[2].compound, rows[3].compound);
    OneChangeOfFour(rows);
  }

  /** Four increasing laps with a single change, between the second and
      the third: the fourth is in stint 2. */
  lemma {:induction false} OneChangeOfFour(rows: seq<Lap>)
    requires |rows| == 4
    requires rows[0].lapNumber < rows[1].lapNumber < rows[2].lapNumber < rows[3].lapNumber
    requires !Differs(rows[0].compound, rows[1].compound)
    requires Differs(rows[1].compound, rows[2].compound)
    requires !Differs(rows[2].compound, rows[3].compound)
    ensures StintOf(rows[3], rows) == 2
  {
    UpToIncreasing(rows, 3);
    assert rows[..4] == rows;
    assert ChangeIndices(rows[..1]) == [];
    ChangeIndicesStep(rows, 1);
    ChangeIndicesStep(rows, 2);
    ChangeIndicesStep(rows, 3);
  }

  /** SOFT, SOFT, MEDIUM, MEDIUM: the fourth lap is in the second stint,
      but the loop as written numbers it 3. */
  lemma StintNumberOvercounts()
    ensures AsWrittenStintOf(SoftThenMedium()[3], SoftThenMedium()) == 3
    ensures StintOf(SoftThenMedium()[3], SoftThenMedium()) == 2
  {
    SoftThenMediumAsWritten();
    SoftThenMediumCorrected();
  }

  // ------------------------------------------------------------ race pace evolution

  /** `1 - i / n`: the share of the run still ahead at the i-th timed lap. */
  function FuelLoad(i: nat, n: nat): (f: real)
    requires i < n
    ensures 0.0 < f <= 1.0
    ensures f == 1.0 <==> i == 0
  {
    var q := i as real / n as real;
    assert q * n as real == i as real;
    1.0 - q
  }

  datatype PacePoint = PacePoint(driver: string, lapNumber: int, pace: real, fuelLoad: real, stint: nat)

  /** The points of the first `i` timed rows where the rolling pace exists. */
  function PacePointsUpTo(d: string, rows: seq<Lap>, pace: seq<Option<real>>, i: nat): (r: seq<PacePoint>)
    requires i <= |rows|
    ensures |r| <= i
    ensures forall k :: 0 <= k < |r| ==> r[k].driver == d && 0.0 < r[k].fuelLoad <= 1.0 && r[k].stint >= 1
  {
    if i == 0 then []
    else
      var j := i - 1;
      PacePointsUpTo(d, rows, pace, j) +
        if At(pace, j).Some? then [PacePoint(d, rows[j].lapNumber, At(pace, j).value, FuelLoad(j, |rows|), StintOf(rows[j], rows))]
        else []
  }

  /** One driver of `analyze_race_pace_evolution`: skipped below five timed
      laps; the pace is the centred five-lap rolling mean. */
  function DriverPace(d: string, laps: seq<Lap>, rolling: Rolling): (r: seq<PacePoint>)
    ensures |TimedRows(d, laps)| < 5 ==> r == []
    ensures |r| <= |TimedRows(d, laps)|
  {
    var rows := TimedRows(d, laps);
    if |rows| < 5 then [] else PacePointsUpTo(d, rows, rolling(TimesOf(rows), 5), |rows|)
  }

  function PaceEvolutionOf(drivers: seq<string>, laps: seq<Lap>, rolling: Rolling): (r: seq<PacePoint>)
  {
    if drivers == [] then []
    else PaceEvolutionOf(drivers[..|drivers| - 1], laps, rolling) + DriverPace(drivers[|drivers| - 1], laps, rolling)
  }

  /** Every point belongs to a requested driver with five or more timed
      laps, carries a fuel load in (0, 1] and a stint number from 1. */
  lemma {:induction false} PacePointsValid(drivers: seq<string>, laps: seq<Lap>, rolling: Rolling)
    ensures forall k :: 0 <= k < |PaceEvolutionOf(drivers, laps, rolling)| ==>
      var p := PaceEvolutionOf(drivers, laps, rolling)[k];
      && p.driver in drivers && |TimedRows(p.driver, laps)| >= 5
      && 0.0 < p.fuelLoad <= 1.0 && p.stint >= 1
  {
    if drivers != [] {
      var init := drivers[..|drivers| - 1];
      var d := drivers[|drivers| - 1];
      PacePointsValid(init, laps, rolling);
      var prev := PaceEvolutionOf(init, laps, rolling);
      var mine := DriverPace(d, laps, rolling);
      assert PaceEvolutionOf(drivers, laps, rolling) == prev + mine;
      assert forall x :: x in init ==> x in drivers;
      assert mine != [] ==> |TimedRows(d, laps)| >= 5;
    }
  }

  /** The per-lap loop of `analyze_race_pace_evolution`. */
  method PacePoints(d: string, rows: seq<Lap>, pace: seq<Option<real>>) returns (r: seq<PacePoint>)
    ensures r == PacePointsUpTo(d, rows, pace, |rows|)
  {
    r := [];
    for i := 0 to |rows|
      invariant r == PacePointsUpTo(d, rows, pace, i)
    {
      if At(pace, i).Some? {
        var stint := GetStintNumber(rows[i], rows);
        r := r + [PacePoint(d, rows[i].lapNumber, At(pace, i).value, FuelLoad(i, |rows|), stint)];
      }
    }
  }

  lemma {:induction false} PaceEvolutionStep(drivers: seq<string>, laps: seq<Lap>, rolling: Rolling, i: nat)
    requires i < |drivers|
    ensures PaceEvolutionOf(drivers[..i + 1], laps, rolling) == PaceEvolutionOf(drivers[..i], laps, rolling) + DriverPace(drivers[i], laps, rolling)
  {
    assert drivers[..i + 1][..i] == drivers[..i];
  }

  /** `analyze_race_pace_evolution`. */
  method AnalyzeRacePaceEvolution(drivers: seq<string>, laps: seq<Lap>, rolling: Rolling) returns (r: seq<PacePoint>)
    ensures r == PaceEvolutionOf(drivers, laps, rolling)
  {
    r := [];
    for i := 0 to |drivers|
      invariant r == PaceEvolutionOf(drivers[..i], laps, rolling)
    {
      PaceEvolutionStep(drivers, laps, rolling, i);
      var rows := TimedRows(drivers[i], laps);
      if |rows| < 5 {
        continue;
      }
      var mine := PacePoints(drivers[i], rows, rolling(TimesOf(rows), 5));
      r := r + mine;
    }
    assert drivers[..|drivers|] == drivers;
  }
}
