/** Qualifying prediction, tyre degradation by stint and the rolling
    evolution of pace (utils/predictive_analytics.py). */
module PredictiveAnalytics {

  import opened Common
  import opened Laps
  import opened Sorting

  /** The regression results a fit of y on x yields (scipy's `linregress`). */
  datatype Fit = Fit(slope: Regression, intercept: Regression, rValue: Regression)

  // ------------------------------------------------------------ qualifying prediction

  /** One row of the qualifying prediction table before ranking. */
  datatype QualifyingStat = QualifyingStat(
    driver: string,
    bestTime: real,
    averageTime: real,
    consistency: real,
    paceTrend: real,
    trendCorrelation: real,
    predictionScore: real,
    validLaps: nat)

  datatype QualifyingPrediction = QualifyingPrediction(stat: QualifyingStat, predictedPosition: nat)

  /** A lap that counts: timed, and under 200 seconds. */
  predicate IsValidLap(l: Lap)
  {
    l.lapTime.Some? && l.lapTime.value < 200.0
  }

  function ValidLaps(rows: seq<Lap>): (v: seq<Lap>)
    ensures forall i :: 0 <= i < |v| ==> v[i].lapTime.Some? && v[i].lapTime.value < 200.0 && v[i] in rows
    ensures |v| == CountWhere(rows, IsValidLap)
  {
    Filter(rows, IsValidLap)
  }

  /** The weighting of best lap, spread and trend: lower is better. */
  function PredictionScore(best: real, consistency: real, paceTrend: real): real
  {
    best + consistency * 0.5 + paceTrend * 0.3
  }

  /** The statistics of one driver, None when fewer than three laps count.
      The trend is the regression slope on lap number in milliseconds per
      lap (0 for a single lap, which three laps rule out). */
  function QualifyingStatOf(driver: string, rows: seq<Lap>, std: Statistic, fit: Fit): (r: Option<QualifyingStat>)
    ensures r.Some? <==> CountWhere(rows, IsValidLap) >= 3
    ensures r.Some? ==>
      && r.value.driver == driver
      && r.value.validLaps == CountWhere(rows, IsValidLap)
      && 0.0 < r.value.bestTime <= r.value.averageTime
      && r.value.predictionScore == PredictionScore(r.value.bestTime, r.value.consistency, r.value.paceTrend)
  {
    var valid := ValidLaps(rows);
    if |valid| < 3 then None else Some(StatOfValid(driver, valid, std, fit))
  }

  /** The statistics of a driver's valid laps. */
  function StatOfValid(driver: string, valid: seq<Lap>, std: Statistic, fit: Fit): (s: QualifyingStat)
    requires |valid| >= 3 && forall i :: 0 <= i < |valid| ==> valid[i].lapTime.Some?
    ensures s.driver == driver && s.validLaps == |valid|
    ensures 0.0 < s.bestTime <= s.averageTime
    ensures s.predictionScore == PredictionScore(s.bestTime, s.consistency, s.paceTrend)
  {
    var times := TimesOf(valid);
    var numbers := LapNumbersOf(valid);
    var best := MinOf(times);
    var avg := Mean(times);
    MinMeanMax(times);
    var paceTrend := if |numbers| > 1 then fit.slope(numbers, times) * 1000.0 else 0.0;
    var correlation := if |numbers| > 1 then fit.rValue(numbers, times) else 0.0;
    QualifyingStat(driver, best, avg, std(times), paceTrend, correlation,
                   PredictionScore(best, std(times), paceTrend), |valid|)
  }

  /** The best time is the fastest valid lap: one of the driver's laps under
      200 seconds, and no valid lap of theirs is faster. */
  lemma {:induction false} BestIsFastestValidLap(driver: string, rows: seq<Lap>, std: Statistic, fit: Fit, l: Lap)
    requires QualifyingStatOf(driver, rows, std, fit).Some?
    ensures var best := QualifyingStatOf(driver, rows, std, fit).value.bestTime;
      && best < 200.0
      && (exists j :: 0 <= j < |rows| && IsValidLap(rows[j]) && rows[j].lapTime.value as real == best)
      && (l in rows && IsValidLap(l) ==> best <= l.lapTime.value as real)
  {
    var valid := ValidLaps(rows);
    assert QualifyingStatOf(driver, rows, std, fit) == Some(StatOfValid(driver, valid, std, fit));
    BestOfValid(driver, valid, std, fit);
    FastestValid(rows, valid, l);
  }

  /** The best time of a driver's statistics is the least valid lap time. */
  lemma {:induction false} BestOfValid(driver: string, valid: seq<Lap>, std: Statistic, fit: Fit)
    requires |valid| >= 3 && forall i :: 0 <= i < |valid| ==> valid[i].lapTime.Some?
    ensures StatOfValid(driver, valid, std, fit).bestTime == MinOf(TimesOf(valid))
  {
  }

  /** The least time of the valid laps is one of them, and no valid lap is
      faster. */
  lemma {:induction false} FastestValid(rows: seq<Lap>, valid: seq<Lap>, l: Lap)
    requires valid == ValidLaps(rows) && valid != []
    ensures var best := MinOf(TimesOf(valid));
      && best < 200.0
      && (exists j :: 0 <= j < |rows| && IsValidLap(rows[j]) && rows[j].lapTime.value as real == best)
      && (l in rows && IsValidLap(l) ==> best <= l.lapTime.value as real)
  {
    BestIsValid(rows, valid);
    if l in rows && IsValidLap(l) {
      NoValidFaster(rows, valid, l);
    }
  }

  /** The least valid lap time is that of a valid lap of the driver. */
  lemma {:induction false} BestIsValid(rows: seq<Lap>, valid: seq<Lap>)
    requires valid == ValidLaps(rows) && valid != []
    ensures exists j :: 0 <= j < |rows| && IsValidLap(rows[j]) && rows[j].lapTime.value as real == MinOf(TimesOf(valid))
  {
    var times := TimesOf(valid);
    var k :| 0 <= k < |times| && times[k] == MinOf(times);
    assert valid[k] in rows;
    var j :| 0 <= j < |rows| && rows[j] == valid[k];
    assert IsValidLap(rows[j]) && rows[j].lapTime.value as real == times[k];
  }

  /** No valid lap is faster than the least valid lap time. */
  lemma {:induction false} NoValidFaster(rows: seq<Lap>, valid: seq<Lap>, l: Lap)
    requires valid == ValidLaps(rows) && valid != []
    requires l in rows && IsValidLap(l)
    ensures MinOf(TimesOf(valid)) <= l.lapTime.value as real
  {
    var times := TimesOf(valid);
    FilterComplete(rows, IsValidLap, l);
    var i :| 0 <= i < |valid| && valid[i] == l;
    assert times[i] == l.lapTime.value as real;
  }

  /** The statistics of `drivers` in order, skipping those with too few laps. */
  function QualifyingStats(drivers: seq<string>, laps: seq<Lap>, std: Statistic, fit: Fit): (r: seq<QualifyingStat>)
    ensures |r| <= |drivers|
  {
    if drivers == [] then []
    else
      var d := drivers[|drivers| - 1];
      var s := QualifyingStatOf(d, LapsOf(d, laps), std, fit);
      QualifyingStats(drivers[..|drivers| - 1], laps, std, fit) + (if s.Some? then [s.value] else [])
  }

  function StatDrivers(stats: seq<QualifyingStat>): (ds: seq<string>)
    ensures |ds| == |stats|
    ensures forall k :: 0 <= k < |stats| ==> ds[k] == stats[k].driver
  {
    if stats == [] then [] else StatDrivers(stats[..|stats| - 1]) + [stats[|stats| - 1].driver]
  }

  /** A driver is predicted exactly when at least three of their laps count. */
  lemma {:induction false} QualifyingStatsMembers(drivers: seq<string>, laps: seq<Lap>, std: Statistic, fit: Fit, d: string)
    ensures d in StatDrivers(QualifyingStats(drivers, laps, std, fit))
      <==> d in drivers && CountWhere(LapsOf(d, laps), IsValidLap) >= 3
  {
    if drivers != [] {
      var init := drivers[..|drivers| - 1];
      var last := drivers[|drivers| - 1];
      QualifyingStatsMembers(init, laps, std, fit, d);
      var prev := QualifyingStats(init, laps, std, fit);
      var s := QualifyingStatOf(last, LapsOf(last, laps), std, fit);
      assert drivers == init + [last];
      if s.Some? {
        var x := s.value;
        assert QualifyingStats(drivers, laps, std, fit) == prev + [x];
        assert (prev + [x])[..|prev|] == prev;
        assert StatDrivers(prev + [x]) == StatDrivers(prev) + [last];
        assert d in StatDrivers(prev) + [last] <==> d in StatDrivers(prev) || d == last;
      } else {
        assert QualifyingStats(drivers, laps, std, fit) == prev;
      }
      assert d in drivers <==> d in init || d == last;
    }
  }

  /** `sort_values('Prediction_Score')` followed by positions 1..N. */
  function Rank(stats: seq<QualifyingStat>): (r: seq<QualifyingPrediction>)
    ensures |r| == |stats|
    ensures forall k :: 0 <= k < |r| ==> r[k].predictedPosition == k + 1
    ensures forall i, j :: 0 <= i < j < |r| ==> r[i].stat.predictionScore <= r[j].stat.predictionScore
    ensures multiset(seq(|r|, k requires 0 <= k < |r| => r[k].stat)) == multiset(stats)
  {
    var sorted := SortBy(stats, (s: QualifyingStat) => s.predictionScore);
    var r := seq(|sorted|, k requires 0 <= k < |sorted| => QualifyingPrediction(sorted[k], k + 1));
    assert seq(|r|, k requires 0 <= k < |r| => r[k].stat) == sorted;
    r
  }

  /** predict_qualifying_performance: None without data or without any
      driver who has three valid laps. */
  function QualifyingPredictionOf(laps: Option<seq<Lap>>, std: Statistic, fit: Fit): Option<seq<QualifyingPrediction>>
  {
    if laps.None? || laps.value == [] then None
    else
      var stats := QualifyingStats(Drivers(laps.value), laps.value, std, fit);
      if stats == [] then None else Some(Rank(stats))
  }

  /** The prediction is empty-or-None exactly when no driver qualifies, and
      otherwise ranks every qualifying driver once, by score, from 1. */
  lemma {:induction false} PredictionRanksQualifiers(laps: seq<Lap>, std: Statistic, fit: Fit)
    requires laps != []
    ensures var p := QualifyingPredictionOf(Some(laps), std, fit);
      var stats := QualifyingStats(Drivers(laps), laps, std, fit);
      && (p.None? <==> forall d :: d in Drivers(laps) ==> CountWhere(LapsOf(d, laps), IsValidLap) < 3)
      && (p.Some? ==>
           && |p.value| == |stats|
           && (forall k :: 0 <= k < |p.value| ==> p.value[k].predictedPosition == k + 1)
           && (forall i, j :: 0 <= i < j < |p.value| ==>
                 p.value[i].stat.predictionScore <= p.value[j].stat.predictionScore))
  {
    var stats := QualifyingStats(Drivers(laps), laps, std, fit);
    StatsEmptyIff(Drivers(laps), laps, std, fit);
    if stats != [] {
      assert QualifyingPredictionOf(Some(laps), std, fit) == Some(Rank(stats));
    }
  }

  /** No statistics exactly when no listed driver has three valid laps. */
  lemma {:induction false} StatsEmptyIff(drivers: seq<string>, laps: seq<Lap>, std: Statistic, fit: Fit)
    ensures QualifyingStats(drivers, laps, std, fit) == [] <==>
      forall d :: d in drivers ==> CountWhere(LapsOf(d, laps), IsValidLap) < 3
  {
    var stats := QualifyingStats(drivers, laps, std, fit);
    if stats == [] {
      forall d | d in drivers
        ensures CountWhere(LapsOf(d, laps), IsValidLap) < 3
      {
        QualifyingStatsMembers(drivers, laps, std, fit, d);
      }
    } else {
      var d := stats[0].driver;
      assert StatDrivers(stats)[0] == d;
      QualifyingStatsMembers(drivers, laps, std, fit, d);
    }
  }

  lemma {:induction false} QualifyingStatsStep(drivers: seq<string>, laps: seq<Lap>, std: Statistic, fit: Fit, i: nat)
    requires i < |drivers|
    ensures var s := QualifyingStatOf(drivers[i], LapsOf(drivers[i], laps), std, fit);
      QualifyingStats(drivers[..i + 1], laps, std, fit)
        == QualifyingStats(drivers[..i], laps, std, fit) + (if s.Some? then [s.value] else [])
  {
    assert drivers[..i + 1][..i] == drivers[..i];
  }

  /** The driver loop of predict_qualifying_performance. */
  method CollectQualifyingStats(drivers: seq<string>, laps: seq<Lap>, std: Statistic, fit: Fit) returns (stats: seq<QualifyingStat>)
    ensures stats == QualifyingStats(drivers, laps, std, fit)
  {
    stats := [];
    var i := 0;
    while i < |drivers|
      invariant 0 <= i <= |drivers|
      invariant stats == QualifyingStats(drivers[..i], laps, std, fit)
    {
      QualifyingStatsStep(drivers, laps, std, fit, i);
      var s := QualifyingStatOf(drivers[i], LapsOf(drivers[i], laps), std, fit);
      if s.Some? {
        stats := stats + [s.value];
      }
      i := i + 1;
    }
    assert drivers[..|drivers|] == drivers;
  }

  /** predict_qualifying_performance. */
  method PredictQualifying(laps: Option<seq<Lap>>, std: Statistic, fit: Fit) returns (r: Option<seq<QualifyingPrediction>>)
    ensures r == QualifyingPredictionOf(laps, std, fit)
  {
    if laps.None? || laps.value == [] {
      return None;
    }
    var stats := CollectQualifyingStats(Drivers(laps.value), laps.value, std, fit);
    if stats == [] {
      return None;
    }
    r := Some(Rank(stats));
  }

  // ------------------------------------------------------------ tyre degradation

  /** One stint of the degradation table: a regression of lap time on the
      lap's position within the stint. */
  datatype DegradationEntry = DegradationEntry(
    driver: string,
    compound: Compound,
    stintLength: nat,
    initialPace: real,
    degradationRate: real,
    correlation: real,
    totalDegradation: real,
    avgLapTime: real,
    bestLapTime: real)

  /** A row the degradation analysis reads: timed and with a known compound. */
  predicate IsTimedTyreLap(l: Lap)
  {
    l.lapTime.Some? && l.compound.Tyre?
  }

  /** A run of rows as the half-open index range [start, end). */
  datatype Segment = Segment(start: nat, end: nat)

  /** The maximal runs of equal compound, in order: a new run starts at the
      first row and wherever the compound differs from the row before. */
  function Segments(rows: seq<Lap>): (r: seq<Segment>)
    ensures rows == [] <==> r == []
    ensures r != [] ==> r[|r| - 1].start < r[|r| - 1].end == |rows|
  {
    var n := |rows|;
    if n == 0 then []
    else if n == 1 then [Segment(0, 1)]
    else
      var prev := Segments(rows[..n - 1]);
      if rows[n - 1].compound != rows[n - 2].compound then prev + [Segment(n - 1, n)]
      else prev[..|prev| - 1] + [Segment(prev[|prev| - 1].start, n)]
  }

  /** The runs partition the rows: they start at row 0, each is non-empty,
      and each ends where the next begins. */
  predicate Partitions(r: seq<Segment>, n: nat)
  {
    && (r != [] ==> r[0].start == 0 && r[|r| - 1].end == n)
    && (forall k :: 0 <= k < |r| ==> r[k].start < r[k].end <= n)
    && (forall k :: 0 <= k < |r| - 1 ==> r[k].end == r[k + 1].start)
  }

  lemma {:induction false} SegmentsPartition(rows: seq<Lap>)
    ensures Partitions(Segments(rows), |rows|)
  {
    var n := |rows|;
    if n >= 2 {
      var prev := Segments(rows[..n - 1]);
      SegmentsPartition(rows[..n - 1]);
      var r := Segments(rows);
      if rows[n - 1].compound != rows[n - 2].compound {
        assert r == prev + [Segment(n - 1, n)];
      } else {
        var m := |prev| - 1;
        assert r == prev[..m] + [Segment(prev[m].start, n)];
        assert m > 0 ==> prev[m - 1].end == prev[m].start;
      }
    }
  }

  /** Every row of run `s` has the compound of its first row. */
  predicate RunConstant(rows: seq<Lap>, s: Segment)
  {
    forall j :: s.start <= j < s.end <= |rows| ==> rows[j].compound == rows[s.start].compound
  }

  /** Every row of a run has the compound of the run's first row. */
  predicate RunsConstant(r: seq<Segment>, rows: seq<Lap>)
  {
    forall k :: 0 <= k < |r| ==> RunConstant(rows, r[k])
  }

  /** A run within the rows before the last is still constant with it. */
  lemma {:induction false} RunConstantExtend(rows: seq<Lap>, init: seq<Lap>, s: Segment)
    requires |rows| >= 1 && init == rows[..|rows| - 1] && s.end <= |init|
    requires RunConstant(init, s)
    ensures RunConstant(rows, s)
  {
    forall j | s.start <= j < s.end
      ensures rows[j].compound == rows[s.start].compound
    {
      assert rows[j] == init[j] && rows[s.start] == init[s.start];
    }
  }

  /** The last run grows by a last row on its compound. */
  lemma {:induction false} RunConstantGrow(rows: seq<Lap>, init: seq<Lap>, start: nat)
    requires |rows| >= 2 && init == rows[..|rows| - 1] && start < |init|
    requires RunConstant(init, Segment(start, |init|))
    requires rows[|rows| - 1].compound == rows[|rows| - 2].compound
    ensures RunConstant(rows, Segment(start, |rows|))
  {
    var n := |rows|;
    forall j | start <= j < n
      ensures rows[j].compound == rows[start].compound
    {
      assert rows[start] == init[start];
      if j < n - 1 {
        assert rows[j] == init[j];
      } else {
        assert rows[n - 2] == init[n - 2];
      }
    }
  }

  /** Where one run ends and the next begins, the compound changes. */
  predicate RunsDiffer(r: seq<Segment>, rows: seq<Lap>)
  {
    forall k :: 0 <= k < |r| - 1 && 0 < r[k].end < |rows| ==> rows[r[k].end].compound != rows[r[k].end - 1].compound
  }

  lemma {:induction false} SegmentsConstant(rows: seq<Lap>)
    ensures RunsConstant(Segments(rows), rows)
  {
    var n := |rows|;
    if n >= 2 {
      var init := rows[..n - 1];
      SegmentsConstant(init);
      SegmentsPartition(init);
      if rows[n - 1].compound != rows[n - 2].compound {
        ConstantAfterChange(rows, init, Segments(init));
      } else {
        ConstantAfterSame(rows, init, Segments(init));
      }
    }
  }

  lemma {:induction false} ConstantAfterChange(rows: seq<Lap>, init: seq<Lap>, prev: seq<Segment>)
    requires |rows| >= 2 && rows[|rows| - 1].compound != rows[|rows| - 2].compound
    requires init == rows[..|rows| - 1] && prev == Segments(init)
    requires Partitions(prev, |init|) && RunsConstant(prev, init)
    ensures RunsConstant(Segments(rows), rows)
  {
    var n := |rows|;
    var r := Segments(rows);
    SegmentsSnoc(rows, init, rows[n - 1], rows[n - 2]);
    assert r == prev + [Segment(n - 1, n)];
    forall k | 0 <= k < |r|
      ensures RunConstant(rows, r[k])
    {
      if k < |prev| {
        assert r[k] == prev[k] && RunConstant(init, prev[k]);
        RunConstantExtend(rows, init, prev[k]);
      }
    }
  }

  lemma {:induction false} ConstantAfterSame(rows: seq<Lap>, init: seq<Lap>, prev: seq<Segment>)
    requires |rows| >= 2 && rows[|rows| - 1].compound == rows[|rows| - 2].compound
    requires init == rows[..|rows| - 1] && prev == Segments(init)
    requires Partitions(prev, |init|) && RunsConstant(prev, init)
    ensures RunsConstant(Segments(rows), rows)
  {
    var n := |rows|;
    var r := Segments(rows);
    var m := |prev| - 1;
    var s := prev[m].start;
    assert prev[m] == Segment(s, n - 1);
    SegmentsSnoc(rows, init, rows[n - 1], rows[n - 2]);
    assert r == prev[..m] + [Segment(s, n)];
    forall k | 0 <= k < |r|
      ensures RunConstant(rows, r[k])
    {
      if k < m {
        assert r[k] == prev[k] && RunConstant(init, prev[k]);
        RunConstantExtend(rows, init, prev[k]);
      } else {
        assert RunConstant(init, prev[m]);
        RunConstantGrow(rows, init, s);
      }
    }
  }

  /** The boundaries of the previous rows' runs still mark changes. */
  lemma {:induction false} OldBoundaries(rows: seq<Lap>, prev: seq<Segment>)
    requires |rows| >= 2 && prev == Segments(rows[..|rows| - 1])
    ensures forall k :: 0 <= k < |prev| - 1 ==> 0 < prev[k].end < |rows| - 1 && rows[prev[k].end].compound != rows[prev[k].end - 1].compound
    decreases |rows|, 0
  {
    var n := |rows|;
    var init := rows[..n - 1];
    SegmentsDiffer(init);
    SegmentsPartition(init);
    forall k | 0 <= k < |prev| - 1
      ensures 0 < prev[k].end < n - 1 && rows[prev[k].end].compound != rows[prev[k].end - 1].compound
    {
      assert prev[k].end == prev[k + 1].start < prev[k + 1].end <= n - 1;
      assert init[prev[k].end].compound != init[prev[k].end - 1].compound;
    }
  }

  lemma {:induction false} SegmentsDiffer(rows: seq<Lap>)
    ensures RunsDiffer(Segments(rows), rows)
    decreases |rows|, 1
  {
    var n := |rows|;
    if n >= 2 {
      var prev := Segments(rows[..n - 1]);
      OldBoundaries(rows, prev);
      SegmentsPartition(rows[..n - 1]);
      if rows[n - 1].compound != rows[n - 2].compound {
        DifferAfterChange(rows, prev);
      } else {
        DifferAfterSame(rows, prev);
      }
    }
  }

  lemma {:induction false} DifferAfterChange(rows: seq<Lap>, prev: seq<Segment>)
    requires |rows| >= 2 && rows[|rows| - 1].compound != rows[|rows| - 2].compound
    requires prev == Segments(rows[..|rows| - 1])
    requires Partitions(prev, |rows| - 1)
    requires forall k :: 0 <= k < |prev| - 1 ==> 0 < prev[k].end < |rows| - 1 && rows[prev[k].end].compound != rows[prev[k].end - 1].compound
    ensures var r := Segments(rows);
      forall k :: 0 <= k < |r| - 1 && 0 < r[k].end < |rows| ==> rows[r[k].end].compound != rows[r[k].end - 1].compound
  {
    var n := |rows|;
    var r := Segments(rows);
    assert r == prev + [Segment(n - 1, n)];
    var m := |prev| - 1;
    assert prev[m].end == n - 1;
    forall k | 0 <= k < |r| - 1 && 0 < r[k].end < n
      ensures rows[r[k].end].compound != rows[r[k].end - 1].compound
    {
      assert r[k] == prev[k];
      if k < m {
        assert rows[prev[k].end].compound != rows[prev[k].end - 1].compound;
      } else {
        assert prev[k].end == n - 1;
      }
    }
  }

  lemma {:induction false} DifferAfterSame(rows: seq<Lap>, prev: seq<Segment>)
    requires |rows| >= 2 && rows[|rows| - 1].compound == rows[|rows| - 2].compound
    requires prev == Segments(rows[..|rows| - 1])
    requires forall k :: 0 <= k < |prev| - 1 ==> 0 < prev[k].end < |rows| - 1 && rows[prev[k].end].compound != rows[prev[k].end - 1].compound
    ensures var r := Segments(rows);
      forall k :: 0 <= k < |r| - 1 && 0 < r[k].end < |rows| ==> rows[r[k].end].compound != rows[r[k].end - 1].compound
  {
    var n := |rows|;
    var r := Segments(rows);
    var m := |prev| - 1;
    assert r == prev[..m] + [Segment(prev[m].start, n)];
    forall k | 0 <= k < |r| - 1 && 0 < r[k].end < n
      ensures rows[r[k].end].compound != rows[r[k].end - 1].compound
    {
      assert r[k] == prev[k];
      assert k < |prev| - 1;
      assert 0 < prev[k].end < n - 1;
      assert rows[prev[k].end].compound != rows[prev[k].end - 1].compound;
    }
  }

  /** The runs partition the rows, the compound is constant within a run and
      differs where two runs meet: they are exactly the maximal runs. */
  lemma {:induction false} SegmentsAreMaximalRuns(rows: seq<Lap>)
    ensures Partitions(Segments(rows), |rows|)
    ensures RunsConstant(Segments(rows), rows)
    ensures RunsDiffer(Segments(rows), rows)
  {
    SegmentsPartition(rows);
    SegmentsConstant(rows);
    SegmentsDiffer(rows);
  }

  predicate IsLong(s: Segment)
  {
    s.end >= s.start + 3
  }

  /** The stints the analysis keeps: runs of at least three laps. */
  function LongSegments(rows: seq<Lap>): (r: seq<Segment>)
    ensures forall k :: 0 <= k < |r| ==> r[k] in Segments(rows) && r[k].end - r[k].start >= 3
  {
    Filter(Segments(rows), IsLong)
  }

  /** Every run of at least three laps is kept, and each kept one lies
      within the rows. */
  lemma {:induction false} LongSegmentsExactly(rows: seq<Lap>, s: Segment)
    ensures s in LongSegments(rows) <==> s in Segments(rows) && s.end - s.start >= 3
    ensures s in LongSegments(rows) ==> s.end <= |rows|
  {
    FilterComplete(Segments(rows), IsLong, s);
    SegmentsPartition(rows);
  }

  lemma {:induction false} LongSegmentsWithin(rows: seq<Lap>)
    ensures forall k :: 0 <= k < |LongSegments(rows)| ==> LongSegments(rows)[k].start + 3 <= LongSegments(rows)[k].end <= |rows|
  {
    SegmentsPartition(rows);
  }

  lemma {:induction false} SegmentsStep(rows: seq<Lap>, i: nat)
    requires 1 <= i < |rows|
    ensures var prev := Segments(rows[..i]);
      Segments(rows[..i + 1]) ==
        if rows[i].compound != rows[i - 1].compound then prev + [Segment(i, i + 1)]
        else prev[..|prev| - 1] + [Segment(prev[|prev| - 1].start, i + 1)]
  {
    var head := rows[..i + 1];
    assert head[..i] == rows[..i];
    SegmentsSnoc(head, rows[..i], rows[i], rows[i - 1]);
  }

  /** The runs of two rows or more, from the runs without the last row. */
  lemma {:induction false} SegmentsSnoc(rows: seq<Lap>, init: seq<Lap>, last: Lap, before: Lap)
    requires |rows| >= 2 && init == rows[..|rows| - 1]
    requires last == rows[|rows| - 1] && before == rows[|rows| - 2]
    ensures var prev := Segments(init);
      Segments(rows) ==
        if last.compound != before.compound then prev + [Segment(|init|, |rows|)]
        else prev[..|prev| - 1] + [Segment(prev[|prev| - 1].start, |rows|)]
  {
  }

  /** The runs of the first i rows are the runs `closed` then the open run
      from `start`. */
  predicate OpenRun(rows: seq<Lap>, i: nat, closed: seq<Segment>, start: nat)
    requires i <= |rows|
  {
    closed + [Segment(start, i)] == Segments(rows[..i])
  }

  /** The first row alone is one run. */
  lemma {:induction false} FirstRun(rows: seq<Lap>)
    requires rows != []
    ensures OpenRun(rows, 1, [], 0)
  {
    assert |rows[..1]| == 1;
  }

  /** At a change of compound the open run closes and a new one opens. */
  lemma {:induction false} CloseRun(rows: seq<Lap>, i: nat, closed: seq<Segment>, start: nat)
    requires 1 <= i < |rows| && rows[i].compound != rows[i - 1].compound
    requires OpenRun(rows, i, closed, start)
    ensures OpenRun(rows, i + 1, closed + [Segment(start, i)], i)
  {
    SegmentsStep(rows, i);
  }

  /** On the same compound the open run grows by one row. */
  lemma {:induction false} ExtendRun(rows: seq<Lap>, i: nat, closed: seq<Segment>, start: nat)
    requires 1 <= i < |rows| && rows[i].compound == rows[i - 1].compound
    requires OpenRun(rows, i, closed, start)
    ensures OpenRun(rows, i + 1, closed, start)
  {
    SegmentsStep(rows, i);
    var prev := closed + [Segment(start, i)];
    assert prev[..|prev| - 1] == closed;
  }

  /** What the stint-grouping loop knows after i rows: the compound of the
      row before, the runs closed so far, the open run's start and the
      closed runs kept. */
  ghost predicate StintScan(rows: seq<Lap>, i: nat, current: Option<Compound>, closed: seq<Segment>, start: nat, stints: seq<Segment>)
  {
    && i <= |rows|
    && current == (if i == 0 then None else Some(rows[i - 1].compound))
    && (i == 0 ==> closed == [] && start == 0)
    && (i > 0 ==> start < i && OpenRun(rows, i, closed, start))
    && stints == Filter(closed, IsLong)
  }

  /** The first row opens the first run. */
  lemma {:induction false} ScanFirst(rows: seq<Lap>, stints: seq<Segment>)
    requires rows != [] && StintScan(rows, 0, None, [], 0, stints)
    ensures StintScan(rows, 1, Some(rows[0].compound), [], 0, stints)
  {
    FirstRun(rows);
  }

  /** A change of compound closes the open run, kept when longer than two. */
  lemma {:induction false} ScanChange(rows: seq<Lap>, i: nat, closed: seq<Segment>, start: nat, stints: seq<Segment>)
    requires 0 < i < |rows| && rows[i].compound != rows[i - 1].compound
    requires StintScan(rows, i, Some(rows[i - 1].compound), closed, start, stints)
    ensures StintScan(rows, i + 1, Some(rows[i].compound), closed + [Segment(start, i)], i,
      if i > start + 2 then stints + [Segment(start, i)] else stints)
  {
    CloseRun(rows, i, closed, start);
    FilterSnoc(closed, Segment(start, i), IsLong);
  }

  /** The same compound extends the open run. */
  lemma {:induction false} ScanSame(rows: seq<Lap>, i: nat, closed: seq<Segment>, start: nat, stints: seq<Segment>)
    requires 0 < i < |rows| && rows[i].compound == rows[i - 1].compound
    requires StintScan(rows, i, Some(rows[i - 1].compound), closed, start, stints)
    ensures StintScan(rows, i + 1, Some(rows[i].compound), closed, start, stints)
  {
    ExtendRun(rows, i, closed, start);
  }

  /** After the last row the open run is kept on the same condition. */
  lemma {:induction false} ScanEnd(rows: seq<Lap>, current: Option<Compound>, closed: seq<Segment>, start: nat, stints: seq<Segment>)
    requires StintScan(rows, |rows|, current, closed, start, stints)
    ensures rows == [] ==> stints == LongSegments(rows)
    ensures rows != [] ==>
      (if start + 2 < |rows| then stints + [Segment(start, |rows|)] else stints) == LongSegments(rows)
  {
    assert rows[..|rows|] == rows;
    if rows != [] {
      FilterSnoc(closed, Segment(start, |rows|), IsLong);
    }
  }

  /** One row of the stint-grouping loop: a change of compound closes the
      open run, kept when it has more than two laps, and opens a new one. */
  method ScanRow(rows: seq<Lap>, i: nat, current: Option<Compound>, ghost closed: seq<Segment>, start: nat, stints: seq<Segment>)
    returns (current': Option<Compound>, ghost closed': seq<Segment>, start': nat, stints': seq<Segment>)
    requires i < |rows| && StintScan(rows, i, current, closed, start, stints)
    ensures StintScan(rows, i + 1, current', closed', start', stints')
  {
    var lap := rows[i];
    current', closed', start', stints' := current, closed, start, stints;
    if Some(lap.compound) != current {
      if current.Some? {
        ScanChange(rows, i, closed, start, stints);
        if i > start + 2 {
          stints' := stints + [Segment(start, i)];
        }
        closed' := closed + [Segment(start, i)];
      } else {
        ScanFirst(rows, stints);
      }
      current' := Some(lap.compound);
      start' := i;
    } else {
      ScanSame(rows, i, closed, start, stints);
    }
  }

  /** The stint-grouping loop: a run is closed when the compound changes and
      kept when it has more than two laps; the last run is kept on the same
      condition. */
  method DegradationStints(rows: seq<Lap>) returns (stints: seq<Segment>)
    ensures stints == LongSegments(rows)
  {
    stints := [];
    var current: Option<Compound> := None;
    var stintStart: nat := 0;
    ghost var closed: seq<Segment> := [];
    var i := 0;
    while i < |rows|
      invariant StintScan(rows, i, current, closed, stintStart, stints)
    {
      current, closed, stintStart, stints := ScanRow(rows, i, current, closed, stintStart, stints);
      i := i + 1;
    }
    ScanEnd(rows, current, closed, stintStart, stints);
    if |rows| > 0 && stintStart + 2 < |rows| {
      stints := stints + [Segment(stintStart, |rows|)];
    }
  }

  /** The lap times of the rows of one stint, in order. */
  function StintTimes(rows: seq<Lap>, s: Segment): (t: seq<real>)
    requires forall i :: 0 <= i < |rows| ==> rows[i].lapTime.Some? && rows[i].compound.Tyre?
    requires s.start <= s.end <= |rows|
    ensures |t| == s.end - s.start
    ensures forall i :: 0 <= i < |t| ==> t[i] == rows[s.start + i].lapTime.value as real && t[i] > 0.0
  {
    seq(s.end - s.start, i requires 0 <= i < s.end - s.start => rows[s.start + i].lapTime.value as real)
  }

  /** The degradation record of the rows in one kept stint. */
  function StintEntry(driver: string, rows: seq<Lap>, s: Segment, fit: Fit): (e: DegradationEntry)
    requires forall i :: 0 <= i < |rows| ==> rows[i].lapTime.Some? && rows[i].compound.Tyre?
    requires s.start + 3 <= s.end <= |rows|
    ensures e.driver == driver
    ensures e.stintLength == s.end - s.start && e.stintLength >= 3
    ensures e.compound == rows[s.start].compound && e.compound.Tyre?
    ensures 0.0 < e.bestLapTime <= e.avgLapTime
  {
    var times := StintTimes(rows, s);
    var x := Positions(|times|);
    MinMeanMax(times);
    var best := MinOf(times);
    assert best > 0.0 by {
      var k :| 0 <= k < |times| && times[k] == best;
    }
    DegradationEntry(driver, rows[s.start].compound, |times|, fit.intercept(x, times), fit.slope(x, times),
                     fit.rValue(x, times), fit.slope(x, times) * (|times| - 1) as real, Mean(times), best)
  }

  /** The rows of one driver the degradation analysis reads. */
  function TyreRows(d: string, laps: seq<Lap>): (rows: seq<Lap>)
    ensures forall i :: 0 <= i < |rows| ==> rows[i].lapTime.Some? && rows[i].compound.Tyre? && rows[i].driver == d
  {
    Filter(LapsOf(d, laps), IsTimedTyreLap)
  }

  function StintEntries(d: string, rows: seq<Lap>, stints: seq<Segment>, fit: Fit): (r: seq<DegradationEntry>)
    requires forall i :: 0 <= i < |rows| ==> rows[i].lapTime.Some? && rows[i].compound.Tyre?
    requires forall k :: 0 <= k < |stints| ==> stints[k].start + 3 <= stints[k].end <= |rows|
    ensures |r| == |stints|
    ensures forall k :: 0 <= k < |r| ==> r[k].driver == d && r[k].stintLength >= 3 && r[k].compound.Tyre?
  {
    seq(|stints|, k requires 0 <= k < |stints| => StintEntry(d, rows, stints[k], fit))
  }

  /** The degradation records of one driver: none below five rows. */
  function DriverDegradation(d: string, laps: seq<Lap>, fit: Fit): (r: seq<DegradationEntry>)
    ensures |TyreRows(d, laps)| < 5 ==> r == []
    ensures |TyreRows(d, laps)| >= 5 ==> |r| == |LongSegments(TyreRows(d, laps))|
    ensures forall k :: 0 <= k < |r| ==> r[k].driver == d && r[k].stintLength >= 3 && r[k].compound.Tyre?
  {
    var rows := TyreRows(d, laps);
    if |rows| < 5 then []
    else
      LongSegmentsWithin(rows);
      StintEntries(d, rows, LongSegments(rows), fit)
  }

  function DegradationOf(drivers: seq<string>, laps: seq<Lap>, fit: Fit): (r: seq<DegradationEntry>)
  {
    if drivers == [] then []
    else
      var d := drivers[|drivers| - 1];
      DegradationOf(drivers[..|drivers| - 1], laps, fit) + DriverDegradation(d, laps, fit)
  }

  /** Every stint record is of a listed driver with at least five rows, on a
      known compound, over at least three laps. */
  lemma {:induction false} DegradationEntriesValid(drivers: seq<string>, laps: seq<Lap>, fit: Fit)
    ensures forall k :: 0 <= k < |DegradationOf(drivers, laps, fit)| ==>
      var e := DegradationOf(drivers, laps, fit)[k];
      && e.driver in drivers && |TyreRows(e.driver, laps)| >= 5
      && e.stintLength >= 3 && e.compound.Tyre?
  {
    if drivers != [] {
      var init := drivers[..|drivers| - 1];
      var d := drivers[|drivers| - 1];
      DegradationEntriesValid(init, laps, fit);
      var prev := DegradationOf(init, laps, fit);
      var mine := DriverDegradation(d, laps, fit);
      assert DegradationOf(drivers, laps, fit) == prev + mine;
      assert forall x :: x in init ==> x in drivers;
      assert mine != [] ==> |TyreRows(d, laps)| >= 5;
    }
  }

  /** analyze_tire_degradation_patterns: None without data or without any
      kept stint. */
  function DegradationAnalysis(laps: Option<seq<Lap>>, fit: Fit): Option<seq<DegradationEntry>>
  {
    if laps.None? then None
    else
      var r := DegradationOf(Drivers(laps.value), laps.value, fit);
      if r == [] then None else Some(r)
  }

  lemma {:induction false} DegradationStep(drivers: seq<string>, laps: seq<Lap>, fit: Fit, i: nat)
    requires i < |drivers|
    ensures DegradationOf(drivers[..i + 1], laps, fit) == DegradationOf(drivers[..i], laps, fit) + DriverDegradation(drivers[i], laps, fit)
  {
    assert drivers[..i + 1][..i] == drivers[..i];
  }

  /** analyze_tire_degradation_patterns, driver by driver. */
  method AnalyzeTireDegradation(laps: Option<seq<Lap>>, fit: Fit) returns (r: Option<seq<DegradationEntry>>)
    ensures r == DegradationAnalysis(laps, fit)
  {
    if laps.None? {
      return None;
    }
    var data := laps.value;
    var drivers := Drivers(data);
    var entries: seq<DegradationEntry> := [];
    var i := 0;
    while i < |drivers|
      invariant 0 <= i <= |drivers|
      invariant entries == DegradationOf(drivers[..i], data, fit)
    {
      DegradationStep(drivers, data, fit, i);
      var rows := TyreRows(drivers[i], data);
      if |rows| >= 5 {
        var stints := DegradationStints(rows);
        LongSegmentsWithin(rows);
        entries := entries + StintEntries(drivers[i], rows, stints, fit);
      }
      i := i + 1;
    }
    assert drivers[..|drivers|] == drivers;
    r := if entries == [] then None else Some(entries);
  }

  // ------------------------------------------------------------ performance evolution

  datatype EvolutionPoint = EvolutionPoint(
    driver: string,
    lapNumber: int,
    lapTime: real,
    rollingAverage: real,
    rollingConsistency: real,
    performanceIndex: real)

  /** `min(5, n // 3)`. */
  function WindowSize(n: nat): (w: nat)
    ensures w <= 5 && w * 3 <= n
    ensures w >= 2 <==> n >= 6
  {
    if 5 < n / 3 then 5 else n / 3
  }

  /** How far a lap sits from the rolling mean in rolling standard
      deviations; 0 when the deviation is not positive. */
  function PerformanceIndex(t: real, mean: real, std: real): (p: real)
    ensures std <= 0.0 ==> p == 0.0
    ensures std > 0.0 ==> (p > 0.0 <==> t > mean) && (p < 0.0 <==> t < mean) && p * std == t - mean
  {
    if std > 0.0 then
      var p := (t - mean) / std;
      assert p * std == t - mean;
      p
    else 0.0
  }

  /** The points of the first `i` laps where both rolling values exist. */
  function PointsUpTo(d: string, rows: seq<Lap>, means: seq<Option<real>>, stds: seq<Option<real>>, i: nat): (r: seq<EvolutionPoint>)
    requires forall j :: 0 <= j < |rows| ==> rows[j].lapTime.Some?
    requires i <= |rows|
    ensures |r| <= i
    ensures forall k :: 0 <= k < |r| ==> r[k].driver == d
  {
    if i == 0 then []
    else
      var j := i - 1;
      PointsUpTo(d, rows, means, stds, j) +
        if At(means, j).Some? && At(stds, j).Some? then
          var t := rows[j].lapTime.value as real;
          [EvolutionPoint(d, rows[j].lapNumber, t, At(means, j).value, At(stds, j).value,
                          PerformanceIndex(t, At(means, j).value, At(stds, j).value))]
        else []
  }

  /** `p` is the point of row `j`: its lap number, its time and the rolling
      values at that position. */
  predicate IsPointOf(p: EvolutionPoint, rows: seq<Lap>, means: seq<Option<real>>, stds: seq<Option<real>>, j: nat)
  {
    && j < |rows| && rows[j].lapTime.Some?
    && p.lapNumber == rows[j].lapNumber && p.lapTime == rows[j].lapTime.value as real
    && Some(p.rollingAverage) == At(means, j) && Some(p.rollingConsistency) == At(stds, j)
  }

  /** The positions below `i` where both rolling values exist, in order. */
  function PointIndices(means: seq<Option<real>>, stds: seq<Option<real>>, i: nat): (r: seq<nat>)
    ensures forall k :: 0 <= k < |r| ==> r[k] < i
  {
    if i == 0 then []
    else PointIndices(means, stds, i - 1) + (if At(means, i - 1).Some? && At(stds, i - 1).Some? then [i - 1] else [])
  }

  lemma {:induction false} PointIndicesExactly(means: seq<Option<real>>, stds: seq<Option<real>>, i: nat, j: nat)
    ensures j in PointIndices(means, stds, i) <==> j < i && At(means, j).Some? && At(stds, j).Some?
  {
    if i > 0 {
      PointIndicesExactly(means, stds, i - 1, j);
    }
  }

  /** The k-th point is the lap at the k-th position where both rolling
      values exist, with its own number, time and rolling values. */
  lemma {:induction false} PointsAtIndices(d: string, rows: seq<Lap>, means: seq<Option<real>>, stds: seq<Option<real>>, i: nat)
    requires forall j :: 0 <= j < |rows| ==> rows[j].lapTime.Some?
    requires i <= |rows|
    ensures |PointsUpTo(d, rows, means, stds, i)| == |PointIndices(means, stds, i)|
    ensures forall k :: 0 <= k < |PointIndices(means, stds, i)| ==>
      IsPointOf(PointsUpTo(d, rows, means, stds, i)[k], rows, means, stds, PointIndices(means, stds, i)[k])
  {
    if i > 0 {
      PointsAtIndices(d, rows, means, stds, i - 1);
      var prev := PointsUpTo(d, rows, means, stds, i - 1);
      var r := PointsUpTo(d, rows, means, stds, i);
      var ix := PointIndices(means, stds, i);
      var prevIx := PointIndices(means, stds, i - 1);
      assert r[..|prev|] == prev;
      assert ix[..|prevIx|] == prevIx;
      forall k | 0 <= k < |ix|
        ensures IsPointOf(r[k], rows, means, stds, ix[k])
      {
        if k < |prevIx| {
          assert r[k] == prev[k] && ix[k] == prevIx[k];
        }
      }
    }
  }

  /** The points of one driver: below five timed laps, or with a window
      below two, there are none. */
  function DriverEvolution(d: string, laps: seq<Lap>, mean: Rolling, std: Rolling): (r: seq<EvolutionPoint>)
    ensures |TimedRows(d, laps)| < 6 ==> r == []
  {
    var rows := TimedRows(d, laps);
    if |rows| < 5 then []
    else
      var w := WindowSize(|rows|);
      if w < 2 then []
      else
        var times := TimesOf(rows);
        PointsUpTo(d, rows, mean(times, w), std(times, w), |rows|)
  }

  /** The per-lap loop of performance_evolution_tracking. */
  method EvolutionPoints(d: string, rows: seq<Lap>, means: seq<Option<real>>, stds: seq<Option<real>>) returns (r: seq<EvolutionPoint>)
    requires forall j :: 0 <= j < |rows| ==> rows[j].lapTime.Some?
    ensures r == PointsUpTo(d, rows, means, stds, |rows|)
  {
    r := [];
    var i := 0;
    while i < |rows|
      invariant 0 <= i <= |rows|
      invariant r == PointsUpTo(d, rows, means, stds, i)
    {
      if At(means, i).Some? && At(stds, i).Some? {
        var t := rows[i].lapTime.value as real;
        var m := At(means, i).value;
        var s := At(stds, i).value;
        r := r + [EvolutionPoint(d, rows[i].lapNumber, t, m, s, PerformanceIndex(t, m, s))];
      }
      i := i + 1;
    }
  }

  function EvolutionOf(drivers: seq<string>, laps: seq<Lap>, mean: Rolling, std: Rolling): (r: seq<EvolutionPoint>)
  {
    if drivers == [] then []
    else
      EvolutionOf(drivers[..|drivers| - 1], laps, mean, std) + DriverEvolution(drivers[|drivers| - 1], laps, mean, std)
  }

  /** Only drivers with six or more timed laps contribute points. */
  lemma {:induction false} EvolutionNeedsSixLaps(drivers: seq<string>, laps: seq<Lap>, mean: Rolling, std: Rolling)
    ensures forall k :: 0 <= k < |EvolutionOf(drivers, laps, mean, std)| ==>
      var p := EvolutionOf(drivers, laps, mean, std)[k];
      p.driver in drivers && |TimedRows(p.driver, laps)| >= 6
  {
    if drivers != [] {
      var init := drivers[..|drivers| - 1];
      var d := drivers[|drivers| - 1];
      EvolutionNeedsSixLaps(init, laps, mean, std);
      var prev := EvolutionOf(init, laps, mean, std);
      var mine := DriverEvolution(d, laps, mean, std);
      assert EvolutionOf(drivers, laps, mean, std) == prev + mine;
      assert forall x :: x in init ==> x in drivers;
      assert mine != [] ==> |TimedRows(d, laps)| >= 6;
      forall k | 0 <= k < |mine|
        ensures mine[k].driver == d
      {
      }
    }
  }

  function EvolutionTracking(laps: Option<seq<Lap>>, mean: Rolling, std: Rolling): Option<seq<EvolutionPoint>>
  {
    if laps.None? then None
    else
      var r := EvolutionOf(Drivers(laps.value), laps.value, mean, std);
      if r == [] then None else Some(r)
  }

  lemma {:induction false} EvolutionStep(drivers: seq<string>, laps: seq<Lap>, mean: Rolling, std: Rolling, i: nat)
    requires i < |drivers|
    ensures EvolutionOf(drivers[..i + 1], laps, mean, std) == EvolutionOf(drivers[..i], laps, mean, std) + DriverEvolution(drivers[i], laps, mean, std)
  {
    assert drivers[..i + 1][..i] == drivers[..i];
  }

  /** performance_evolution_tracking. */
  method TrackEvolution(laps: Option<seq<Lap>>, mean: Rolling, std: Rolling) returns (r: Option<seq<EvolutionPoint>>)
    ensures r == EvolutionTracking(laps, mean, std)
  {
    if laps.None? {
      return None;
    }
    var data := laps.value;
    var drivers := Drivers(data);
    var points: seq<EvolutionPoint> := [];
    var i := 0;
    while i < |drivers|
      invariant 0 <= i <= |drivers|
      invariant points == EvolutionOf(drivers[..i], data, mean, std)
    {
      EvolutionStep(drivers, data, mean, std, i);
      var rows := TimedRows(drivers[i], data);
      if |rows| >= 5 {
        var w := WindowSize(|rows|);
        if w >= 2 {
          var times := TimesOf(rows);
          var mine := EvolutionPoints(drivers[i], rows, mean(times, w), std(times, w));
          points := points + mine;
        }
      }
      i := i + 1;
    }
    assert drivers[..|drivers|] == drivers;
    r := if points == [] then None else Some(points);
  }
}
