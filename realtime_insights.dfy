/** Live insights over the lap table of a session: momentum between the
    first and the last laps of each driver, sector times relative to the
    fastest driver, the most consistent driver and the pace leader, the lap
    time trend of each driver and the session counts. A session without
    lap data is None throughout. */
module RealtimeInsights {

  import opened Common
  import opened Laps
  import opened Sorting

  // ------------------------------------------------------------ trends

  datatype Trend = Improving | Declining | Stable

  /** The trend a momentum score or a correlation reads as: below -0.1 the
      driver is improving, above 0.1 declining, and stable in between. */
  function TrendOf(v: real): (t: Trend)
    ensures t == Improving <==> v < -0.1
    ensures t == Declining <==> v > 0.1
    ensures t == Stable <==> -0.1 <= v <= 0.1
  {
    if v < -0.1 then Improving else if v > 0.1 then Declining else Stable
  }

  /** The rank of a trend from improving to declining. */
  function TrendRank(t: Trend): nat
  {
    match t
    case Improving => 0
    case Stable => 1
    case Declining => 2
  }

  /** A larger value never reads as a better trend, and negating a value
      swaps improving and declining. */
  lemma TrendOrdered(v: real, w: real)
    ensures v <= w ==> TrendRank(TrendOf(v)) <= TrendRank(TrendOf(w))
    ensures TrendOf(-v) == (match TrendOf(v) case Improving => Declining case Declining => Improving case Stable => Stable)
  {
  }

  // ------------------------------------------------------------ windows

  /** `min(5, n)`: the number of laps at either end that momentum and pace
      look at. */
  function Window(n: nat): (k: nat)
    ensures k <= n && k <= 5
    ensures k == n || k == 5
  {
    if n < 5 then n else 5
  }

  /** The first `Window` laps ... */
  function Head(t: seq<real>): (h: seq<real>)
    ensures |h| == Window(|t|) && h == t[..Window(|t|)]
  {
    t[..Window(|t|)]
  }

  /** ... and the last. */
  function Tail(t: seq<real>): (h: seq<real>)
    ensures |h| == Window(|t|) && h == t[|t| - Window(|t|)..]
  {
    t[|t| - Window(|t|)..]
  }

  /** The mean of every sample of a constant sequence is that constant. */
  lemma {:induction false} MeanConstant(s: seq<real>, c: real)
    requires |s| > 0
    requires forall i :: 0 <= i < |s| ==> s[i] == c
    ensures Mean(s) == c
  {
    SumBounds(s, c, c);
    var n := |s| as real;
    assert Sum(s) == c * n;
    assert Mean(s) * n == Sum(s);
    assert (Mean(s) - c) * n == 0.0;
  }

  /** The mean of a window of `t` lies between the extremes of `t`. */
  lemma {:induction false} WindowMeanBounds(t: seq<real>, w: seq<real>, lo: nat)
    requires |t| > 0 && |w| > 0
    requires lo + |w| <= |t| && w == t[lo..lo + |w|]
    ensures MinOf(t) <= Mean(w) <= MaxOf(t)
  {
    forall i | 0 <= i < |w|
      ensures MinOf(t) <= w[i] <= MaxOf(t)
    {
      assert w[i] == t[lo + i];
    }
    MeanBounds(w, MinOf(t), MaxOf(t));
  }

  // ------------------------------------------------------------ momentum

  datatype MomentumEntry = MomentumEntry(
    driver: string,
    momentumScore: real,
    recentPace: real,
    earlyPace: real,
    volatility: real,
    trendStrength: real,
    trendDirection: Trend,
    totalLaps: nat)

  /** The momentum of one driver, or None with fewer than five timed laps:
      the mean of the last `Window` lap times less that of the first, so a
      negative score means the driver got faster. */
  function DriverMomentum(d: string, laps: seq<Lap>, std: Deviation, corr: Regression): (r: Option<MomentumEntry>)
    ensures r.Some? <==> |TimedRows(d, laps)| >= 5
    ensures r.Some? ==> r.value.driver == d && r.value.totalLaps == |TimedRows(d, laps)|
  {
    var rows := TimedRows(d, laps);
    if |rows| < 5 then None else MomentumOfTimes(d, TimesOf(rows), std, corr)
  }

  /** The momentum entry of a driver's lap times, at least five of them. The
      trend strength is the magnitude of the correlation of the lap times
      with their order. */
  function MomentumOfTimes(d: string, t: seq<real>, std: Deviation, corr: Regression): (r: Option<MomentumEntry>)
    requires |t| >= 5
    ensures r.Some?
    ensures r.value.driver == d && r.value.totalLaps == |t|
    ensures r.value.trendDirection == TrendOf(r.value.momentumScore)
    ensures r.value.volatility >= 0.0 && r.value.trendStrength >= 0.0
  {
    var k := Window(|t|);
    if k < 3 then None
    else
      var recent := Mean(Tail(t));
      var early := Mean(Head(t));
      var score := recent - early;
      var c := if |t| > 2 then corr(Positions(|t|), t) else 0.0;
      Some(MomentumEntry(d, score, recent, early, std(t), if c < 0.0 then -c else c, TrendOf(score), |t|))
  }

  /** Five timed laps or more always make a window of five, so momentum
      compares the mean of the first five laps with that of the last five,
      both positive. */
  lemma {:induction false} MomentumWindow(d: string, t: seq<real>, std: Deviation, corr: Regression)
    requires |t| >= 5 && forall i :: 0 <= i < |t| ==> t[i] > 0.0
    ensures var e := MomentumOfTimes(d, t, std, corr).value;
      && Window(|t|) == 5
      && e.earlyPace == Mean(t[..5]) && e.recentPace == Mean(t[|t| - 5..])
      && e.momentumScore == e.recentPace - e.earlyPace
      && e.earlyPace > 0.0 && e.recentPace > 0.0
  {
    MeanPositive(Head(t));
    MeanPositive(Tail(t));
  }

  /** The score is bounded by the spread of the lap times ... */
  lemma {:induction false} MomentumBounds(d: string, t: seq<real>, std: Deviation, corr: Regression)
    requires |t| >= 5
    ensures MinOf(t) - MaxOf(t) <= MomentumOfTimes(d, t, std, corr).value.momentumScore <= MaxOf(t) - MinOf(t)
  {
    var head, tail := Head(t), Tail(t);
    assert Window(|t|) == 5;
    assert tail == t[|t| - 5..|t|];
    WindowMeanBounds(t, head, 0);
    WindowMeanBounds(t, tail, |t| - 5);
  }

  /** ... and a driver lapping at a constant pace is stable. */
  lemma {:induction false} MomentumConstant(d: string, t: seq<real>, std: Deviation, corr: Regression)
    requires |t| >= 5
    requires forall i :: 0 <= i < |t| ==> t[i] == t[0]
    ensures MomentumOfTimes(d, t, std, corr).value.momentumScore == 0.0
    ensures MomentumOfTimes(d, t, std, corr).value.trendDirection == Stable
  {
    var head, tail := Head(t), Tail(t);
    assert forall i :: 0 <= i < |head| ==> head[i] == t[i];
    assert forall i :: 0 <= i < |tail| ==> tail[i] == t[|t| - 5 + i];
    MeanConstant(head, t[0]);
    MeanConstant(tail, t[0]);
  }

  function MomentumRow(laps: seq<Lap>, std: Deviation, corr: Regression): string -> Option<MomentumEntry>
  {
    d => DriverMomentum(d, laps, std, corr)
  }

  function MomentumKey(e: MomentumEntry): real
  {
    e.momentumScore
  }

  /** `momentum_analysis`: one entry per driver with five timed laps or
      more, sorted by ascending score, or None when there is no lap data or
      no such driver. */
  method MomentumAnalysis(data: Option<seq<Lap>>, std: Deviation, corr: Regression)
    returns (r: Option<seq<MomentumEntry>>)
    ensures data.None? ==> r.None?
    ensures data.Some? ==> var all := Collect(Drivers(data.value), MomentumRow(data.value, std, corr));
      && (r.None? <==> all == [])
      && (r.Some? ==> SortedBy(r.value, MomentumKey) && multiset(r.value) == multiset(all))
  {
    if data.None? {
      return None;
    }
    var laps := data.value;
    var drivers := Drivers(laps);
    var rows: seq<MomentumEntry> := [];
    for i := 0 to |drivers|
      invariant rows == Collect(drivers[..i], MomentumRow(laps, std, corr))
    {
      CollectStep(drivers, MomentumRow(laps, std, corr), i);
      var e := DriverMomentum(drivers[i], laps, std, corr);
      if e.Some? {
        rows := rows + [e.value];
      }
    }
    assert drivers[..|drivers|] == drivers;
    if rows == [] {
      return None;
    }
    r := Some(SortBy(rows, MomentumKey));
  }

  /** Every driver with five timed laps or more has a momentum entry ... */
  lemma {:induction false} MomentumMembers(laps: seq<Lap>, std: Deviation, corr: Regression, d: string)
    ensures |TimedRows(d, laps)| >= 5 ==>
      DriverMomentum(d, laps, std, corr).value in Collect(Drivers(laps), MomentumRow(laps, std, corr))
  {
    var f := MomentumRow(laps, std, corr);
    CollectExactly(Drivers(laps), f, d);
    if |TimedRows(d, laps)| >= 5 {
      DriversComplete(laps, d);
      assert TimedRows(d, laps)[0] in LapsOf(d, laps);
    }
  }

  /** ... and only those drivers do. */
  lemma {:induction false} MomentumOnlyQualified(laps: seq<Lap>, std: Deviation, corr: Regression)
    ensures forall k :: 0 <= k < |Collect(Drivers(laps), MomentumRow(laps, std, corr))| ==>
      |TimedRows(Collect(Drivers(laps), MomentumRow(laps, std, corr))[k].driver, laps)| >= 5
  {
    var f := MomentumRow(laps, std, corr);
    CollectAll(Drivers(laps), f, (e: MomentumEntry) => |TimedRows(e.driver, laps)| >= 5);
  }

  // ------------------------------------------------------------ sector dominance

  /** A row with all three sector times. */
  predicate HasAllSectors(l: Lap)
  {
    l.sector1.Some? && l.sector2.Some? && l.sector3.Some?
  }

  /** The rows of a driver with all three sector times. */
  function SectorRows(d: string, laps: seq<Lap>): (rows: seq<Lap>)
    ensures forall i :: 0 <= i < |rows| ==> HasAllSectors(rows[i])
  {
    Filter(LapsOf(d, laps), HasAllSectors)
  }

  /** Sector `k` of a row that has all three, in seconds. */
  function SectorValue(l: Lap, k: nat): (v: real)
    requires HasAllSectors(l)
    ensures v > 0.0
  {
    if k == 1 then l.sector1.value as real
    else if k == 2 then l.sector2.value as real
    else l.sector3.value as real
  }

  /** Sector `k` of rows that all have it. */
  function SectorSample(rows: seq<Lap>, k: nat): (t: seq<real>)
    requires forall i :: 0 <= i < |rows| ==> HasAllSectors(rows[i])
    ensures |t| == |rows|
    ensures forall i :: 0 <= i < |t| ==> t[i] > 0.0
  {
    seq(|rows|, i requires 0 <= i < |rows| => SectorValue(rows[i], k))
  }

  /** A driver's sector summary: the mean of each sector then the best of
      each, six times in all. */
  datatype SectorSummary = SectorSummary(driver: string, times: SixTimes)

  type SixTimes = t: seq<real> | |t| == 6 && forall m :: 0 <= m < |t| ==> t[m] > 0.0
    witness [1.0, 1.0, 1.0, 1.0, 1.0, 1.0]

  /** The summary of one driver, or None without a row that has all three
      sector times. Each best sector time is at most its mean. */
  function DriverSectors(d: string, laps: seq<Lap>): (r: Option<SectorSummary>)
    ensures r.Some? <==> SectorRows(d, laps) != []
    ensures r.Some? ==> r.value.driver == d
  {
    var rows := SectorRows(d, laps);
    if rows == [] then None
    else Some(SectorSummary(d, SummaryTimes(rows)))
  }

  /** The three sector means then the three best sector times. Each best
      time is at most the mean of its sector. */
  function SummaryTimes(rows: seq<Lap>): (t: SixTimes)
    requires rows != [] && forall i :: 0 <= i < |rows| ==> HasAllSectors(rows[i])
    ensures t[3] <= t[0] && t[4] <= t[1] && t[5] <= t[2]
  {
    var s1 := SectorSample(rows, 1);
    var s2 := SectorSample(rows, 2);
    var s3 := SectorSample(rows, 3);
    SectorSummaryBounds(s1);
    SectorSummaryBounds(s2);
    SectorSummaryBounds(s3);
    Six(Mean(s1), Mean(s2), Mean(s3), MinOf(s1), MinOf(s2), MinOf(s3))
  }

  function Six(a: real, b: real, c: real, d: real, e: real, f: real): (t: SixTimes)
    requires a > 0.0 && b > 0.0 && c > 0.0 && d > 0.0 && e > 0.0 && f > 0.0
    ensures t == [a, b, c, d, e, f]
  {
    var t := [a, b, c, d, e, f];
    assert forall m :: 0 <= m < |t| ==> t[m] > 0.0 by {
      assert t[0] == a && t[1] == b && t[2] == c && t[3] == d && t[4] == e && t[5] == f;
    }
    t
  }

  lemma {:induction false} SectorSummaryBounds(s: seq<real>)
    requires |s| > 0 && forall i :: 0 <= i < |s| ==> s[i] > 0.0
    ensures 0.0 < MinOf(s) <= Mean(s)
  {
    MinMeanMax(s);
  }

  /** Column `m` of the summary table. */
  function Column(table: seq<SectorSummary>, m: nat): (c: seq<real>)
    requires m < 6
    ensures |c| == |table|
    ensures forall i :: 0 <= i < |c| ==> c[i] > 0.0
  {
    seq(|table|, i requires 0 <= i < |table| => table[i].times[m])
  }

  /** `(v - fastest) / fastest * 100`: how far, in percent, a time is off
      the fastest. */
  function Relative(v: real, fastest: real): (r: real)
    requires fastest > 0.0
    ensures r >= 0.0 <==> v >= fastest
    ensures r == 0.0 <==> v == fastest
  {
    Quotient(v - fastest, fastest) * 100.0
  }

  /** A row of the sector table with its six deltas to the fastest value of
      each column. */
  datatype SectorEntry = SectorEntry(summary: SectorSummary, deltas: seq<real>)

  /** The delta columns of `sector_dominance_heatmap`. */
  function SectorDeltas(table: seq<SectorSummary>): (r: seq<SectorEntry>)
    ensures |r| == |table|
    ensures forall i :: 0 <= i < |r| ==> r[i].summary == table[i] && |r[i].deltas| == 6
  {
    seq(|table|, i requires 0 <= i < |table| =>
      SectorEntry(table[i], seq(6, m requires 0 <= m < 6 => Relative(table[i].times[m], MinOf(Column(table, m))))))
  }

  /** No delta is negative; a driver's delta in a column is 0 exactly when
      it holds that column's fastest time, and some driver holds it. */
  lemma {:induction false} SectorDeltaFacts(table: seq<SectorSummary>, m: nat)
    requires m < 6 && table != []
    ensures forall i :: 0 <= i < |table| ==> SectorDeltas(table)[i].deltas[m] >= 0.0
    ensures forall i :: 0 <= i < |table| ==>
      (SectorDeltas(table)[i].deltas[m] == 0.0 <==> table[i].times[m] == MinOf(Column(table, m)))
    ensures exists i :: 0 <= i < |table| && SectorDeltas(table)[i].deltas[m] == 0.0
  {
    var c := Column(table, m);
    var r := SectorDeltas(table);
    forall i | 0 <= i < |table|
      ensures r[i].deltas[m] >= 0.0
      ensures r[i].deltas[m] == 0.0 <==> table[i].times[m] == MinOf(c)
    {
      assert r[i].deltas[m] == Relative(table[i].times[m], MinOf(c));
      assert c[i] == table[i].times[m];
    }
    var j :| 0 <= j < |c| && c[j] == MinOf(c);
    assert r[j].deltas[m] == 0.0;
  }

  function SectorRow(laps: seq<Lap>): string -> Option<SectorSummary>
  {
    d => DriverSectors(d, laps)
  }

  /** `sector_dominance_heatmap`: None without lap data or sector columns,
      or when no driver has a row with all three sector times; otherwise
      the summaries in driver order with their deltas. */
  method SectorDominanceHeatmap(data: Option<seq<Lap>>, hasSectorColumns: bool)
    returns (r: Option<seq<SectorEntry>>)
    ensures data.None? || !hasSectorColumns ==> r.None?
    ensures data.Some? && hasSectorColumns ==> var all := Collect(Drivers(data.value), SectorRow(data.value));
      && (r.None? <==> all == [])
      && (r.Some? ==> r.value == SectorDeltas(all))
  {
    if data.None? || !hasSectorColumns {
      return None;
    }
    var laps := data.value;
    var drivers := Drivers(laps);
    var rows: seq<SectorSummary> := [];
    for i := 0 to |drivers|
      invariant rows == Collect(drivers[..i], SectorRow(laps))
    {
      CollectStep(drivers, SectorRow(laps), i);
      var s := DriverSectors(drivers[i], laps);
      if s.Some? {
        rows := rows + [s.value];
      }
    }
    assert drivers[..|drivers|] == drivers;
    if rows == [] {
      return None;
    }
    r := Some(SectorDeltas(rows));
  }

  // ------------------------------------------------------------ leaders

  /** The index `min(s, key=...)` returns: the first element with the
      smallest key. */
  function FirstMinIndex<T>(s: seq<T>, key: T -> real): (k: nat)
    requires s != []
    ensures k < |s|
    ensures forall j :: 0 <= j < |s| ==> key(s[k]) <= key(s[j])
    ensures forall j :: 0 <= j < k ==> key(s[j]) > key(s[k])
  {
    if |s| == 1 then 0
    else
      var k := FirstMinIndex(s[..|s| - 1], key);
      if key(s[|s| - 1]) < key(s[k]) then |s| - 1 else k
  }

  datatype ConsistencyEntry = ConsistencyEntry(driver: string, consistency: real, laps: nat)

  /** A driver's lap-time spread, or None with fewer than three timed laps. */
  function DriverConsistency(d: string, laps: seq<Lap>, std: Deviation): (r: Option<ConsistencyEntry>)
    ensures r.Some? <==> |TimedRows(d, laps)| >= 3
    ensures r.Some? ==> r.value.driver == d && r.value.laps == |TimedRows(d, laps)|
    ensures r.Some? ==> r.value.consistency == std(TimesOf(TimedRows(d, laps)))
  {
    var rows := TimedRows(d, laps);
    if |rows| < 3 then None else Some(ConsistencyEntry(d, std(TimesOf(rows)), |rows|))
  }

  function ConsistencyRow(laps: seq<Lap>, std: Deviation): string -> Option<ConsistencyEntry>
  {
    d => DriverConsistency(d, laps, std)
  }

  function ConsistencyKey(e: ConsistencyEntry): real
  {
    e.consistency
  }

  /** `_get_most_consistent_driver`: among the drivers with three timed
      laps or more, the first with the smallest spread; None without lap
      data or such a driver. */
  method MostConsistentDriver(data: Option<seq<Lap>>, std: Deviation) returns (r: Option<ConsistencyEntry>)
    ensures data.None? ==> r.None?
    ensures data.Some? ==> var all := Collect(Drivers(data.value), ConsistencyRow(data.value, std));
      && (r.None? <==> all == [])
      && (r.Some? ==> r.value == all[FirstMinIndex(all, ConsistencyKey)])
  {
    if data.None? {
      return None;
    }
    var rows := ConsistencyTable(data.value, std);
    if rows == [] {
      return None;
    }
    r := Some(rows[FirstMinIndex(rows, ConsistencyKey)]);
  }

  /** The driver loop of `_get_most_consistent_driver`. */
  method ConsistencyTable(laps: seq<Lap>, std: Deviation) returns (rows: seq<ConsistencyEntry>)
    ensures rows == Collect(Drivers(laps), ConsistencyRow(laps, std))
  {
    var drivers := Drivers(laps);
    rows := [];
    for i := 0 to |drivers|
      invariant rows == Collect(drivers[..i], ConsistencyRow(laps, std))
    {
      CollectStep(drivers, ConsistencyRow(laps, std), i);
      var e := DriverConsistency(drivers[i], laps, std);
      if e.Some? {
        rows := rows + [e.value];
      }
    }
    assert drivers[..|drivers|] == drivers;
  }

  datatype PaceEntry = PaceEntry(driver: string, recentPace: real, recentLaps: nat)

  /** The first minimum of a collected table comes from some input, and
      its key is at most that of any input's entry. */
  lemma {:induction false} FirstMinOfCollect<T, U>(xs: seq<T>, f: T -> Option<U>, key: U -> real, x: T)
    requires Collect(xs, f) != []
    ensures var all := Collect(xs, f);
      exists j :: 0 <= j < |xs| && f(xs[j]) == Some(all[FirstMinIndex(all, key)])
    ensures var all := Collect(xs, f);
      f(x).Some? && x in xs ==> key(all[FirstMinIndex(all, key)]) <= key(f(x).value)
  {
    var all := Collect(xs, f);
    var k := FirstMinIndex(all, key);
    CollectExactly(xs, f, x);
    if f(x).Some? && x in xs {
      var i :| 0 <= i < |all| && all[i] == f(x).value;
      assert key(all[k]) <= key(all[i]);
    }
  }

  /** A driver's recent pace, the mean of its last `Window` timed laps, or
      None with fewer than three timed laps. */
  function DriverPace(d: string, laps: seq<Lap>): (r: Option<PaceEntry>)
    ensures r.Some? <==> |TimedRows(d, laps)| >= 3
    ensures r.Some? ==> var t := TimesOf(TimedRows(d, laps));
      && r.value.driver == d
      && r.value.recentLaps == Window(|t|) && 3 <= r.value.recentLaps <= 5
      && r.value.recentPace == Mean(t[|t| - Window(|t|)..])
      && MinOf(t) <= r.value.recentPace <= MaxOf(t)
  {
    var rows := TimedRows(d, laps);
    if |rows| < 3 then None
    else
      var t := TimesOf(rows);
      var recent := Tail(t);
      WindowMeanBounds(t, recent, |t| - Window(|t|));
      Some(PaceEntry(d, Mean(recent), |recent|))
  }

  function PaceRow(laps: seq<Lap>): string -> Option<PaceEntry>
  {
    d => DriverPace(d, laps)
  }

  function PaceKey(e: PaceEntry): real
  {
    e.recentPace
  }

  /** The recent pace of every driver with three timed laps or more, in
      the order the drivers first appear. */
  method PaceTable(laps: seq<Lap>) returns (rows: seq<PaceEntry>)
    ensures rows == Collect(Drivers(laps), PaceRow(laps))
  {
    var drivers := Drivers(laps);
    rows := [];
    for i := 0 to |drivers|
      invariant rows == Collect(drivers[..i], PaceRow(laps))
    {
      CollectStep(drivers, PaceRow(laps), i);
      var e := DriverPace(drivers[i], laps);
      if e.Some? {
        rows := rows + [e.value];
      }
    }
    assert drivers[..|drivers|] == drivers;
  }

  /** `_get_current_pace_leader`: among the drivers with three timed laps
      or more, the first with the lowest recent pace. */
  method CurrentPaceLeader(data: Option<seq<Lap>>) returns (r: Option<PaceEntry>)
    ensures data.None? ==> r.None?
    ensures data.Some? ==> var all := Collect(Drivers(data.value), PaceRow(data.value));
      && (r.None? <==> all == [])
      && (r.Some? ==> r.value == all[FirstMinIndex(all, PaceKey)])
  {
    if data.None? {
      return None;
    }
    var rows := PaceTable(data.value);
    if rows == [] {
      return None;
    }
    r := Some(rows[FirstMinIndex(rows, PaceKey)]);
  }

  /** The leader is a driver with three timed laps or more whose recent
      pace no other such driver beats, and every driver listed before it is
      strictly slower. */
  lemma {:induction false} PaceLeaderIsFastest(laps: seq<Lap>, d: string)
    requires Collect(Drivers(laps), PaceRow(laps)) != []
    ensures var all := Collect(Drivers(laps), PaceRow(laps));
      var leader := all[FirstMinIndex(all, PaceKey)];
      && |TimedRows(leader.driver, laps)| >= 3
      && (|TimedRows(d, laps)| >= 3 ==> leader.recentPace <= DriverPace(d, laps).value.recentPace)
  {
    var ds := Drivers(laps);
    var f := PaceRow(laps);
    var all := Collect(ds, f);
    var leader := all[FirstMinIndex(all, PaceKey)];
    FirstMinOfCollect(ds, f, PaceKey, d);
    var j :| 0 <= j < |ds| && f(ds[j]) == Some(leader);
    assert DriverPace(ds[j], laps) == Some(leader);
    if |TimedRows(d, laps)| >= 3 {
      DriversComplete(laps, d);
      assert TimedRows(d, laps)[0] in LapsOf(d, laps);
      assert d in ds;
    }
  }


  // ------------------------------------------------------------ live trends

  datatype TrendEntry = TrendEntry(trend: real, direction: Trend, latestLap: real, bestLap: real)

  /** The lap-time trend of a driver with five timed laps or more: the
      correlation of its lap times with the lap numbers, the last and the
      best of those times. */
  function DriverTrend(d: string, laps: seq<Lap>, corr: Regression): (r: Option<TrendEntry>)
    ensures r.Some? <==> |TimedRows(d, laps)| >= 5
    ensures r.Some? ==> var t := TimesOf(TimedRows(d, laps));
      && r.value.direction == TrendOf(r.value.trend)
      && r.value.latestLap == t[|t| - 1]
      && 0.0 < r.value.bestLap <= r.value.latestLap
      && forall i :: 0 <= i < |t| ==> r.value.bestLap <= t[i]
  {
    var rows := TimedRows(d, laps);
    if |rows| < 5 then None
    else
      var t := TimesOf(rows);
      var c := corr(LapNumbersOf(rows), t);
      Some(TrendEntry(c, TrendOf(c), t[|t| - 1], MinOf(t)))
  }

  /** `_get_live_performance_trends`: the trend of every driver with five
      timed laps or more, keyed by driver. */
  method LivePerformanceTrends(data: Option<seq<Lap>>, corr: Regression) returns (r: Option<map<string, TrendEntry>>)
    ensures data.None? <==> r.None?
    ensures data.Some? ==> forall d :: d in r.value <==> |TimedRows(d, data.value)| >= 5
    ensures data.Some? ==> forall d :: d in r.value ==> r.value[d] == DriverTrend(d, data.value, corr).value
  {
    if data.None? {
      return None;
    }
    var laps := data.value;
    var drivers := Drivers(laps);
    var trends := TrendTable(laps, drivers, corr);
    forall d | |TimedRows(d, laps)| >= 5
      ensures d in drivers
    {
      DriversComplete(laps, d);
      assert TimedRows(d, laps)[0] in LapsOf(d, laps);
    }
    r := Some(trends);
  }

  /** The trends of the drivers in `seen` that have five timed laps or more. */
  ghost predicate TrendsOver(trends: map<string, TrendEntry>, laps: seq<Lap>, corr: Regression, seen: seq<string>)
  {
    && (forall d :: d in trends <==> d in seen && |TimedRows(d, laps)| >= 5)
    && (forall d :: d in trends ==> trends[d] == DriverTrend(d, laps, corr).value)
  }

  lemma {:induction false} TrendsStep(trends: map<string, TrendEntry>, next: map<string, TrendEntry>, laps: seq<Lap>, corr: Regression,
                                      seen: seq<string>, d: string)
    requires TrendsOver(trends, laps, corr, seen)
    requires |TimedRows(d, laps)| >= 5 ==> next == trends[d := DriverTrend(d, laps, corr).value]
    requires |TimedRows(d, laps)| < 5 ==> next == trends
    ensures TrendsOver(next, laps, corr, seen + [d])
  {
    forall x
      ensures x in next <==> x in seen + [d] && |TimedRows(x, laps)| >= 5
      ensures x in next ==> next[x] == DriverTrend(x, laps, corr).value
    {
      assert x in seen + [d] <==> x in seen || x == d;
    }
  }

  /** The loop of `_get_live_performance_trends` over the session's drivers. */
  method TrendTable(laps: seq<Lap>, drivers: seq<string>, corr: Regression) returns (trends: map<string, TrendEntry>)
    ensures forall d :: d in trends <==> d in drivers && |TimedRows(d, laps)| >= 5
    ensures forall d :: d in trends ==> trends[d] == DriverTrend(d, laps, corr).value
  {
    trends := map[];
    for i := 0 to |drivers|
      invariant TrendsOver(trends, laps, corr, drivers[..i])
    {
      assert drivers[..i + 1] == drivers[..i] + [drivers[i]];
      var before := trends;
      var e := DriverTrend(drivers[i], laps, corr);
      if e.Some? {
        trends := trends[drivers[i] := e.value];
      }
      TrendsStep(before, trends, laps, corr, drivers[..i], drivers[i]);
    }
    assert drivers[..|drivers|] == drivers;
  }

  // ------------------------------------------------------------ session counts

  lemma {:induction false} SameDrivers(laps: seq<Lap>, all: seq<string>)
    requires all == seq(|laps|, i requires 0 <= i < |laps| => laps[i].driver)
    ensures (set x | x in all) == (set i | 0 <= i < |laps| :: laps[i].driver)
    ensures laps != [] ==> laps[0].driver in all
  {
    forall x | x in all
      ensures x in (set i | 0 <= i < |laps| :: laps[i].driver)
    {
      var i :| 0 <= i < |all| && all[i] == x;
      assert laps[i].driver == x;
    }
    forall x | x in (set i | 0 <= i < |laps| :: laps[i].driver)
      ensures x in all
    {
      var i :| 0 <= i < |laps| && laps[i].driver == x;
      assert all[i] == x;
    }
    if laps != [] {
      assert all[0] == laps[0].driver;
    }
  }

  datatype SessionStats = SessionStats(totalLaps: nat, activeDrivers: nat)

  /** The lap rows of the session and the number of distinct drivers among them. */
  function SessionCounts(laps: seq<Lap>): (s: SessionStats)
    ensures s.totalLaps == |laps|
    ensures s.activeDrivers == |set i | 0 <= i < |laps| :: laps[i].driver|
    ensures s.activeDrivers <= s.totalLaps
    ensures s.activeDrivers == 0 <==> laps == []
  {
    var all := seq(|laps|, i requires 0 <= i < |laps| => laps[i].driver);
    UniqueCount(all);
    SameDrivers(laps, all);
    SessionStats(|laps|, |Drivers(laps)|)
  }
}
