/** RaceStrategyAnalyzer (utils/race_strategy.py): pit stops read off the
    compound changes of a driver's laps, the stints those stops close, the
    strategy name, and the average position a few laps either side of each
    stop. */
module RaceStrategy {

  import opened Common
  import opened Laps
  import opened Numerals

  datatype PitStop = PitStop(lapNumber: int, oldCompound: Compound, newCompound: Compound)

  datatype RaceStint = RaceStint(number: nat, startLap: int, endLap: int, length: int, compound: Compound)

  datatype DriverStrategy = DriverStrategy(
    pitStops: seq<PitStop>,
    stints: seq<RaceStint>,
    totalPitStops: nat,
    strategyType: string)

  // ---------------------------------------------------------------- pit stops

  /** The pit stops of a driver's rows: one at every row whose compound
      differs from the previous row's, recording both compounds. */
  function PitStops(rows: seq<Lap>): (stops: seq<PitStop>)
    ensures |stops| < |rows| || |rows| == 0
  {
    if |rows| < 2 then []
    else
      var n := |rows|;
      PitStops(rows[..n - 1])
        + (if Differs(rows[n - 2].compound, rows[n - 1].compound)
           then [PitStop(rows[n - 1].lapNumber, rows[n - 2].compound, rows[n - 1].compound)]
           else [])
  }

  lemma {:induction false} PitStopsStep(rows: seq<Lap>, i: nat)
    requires 0 < i < |rows|
    ensures PitStops(rows[..i + 1]) == PitStops(rows[..i])
      + (if Differs(rows[i - 1].compound, rows[i].compound)
         then [PitStop(rows[i].lapNumber, rows[i - 1].compound, rows[i].compound)]
         else [])
  {
    assert rows[..i + 1][..i] == rows[..i];
  }

  /** The stop loop of analyze_pit_stop_strategies, with `prev_compound`
      starting as None so that the first row is never a stop. */
  method FindPitStops(rows: seq<Lap>) returns (stops: seq<PitStop>)
    ensures stops == PitStops(rows)
  {
    stops := [];
    var prev: Option<Compound> := None;
    var i := 0;
    while i < |rows|
      invariant 0 <= i <= |rows|
      invariant prev.None? <==> i == 0
      invariant i > 0 ==> prev.value == rows[i - 1].compound
      invariant stops == PitStops(rows[..i])
    {
      var current := rows[i].compound;
      if prev.Some? && Differs(current, prev.value) {
        PitStopsStep(rows, i);
        DiffersSymmetric(current, prev.value);
        stops := stops + [PitStop(rows[i].lapNumber, prev.value, current)];
      } else if i > 0 {
        PitStopsStep(rows, i);
        DiffersSymmetric(current, prev.value);
      }
      prev := Some(current);
      i := i + 1;
    }
    assert rows[..|rows|] == rows;
  }

  /** Stop k is the change at row ChangeIndices(rows)[k]: a row is a stop
      exactly when its compound differs from the previous row's, and the
      first row never is. */
  lemma {:induction false} PitStopsAtChanges(rows: seq<Lap>)
    ensures |PitStops(rows)| == |ChangeIndices(rows)|
    ensures forall k :: 0 <= k < |PitStops(rows)| ==>
      var b := ChangeIndices(rows)[k];
      PitStops(rows)[k] == PitStop(rows[b].lapNumber, rows[b - 1].compound, rows[b].compound)
  {
    if |rows| >= 2 {
      var init := rows[..|rows| - 1];
      PitStopsAtChanges(init);
      var p := PitStops(init);
      var c := ChangeIndices(init);
      forall k | 0 <= k < |p|
        ensures PitStops(rows)[k] == p[k] && ChangeIndices(rows)[k] == c[k]
        ensures rows[c[k]] == init[c[k]] && rows[c[k] - 1] == init[c[k] - 1]
      {
      }
    }
  }

  predicate IsRowLap(rows: seq<Lap>, lap: int)
  {
    exists j :: 0 <= j < |rows| && rows[j].lapNumber == lap
  }

  /** Every stop's lap number is the lap number of one of the rows. */
  lemma {:induction false} PitStopLapsAreRowLaps(rows: seq<Lap>)
    ensures forall k :: 0 <= k < |PitStops(rows)| ==> IsRowLap(rows, PitStops(rows)[k].lapNumber)
  {
    if |rows| >= 2 {
      var n := |rows|;
      var init := rows[..n - 1];
      PitStopLapsAreRowLaps(init);
      var p := PitStops(init);
      forall k | 0 <= k < |PitStops(rows)|
        ensures IsRowLap(rows, PitStops(rows)[k].lapNumber)
      {
        if k < |p| {
          assert PitStops(rows)[k] == p[k];
          var j :| 0 <= j < |init| && init[j].lapNumber == p[k].lapNumber;
          assert rows[j] == init[j];
        } else {
          assert PitStops(rows)[k].lapNumber == rows[n - 1].lapNumber;
        }
      }
    }
  }

  // ------------------------------------------------------------------ stints

  /** `stint_start` before stop k: lap 1, then the lap of the previous stop. */
  function StintStart(stops: seq<PitStop>, k: nat): int
    requires k <= |stops|
  {
    if k == 0 then 1 else stops[k - 1].lapNumber
  }

  /** The stint stop k closes. */
  function ClosedStint(stops: seq<PitStop>, k: nat): RaceStint
    requires k < |stops|
  {
    var start := StintStart(stops, k);
    RaceStint(k + 1, start, stops[k].lapNumber - 1, stops[k].lapNumber - start, stops[k].oldCompound)
  }

  /** The stints of a driver: one closed by each stop, then the final stint
      from the last start to the highest lap number when that start is not
      past it (`finalLap` is None for a driver without rows, whose maximum
      is NaN). */
  function RaceStints(stops: seq<PitStop>, finalLap: Option<int>, lastCompound: Compound): (s: seq<RaceStint>)
    ensures |stops| <= |s| <= |stops| + 1
  {
    var closed := seq(|stops|, k requires 0 <= k < |stops| => ClosedStint(stops, k));
    var start := StintStart(stops, |stops|);
    if finalLap.Some? && start <= finalLap.value then
      closed + [RaceStint(|stops| + 1, start, finalLap.value, finalLap.value - start + 1, lastCompound)]
    else closed
  }

  /** The stint loop of analyze_pit_stop_strategies and the final stint. */
  method BuildStints(stops: seq<PitStop>, finalLap: Option<int>, lastCompound: Compound)
    returns (stints: seq<RaceStint>)
    ensures stints == RaceStints(stops, finalLap, lastCompound)
  {
    stints := [];
    var stintStart := 1;
    var i := 0;
    while i < |stops|
      invariant 0 <= i <= |stops|
      invariant stintStart == StintStart(stops, i)
      invariant stints == seq(i, k requires 0 <= k < i => ClosedStint(stops, k))
    {
      var pit := stops[i];
      stints := stints + [RaceStint(|stints| + 1, stintStart, pit.lapNumber - 1, pit.lapNumber - stintStart, pit.oldCompound)];
      stintStart := pit.lapNumber;
      i := i + 1;
    }
    if finalLap.Some? && stintStart <= finalLap.value {
      stints := stints + [RaceStint(|stints| + 1, stintStart, finalLap.value, finalLap.value - stintStart + 1, lastCompound)];
    }
  }

  /** The stints are numbered 1, 2, ... in order, and each one starts on the
      lap of the stop that ended the one before it. */
  lemma {:induction false} StintsNumberedAndAdjacent(stops: seq<PitStop>, finalLap: Option<int>, c: Compound)
    ensures var s := RaceStints(stops, finalLap, c);
      && (forall k :: 0 <= k < |s| ==> s[k].number == k + 1)
      && (|s| > 0 ==> s[0].startLap == 1)
      && (forall k :: 0 <= k < |s| - 1 ==> s[k + 1].startLap == stops[k].lapNumber == s[k].endLap + 1)
  {
  }

  function TotalLength(s: seq<RaceStint>): int
  {
    if s == [] then 0 else TotalLength(s[..|s| - 1]) + s[|s| - 1].length
  }

  /** The closed stints' lengths telescope: together they cover laps 1 up to
      the lap before the last stop. */
  lemma {:induction false} ClosedLengthsTelescope(stops: seq<PitStop>, n: nat)
    requires n <= |stops|
    ensures TotalLength(seq(n, k requires 0 <= k < n => ClosedStint(stops, k))) == StintStart(stops, n) - 1
  {
    if n > 0 {
      var s := seq(n, k requires 0 <= k < n => ClosedStint(stops, k));
      assert s[..n - 1] == seq(n - 1, k requires 0 <= k < n - 1 => ClosedStint(stops, k));
      ClosedLengthsTelescope(stops, n - 1);
    }
  }

  /** With the final stint present the lengths add up to the final lap
      number, whatever order the stop laps come in. */
  lemma {:induction false} StintLengthsTelescope(stops: seq<PitStop>, finalLap: Option<int>, c: Compound)
    requires |RaceStints(stops, finalLap, c)| == |stops| + 1
    ensures TotalLength(RaceStints(stops, finalLap, c)) == finalLap.value
  {
    var s := RaceStints(stops, finalLap, c);
    assert s[..|stops|] == seq(|stops|, k requires 0 <= k < |stops| => ClosedStint(stops, k));
    ClosedLengthsTelescope(stops, |stops|);
  }

  // ------------------------------------------------------------ classification

  /** _classify_strategy of race_strategy.py: the stint count minus one, with
      names for one to three stints, and `{n-1}-stop` for every other count
      (so "-1-stop" for none). */
  function ClassifyStrategy(numStints: nat): (r: string)
    ensures numStints == 1 <==> r == "No-stop"
    ensures numStints == 2 <==> r == "One-stop"
    ensures numStints == 3 <==> r == "Two-stop"
    ensures !(1 <= numStints <= 3) ==>
      |r| > 5 && r[|r| - 5..] == "-stop" && ParseInt(r[..|r| - 5]) == Some(numStints - 1)
  {
    if numStints == 1 then "No-stop"
    else if numStints == 2 then "One-stop"
    else if numStints == 3 then "Two-stop"
    else
      var n := IntToString(numStints - 1);
      IntToStringRoundTrip(numStints - 1);
      var r := n + "-stop";
      assert r[|r| - 5..] == "-stop" && r[..|r| - 5] == n;
      r
  }

  // ------------------------------------------------------------ per driver

  /** `driver_laps['LapNumber'].max()`, None standing for NaN on no rows. */
  function FinalLap(rows: seq<Lap>): Option<int>
  {
    if rows == [] then None else Some(MaxLapNumber(rows))
  }

  function LastCompound(rows: seq<Lap>): Compound
  {
    if rows == [] then Missing else rows[|rows| - 1].compound
  }

  function StrategyOf(rows: seq<Lap>): DriverStrategy
  {
    var stops := PitStops(rows);
    var stints := RaceStints(stops, FinalLap(rows), LastCompound(rows));
    DriverStrategy(stops, stints, |stops|, ClassifyStrategy(|stints|))
  }

  /** A driver with laps always gets the final stint, hence one stint more
      than stops, when there is a stop or its highest lap number is at least
      1; the total of the stint lengths is then that highest lap number. */
  lemma {:induction false} FinalStintPresent(rows: seq<Lap>)
    requires |rows| > 0
    requires PitStops(rows) != [] || MaxLapNumber(rows) >= 1
    ensures var st := StrategyOf(rows);
      && |st.stints| == st.totalPitStops + 1
      && TotalLength(st.stints) == MaxLapNumber(rows)
      && st.strategyType == ClassifyStrategy(st.totalPitStops + 1)
  {
    var stops := PitStops(rows);
    if stops != [] {
      PitStopLapsAreRowLaps(rows);
      assert IsRowLap(rows, stops[|stops| - 1].lapNumber);
    }
    StintLengthsTelescope(stops, FinalLap(rows), LastCompound(rows));
  }

  /** "No-stop" means exactly that the driver changed compound nowhere. */
  lemma {:induction false} NoStopIffNoChange(rows: seq<Lap>)
    requires |rows| > 0 && MaxLapNumber(rows) >= 1
    ensures StrategyOf(rows).strategyType == "No-stop" <==> ChangeIndices(rows) == []
  {
    FinalStintPresent(rows);
    PitStopsAtChanges(rows);
  }

  /** analyze_pit_stop_strategies: one entry per distinct driver, in order of
      first appearance. */
  method AnalyzePitStopStrategies(laps: seq<Lap>) returns (r: seq<(string, DriverStrategy)>)
    ensures |r| == |Drivers(laps)|
    ensures forall k :: 0 <= k < |r| ==> r[k] == (Drivers(laps)[k], StrategyOf(LapsOf(Drivers(laps)[k], laps)))
  {
    var drivers := Drivers(laps);
    r := [];
    var i := 0;
    while i < |drivers|
      invariant 0 <= i <= |drivers|
      invariant |r| == i
      invariant forall k :: 0 <= k < i ==> r[k] == (drivers[k], StrategyOf(LapsOf(drivers[k], laps)))
    {
      var rows := LapsOf(drivers[i], laps);
      var stops := FindPitStops(rows);
      var stints := BuildStints(stops, FinalLap(rows), LastCompound(rows));
      r := r + [(drivers[i], DriverStrategy(stops, stints, |stops|, ClassifyStrategy(|stints|)))];
      i := i + 1;
    }
  }

  // ------------------------------------------------------------ undercut

  /** The positions of laps `lo` to `hi`, skipping laps with no row; a
      missing (NaN) position is kept as None. */
  function PositionsIn(rows: seq<Lap>, lo: int, hi: int): (p: seq<Option<int>>)
    ensures hi < lo ==> p == []
    ensures hi >= lo ==> |p| <= hi - lo + 1
    decreases hi - lo + 1
  {
    if hi < lo then [] else PositionsIn(rows, lo, hi - 1) + PositionAt(rows, hi)
  }

  /** The position of lap `lap`, if it has a row. */
  function PositionAt(rows: seq<Lap>, lap: int): (p: seq<Option<int>>)
    ensures |p| <= 1
  {
    if FirstAt(rows, lap).Some? then [FirstAt(rows, lap).value.position] else []
  }

  lemma {:induction false} PositionsInStep(rows: seq<Lap>, lo: int, hi: int)
    requires lo <= hi
    ensures PositionsIn(rows, lo, hi) == PositionsIn(rows, lo, hi - 1) + PositionAt(rows, hi)
  {
  }

  /** The offset loop `range(-3, 4)`: laps before the stop feed `before`,
      laps after it feed `after`, and the stop lap itself neither. */
  method PositionsAround(rows: seq<Lap>, pitLap: int) returns (before: seq<Option<int>>, after: seq<Option<int>>)
    ensures before == PositionsIn(rows, pitLap - 3, pitLap - 1)
    ensures after == PositionsIn(rows, pitLap + 1, pitLap + 3)
  {
    before := [];
    after := [];
    ghost var lastBefore, lastAfter := pitLap - 4, pitLap;
    var offset := -3;
    while offset < 4
      invariant -3 <= offset <= 4
      invariant lastBefore == if offset <= 0 then pitLap + offset - 1 else pitLap - 1
      invariant lastAfter == if offset <= 1 then pitLap else pitLap + offset - 1
      invariant before == PositionsIn(rows, pitLap - 3, lastBefore)
      invariant after == PositionsIn(rows, pitLap + 1, lastAfter)
    {
      var target := pitLap + offset;
      var lapData := FirstAt(rows, target);
      if offset < 0 {
        PositionsInStep(rows, pitLap - 3, target);
        lastBefore := target;
      } else if offset > 0 {
        PositionsInStep(rows, pitLap + 1, target);
        lastAfter := target;
      }
      if lapData.Some? {
        if offset < 0 {
          before := before + [lapData.value.position];
        } else if offset > 0 {
          after := after + [lapData.value.position];
        }
      }
      offset := offset + 1;
    }
  }

  function AllKnown(s: seq<Option<int>>): bool
  {
    forall i :: 0 <= i < |s| ==> s[i].Some?
  }

  function KnownValues(s: seq<Option<int>>): (v: seq<real>)
    requires AllKnown(s)
    ensures |v| == |s|
    ensures forall i :: 0 <= i < |s| ==> v[i] == s[i].value as real
  {
    if s == [] then [] else [s[0].value as real] + KnownValues(s[1..])
  }

  /** `np.mean` of a list of positions; a NaN among them makes it NaN (None). */
  function MeanPosition(s: seq<Option<int>>): Option<real>
    requires |s| > 0
  {
    if AllKnown(s) then Some(Mean(KnownValues(s))) else None
  }

  datatype PitEffect = PitEffect(pitLap: int, positionChange: Option<real>, effectiveness: string, magnitude: Option<real>)

  /** The entry for one stop, when both windows hold a lap: the change is the
      mean position before minus the mean after; only a definite gain is
      "positive" (a NaN change compares false and so reads "negative"). */
  function EffectOf(pitLap: int, before: seq<Option<int>>, after: seq<Option<int>>): (r: Option<PitEffect>)
    ensures r.Some? <==> |before| > 0 && |after| > 0
    ensures r.Some? ==>
      && r.value.pitLap == pitLap
      && (r.value.effectiveness == "positive" <==>
           MeanPosition(before).Some? && MeanPosition(after).Some?
           && MeanPosition(after).value < MeanPosition(before).value)
      && (r.value.effectiveness != "positive" ==> r.value.effectiveness == "negative")
      && r.value.positionChange ==
           (if MeanPosition(before).Some? && MeanPosition(after).Some?
            then Some(MeanPosition(before).value - MeanPosition(after).value) else None)
      && (r.value.positionChange.Some? <==> r.value.magnitude.Some?)
      && (r.value.magnitude.Some? ==>
           && r.value.magnitude.value >= 0.0
           && r.value.magnitude.value >= r.value.positionChange.value
           && r.value.magnitude.value >= -r.value.positionChange.value
           && (r.value.magnitude.value == r.value.positionChange.value
               || r.value.magnitude.value == -r.value.positionChange.value))
  {
    if |before| > 0 && |after| > 0 then
      var mb := MeanPosition(before);
      var ma := MeanPosition(after);
      var change := if mb.Some? && ma.Some? then Some(mb.value - ma.value) else None;
      var positive := change.Some? && change.value > 0.0;
      var magnitude := if change.Some? then Some(if change.value < 0.0 then -change.value else change.value) else None;
      Some(PitEffect(pitLap, change, if positive then "positive" else "negative", magnitude))
    else None
  }

  /** A stop after which the driver ran ahead of every place held before it
      is "positive", with a change of at least one place. */
  lemma {:induction false} GainedAcrossStop(pitLap: int, before: seq<Option<int>>, after: seq<Option<int>>, k: int)
    requires |before| > 0 && |after| > 0
    requires forall i :: 0 <= i < |before| ==> before[i].Some? && before[i].value >= k
    requires forall j :: 0 <= j < |after| ==> after[j].Some? && after[j].value < k
    ensures EffectOf(pitLap, before, after).Some?
    ensures EffectOf(pitLap, before, after).value.effectiveness == "positive"
    ensures EffectOf(pitLap, before, after).value.positionChange.value >= 1.0
  {
    var b := KnownValues(before);
    var a := KnownValues(after);
    MeanBounds(b, k as real, MaxOf(b));
    MeanBounds(a, MinOf(a), (k - 1) as real);
    assert MeanPosition(before) == Some(Mean(b));
    assert MeanPosition(after) == Some(Mean(a));
  }

  /** The entries of one driver's stops, in stop order. */
  function DriverEffects(rows: seq<Lap>, stops: seq<PitStop>): (e: seq<PitEffect>)
    ensures |e| <= |stops|
  {
    if stops == [] then []
    else
      var eff := StopEffect(rows, stops[|stops| - 1].lapNumber);
      DriverEffects(rows, stops[..|stops| - 1]) + (if eff.Some? then [eff.value] else [])
  }

  /** The undercut entries of drivers `ds`, in order: a driver without
      stops gets none. */
  function UndercutOf(laps: seq<Lap>, ds: seq<string>): (r: seq<(string, seq<PitEffect>)>)
    ensures |r| <= |ds|
  {
    if ds == [] then []
    else
      var d := ds[|ds| - 1];
      var stops := PitStops(LapsOf(d, laps));
      UndercutOf(laps, ds[..|ds| - 1]) + (if stops != [] then [(d, DriverEffects(LapsOf(d, laps), stops))] else [])
  }

  function EntryDrivers(r: seq<(string, seq<PitEffect>)>): (ds: seq<string>)
    ensures |ds| == |r|
    ensures forall k :: 0 <= k < |r| ==> ds[k] == r[k].0
  {
    if r == [] then [] else EntryDrivers(r[..|r| - 1]) + [r[|r| - 1].0]
  }

  /** A listed driver gets an entry exactly when it made a stop. */
  lemma {:induction false} UndercutMembers(laps: seq<Lap>, ds: seq<string>, d: string)
    ensures d in EntryDrivers(UndercutOf(laps, ds)) <==> d in ds && PitStops(LapsOf(d, laps)) != []
  {
    if ds != [] {
      var init := ds[..|ds| - 1];
      var last := ds[|ds| - 1];
      assert ds == init + [last];
      assert d in ds <==> d in init || d == last;
      UndercutMembers(laps, init, d);
      var r' := UndercutOf(laps, init);
      var stops := PitStops(LapsOf(last, laps));
      if stops != [] {
        var x := (last, DriverEffects(LapsOf(last, laps), stops));
        assert UndercutOf(laps, ds) == r' + [x];
        assert (r' + [x])[..|r'|] == r';
        assert EntryDrivers(UndercutOf(laps, ds)) == EntryDrivers(r') + [last];
        assert d in EntryDrivers(r') + [last] <==> d in EntryDrivers(r') || d == last;
      } else {
        assert UndercutOf(laps, ds) == r';
      }
    }
  }

  /** Every entry holds the effects of that driver's own stops. */
  lemma {:induction false} UndercutContents(laps: seq<Lap>, ds: seq<string>)
    ensures forall k :: 0 <= k < |UndercutOf(laps, ds)| ==>
      var e := UndercutOf(laps, ds)[k];
      e.1 == DriverEffects(LapsOf(e.0, laps), PitStops(LapsOf(e.0, laps)))
  {
    if ds != [] {
      UndercutContents(laps, ds[..|ds| - 1]);
    }
  }

  lemma {:induction false} UndercutStep(laps: seq<Lap>, ds: seq<string>, i: nat)
    requires i < |ds|
    ensures var stops := PitStops(LapsOf(ds[i], laps));
      UndercutOf(laps, ds[..i + 1]) == UndercutOf(laps, ds[..i])
        + (if stops != [] then [(ds[i], DriverEffects(LapsOf(ds[i], laps), stops))] else [])
  {
    assert ds[..i + 1][..i] == ds[..i];
  }

  /** analyze_undercut_overcut_effectiveness: the drivers in the order of
      analyze_pit_stop_strategies, each with the entries of its stops. */
  method AnalyzeUndercut(laps: seq<Lap>) returns (r: seq<(string, seq<PitEffect>)>)
    ensures r == UndercutOf(laps, Drivers(laps))
  {
    var strategies := AnalyzePitStopStrategies(laps);
    ghost var drivers := Drivers(laps);
    r := [];
    var i := 0;
    while i < |strategies|
      invariant 0 <= i <= |strategies|
      invariant r == UndercutOf(laps, drivers[..i])
    {
      var (driver, strategy) := strategies[i];
      var rows := LapsOf(driver, laps);
      UndercutStep(laps, drivers, i);
      assert driver == drivers[i] && strategy.pitStops == PitStops(rows);
      if strategy.pitStops != [] {
        var analysis := EffectsLoop(rows, strategy.pitStops);
        r := r + [(driver, analysis)];
      }
      i := i + 1;
    }
    assert drivers[..|drivers|] == drivers;
  }

  function StopEffect(rows: seq<Lap>, pitLap: int): Option<PitEffect>
  {
    EffectOf(pitLap, PositionsIn(rows, pitLap - 3, pitLap - 1), PositionsIn(rows, pitLap + 1, pitLap + 3))
  }

  lemma {:induction false} StopEffectOf(rows: seq<Lap>, pitLap: int, before: seq<Option<int>>, after: seq<Option<int>>)
    requires before == PositionsIn(rows, pitLap - 3, pitLap - 1)
    requires after == PositionsIn(rows, pitLap + 1, pitLap + 3)
    ensures EffectOf(pitLap, before, after) == StopEffect(rows, pitLap)
  {
  }

  lemma {:induction false} DriverEffectsStep(rows: seq<Lap>, stops: seq<PitStop>, i: nat)
    requires i < |stops|
    ensures DriverEffects(rows, stops[..i + 1]) == DriverEffects(rows, stops[..i])
      + (if StopEffect(rows, stops[i].lapNumber).Some? then [StopEffect(rows, stops[i].lapNumber).value] else [])
  {
    assert stops[..i + 1][..i] == stops[..i];
  }

  /** The per-stop loop of the undercut analysis. */
  method EffectsLoop(rows: seq<Lap>, stops: seq<PitStop>) returns (e: seq<PitEffect>)
    ensures e == DriverEffects(rows, stops)
  {
    e := [];
    var i := 0;
    while i < |stops|
      invariant 0 <= i <= |stops|
      invariant e == DriverEffects(rows, stops[..i])
    {
      var pitLap := stops[i].lapNumber;
      var before, after := PositionsAround(rows, pitLap);
      var eff := EffectOf(pitLap, before, after);
      StopEffectOf(rows, pitLap, before, after);
      DriverEffectsStep(rows, stops, i);
      if eff.Some? {
        e := e + [eff.value];
      }
      i := i + 1;
    }
    assert stops[..|stops|] == stops;
  }
}
