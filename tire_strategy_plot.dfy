/** The stint-grouping loop of create_tire_strategy_plot
    (utils/visualizations.py): a driver's lap rows, in order, are cut into
    stints wherever the compound changes, and each stint records its first
    and last lap number and the span between them. */
module TireStrategyPlot {

  import opened Common
  import opened Laps

  /** One bar of the strategy chart. */
  datatype PlotStint = PlotStint(compound: Compound, startLap: int, endLap: int, laps: int)

  function OpenStint(r: Lap): PlotStint
  {
    PlotStint(r.compound, r.lapNumber, r.lapNumber, 1)
  }

  /** Moves the end of the last stint to `lap`. */
  function ExtendLast(s: seq<PlotStint>, lap: int): (t: seq<PlotStint>)
    requires |s| > 0
    ensures |t| == |s| && t[..|s| - 1] == s[..|s| - 1]
  {
    var last := s[|s| - 1];
    s[..|s| - 1] + [PlotStint(last.compound, last.startLap, lap, lap - last.startLap + 1)]
  }

  /** The stints of a row sequence, row by row: a row whose compound differs
      from the previous row's opens a stint, any other row extends the last. */
  function PlotStints(rows: seq<Lap>): (s: seq<PlotStint>)
    ensures |s| <= |rows|
    ensures |s| > 0 <==> |rows| > 0
  {
    if |rows| == 0 then []
    else
      var init := rows[..|rows| - 1];
      var r := rows[|rows| - 1];
      if |init| == 0 then [OpenStint(r)]
      else if Differs(init[|init| - 1].compound, r.compound) then PlotStints(init) + [OpenStint(r)]
      else ExtendLast(PlotStints(init), r.lapNumber)
  }

  /** PlotStints of one more row. */
  lemma {:induction false} PlotStintsStep(rows: seq<Lap>, i: nat)
    requires i < |rows|
    ensures PlotStints(rows[..i + 1]) ==
      if i == 0 then [OpenStint(rows[0])]
      else if Differs(rows[i - 1].compound, rows[i].compound) then PlotStints(rows[..i]) + [OpenStint(rows[i])]
      else ExtendLast(PlotStints(rows[..i]), rows[i].lapNumber)
  {
    assert rows[..i + 1][..i] == rows[..i];
  }

  function Closing(compound: Compound, start: int, prev: int): PlotStint
  {
    PlotStint(compound, start, prev, prev - start + 1)
  }

  lemma {:induction false} ExtendStep(rows: seq<Lap>, i: nat, stints: seq<PlotStint>, start: int)
    requires 0 < i < |rows| && !Differs(rows[i - 1].compound, rows[i].compound)
    requires stints + [Closing(rows[i - 1].compound, start, rows[i - 1].lapNumber)] == PlotStints(rows[..i])
    ensures stints + [Closing(rows[i].compound, start, rows[i].lapNumber)] == PlotStints(rows[..i + 1])
  {
    PlotStintsStep(rows, i);
    assert rows[i - 1].compound == rows[i].compound;
    ExtendClosing(stints, rows[i].compound, start, rows[i - 1].lapNumber, rows[i].lapNumber);
  }

  /** Extending a closed last stint moves its end and keeps the rest. */
  lemma {:induction false} ExtendClosing(stints: seq<PlotStint>, c: Compound, start: int, prev: int, lap: int)
    ensures ExtendLast(stints + [Closing(c, start, prev)], lap) == stints + [Closing(c, start, lap)]
  {
    var p := stints + [Closing(c, start, prev)];
    assert p[..|p| - 1] == stints;
  }

  lemma {:induction false} OpenStep(rows: seq<Lap>, i: nat, stints: seq<PlotStint>, start: int)
    requires 0 < i < |rows| && Differs(rows[i - 1].compound, rows[i].compound)
    requires stints + [Closing(rows[i - 1].compound, start, rows[i - 1].lapNumber)] == PlotStints(rows[..i])
    ensures PlotStints(rows[..i]) + [Closing(rows[i].compound, rows[i].lapNumber, rows[i].lapNumber)]
            == PlotStints(rows[..i + 1])
  {
    PlotStintsStep(rows, i);
    assert OpenStint(rows[i]) == Closing(rows[i].compound, rows[i].lapNumber, rows[i].lapNumber);
  }

  /** The loop as the source runs it, with `current_compound`, `stint_start`
      and `prev_lap_num` as running state and the open stint closed after. */
  method GroupStints(rows: seq<Lap>) returns (stints: seq<PlotStint>)
    ensures stints == PlotStints(rows)
  {
    stints := [];
    var current: Option<Compound> := None;
    var stintStart := 0;
    var prevLap: Option<int> := None;
    var i := 0;
    while i < |rows|
      invariant 0 <= i <= |rows|
      invariant current.None? <==> i == 0
      invariant prevLap.None? <==> i == 0
      invariant i == 0 ==> stints == []
      invariant i > 0 ==> current.value == rows[i - 1].compound
      invariant i > 0 ==> prevLap.value == rows[i - 1].lapNumber
      invariant i > 0 ==> stints + [Closing(current.value, stintStart, prevLap.value)] == PlotStints(rows[..i])
    {
      var lap := rows[i];
      if current.None? || Differs(current.value, lap.compound) {
        if current.Some? && prevLap.Some? {
          OpenStep(rows, i, stints, stintStart);
          stints := stints + [Closing(current.value, stintStart, prevLap.value)];
        } else {
          PlotStintsStep(rows, i);
          assert OpenStint(lap) == Closing(lap.compound, lap.lapNumber, lap.lapNumber);
        }
        current := Some(lap.compound);
        stintStart := lap.lapNumber;
      } else {
        ExtendStep(rows, i, stints, stintStart);
        assert current.value == lap.compound;
      }
      assert stints + [Closing(current.value, stintStart, lap.lapNumber)] == PlotStints(rows[..i + 1]);
      prevLap := Some(lap.lapNumber);
      i := i + 1;
    }
    if current.Some? && prevLap.Some? {
      stints := stints + [Closing(current.value, stintStart, prevLap.value)];
    }
    assert rows[..|rows|] == rows;
  }

  /** Every stint's `laps` is its lap-number span, end - start + 1. */
  lemma {:induction false} StintLapsIsSpan(rows: seq<Lap>)
    ensures forall k :: 0 <= k < |PlotStints(rows)| ==>
      PlotStints(rows)[k].laps == PlotStints(rows)[k].endLap - PlotStints(rows)[k].startLap + 1
  {
    if |rows| > 1 {
      StintLapsIsSpan(rows[..|rows| - 1]);
    }
  }

  /** The first stint starts at the first row's lap and the last ends at the
      last row's lap. */
  lemma {:induction false} StintEnds(rows: seq<Lap>)
    requires |rows| > 0
    ensures PlotStints(rows)[0].startLap == rows[0].lapNumber
    ensures PlotStints(rows)[|PlotStints(rows)| - 1].endLap == rows[|rows| - 1].lapNumber
  {
    if |rows| > 1 {
      var init := rows[..|rows| - 1];
      StintEnds(init);
      assert init[0] == rows[0];
    }
  }

  /** Consecutive stints never share a compound. */
  lemma {:induction false} AdjacentStintsDiffer(rows: seq<Lap>)
    ensures forall k :: 0 <= k < |PlotStints(rows)| - 1 ==>
      Differs(PlotStints(rows)[k].compound, PlotStints(rows)[k + 1].compound)
  {
    if |rows| > 1 {
      var init := rows[..|rows| - 1];
      AdjacentStintsDiffer(init);
      LastStintCompound(init);
    }
  }

  lemma {:induction false} LastStintCompound(rows: seq<Lap>)
    requires |rows| > 0
    ensures PlotStints(rows)[|PlotStints(rows)| - 1].compound == rows[|rows| - 1].compound
            || !Differs(PlotStints(rows)[|PlotStints(rows)| - 1].compound, rows[|rows| - 1].compound)
    ensures !rows[|rows| - 1].compound.Missing? ==>
            PlotStints(rows)[|PlotStints(rows)| - 1].compound == rows[|rows| - 1].compound
  {
    if |rows| > 1 {
      var init := rows[..|rows| - 1];
      LastStintCompound(init);
    }
  }

  /** Index of the row that starts stint k: 0, then the breaks in order. */
  function RunStart(rows: seq<Lap>, k: nat): nat
    requires k <= |ChangeIndices(rows)|
  {
    if k == 0 then 0 else ChangeIndices(rows)[k - 1]
  }

  /** Index of the last row of stint k: just before the next break. */
  function RunLast(rows: seq<Lap>, k: nat): int
    requires k <= |ChangeIndices(rows)|
  {
    (if k < |ChangeIndices(rows)| then ChangeIndices(rows)[k] else |rows|) - 1
  }

  /** Stint k is the run of rows from RunStart(rows, k) to RunLast(rows, k). */
  predicate StintIsRun(rows: seq<Lap>, k: nat)
    requires 0 < |rows| && |PlotStints(rows)| == |ChangeIndices(rows)| + 1 && k < |PlotStints(rows)|
  {
    && 0 <= RunLast(rows, k) < |rows|
    && PlotStints(rows)[k].compound == rows[RunStart(rows, k)].compound
    && PlotStints(rows)[k].startLap == rows[RunStart(rows, k)].lapNumber
    && PlotStints(rows)[k].endLap == rows[RunLast(rows, k)].lapNumber
  }

  predicate StintsMatchRuns(rows: seq<Lap>)
    requires |rows| > 0
  {
    && |PlotStints(rows)| == |ChangeIndices(rows)| + 1
    && forall k :: 0 <= k < |PlotStints(rows)| ==> StintIsRun(rows, k)
  }

  /** The inductive step when the last row opens a new stint. */
  lemma {:induction false} RunsAfterChange(rows: seq<Lap>)
    requires |rows| > 1 && Differs(rows[|rows| - 2].compound, rows[|rows| - 1].compound)
    requires StintsMatchRuns(rows[..|rows| - 1])
    ensures StintsMatchRuns(rows)
  {
    var n := |rows|;
    var init := rows[..n - 1];
    var S := PlotStints(rows);
    var S' := PlotStints(init);
    assert S == S' + [OpenStint(rows[n - 1])];
    assert ChangeIndices(rows) == ChangeIndices(init) + [n - 1];
    forall k | 0 <= k < |S|
      ensures StintIsRun(rows, k)
    {
      if k < |S'| {
        assert StintIsRun(init, k);
        assert S[k] == S'[k];
        assert RunStart(rows, k) == RunStart(init, k);
        assert RunLast(rows, k) == RunLast(init, k);
      }
    }
  }

  /** The inductive step when the last row extends the last stint. */
  lemma {:induction false} RunsAfterSame(rows: seq<Lap>)
    requires |rows| > 1 && !Differs(rows[|rows| - 2].compound, rows[|rows| - 1].compound)
    requires StintsMatchRuns(rows[..|rows| - 1])
    ensures StintsMatchRuns(rows)
  {
    var n := |rows|;
    var init := rows[..n - 1];
    var S := PlotStints(rows);
    var S' := PlotStints(init);
    assert S == ExtendLast(S', rows[n - 1].lapNumber);
    assert ChangeIndices(rows) == ChangeIndices(init);
    forall k | 0 <= k < |S|
      ensures StintIsRun(rows, k)
    {
      assert StintIsRun(init, k);
      assert RunStart(rows, k) == RunStart(init, k);
      if k < |S| - 1 {
        assert S[k] == S'[k];
        assert RunLast(rows, k) == RunLast(init, k);
      }
    }
  }

  /** The stints are exactly the runs between breaks: stint k takes its
      compound and start lap from the row that opens it and ends at the lap
      of the row just before the next change (or the last row). */
  lemma {:induction false} StintsAreRuns(rows: seq<Lap>)
    requires |rows| > 0
    ensures StintsMatchRuns(rows)
  {
    var n := |rows|;
    if n == 1 {
      assert StintIsRun(rows, 0);
    } else {
      StintsAreRuns(rows[..n - 1]);
      if Differs(rows[n - 2].compound, rows[n - 1].compound) {
        RunsAfterChange(rows);
      } else {
        RunsAfterSame(rows);
      }
    }
  }

  function TotalLaps(s: seq<PlotStint>): int
  {
    if s == [] then 0 else TotalLaps(s[..|s| - 1]) + s[|s| - 1].laps
  }

  predicate ConsecutiveLaps(rows: seq<Lap>)
  {
    forall i :: 0 <= i < |rows| - 1 ==> rows[i + 1].lapNumber == rows[i].lapNumber + 1
  }

  lemma {:induction false} ExtendLastTotal(s: seq<PlotStint>, lap: int)
    requires |s| > 0 && s[|s| - 1].laps == s[|s| - 1].endLap - s[|s| - 1].startLap + 1
    ensures TotalLaps(ExtendLast(s, lap)) == TotalLaps(s) + lap - s[|s| - 1].endLap
  {
    var t := ExtendLast(s, lap);
    assert t[..|t| - 1] == s[..|s| - 1];
  }

  /** With consecutive lap numbers the stints' spans telescope to the whole
      range of laps. */
  lemma {:induction false} TotalLapsTelescopes(rows: seq<Lap>)
    requires |rows| > 0 && ConsecutiveLaps(rows)
    ensures TotalLaps(PlotStints(rows)) == rows[|rows| - 1].lapNumber - rows[0].lapNumber + 1
  {
    var n := |rows|;
    if n > 1 {
      var init := rows[..n - 1];
      assert ConsecutiveLaps(init);
      TotalLapsTelescopes(init);
      StintEnds(init);
      StintLapsIsSpan(init);
      var S' := PlotStints(init);
      if !Differs(init[n - 2].compound, rows[n - 1].compound) {
        ExtendLastTotal(S', rows[n - 1].lapNumber);
      } else {
        assert (S' + [OpenStint(rows[n - 1])])[..|S'|] == S';
      }
    }
  }

  lemma {:induction false} ConsecutiveSpan(rows: seq<Lap>)
    requires |rows| > 0 && ConsecutiveLaps(rows)
    ensures rows[|rows| - 1].lapNumber - rows[0].lapNumber + 1 == |rows|
  {
    if |rows| > 1 {
      var init := rows[..|rows| - 1];
      assert ConsecutiveLaps(init);
      ConsecutiveSpan(init);
    }
  }

  /** Only when lap numbers are consecutive do the stint lengths add up to
      the number of rows. */
  lemma {:induction false} StintLapsSumToRows(rows: seq<Lap>)
    requires |rows| > 0 && ConsecutiveLaps(rows)
    ensures TotalLaps(PlotStints(rows)) == |rows|
  {
    TotalLapsTelescopes(rows);
    ConsecutiveSpan(rows);
  }

  function SoftLap(n: int): Lap
  {
    Lap("VER", n, None, Tyre("SOFT"), None, None, None, None)
  }

  /** `laps` is a lap-number span and not a row count: two rows on laps 1
      and 3 give one stint of three laps. */
  lemma SpanIsNotRowCount()
    ensures var rows := [SoftLap(1), SoftLap(3)];
      TotalLaps(PlotStints(rows)) == 3 != |rows|
  {
    var rows := [SoftLap(1), SoftLap(3)];
    assert rows[..1] == [SoftLap(1)];
    assert !Differs(rows[0].compound, rows[1].compound);
    var s := PlotStints(rows);
    assert s == [PlotStint(Tyre("SOFT"), 1, 3, 3)];
    assert s[..0] == [];
  }

  /** The per-driver bars of the chart: a driver with no rows is skipped,
      every other driver gets the stints of its own rows. */
  function StrategyBars(drivers: seq<string>, data: seq<Lap>): (bars: seq<(string, seq<PlotStint>)>)
    ensures |bars| <= |drivers|
    ensures forall k :: 0 <= k < |bars| ==>
      bars[k].0 in drivers && |bars[k].1| > 0 && bars[k].1 == PlotStints(LapsOf(bars[k].0, data))
  {
    if drivers == [] then []
    else
      var rows := LapsOf(drivers[0], data);
      if rows == [] then StrategyBars(drivers[1..], data)
      else [(drivers[0], PlotStints(rows))] + StrategyBars(drivers[1..], data)
  }

  function BarDrivers(bars: seq<(string, seq<PlotStint>)>): seq<string>
  {
    if bars == [] then [] else [bars[0].0] + BarDrivers(bars[1..])
  }

  /** A listed driver appears among the bars exactly when it has rows. */
  lemma {:induction false} BarsForDriversWithRows(drivers: seq<string>, data: seq<Lap>, d: string)
    ensures d in BarDrivers(StrategyBars(drivers, data)) <==> d in drivers && LapsOf(d, data) != []
  {
    if drivers != [] {
      BarsForDriversWithRows(drivers[1..], data, d);
      var rows := LapsOf(drivers[0], data);
      var tail := StrategyBars(drivers[1..], data);
      if rows != [] {
        var bars := [(drivers[0], PlotStints(rows))] + tail;
        assert bars[1..] == tail;
      }
      assert d in drivers <==> d == drivers[0] || d in drivers[1..];
    }
  }
}
