/** PitStrategyAnalyzer (utils/pit_strategy_analysis.py): pit windows read
    off the known compounds, stint lengths cut by a second, different rule,
    the strategy name and score, and the count of laps on which another
    driver ran a different compound from a reference driver. */
module PitStrategyAnalysis {

  import opened Common
  import opened Laps

  datatype WindowStop = WindowStop(lap: int, fromCompound: Compound, toCompound: Compound)

  datatype PitWindowEntry = PitWindowEntry(
    driver: string,
    totalPitStops: nat,
    strategyType: string,
    avgStintLength: real,
    pitWindows: seq<WindowStop>,
    effectiveness: real,
    compoundsUsed: seq<Compound>)

  // ------------------------------------------------------------ known compounds

  /** The non-null compounds of the rows, in order (`Compound.dropna()`). */
  function Known(rows: seq<Lap>): (cs: seq<Compound>)
    ensures |cs| <= |rows|
    ensures forall i :: 0 <= i < |cs| ==> cs[i].Tyre?
  {
    if rows == [] then []
    else
      var r := rows[|rows| - 1];
      Known(rows[..|rows| - 1]) + (if r.compound.Tyre? then [r.compound] else [])
  }

  /** The last non-null compound seen, None before any. */
  function LastKnown(rows: seq<Lap>): (c: Option<Compound>)
    ensures c.None? <==> Known(rows) == []
    ensures c.Some? ==> c.value == Known(rows)[|Known(rows)| - 1]
  {
    var k := Known(rows);
    if k == [] then None else Some(k[|k| - 1])
  }

  /** Number of positions where a compound sequence changes value. */
  function Transitions(cs: seq<Compound>): nat
  {
    if |cs| < 2 then 0
    else Transitions(cs[..|cs| - 1]) + (if cs[|cs| - 2] != cs[|cs| - 1] then 1 else 0)
  }

  // ------------------------------------------------------------ pit stops

  /** A stop at every row with a non-null compound other than the last
      non-null compound seen; a null compound neither counts nor resets. */
  function WindowStops(rows: seq<Lap>): seq<WindowStop>
  {
    if rows == [] then []
    else
      var init := rows[..|rows| - 1];
      var r := rows[|rows| - 1];
      var prev := LastKnown(init);
      WindowStops(init)
        + (if r.compound.Tyre? && prev.Some? && prev.value != r.compound
           then [WindowStop(r.lapNumber, prev.value, r.compound)] else [])
  }

  lemma {:induction false} WindowStopsStep(rows: seq<Lap>, i: nat)
    requires i < |rows|
    ensures var prev := LastKnown(rows[..i]);
      && WindowStops(rows[..i + 1]) == WindowStops(rows[..i])
           + (if rows[i].compound.Tyre? && prev.Some? && prev.value != rows[i].compound
              then [WindowStop(rows[i].lapNumber, prev.value, rows[i].compound)] else [])
      && LastKnown(rows[..i + 1]) == if rows[i].compound.Tyre? then Some(rows[i].compound) else prev
  {
    assert rows[..i + 1][..i] == rows[..i];
  }

  /** The stop loop of analyze_pit_windows, `current_compound` starting as None. */
  method DetectPitStops(rows: seq<Lap>) returns (stops: seq<WindowStop>)
    ensures stops == WindowStops(rows)
  {
    stops := [];
    var current: Option<Compound> := None;
    var i := 0;
    while i < |rows|
      invariant 0 <= i <= |rows|
      invariant current == LastKnown(rows[..i])
      invariant stops == WindowStops(rows[..i])
    {
      var lap := rows[i];
      WindowStopsStep(rows, i);
      if lap.compound.Tyre? && (current.None? || lap.compound != current.value) {
        if current.Some? {
          stops := stops + [WindowStop(lap.lapNumber, current.value, lap.compound)];
        }
        current := Some(lap.compound);
      }
      i := i + 1;
    }
    assert rows[..|rows|] == rows;
  }

  /** A row with a null compound changes neither the stops nor the running
      compound. */
  lemma {:induction false} MissingNeitherCountsNorResets(rows: seq<Lap>, l: Lap)
    requires l.compound.Missing?
    ensures WindowStops(rows + [l]) == WindowStops(rows)
    ensures LastKnown(rows + [l]) == LastKnown(rows)
  {
    assert (rows + [l])[..|rows|] == rows;
    assert Known(rows + [l]) == Known(rows);
  }

  /** The stops are exactly the changes in the sequence of known compounds. */
  lemma {:induction false} WindowStopsAreKnownChanges(rows: seq<Lap>)
    ensures |WindowStops(rows)| == Transitions(Known(rows))
  {
    if rows != [] {
      var init := rows[..|rows| - 1];
      var r := rows[|rows| - 1];
      WindowStopsAreKnownChanges(init);
      var k := Known(init);
      var K := Known(rows);
      assert K == k + (if r.compound.Tyre? then [r.compound] else []);
      if r.compound.Tyre? && k != [] {
        assert K[..|K| - 1] == k;
        assert K[|K| - 2] == LastKnown(init).value;
      } else if r.compound.Tyre? {
        assert |K| == 1;
      } else {
        assert K == k;
        assert WindowStops(rows) == WindowStops(init) + [];
      }
    }
  }

  // ------------------------------------------------------------ stint lengths

  /** The stint-length split rule: the compound differs from the previous
      row's (NaN included) and is itself not null. */
  predicate SplitAt(rows: seq<Lap>, i: nat)
    requires 0 < i < |rows|
  {
    Differs(rows[i].compound, rows[i - 1].compound) && rows[i].compound.Tyre?
  }

  /** The loop state after a non-empty prefix: the closed stint lengths and
      the length of the open stint. */
  function RunState(rows: seq<Lap>): (st: (seq<int>, int))
    requires |rows| > 0
    ensures st.1 >= 1
    ensures forall i :: 0 <= i < |st.0| ==> st.0[i] >= 1
  {
    if |rows| == 1 then ([], 1)
    else
      var prev := RunState(rows[..|rows| - 1]);
      if SplitAt(rows, |rows| - 1) then (prev.0 + [prev.1], 1) else (prev.0, prev.1 + 1)
  }

  /** Run lengths of a non-empty row sequence under SplitAt. */
  function RunLengths(rows: seq<Lap>): (l: seq<int>)
    requires |rows| > 0
    ensures |l| >= 1
    ensures forall i :: 0 <= i < |l| ==> l[i] >= 1
  {
    var st := RunState(rows);
    st.0 + [st.1]
  }

  /** `stint_lengths`: empty when the driver has no non-null compound. */
  function StintLengths(rows: seq<Lap>): (l: seq<int>)
    ensures forall i :: 0 <= i < |l| ==> l[i] >= 1
  {
    if |Known(rows)| > 0 then RunLengths(rows) else []
  }

  lemma {:induction false} RunStateStep(rows: seq<Lap>, i: nat)
    requires 0 < i < |rows|
    ensures var prev := RunState(rows[..i]);
      RunState(rows[..i + 1]) == if SplitAt(rows, i) then (prev.0 + [prev.1], 1) else (prev.0, prev.1 + 1)
  {
    var r := rows[..i + 1];
    assert r[..i] == rows[..i];
    assert SplitAt(r, i) == SplitAt(rows, i);
  }

  /** The stint-length loop of analyze_pit_windows. */
  method StintLengthsLoop(rows: seq<Lap>) returns (lengths: seq<int>)
    ensures lengths == StintLengths(rows)
  {
    lengths := [];
    if |Known(rows)| > 0 {
      var currentStint := 1;
      var i := 1;
      assert rows[..1] == [rows[0]];
      while i < |rows|
        invariant 1 <= i <= |rows|
        invariant (lengths, currentStint) == RunState(rows[..i])
      {
        RunStateStep(rows, i);
        if Differs(rows[i].compound, rows[i - 1].compound) && rows[i].compound.Tyre? {
          lengths := lengths + [currentStint];
          currentStint := 1;
        } else {
          currentStint := currentStint + 1;
        }
        i := i + 1;
      }
      lengths := lengths + [currentStint];
      assert rows[..|rows|] == rows;
    }
  }

  function Total(s: seq<int>): int
  {
    if s == [] then 0 else Total(s[..|s| - 1]) + s[|s| - 1]
  }

  /** The closed lengths and the open one cover every row once. */
  lemma {:induction false} RunStateCoversRows(rows: seq<Lap>)
    requires |rows| > 0
    ensures Total(RunState(rows).0) + RunState(rows).1 == |rows|
  {
    if |rows| > 1 {
      var init := rows[..|rows| - 1];
      RunStateCoversRows(init);
      var prev := RunState(init);
      if SplitAt(rows, |rows| - 1) {
        var c := prev.0 + [prev.1];
        assert c[..|c| - 1] == prev.0;
      }
    }
  }

  /** Every stint length is at least 1, and with any non-null compound the
      lengths add up to the number of rows. */
  lemma {:induction false} StintLengthsSumToRows(rows: seq<Lap>)
    requires |Known(rows)| > 0
    ensures Total(StintLengths(rows)) == |rows|
  {
    RunStateCoversRows(rows);
    var l := RunLengths(rows);
    assert l[..|l| - 1] == RunState(rows).0;
  }

  /** Number of split rows. */
  function Splits(rows: seq<Lap>): nat
  {
    if |rows| < 2 then 0
    else Splits(rows[..|rows| - 1]) + (if SplitAt(rows, |rows| - 1) then 1 else 0)
  }

  lemma {:induction false} RunCount(rows: seq<Lap>)
    requires |rows| > 0
    ensures |RunLengths(rows)| == Splits(rows) + 1
  {
    if |rows| > 1 {
      RunCount(rows[..|rows| - 1]);
    }
  }

  predicate AllKnown(rows: seq<Lap>)
  {
    forall i :: 0 <= i < |rows| ==> rows[i].compound.Tyre?
  }

  lemma {:induction false} KnownOfAllKnown(rows: seq<Lap>)
    requires AllKnown(rows)
    ensures |Known(rows)| == |rows|
    ensures forall i :: 0 <= i < |rows| ==> Known(rows)[i] == rows[i].compound
  {
    if rows != [] {
      KnownOfAllKnown(rows[..|rows| - 1]);
    }
  }

  lemma {:induction false} SplitsAreTransitions(rows: seq<Lap>)
    requires AllKnown(rows)
    ensures Splits(rows) == Transitions(Known(rows))
  {
    if |rows| >= 2 {
      var init := rows[..|rows| - 1];
      SplitsAreTransitions(init);
      KnownOfAllKnown(rows);
      KnownOfAllKnown(init);
      var k := Known(rows);
      assert k[..|k| - 1] == Known(init);
    }
  }

  /** With no null compound the two rules agree: one stint more than stops. */
  lemma {:induction false} StintsAreStopsPlusOneWhenKnown(rows: seq<Lap>)
    requires |rows| > 0 && AllKnown(rows)
    ensures |StintLengths(rows)| == |WindowStops(rows)| + 1
  {
    KnownOfAllKnown(rows);
    RunCount(rows);
    SplitsAreTransitions(rows);
    WindowStopsAreKnownChanges(rows);
  }

  function CompoundLap(n: int, c: Compound): Lap
  {
    Lap("VER", n, None, c, None, None, None, None)
  }

  /** A null compound followed by a known one splits a stint without a stop:
      [NaN, SOFT] and [SOFT, NaN, SOFT] both give two stint lengths and no
      stop. */
  lemma NullTransitionSplitsWithoutStop()
    ensures var rows := [CompoundLap(1, Missing), CompoundLap(2, Tyre("SOFT"))];
      WindowStops(rows) == [] && StintLengths(rows) == [1, 1]
    ensures var rows := [CompoundLap(1, Tyre("SOFT")), CompoundLap(2, Missing), CompoundLap(3, Tyre("SOFT"))];
      WindowStops(rows) == [] && StintLengths(rows) == [2, 1]
  {
    var a := [CompoundLap(1, Missing), CompoundLap(2, Tyre("SOFT"))];
    assert a[..1] == [a[0]];
    assert Known(a[..1]) == [];
    assert Known(a) == [Tyre("SOFT")];
    var b := [CompoundLap(1, Tyre("SOFT")), CompoundLap(2, Missing), CompoundLap(3, Tyre("SOFT"))];
    assert b[..1] == [b[0]];
    assert b[..2] == [b[0], b[1]];
    assert b[..2][..1] == [b[0]];
    assert Known(b[..1]) == [Tyre("SOFT")];
    assert Known(b[..2]) == [Tyre("SOFT")];
    assert RunState(b[..2]) == ([], 2);
  }

  /** `np.mean(stint_lengths)`, 0 when there are none. */
  function AvgStintLength(lengths: seq<int>): real
  {
    if lengths == [] then 0.0 else Total(lengths) as real / |lengths| as real
  }

  /** With any non-null compound the average stint is rows / stints. */
  lemma {:induction false} AvgStintIsRowsPerStint(rows: seq<Lap>)
    requires |Known(rows)| > 0
    ensures AvgStintLength(StintLengths(rows)) == |rows| as real / |StintLengths(rows)| as real
  {
    StintLengthsSumToRows(rows);
  }

  // ------------------------------------------------------------ classification

  /** _classify_strategy of pit_strategy_analysis.py, on the stop count. */
  function ClassifyStops(stops: int): (r: string)
    ensures r == "No-stop" <==> stops == 0
    ensures r == "One-stop" <==> stops == 1
    ensures r == "Two-stop" <==> stops == 2
    ensures r == "Multi-stop" <==> stops >= 3
    ensures r == "Unknown" <==> stops < 0
  {
    if stops == 0 then "No-stop"
    else if stops == 1 then "One-stop"
    else if stops == 2 then "Two-stop"
    else if stops >= 3 then "Multi-stop"
    else "Unknown"
  }

  // ------------------------------------------------------------ effectiveness

  /** A row's position, 10 when missing. */
  function PositionOr10(l: Lap): int
  {
    if l.position.Some? then l.position.value else 10
  }

  /** Ten points per place gained from the first row to the last; none for
      a loss. */
  function PositionFactor(rows: seq<Lap>): (f: int)
    requires |rows| > 0
    ensures f >= 0
    ensures f > 0 <==> PositionOr10(rows[|rows| - 1]) < PositionOr10(rows[0])
    ensures f > 0 ==> f == 10 * (PositionOr10(rows[0]) - PositionOr10(rows[|rows| - 1]))
  {
    var gain := PositionOr10(rows[0]) - PositionOr10(rows[|rows| - 1]);
    (if gain > 0 then gain else 0) * 10
  }

  function MinReal(a: real, b: real): (m: real)
    ensures m <= a && m <= b && (m == a || m == b)
  {
    if a <= b then a else b
  }

  function AsReals(s: seq<int>): (r: seq<real>)
    ensures |r| == |s|
  {
    if s == [] then [] else AsReals(s[..|s| - 1]) + [s[|s| - 1] as real]
  }

  /** _calculate_strategy_effectiveness: 50 for no laps; otherwise the mean
      of the position factor and the stint-consistency term, plus 25, capped
      at 100 (the consistency term is 50 without stints). */
  function StrategyEffectiveness(rows: seq<Lap>, lengths: seq<int>, std: Statistic): (e: real)
    ensures rows == [] ==> e == 50.0
    ensures e <= 100.0
    ensures rows != [] && lengths == [] ==> 50.0 <= e
  {
    if rows == [] then 50.0
    else
      var consistency := if lengths != [] then 100.0 - std(AsReals(lengths)) * 5.0 else 50.0;
      MinReal(100.0, (PositionFactor(rows) as real + consistency) / 2.0 + 25.0)
  }

  /** Gaining places never lowers the score. */
  lemma {:induction false} EffectivenessMonotoneInGain(a: seq<Lap>, b: seq<Lap>, lengths: seq<int>, std: Statistic)
    requires |a| > 0 && |b| > 0
    requires PositionFactor(a) <= PositionFactor(b)
    ensures StrategyEffectiveness(a, lengths, std) <= StrategyEffectiveness(b, lengths, std)
  {
  }

  // ------------------------------------------------------------ per driver

  /** The record of one driver, from its stops and stint lengths. */
  function EntryFrom(driver: string, rows: seq<Lap>, stops: seq<WindowStop>, lengths: seq<int>, std: Statistic): PitWindowEntry
  {
    PitWindowEntry(driver, |stops|, ClassifyStops(|stops|), AvgStintLength(lengths), stops,
                   StrategyEffectiveness(rows, lengths, std), Unique(Known(rows)))
  }

  function PitWindowsEntry(driver: string, rows: seq<Lap>, std: Statistic): PitWindowEntry
  {
    EntryFrom(driver, rows, WindowStops(rows), StintLengths(rows), std)
  }

  lemma {:induction false} EntryFromOf(driver: string, rows: seq<Lap>, stops: seq<WindowStop>, lengths: seq<int>, std: Statistic)
    requires stops == WindowStops(rows) && lengths == StintLengths(rows)
    ensures EntryFrom(driver, rows, stops, lengths, std) == PitWindowsEntry(driver, rows, std)
  {
  }

  /** The record of a driver with laps; None for a driver without. */
  function WindowsRow(laps: seq<Lap>, std: Statistic): string -> Option<PitWindowEntry>
  {
    d => if LapsOf(d, laps) == [] then None else Some(PitWindowsEntry(d, LapsOf(d, laps), std))
  }

  /** The entries of analyze_pit_windows for `drivers`: drivers without
      laps are skipped, the others keep their order. */
  function PitWindowsOf(drivers: seq<string>, laps: seq<Lap>, std: Statistic): (r: seq<PitWindowEntry>)
    ensures |r| <= |drivers|
  {
    Collect(drivers, WindowsRow(laps, std))
  }

  /** Every entry belongs to a listed driver with laps and describes that
      driver's own rows. */
  lemma {:induction false} PitWindowsEntries(drivers: seq<string>, laps: seq<Lap>, std: Statistic)
    ensures forall k :: 0 <= k < |PitWindowsOf(drivers, laps, std)| ==>
      var e := PitWindowsOf(drivers, laps, std)[k];
      e.driver in drivers && LapsOf(e.driver, laps) != []
      && e == PitWindowsEntry(e.driver, LapsOf(e.driver, laps), std)
  {
    var f := WindowsRow(laps, std);
    var table := PitWindowsOf(drivers, laps, std);
    CollectExactly(drivers, f, "");
    forall k | 0 <= k < |table|
      ensures table[k].driver in drivers && LapsOf(table[k].driver, laps) != []
      ensures table[k] == PitWindowsEntry(table[k].driver, LapsOf(table[k].driver, laps), std)
    {
      var j :| 0 <= j < |drivers| && f(drivers[j]) == Some(table[k]);
    }
  }

  /** The body of the per-driver loop of analyze_pit_windows. */
  method DriverWindows(driver: string, rows: seq<Lap>, std: Statistic) returns (entry: PitWindowEntry)
    ensures entry == PitWindowsEntry(driver, rows, std)
  {
    var stops := DetectPitStops(rows);
    var lengths := StintLengthsLoop(rows);
    entry := EntryFrom(driver, rows, stops, lengths, std);
    EntryFromOf(driver, rows, stops, lengths, std);
  }

  /** analyze_pit_windows. */
  method AnalyzePitWindows(drivers: seq<string>, laps: seq<Lap>, std: Statistic) returns (r: seq<PitWindowEntry>)
    ensures r == PitWindowsOf(drivers, laps, std)
  {
    r := [];
    var i := 0;
    while i < |drivers|
      invariant 0 <= i <= |drivers|
      invariant r == PitWindowsOf(drivers[..i], laps, std)
    {
      var rows := LapsOf(drivers[i], laps);
      CollectStep(drivers, WindowsRow(laps, std), i);
      if rows != [] {
        var entry := DriverWindows(drivers[i], rows, std);
        r := r + [entry];
      }
      i := i + 1;
    }
    assert drivers[..|drivers|] == drivers;
  }

  // ------------------------------------------------------------ opportunities

  /** A reference lap counts when the other driver has a row on that lap and
      both compounds are known and differ. */
  predicate Diverged(refLap: Lap, other: seq<Lap>)
  {
    var c := FirstAt(other, refLap.lapNumber);
    c.Some? && refLap.compound.Tyre? && c.value.compound.Tyre? && refLap.compound != c.value.compound
  }

  function Opportunities(refRows: seq<Lap>, other: seq<Lap>): (n: nat)
    ensures n <= |refRows|
  {
    if refRows == [] then 0
    else Opportunities(refRows[..|refRows| - 1], other) + (if Diverged(refRows[|refRows| - 1], other) then 1 else 0)
  }

  /** The counting loop over the reference driver's laps. */
  method CountOpportunities(refRows: seq<Lap>, other: seq<Lap>) returns (opportunities: nat)
    ensures opportunities == Opportunities(refRows, other)
  {
    opportunities := 0;
    var i := 0;
    while i < |refRows|
      invariant 0 <= i <= |refRows|
      invariant opportunities == Opportunities(refRows[..i], other)
    {
      assert refRows[..i + 1][..i] == refRows[..i];
      var corresponding := FirstAt(other, refRows[i].lapNumber);
      if corresponding.Some? && refRows[i].compound.Tyre? && corresponding.value.compound.Tyre? {
        if refRows[i].compound != corresponding.value.compound {
          opportunities := opportunities + 1;
        }
      }
      i := i + 1;
    }
    assert refRows[..|refRows|] == refRows;
  }

  /** Two drivers on the same compound on every shared lap have no
      opportunity. */
  lemma {:induction false} SameCompoundsNoOpportunity(refRows: seq<Lap>, other: seq<Lap>)
    requires forall i :: 0 <= i < |refRows| ==> !Diverged(refRows[i], other)
    ensures Opportunities(refRows, other) == 0
  {
    if refRows != [] {
      SameCompoundsNoOpportunity(refRows[..|refRows| - 1], other);
    }
  }

  datatype OpportunityEntry = OpportunityEntry(driver: string, opportunities: nat, strategicVariance: real)

  function OpportunityOf(d: string, refRows: seq<Lap>, laps: seq<Lap>): OpportunityEntry
  {
    var rows := LapsOf(d, laps);
    var n := Opportunities(refRows, rows);
    OpportunityEntry(d, n, if |rows| > 0 then Percentage(n, |rows|) else 0.0)
  }

  /** The entries for drivers `ds` other than the reference, in order. */
  function OpportunitiesOf(ds: seq<string>, reference: string, laps: seq<Lap>): (r: seq<OpportunityEntry>)
    ensures |r| <= |ds|
  {
    if ds == [] then []
    else
      var d := ds[|ds| - 1];
      var init := OpportunitiesOf(ds[..|ds| - 1], reference, laps);
      if d == reference || LapsOf(d, laps) == [] then init
      else init + [OpportunityOf(d, LapsOf(reference, laps), laps)]
  }

  /** The reference driver is never compared with itself, every entry is a
      listed driver's own count, and a count never exceeds the reference
      driver's laps. */
  lemma {:induction false} OpportunityEntries(ds: seq<string>, reference: string, laps: seq<Lap>)
    ensures forall k :: 0 <= k < |OpportunitiesOf(ds, reference, laps)| ==>
      var e := OpportunitiesOf(ds, reference, laps)[k];
      && e.driver != reference && e.driver in ds
      && e == OpportunityOf(e.driver, LapsOf(reference, laps), laps)
      && e.opportunities <= |LapsOf(reference, laps)|
      && 0.0 <= e.strategicVariance
  {
    if ds != [] {
      var init := ds[..|ds| - 1];
      OpportunityEntries(init, reference, laps);
      assert forall x :: x in init ==> x in ds;
    }
  }

  lemma {:induction false} OpportunitiesStep(ds: seq<string>, reference: string, laps: seq<Lap>, i: nat)
    requires i < |ds|
    ensures OpportunitiesOf(ds[..i + 1], reference, laps) == OpportunitiesOf(ds[..i], reference, laps)
      + (if ds[i] == reference || LapsOf(ds[i], laps) == [] then []
         else [OpportunityOf(ds[i], LapsOf(reference, laps), laps)])
  {
    assert ds[..i + 1][..i] == ds[..i];
  }

  /** analyze_undercut_overcut_opportunities: None when the reference driver
      has no laps; otherwise one entry per other driver of the session. */
  method AnalyzeOpportunities(laps: seq<Lap>, reference: string) returns (r: Option<seq<OpportunityEntry>>)
    ensures LapsOf(reference, laps) == [] <==> r.None?
    ensures r.Some? ==> r.value == OpportunitiesOf(Drivers(laps), reference, laps)
  {
    var refRows := LapsOf(reference, laps);
    if refRows == [] {
      return None;
    }
    var all := Drivers(laps);
    var data: seq<OpportunityEntry> := [];
    var i := 0;
    while i < |all|
      invariant 0 <= i <= |all|
      invariant data == OpportunitiesOf(all[..i], reference, laps)
    {
      OpportunitiesStep(all, reference, laps, i);
      var driver := all[i];
      var rows := LapsOf(driver, laps);
      if driver != reference && rows != [] {
        var n := CountOpportunities(refRows, rows);
        assert OpportunityEntry(driver, n, Percentage(n, |rows|)) == OpportunityOf(driver, refRows, laps);
        data := data + [OpportunityEntry(driver, n, Percentage(n, |rows|))];
      }
      i := i + 1;
    }
    assert all[..|all|] == all;
    r := Some(data);
  }
}
