/** Advanced analytics: a driver's lap-time consistency report, the
    degradation of each tyre compound a driver used, and the session-wide
    log of places gained and lost from one lap to the next. */
module AdvancedAnalytics {

  import opened Common
  import opened Laps

  // ------------------------------------------------------------ driver consistency

  datatype ConsistencyReport = ConsistencyReport(
    meanLapTime: real,
    stdDeviation: real,
    coefficientVariation: real,
    fastestLap: real,
    slowestLap: real,
    consistencyScore: real,
    totalLaps: nat)

  /** `calculate_driver_consistency`: None with fewer than three timed laps;
      otherwise the fastest, mean and slowest lap are ordered and bound
      every lap, and the score `1 / (1 + std)` lies in (0, 1], reaching 1
      exactly for a driver whose laps do not deviate. */
  function DriverConsistency(d: string, laps: seq<Lap>, std: Deviation): (r: Option<ConsistencyReport>)
    ensures r.Some? <==> |TimedRows(d, laps)| >= 3
    ensures r.Some? ==> r.value.totalLaps == |TimedRows(d, laps)|
  {
    var rows := TimedRows(d, laps);
    if |rows| < 3 then None else Some(Report(TimesOf(rows), std(TimesOf(rows))))
  }

  /** The report of the timed laps `t` with deviation `s`. */
  function Report(t: seq<real>, s: real): (r: ConsistencyReport)
    requires |t| > 0 && forall i :: 0 <= i < |t| ==> t[i] > 0.0
    requires s >= 0.0
    ensures r.totalLaps == |t|
  {
    MeanPositive(t);
    ConsistencyReport(Mean(t), s, Quotient(s, Mean(t)), MinOf(t), MaxOf(t), Quotient(1.0, 1.0 + s), |t|)
  }

  /** The fastest, mean and slowest lap of a report are ordered and bound
      every timed lap. */
  lemma {:induction false} DriverConsistencyBounds(d: string, laps: seq<Lap>, std: Deviation)
    requires DriverConsistency(d, laps, std).Some?
    ensures var r := DriverConsistency(d, laps, std).value;
      && 0.0 < r.fastestLap <= r.meanLapTime <= r.slowestLap
      && forall i :: 0 <= i < |TimedRows(d, laps)| ==>
        r.fastestLap <= TimesOf(TimedRows(d, laps))[i] <= r.slowestLap
  {
    var t := TimesOf(TimedRows(d, laps));
    ReportOrder(t, std(t));
  }

  /** The fastest, mean and slowest lap of a report on positive times are
      ordered, positive and bound every time. */
  lemma {:induction false} ReportOrder(t: seq<real>, s: real)
    requires |t| > 0 && forall i :: 0 <= i < |t| ==> t[i] > 0.0
    requires s >= 0.0
    ensures var r := Report(t, s);
      && 0.0 < r.fastestLap <= r.meanLapTime <= r.slowestLap
      && forall i :: 0 <= i < |t| ==> r.fastestLap <= t[i] <= r.slowestLap
  {
    MinMeanMax(t);
  }

  /** The variation of a report is not negative, and its score `1 / (1 +
      std)` lies in (0, 1], reaching 1 exactly when the laps do not deviate. */
  lemma {:induction false} DriverConsistencyScore(d: string, laps: seq<Lap>, std: Deviation)
    requires DriverConsistency(d, laps, std).Some?
    ensures var r := DriverConsistency(d, laps, std).value;
      && r.coefficientVariation >= 0.0
      && 0.0 < r.consistencyScore <= 1.0
      && (r.consistencyScore == 1.0 <==> r.stdDeviation == 0.0)
  {
    var t := TimesOf(TimedRows(d, laps));
    var r := DriverConsistency(d, laps, std).value;
    MeanPositive(t);
    assert r.stdDeviation == std(t) && r.consistencyScore == Quotient(1.0, 1.0 + std(t));
    assert r.coefficientVariation == Quotient(std(t), Mean(t));
    ReciprocalBounds(std(t));
  }

  /** `1 / (1 + s)` for a deviation s lies in (0, 1] and is 1 only at 0. */
  lemma ReciprocalBounds(s: real)
    requires s >= 0.0
    ensures 0.0 < Quotient(1.0, 1.0 + s) <= 1.0
    ensures Quotient(1.0, 1.0 + s) == 1.0 <==> s == 0.0
  {
    var q := Quotient(1.0, 1.0 + s);
    assert q + q * s == 1.0;
    assert q * s >= 0.0;
    if q == 1.0 {
      assert s == q * s;
    }
  }

  // ------------------------------------------------------------ tyre degradation

  /** A slope fitted through lap times that may hold missing (NaT) cells. */
  type PartialSlope = seq<Option<real>> -> real

  datatype DegradationEntry = DegradationEntry(
    compound: string,
    stintLength: nat,
    degradationRate: real,
    initialPace: Option<real>,
    finalPace: Option<real>,
    totalDegradation: Option<real>)

  function TimeOf(l: Lap): Option<real>
  {
    if l.lapTime.Some? then Some(l.lapTime.value as real) else None
  }

  /** The Compound column's distinct values, in order of first appearance. */
  function CompoundsOf(rows: seq<Lap>): (cs: seq<Compound>)
    ensures NoDuplicates(cs)
    ensures forall c :: c in cs <==> exists i :: 0 <= i < |rows| && rows[i].compound == c
  {
    var column := seq(|rows|, i requires 0 <= i < |rows| => rows[i].compound);
    assert forall c :: c in column <==> exists i :: 0 <= i < |rows| && rows[i].compound == c by {
      forall c | exists i :: 0 <= i < |rows| && rows[i].compound == c
        ensures c in column
      {
        var i :| 0 <= i < |rows| && rows[i].compound == c;
        assert column[i] == c;
      }
    }
    Unique(column)
  }

  /** `driver_laps[driver_laps['Compound'] == c]`. */
  function RowsWith(rows: seq<Lap>, c: Compound): (r: seq<Lap>)
    ensures forall i :: 0 <= i < |r| ==> r[i].compound == c
  {
    Filter(rows, (l: Lap) => l.compound == c)
  }

  /** One compound's entry: none for a missing compound or one run on fewer
      than two laps. The pace columns are the compound's first and last lap
      time; the degradation between them is missing when either is. */
  function DegradationOf(rows: seq<Lap>, c: Compound, slope: PartialSlope): (r: Option<DegradationEntry>)
    ensures r.Some? <==> c.Tyre? && |RowsWith(rows, c)| >= 2
    ensures r.Some? ==> r.value.compound == c.name && r.value.stintLength == |RowsWith(rows, c)|
    ensures r.Some? ==> r.value.initialPace == TimeOf(RowsWith(rows, c)[0])
    ensures r.Some? ==> r.value.finalPace == TimeOf(RowsWith(rows, c)[|RowsWith(rows, c)| - 1])
    ensures r.Some? ==> (r.value.totalDegradation.Some? <==> r.value.initialPace.Some? && r.value.finalPace.Some?)
    ensures r.Some? && r.value.totalDegradation.Some? ==>
      r.value.initialPace.value + r.value.totalDegradation.value == r.value.finalPace.value
  {
    if c.Missing? then None
    else
      var own := RowsWith(rows, c);
      if |own| < 2 then None
      else
        var times := seq(|own|, i requires 0 <= i < |own| => TimeOf(own[i]));
        var first := times[0];
        var last := times[|times| - 1];
        var total := if first.Some? && last.Some? then Some(last.value - first.value) else None;
        Some(DegradationEntry(c.name, |own|, slope(times), first, last, total))
  }

  function DegradationRow(rows: seq<Lap>, slope: PartialSlope): Compound -> Option<DegradationEntry>
  {
    c => DegradationOf(rows, c, slope)
  }

  /** The per-compound step of `analyze_tire_degradation`. */
  method CompoundDegradation(rows: seq<Lap>, c: Compound, slope: PartialSlope) returns (e: Option<DegradationEntry>)
    ensures e == DegradationOf(rows, c, slope)
  {
    if c.Missing? {
      return None;
    }
    var own := RowsWith(rows, c);
    if |own| < 2 {
      return None;
    }
    var times := seq(|own|, i requires 0 <= i < |own| => TimeOf(own[i]));
    e := None;
    if |times| > 1 {
      var first := times[0];
      var last := times[|times| - 1];
      var total := if first.Some? && last.Some? then Some(last.value - first.value) else None;
      e := Some(DegradationEntry(c.name, |own|, slope(times), first, last, total));
    }
  }

  /** `analyze_tire_degradation`: one entry per compound of the driver's
      rows that has one, in order of first appearance. */
  method AnalyzeTireDegradation(d: string, laps: seq<Lap>, slope: PartialSlope) returns (data: seq<DegradationEntry>)
    ensures data == Collect(CompoundsOf(LapsOf(d, laps)), DegradationRow(LapsOf(d, laps), slope))
  {
    var rows := LapsOf(d, laps);
    var compounds := CompoundsOf(rows);
    data := [];
    for i := 0 to |compounds|
      invariant data == Collect(compounds[..i], DegradationRow(rows, slope))
    {
      CollectStep(compounds, DegradationRow(rows, slope), i);
      var e := CompoundDegradation(rows, compounds[i], slope);
      if e.Some? {
        data := data + [e.value];
      }
    }
    assert compounds[..|compounds|] == compounds;
  }

  /** A compound the driver ran on two or more laps has an entry, and every
      entry covers two or more laps of a compound the driver ran. */
  lemma {:induction false} DegradationTableMembers(rows: seq<Lap>, slope: PartialSlope, name: string)
    ensures |RowsWith(rows, Tyre(name))| >= 2 ==>
      DegradationOf(rows, Tyre(name), slope).value in Collect(CompoundsOf(rows), DegradationRow(rows, slope))
    ensures forall k :: 0 <= k < |Collect(CompoundsOf(rows), DegradationRow(rows, slope))| ==>
      var e := Collect(CompoundsOf(rows), DegradationRow(rows, slope))[k];
      e.stintLength >= 2 && e.stintLength == |RowsWith(rows, Tyre(e.compound))|
  {
    var f := DegradationRow(rows, slope);
    var cs := CompoundsOf(rows);
    if |RowsWith(rows, Tyre(name))| >= 2 {
      var l := RowsWith(rows, Tyre(name))[0];
      assert l in rows;
      var j :| 0 <= j < |rows| && rows[j] == l;
      assert Tyre(name) in cs;
    }
    CollectExactly(cs, f, Tyre(name));
    forall k | 0 <= k < |Collect(cs, f)|
      ensures Collect(cs, f)[k].stintLength >= 2
      ensures Collect(cs, f)[k].stintLength == |RowsWith(rows, Tyre(Collect(cs, f)[k].compound))|
    {
      var j :| 0 <= j < |cs| && f(cs[j]) == Some(Collect(cs, f)[k]);
      assert cs[j] == Tyre(Collect(cs, f)[k].compound);
    }
  }

  // ------------------------------------------------------------ overtaking patterns

  datatype Direction = PlacesGained | PlacesLost

  /** An entry of a driver's `overtakes` log. */
  datatype PositionEvent = PositionEvent(lap: int, positions: nat, kind: Direction)

  datatype OvertakingRecord = OvertakingRecord(
    positionsGained: nat,
    positionsLost: nat,
    overtakes: seq<PositionEvent>,
    netPositionChange: int)

  /** The places the `'gained'` entries of a log add up to. */
  function GainedIn(log: seq<PositionEvent>): nat
  {
    if log == [] then 0
    else GainedIn(log[..|log| - 1]) + (if log[|log| - 1].kind == PlacesGained then log[|log| - 1].positions else 0)
  }

  /** The places the `'lost'` entries of a log add up to. */
  function LostIn(log: seq<PositionEvent>): nat
  {
    if log == [] then 0
    else LostIn(log[..|log| - 1]) + (if log[|log| - 1].kind == PlacesLost then log[|log| - 1].positions else 0)
  }

  /** Lap `n` compares driver `d` with the lap before: a lap after the first
      with more than one row, on which the driver has a row, and a row on
      the lap before. */
  predicate Compared(laps: seq<Lap>, d: string, n: int)
  {
    n > 1 && CountWhere(laps, OnLap(n)) > 1 && FirstRow(laps, d, n).Some? && FirstRow(laps, d, n - 1).Some?
  }

  /** `prev_pos - current_pos`, None when either position is NaN. */
  function ChangeAt(laps: seq<Lap>, d: string, n: int): Option<int>
    requires Compared(laps, d, n)
  {
    var cur := FirstRow(laps, d, n).value.position;
    var prev := FirstRow(laps, d, n - 1).value.position;
    if cur.Some? && prev.Some? then Some(prev.value - cur.value) else None
  }

  /** The log entry lap `n` adds for driver `d`: one for a non-zero change. */
  function EventAt(laps: seq<Lap>, d: string, n: int): seq<PositionEvent>
  {
    if !Compared(laps, d, n) then []
    else
      match ChangeAt(laps, d, n)
      case Some(c) => if c > 0 then [PositionEvent(n, c, PlacesGained)] else if c < 0 then [PositionEvent(n, -c, PlacesLost)] else []
      case None => []
  }

  /** The log of driver `d` over laps 1..n. */
  function Events(laps: seq<Lap>, d: string, n: int): seq<PositionEvent>
    decreases n
  {
    if n < 1 then [] else Events(laps, d, n - 1) + EventAt(laps, d, n)
  }

  /** Some lap in 1..n compares driver `d`: the driver then has a record. */
  predicate EverCompared(laps: seq<Lap>, d: string, n: int)
    decreases n
  {
    n >= 1 && (EverCompared(laps, d, n - 1) || Compared(laps, d, n))
  }

  /** A driver's record after lap n of the first pass, net change not yet set. */
  function Running(laps: seq<Lap>, d: string, n: int): OvertakingRecord
  {
    var log := Events(laps, d, n);
    OvertakingRecord(GainedIn(log), LostIn(log), log, 0)
  }

  /** A driver's record once the second pass has set the net change. */
  function Final(laps: seq<Lap>, d: string): OvertakingRecord
    requires laps != []
  {
    var log := Events(laps, d, MaxLapNumber(laps));
    OvertakingRecord(GainedIn(log), LostIn(log), log, GainedIn(log) - LostIn(log))
  }

  lemma {:induction false} EverComparedExactly(laps: seq<Lap>, d: string, n: int)
    ensures EverCompared(laps, d, n) <==> exists m :: 1 <= m <= n && Compared(laps, d, m)
    decreases n
  {
    if n >= 1 {
      EverComparedExactly(laps, d, n - 1);
      if Compared(laps, d, n) {
        assert 1 <= n <= n && Compared(laps, d, n);
      }
      if exists m :: 1 <= m <= n && Compared(laps, d, m) {
        var m :| 1 <= m <= n && Compared(laps, d, m);
        if m < n {
          assert 1 <= m <= n - 1 && Compared(laps, d, m);
        }
      }
    }
  }

  /** A driver no lap compares has an empty log. */
  lemma {:induction false} NeverComparedEmpty(laps: seq<Lap>, d: string, n: int)
    requires !EverCompared(laps, d, n)
    ensures Events(laps, d, n) == []
    decreases n
  {
    if n >= 1 {
      NeverComparedEmpty(laps, d, n - 1);
    }
  }

  /** The entry a lap adds, if any, is for that lap, a positive number of
      places and the sign of that lap's change. */
  lemma {:induction false} EventAtSound(laps: seq<Lap>, d: string, n: int)
    ensures |EventAt(laps, d, n)| <= 1
    ensures EventAt(laps, d, n) != [] ==>
      var e := EventAt(laps, d, n)[0];
      && e.lap == n && e.positions > 0 && Compared(laps, d, n)
      && ChangeAt(laps, d, n) == Some(if e.kind == PlacesGained then e.positions as int else -(e.positions as int))
  {
  }

  /** Every entry of `log` records a compared lap in 2..n, a positive
      number of places and the sign of that lap's change, and the entries
      are in increasing lap order. */
  predicate LogSound(laps: seq<Lap>, d: string, log: seq<PositionEvent>, n: int)
  {
    && (forall k :: 0 <= k < |log| ==>
      && 1 < log[k].lap <= n && log[k].positions > 0 && Compared(laps, d, log[k].lap)
      && ChangeAt(laps, d, log[k].lap) == Some(if log[k].kind == PlacesGained then log[k].positions as int else -(log[k].positions as int)))
    && (forall k :: 0 <= k < |log| - 1 ==> log[k].lap < log[k + 1].lap)
  }

  lemma {:induction false} EventsSound(laps: seq<Lap>, d: string, n: int)
    ensures LogSound(laps, d, Events(laps, d, n), n)
    decreases n
  {
    if n >= 1 {
      EventsSound(laps, d, n - 1);
      var prev := Events(laps, d, n - 1);
      assert Events(laps, d, n) == prev + EventAt(laps, d, n);
      LogSoundAppend(laps, d, prev, n);
    }
  }

  /** A sound log up to lap n - 1 stays sound with lap n's entry added. */
  lemma {:induction false} LogSoundAppend(laps: seq<Lap>, d: string, prev: seq<PositionEvent>, n: int)
    requires LogSound(laps, d, prev, n - 1)
    ensures LogSound(laps, d, prev + EventAt(laps, d, n), n)
  {
    EventAtSound(laps, d, n);
    var ev := EventAt(laps, d, n);
    if ev == [] {
      assert prev + ev == prev;
      LogSoundWiden(laps, d, prev, n);
    } else {
      assert ev == [ev[0]];
      LogSoundSnoc(laps, d, prev, ev[0], n);
    }
  }

  lemma {:induction false} LogSoundWiden(laps: seq<Lap>, d: string, log: seq<PositionEvent>, n: int)
    requires LogSound(laps, d, log, n - 1)
    ensures LogSound(laps, d, log, n)
  {
  }

  lemma {:induction false} LogSoundSnoc(laps: seq<Lap>, d: string, prev: seq<PositionEvent>, e: PositionEvent, n: int)
    requires LogSound(laps, d, prev, n - 1)
    requires e.lap == n && e.positions > 0 && Compared(laps, d, n)
    requires ChangeAt(laps, d, n) == Some(if e.kind == PlacesGained then e.positions as int else -(e.positions as int))
    ensures LogSound(laps, d, prev + [e], n)
  {
    var log := prev + [e];
    forall k | 0 <= k < |log|
      ensures 1 < log[k].lap <= n && log[k].positions > 0 && Compared(laps, d, log[k].lap)
      ensures ChangeAt(laps, d, log[k].lap) == Some(if log[k].kind == PlacesGained then log[k].positions as int else -(log[k].positions as int))
    {
      if k < |prev| {
        assert log[k] == prev[k];
      }
    }
    forall k | 0 <= k < |log| - 1
      ensures log[k].lap < log[k + 1].lap
    {
      assert log[k] == prev[k];
      if k + 1 < |prev| {
        assert log[k + 1] == prev[k + 1];
      }
    }
  }

  /** Every lap that compares a driver with a non-zero change is logged. */
  lemma {:induction false} EventsComplete(laps: seq<Lap>, d: string, n: int, m: int)
    requires 1 < m <= n && Compared(laps, d, m)
    requires ChangeAt(laps, d, m).Some? && ChangeAt(laps, d, m).value != 0
    ensures exists k :: 0 <= k < |Events(laps, d, n)| && Events(laps, d, n)[k].lap == m
    decreases n
  {
    var prev := Events(laps, d, n - 1);
    assert Events(laps, d, n) == prev + EventAt(laps, d, n);
    if m < n {
      EventsComplete(laps, d, n - 1, m);
      var k :| 0 <= k < |prev| && prev[k].lap == m;
      assert Events(laps, d, n)[k] == prev[k];
    } else {
      EventAtComplete(laps, d, n);
      assert Events(laps, d, n)[|prev|] == EventAt(laps, d, n)[0];
    }
  }

  /** A compared lap with a non-zero change logs one entry for that lap. */
  lemma EventAtComplete(laps: seq<Lap>, d: string, n: int)
    requires Compared(laps, d, n) && ChangeAt(laps, d, n).Some? && ChangeAt(laps, d, n).value != 0
    ensures |EventAt(laps, d, n)| == 1 && EventAt(laps, d, n)[0].lap == n
  {
  }

  lemma {:induction false} GainedInAppend(log: seq<PositionEvent>, e: PositionEvent)
    ensures GainedIn(log + [e]) == GainedIn(log) + (if e.kind == PlacesGained then e.positions else 0)
    ensures LostIn(log + [e]) == LostIn(log) + (if e.kind == PlacesLost then e.positions else 0)
  {
    assert (log + [e])[..|log|] == log;
  }

  /** A lap that does not compare a driver leaves its record as it was. */
  lemma {:induction false} Unchanged(laps: seq<Lap>, d: string, n: int)
    requires !Compared(laps, d, n)
    ensures Running(laps, d, n) == Running(laps, d, n - 1)
    ensures EverCompared(laps, d, n) == EverCompared(laps, d, n - 1)
  {
    if n >= 1 {
      assert EventAt(laps, d, n) == [];
      assert Events(laps, d, n) == Events(laps, d, n - 1) + [] == Events(laps, d, n - 1);
      assert EverCompared(laps, d, n) == (EverCompared(laps, d, n - 1) || Compared(laps, d, n));
    } else {
      assert !EverCompared(laps, d, n) && !EverCompared(laps, d, n - 1);
      assert Events(laps, d, n) == [] == Events(laps, d, n - 1);
    }
  }

  /** One driver's comparison on lap n, given its first row on the lap and
      its first row on the lap before, if any: a record is created for a
      driver who has a row on the lap before, and a non-zero change is
      added to the places gained or lost and logged. */
  method CompareDriver(running: map<string, OvertakingRecord>, laps: seq<Lap>, n: int, d: string, cur: Lap, prev: Option<Lap>)
    returns (next: map<string, OvertakingRecord>)
    requires n > 1 && CountWhere(laps, OnLap(n)) > 1
    requires FirstRow(laps, d, n) == Some(cur) && FirstRow(laps, d, n - 1) == prev
    requires d in running <==> EverCompared(laps, d, n - 1)
    requires d in running ==> running[d] == Running(laps, d, n - 1)
    ensures Compared(laps, d, n) ==> next == running[d := Running(laps, d, n)]
    ensures !Compared(laps, d, n) ==> next == running
  {
    next := running;
    if prev.Some? {
      assert Compared(laps, d, n);
      var log := Events(laps, d, n - 1);
      if d !in running {
        NeverComparedEmpty(laps, d, n - 1);
      }
      var r := if d in running then running[d] else OvertakingRecord(0, 0, [], 0);
      assert r == OvertakingRecord(GainedIn(log), LostIn(log), log, 0);
      assert Events(laps, d, n) == log + EventAt(laps, d, n);
      if cur.position.Some? && prev.value.position.Some? {
        var change := prev.value.position.value - cur.position.value;
        assert ChangeAt(laps, d, n) == Some(change);
        if change > 0 {
          var e := PositionEvent(n, change, PlacesGained);
          assert EventAt(laps, d, n) == [e];
          GainedInAppend(log, e);
          r := r.(positionsGained := r.positionsGained + change, overtakes := r.overtakes + [e]);
        } else if change < 0 {
          var e := PositionEvent(n, -change, PlacesLost);
          assert EventAt(laps, d, n) == [e];
          GainedInAppend(log, e);
          r := r.(positionsLost := r.positionsLost + (-change), overtakes := r.overtakes + [e]);
        } else {
          assert EventAt(laps, d, n) == [];
          assert log + [] == log;
        }
      } else {
        assert ChangeAt(laps, d, n).None?;
        assert EventAt(laps, d, n) == [];
        assert log + [] == log;
      }
      assert r == Running(laps, d, n);
      next := running[d := r];
    }
  }

  /** The first row of a driver in the rows of one lap, as `iloc[0]` takes it. */
  function FirstOf(rows: seq<Lap>): Option<Lap>
  {
    if rows == [] then None else Some(rows[0])
  }

  /** The records after lap n - 1, with the drivers in `seen` also compared
      on lap n. */
  ghost predicate ComparedAmong(m: map<string, OvertakingRecord>, laps: seq<Lap>, n: int, seen: seq<string>)
  {
    && (forall d :: d in m <==> EverCompared(laps, d, n - 1) || (d in seen && Compared(laps, d, n)))
    && (forall d :: d in m ==> m[d] == (if d in seen then Running(laps, d, n) else Running(laps, d, n - 1)))
  }

  /** Comparing one more driver, not seen before, extends the drivers seen. */
  lemma {:induction false} CompareAmongStep(before: map<string, OvertakingRecord>, next: map<string, OvertakingRecord>, laps: seq<Lap>, n: int, seen: seq<string>, d: string)
    requires ComparedAmong(before, laps, n, seen) && d !in seen
    requires Compared(laps, d, n) ==> next == before[d := Running(laps, d, n)]
    requires !Compared(laps, d, n) ==> next == before && Running(laps, d, n) == Running(laps, d, n - 1)
    ensures ComparedAmong(next, laps, n, seen + [d])
  {
    var seen' := seen + [d];
    forall x
      ensures x in next <==> EverCompared(laps, x, n - 1) || (x in seen' && Compared(laps, x, n))
      ensures x in next ==> next[x] == (if x in seen' then Running(laps, x, n) else Running(laps, x, n - 1))
    {
      assert x in seen' <==> x in seen || x == d;
      if x != d {
        assert x in next <==> x in before;
        assert x in next ==> next[x] == before[x];
      }
    }
  }

  /** The drivers of lap n compared in order, each on its first row on the
      lap and its first row on the lap before. */
  method CompareDrivers(running: map<string, OvertakingRecord>, laps: seq<Lap>, n: int, lapData: seq<Lap>, prevLap: seq<Lap>, ds: seq<string>)
    returns (next: map<string, OvertakingRecord>)
    requires n > 1 && lapData == LapRows(laps, n) && prevLap == LapRows(laps, n - 1) && |lapData| > 1
    requires ds == Drivers(lapData)
    requires forall d :: d in running <==> EverCompared(laps, d, n - 1)
    requires forall d :: d in running ==> running[d] == Running(laps, d, n - 1)
    ensures forall d :: d in next <==> EverCompared(laps, d, n - 1) || (d in ds && Compared(laps, d, n))
    ensures forall d :: d in next ==> next[d] == (if d in ds then Running(laps, d, n) else Running(laps, d, n - 1))
  {
    next := running;
    assert ComparedAmong(next, laps, n, ds[..0]);
    for j := 0 to |ds|
      invariant ComparedAmong(next, laps, n, ds[..j])
    {
      var d := ds[j];
      assert ds[..j + 1] == ds[..j] + [d];
      assert d !in ds[..j];
      var cur := LapsOf(d, lapData);
      var prev := FirstOf(LapsOf(d, prevLap));
      FirstRowOf(laps, d, n);
      FirstRowOf(laps, d, n - 1);
      var before := next;
      next := CompareDriver(next, laps, n, d, cur[0], prev);
      if !Compared(laps, d, n) {
        Unchanged(laps, d, n);
      }
      CompareAmongStep(before, next, laps, n, ds[..j], d);
    }
    assert ds[..|ds|] == ds;
  }

  /** Lap n of the first pass: every driver with a row on it is compared. */
  method CompareLap(running: map<string, OvertakingRecord>, laps: seq<Lap>, n: int)
    returns (next: map<string, OvertakingRecord>)
    requires forall d :: d in running <==> EverCompared(laps, d, n - 1)
    requires forall d :: d in running ==> running[d] == Running(laps, d, n - 1)
    ensures forall d :: d in next <==> EverCompared(laps, d, n)
    ensures forall d :: d in next ==> next[d] == Running(laps, d, n)
  {
    next := running;
    var lapData := LapRows(laps, n);
    if |lapData| > 1 && n > 1 {
      var prevLap := LapRows(laps, n - 1);
      var ds := Drivers(lapData);
      next := CompareDrivers(next, laps, n, lapData, prevLap, ds);
      forall d
        ensures EverCompared(laps, d, n) == (EverCompared(laps, d, n - 1) || (d in ds && Compared(laps, d, n)))
        ensures d !in ds ==> Running(laps, d, n) == Running(laps, d, n - 1)
      {
        if d !in ds {
          DriversComplete(lapData, d);
          FirstRowOf(laps, d, n);
          Unchanged(laps, d, n);
        }
      }
    } else {
      forall d
        ensures EverCompared(laps, d, n) == EverCompared(laps, d, n - 1)
        ensures Running(laps, d, n) == Running(laps, d, n - 1)
      {
        Unchanged(laps, d, n);
      }
    }
  }

  /** The first pass of `analyze_overtaking_patterns`: laps 1 to `maxLap`
      compared in turn. */
  method FirstPass(laps: seq<Lap>, maxLap: int) returns (running: map<string, OvertakingRecord>)
    ensures forall d :: d in running <==> EverCompared(laps, d, maxLap)
    ensures forall d :: d in running ==> running[d] == Running(laps, d, maxLap)
  {
    running := map[];
    var n := 1;
    while n <= maxLap
      invariant n <= maxLap + 1 || (n == 1 && maxLap < 1)
      invariant forall d :: d in running <==> EverCompared(laps, d, n - 1)
      invariant forall d :: d in running ==> running[d] == Running(laps, d, n - 1)
      decreases maxLap - n
    {
      running := CompareLap(running, laps, n);
      n := n + 1;
    }
    if maxLap < 1 {
      forall d
        ensures !EverCompared(laps, d, maxLap) && !EverCompared(laps, d, 0)
      {
      }
      assert running == map[];
    }
  }

  /** `analyze_overtaking_patterns`: None for an empty session; otherwise a
      record for exactly the drivers some lap compares, each holding its
      log, the places gained and lost it adds up to, and their difference. */
  method AnalyzeOvertakingPatterns(laps: seq<Lap>) returns (data: map<string, OvertakingRecord>)
    ensures laps == [] ==> data == map[]
    ensures laps != [] ==> forall d :: d in data <==> EverCompared(laps, d, MaxLapNumber(laps))
    ensures laps != [] ==> forall d :: d in data ==> data[d] == Final(laps, d)
  {
    if laps == [] {
      return map[];
    }
    var maxLap := MaxLapNumber(laps);
    var running := FirstPass(laps, maxLap);
    data := map d | d in running :: running[d].(netPositionChange := running[d].positionsGained - running[d].positionsLost);
  }
}
