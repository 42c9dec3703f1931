/** The lap table of a session (one row per driver and lap) as the
    analysers read it, and the selections they all make from it. */
module Laps {

  import opened Common

  /** One row of the lap table. A missing lap time (NaT), position (NaN) or
      sector time is None; a missing compound is Compound.Missing. */
  datatype Lap = Lap(
    driver: string,
    lapNumber: int,
    lapTime: Option<Seconds>,
    compound: Compound,
    position: Option<int>,
    sector1: Option<Seconds>,
    sector2: Option<Seconds>,
    sector3: Option<Seconds>)

  /** `pick_drivers([d])`: the rows of one driver, in table order. */
  function LapsOf(d: string, laps: seq<Lap>): (r: seq<Lap>)
    ensures |r| <= |laps|
    ensures forall i :: 0 <= i < |r| ==> r[i].driver == d && r[i] in laps
  {
    if laps == [] then []
    else (if laps[0].driver == d then [laps[0]] else []) + LapsOf(d, laps[1..])
  }

  lemma {:induction false} LapsOfComplete(d: string, laps: seq<Lap>, l: Lap)
    ensures l in LapsOf(d, laps) <==> l in laps && l.driver == d
  {
    if laps != [] {
      LapsOfComplete(d, laps[1..], l);
    }
  }

  /** The driver column in order of first appearance: `laps['Driver'].unique()`. */
  function Drivers(laps: seq<Lap>): (ds: seq<string>)
    ensures forall i :: 0 <= i < |ds| ==> LapsOf(ds[i], laps) != []
    ensures NoDuplicates(ds)
  {
    var all := seq(|laps|, i requires 0 <= i < |laps| => laps[i].driver);
    var ds := Unique(all);
    forall i | 0 <= i < |ds|
      ensures LapsOf(ds[i], laps) != []
    {
      assert ds[i] in all;
      var j :| 0 <= j < |laps| && all[j] == ds[i];
      LapsOfComplete(ds[i], laps, laps[j]);
    }
    ds
  }

  /** Every driver with a row is listed. */
  lemma {:induction false} DriversComplete(laps: seq<Lap>, d: string)
    ensures d in Drivers(laps) <==> LapsOf(d, laps) != []
  {
    var all := seq(|laps|, i requires 0 <= i < |laps| => laps[i].driver);
    if LapsOf(d, laps) != [] {
      var l := LapsOf(d, laps)[0];
      LapsOfComplete(d, laps, l);
      var j :| 0 <= j < |laps| && laps[j] == l;
      assert all[j] == d;
    }
  }

  /** The highest lap number in a non-empty lap table. */
  function MaxLapNumber(laps: seq<Lap>): (m: int)
    requires laps != []
    ensures forall i :: 0 <= i < |laps| ==> laps[i].lapNumber <= m
    ensures exists i :: 0 <= i < |laps| && laps[i].lapNumber == m
  {
    if |laps| == 1 then laps[0].lapNumber
    else
      var rest := MaxLapNumber(laps[1..]);
      assert forall i :: 1 <= i < |laps| ==> laps[i] == laps[1..][i - 1];
      if laps[0].lapNumber >= rest then laps[0].lapNumber else rest
  }

  function OnLap(n: int): Lap -> bool
  {
    (l: Lap) => l.lapNumber == n
  }

  /** The rows of one lap, `laps[laps['LapNumber'] == n]`, in table order. */
  function LapRows(laps: seq<Lap>, n: int): (rows: seq<Lap>)
    ensures |rows| == CountWhere(laps, OnLap(n))
    ensures forall i :: 0 <= i < |rows| ==> rows[i].lapNumber == n
  {
    Filter(laps, OnLap(n))
  }

  /** The first row of driver `d` on lap `n`, if there is one. */
  function FirstRow(laps: seq<Lap>, d: string, n: int): Option<Lap>
  {
    if laps == [] then None
    else if laps[0].driver == d && laps[0].lapNumber == n then Some(laps[0])
    else FirstRow(laps[1..], d, n)
  }

  /** Selecting the lap and then the driver finds the same first row. */
  lemma {:induction false} FirstRowOf(laps: seq<Lap>, d: string, n: int)
    ensures LapsOf(d, LapRows(laps, n)) == [] <==> FirstRow(laps, d, n).None?
    ensures LapsOf(d, LapRows(laps, n)) != [] ==> LapsOf(d, LapRows(laps, n))[0] == FirstRow(laps, d, n).value
  {
    if laps != [] {
      FirstRowOf(laps[1..], d, n);
      var rest := LapRows(laps[1..], n);
      if laps[0].lapNumber == n {
        assert LapRows(laps, n) == [laps[0]] + rest;
        assert ([laps[0]] + rest)[1..] == rest;
      } else {
        assert LapRows(laps, n) == rest;
      }
    }
  }

  /** Sector time `k` (1, 2 or 3) of a row. */
  function SectorOf(l: Lap, k: nat): Option<Seconds>
  {
    if k == 1 then l.sector1 else if k == 2 then l.sector2 else l.sector3
  }

  /** The lap times of the rows that have one (`LapTime.dropna()`), in order. */
  function LapTimes(laps: seq<Lap>): (t: seq<real>)
    ensures |t| <= |laps|
    ensures forall i :: 0 <= i < |t| ==> t[i] > 0.0
  {
    if laps == [] then []
    else (if laps[0].lapTime.Some? then [laps[0].lapTime.value as real] else []) + LapTimes(laps[1..])
  }

  /** Row indices where the compound changes from the row before: with
      pandas' NaN, a missing compound on either side counts as a change. */
  function ChangeIndices(laps: seq<Lap>): (b: seq<nat>)
    ensures forall k :: 0 <= k < |b| ==> 1 <= b[k] < |laps|
    ensures forall k :: 0 <= k < |b| - 1 ==> b[k] < b[k + 1]
    ensures |laps| > 0 ==> |b| < |laps|
  {
    if |laps| < 2 then []
    else
      var n := |laps|;
      ChangeIndices(laps[..n - 1]) + (if Differs(laps[n - 2].compound, laps[n - 1].compound) then [n - 1] else [])
  }

  lemma {:induction false} ChangeIndicesExactly(laps: seq<Lap>, i: nat)
    ensures i in ChangeIndices(laps) <==> 1 <= i < |laps| && Differs(laps[i - 1].compound, laps[i].compound)
  {
    if |laps| >= 2 {
      ChangeIndicesExactly(laps[..|laps| - 1], i);
    }
  }

  /** Extending a prefix by one row adds that row's index exactly when its
      compound differs from the row before. */
  lemma {:induction false} ChangeIndicesStep(laps: seq<Lap>, i: nat)
    requires i < |laps|
    ensures ChangeIndices(laps[..i + 1]) ==
      ChangeIndices(laps[..i]) + (if i > 0 && Differs(laps[i - 1].compound, laps[i].compound) then [i] else [])
  {
    assert laps[..i + 1][..i] == laps[..i];
  }

  /** The first row of `rows` on lap `lap`, as `lap_data.iloc[0]` takes it. */
  function FirstAt(rows: seq<Lap>, lap: int): (r: Option<Lap>)
    ensures r.Some? ==> r.value in rows && r.value.lapNumber == lap
    ensures r.None? <==> forall j :: 0 <= j < |rows| ==> rows[j].lapNumber != lap
  {
    if rows == [] then None
    else if rows[0].lapNumber == lap then Some(rows[0])
    else
      var rest := FirstAt(rows[1..], lap);
      assert forall j :: 1 <= j < |rows| ==> rows[j] == rows[1..][j - 1];
      rest
  }

  /** The lap times of rows that all have one, in seconds. */
  function TimesOf(rows: seq<Lap>): (t: seq<real>)
    requires forall i :: 0 <= i < |rows| ==> rows[i].lapTime.Some?
    ensures |t| == |rows|
    ensures forall i :: 0 <= i < |t| ==> t[i] > 0.0
  {
    seq(|rows|, i requires 0 <= i < |rows| => rows[i].lapTime.value as real)
  }

  /** The lap-number column, as reals for a regression. */
  function LapNumbersOf(rows: seq<Lap>): (x: seq<real>)
    ensures |x| == |rows|
  {
    seq(|rows|, i requires 0 <= i < |rows| => rows[i].lapNumber as real)
  }

  /** The timed rows of one driver. */
  function TimedRows(d: string, laps: seq<Lap>): (rows: seq<Lap>)
    ensures forall i :: 0 <= i < |rows| ==> rows[i].lapTime.Some? && rows[i].driver == d
  {
    Filter(LapsOf(d, laps), (l: Lap) => l.lapTime.Some?)
  }

  /** The positions of the rows that have one (`Position.dropna()`). */
  function PositionsOf(rows: seq<Lap>): (p: seq<int>)
    ensures |p| <= |rows|
  {
    if rows == [] then []
    else (if rows[0].position.Some? then [rows[0].position.value] else []) + PositionsOf(rows[1..])
  }
}
