/** The track dominance map: the lap is cut into mini-sectors over the
    normalised distance, and each mini-sector is drawn in the colour of the
    driver with the highest mean speed through it. */
module TrackDominance {

  import opened Common
  import opened Telemetry

  // ---------------------------------------------------------------------
  // Normalised distance and mini-sectors
  // ---------------------------------------------------------------------

  /** `np.linspace(0, 1, n)`: n evenly spaced points from 0 to 1. */
  function Linspace(n: nat): (b: seq<real>)
    ensures |b| == n
  {
    seq(n, k requires 0 <= k < n => if n == 1 then 0.0 else k as real / (n - 1) as real)
  }

  lemma {:induction false} FractionStep(k: nat, m: nat)
    requires 0 < m && k < m
    ensures 0.0 <= k as real / m as real < (k + 1) as real / m as real <= 1.0
  {
    var q := k as real / m as real;
    var r := (k + 1) as real / m as real;
    assert q * m as real == k as real;
    assert r * m as real == (k + 1) as real;
    assert (r - q) * m as real == 1.0;
  }

  lemma {:induction false} FractionOrder(i: nat, j: nat, m: nat)
    requires 0 < m && i < j
    ensures i as real / m as real < j as real / m as real
  {
    var p := i as real / m as real;
    var q := j as real / m as real;
    assert p * m as real == i as real;
    assert q * m as real == j as real;
    assert (q - p) * m as real == (j - i) as real;
  }

  /** The points run from 0 to 1. */
  lemma {:induction false} LinspaceEnds(n: nat)
    ensures n > 0 ==> Linspace(n)[0] == 0.0
    ensures n > 1 ==> Linspace(n)[n - 1] == 1.0
    ensures forall k :: 0 <= k < n ==> 0.0 <= Linspace(n)[k] <= 1.0
  {
    var b := Linspace(n);
    if n > 1 {
      var m := (n - 1) as real;
      assert m >= 1.0;
      assert b[n - 1] == m / m == 1.0;
    }
    forall k | 0 <= k < n
      ensures 0.0 <= b[k] <= 1.0
    {
      if k + 1 < n {
        FractionStep(k, n - 1);
      }
    }
  }

  /** The points rise strictly. */
  lemma {:induction false} LinspaceIncreasing(n: nat)
    ensures forall i, j :: 0 <= i < j < n ==> Linspace(n)[i] < Linspace(n)[j]
  {
    var b := Linspace(n);
    forall i, j | 0 <= i < j < n
      ensures b[i] < b[j]
    {
      FractionOrder(i, j, n - 1);
    }
  }

  /** A normalised distance lies in mini-sector i, `[b[i], b[i + 1])`. */
  predicate InSegment(b: seq<real>, i: nat, v: real)
    requires i + 1 < |b|
  {
    b[i] <= v < b[i + 1]
  }

  /** The mini-sectors do not overlap. */
  lemma {:induction false} SegmentsDisjoint(n: nat, i: nat, j: nat, v: real)
    requires i < j && j + 1 < n
    ensures !(InSegment(Linspace(n), i, v) && InSegment(Linspace(n), j, v))
  {
    LinspaceIncreasing(n);
  }

  /** The end of the lap, normalised distance 1.0, lies in no mini-sector:
      the last one stops just short of it. */
  lemma {:induction false} EndOfLapInNoSegment(n: nat, i: nat)
    requires i + 1 < n
    ensures !InSegment(Linspace(n), i, 1.0)
  {
    LinspaceEnds(n);
    LinspaceIncreasing(n);
  }

  /** The indices of the `n - 1` mini-sectors between n points. */
  function Segments(n: nat): (s: seq<int>)
    ensures |s| == if n == 0 then 0 else n - 1
    ensures forall k :: 0 <= k < |s| ==> s[k] == k
  {
    var m := if n == 0 then 0 else n - 1;
    seq(m, k requires 0 <= k < m => k)
  }

  // ---------------------------------------------------------------------
  // Resampled driver telemetry
  // ---------------------------------------------------------------------

  /** A resampled lap: coordinates and speed at evenly spaced points. */
  datatype Path = Path(x: seq<real>, y: seq<real>, speed: seq<real>)

  type Resampled = p: Path | |p.x| == |p.y| == |p.speed| witness Path([], [], [])

  /** The interpolation of a lap's coordinates and speed onto a common set
      of points (cubic and linear interpolation, left to a parameter). */
  type Resampler = Trace -> Resampled

  /** The normalised distance of each resampled point. */
  function Distance(p: Resampled): (d: seq<real>)
    ensures |d| == |p.x|
  {
    Linspace(|p.x|)
  }

  /** One entry of `driver_telemetry`. */
  datatype Entry = Entry(driver: string, path: Resampled)

  predicate HasTrackChannels(t: Trace)
  {
    t.x.Some? && t.y.Some? && t.speed.Some?
  }

  function Usable(data: map<string, Trace>): string -> bool
  {
    d => d in data && HasTrackChannels(data[d])
  }

  function Keys(entries: seq<Entry>): (ks: seq<string>)
    ensures |ks| == |entries|
    ensures forall k :: 0 <= k < |entries| ==> ks[k] == entries[k].driver
  {
    seq(|entries|, k requires 0 <= k < |entries| => entries[k].driver)
  }

  /** `driver_telemetry` after the requested drivers: a driver with
      telemetry holding X, Y and Speed gets an entry, kept at the place of
      its first request (a repeated request stores the same value again). */
  function TrackEntries(drivers: seq<string>, data: map<string, Trace>, resample: Resampler): (entries: seq<Entry>)
    ensures forall k :: 0 <= k < |entries| ==> entries[k].driver in data && entries[k].path == resample(data[entries[k].driver])
  {
    if drivers == [] then []
    else
      var prev := TrackEntries(drivers[..|drivers| - 1], data, resample);
      var d := drivers[|drivers| - 1];
      if Usable(data)(d) && d !in Keys(prev) then prev + [Entry(d, resample(data[d]))] else prev
  }

  /** The entries are the usable requested drivers in order of first
      request, each once: pandas' `unique` of the filtered request list. */
  lemma {:induction false} TrackEntriesOrder(drivers: seq<string>, data: map<string, Trace>, resample: Resampler)
    ensures Keys(TrackEntries(drivers, data, resample)) == Unique(Filter(drivers, Usable(data)))
  {
    if drivers != [] {
      var init := drivers[..|drivers| - 1];
      var d := drivers[|drivers| - 1];
      assert drivers == init + [d];
      FilterSnoc(init, d, Usable(data));
      TrackEntriesOrder(init, data, resample);
      var prev := TrackEntries(init, data, resample);
      var before := Filter(init, Usable(data));
      assert Keys(prev) == Unique(before);
      if Usable(data)(d) {
        assert Filter(drivers, Usable(data)) == before + [d];
        UniqueSnoc(before, d);
        if d in Keys(prev) {
          assert TrackEntries(drivers, data, resample) == prev;
        } else {
          var e := Entry(d, resample(data[d]));
          assert TrackEntries(drivers, data, resample) == prev + [e];
          KeysSnoc(prev, e);
        }
      } else {
        assert Filter(drivers, Usable(data)) == before;
        assert TrackEntries(drivers, data, resample) == prev;
      }
    }
  }

  lemma {:induction false} KeysSnoc(entries: seq<Entry>, e: Entry)
    ensures Keys(entries + [e]) == Keys(entries) + [e.driver]
  {
  }

  /** `driver_telemetry` holds exactly the requested drivers whose
      telemetry has X, Y and Speed, once each. */
  lemma {:induction false} TrackEntriesExactly(drivers: seq<string>, data: map<string, Trace>, resample: Resampler, d: string)
    ensures d in Keys(TrackEntries(drivers, data, resample)) <==> d in drivers && d in data && HasTrackChannels(data[d])
    ensures NoDuplicates(Keys(TrackEntries(drivers, data, resample)))
  {
    TrackEntriesOrder(drivers, data, resample);
    FilterComplete(drivers, Usable(data), d);
  }

  /** The loop that fills `driver_telemetry`. */
  method PrepareTelemetry(drivers: seq<string>, data: map<string, Trace>, resample: Resampler) returns (entries: seq<Entry>)
    ensures entries == TrackEntries(drivers, data, resample)
  {
    entries := [];
    for i := 0 to |drivers|
      invariant entries == TrackEntries(drivers[..i], data, resample)
    {
      assert drivers[..i + 1][..i] == drivers[..i];
      var d := drivers[i];
      if d in data && HasTrackChannels(data[d]) {
        var e := Entry(d, resample(data[d]));
        if d in Keys(entries) {
          var j :| 0 <= j < |entries| && entries[j].driver == d;
          entries := entries[j := e];
        } else {
          entries := entries + [e];
        }
      }
    }
    assert drivers[..|drivers|] == drivers;
  }

  // ---------------------------------------------------------------------
  // The fastest driver of a mini-sector
  // ---------------------------------------------------------------------

  /** The values at the points whose distance lies in `[lo, hi)`: a boolean
      mask applied to a column. */
  function Masked(values: seq<real>, dist: seq<real>, lo: real, hi: real): (r: seq<real>)
    requires |values| == |dist|
    ensures |r| <= |values|
  {
    if values == [] then []
    else (if lo <= dist[0] < hi then [values[0]] else []) + Masked(values[1..], dist[1..], lo, hi)
  }

  /** A mask selects a point exactly when some distance lies in the range. */
  lemma {:induction false} MaskedEmpty(values: seq<real>, dist: seq<real>, lo: real, hi: real)
    requires |values| == |dist|
    ensures Masked(values, dist, lo, hi) == [] <==> forall k :: 0 <= k < |dist| ==> !(lo <= dist[k] < hi)
  {
    if values != [] {
      MaskedEmpty(values[1..], dist[1..], lo, hi);
      assert forall k :: 1 <= k < |dist| ==> dist[k] == dist[1..][k - 1];
    }
  }

  /** The mean speed of a driver through `[lo, hi)`; None when no point of
      the driver lies there. */
  function SegmentMean(p: Resampled, lo: real, hi: real): Option<real>
  {
    var s := Masked(p.speed, Distance(p), lo, hi);
    if s == [] then None else Some(Mean(s))
  }

  /** The drawn trace of a mini-sector: its winner, the winning speed and
      the winner's masked coordinates. */
  datatype Lead = Lead(driver: string, speed: real, x: seq<real>, y: seq<real>)

  function LeadOf(e: Entry, speed: real, lo: real, hi: real): Lead
  {
    Lead(e.driver, speed, Masked(e.path.x, Distance(e.path), lo, hi), Masked(e.path.y, Distance(e.path), lo, hi))
  }

  /** The speed to beat: `fastest_speed` starts at -1. */
  function Best(l: Option<Lead>): real
  {
    if l.Some? then l.value.speed else -1.0
  }

  /** The running maximum over the entries in order: a driver takes the
      lead only with a strictly greater mean speed. */
  function Fastest(entries: seq<Entry>, lo: real, hi: real): Option<Lead>
  {
    if entries == [] then None
    else
      var prev := Fastest(entries[..|entries| - 1], lo, hi);
      var e := entries[|entries| - 1];
      var m := SegmentMean(e.path, lo, hi);
      if m.Some? && m.value > Best(prev) then Some(LeadOf(e, m.value, lo, hi)) else prev
  }

  /** Entry k wins with lead l: its mean speed is l's, above -1, strictly
      above every earlier entry's and at least every later one's. */
  predicate WinsAt(entries: seq<Entry>, lo: real, hi: real, k: nat, l: Lead)
  {
    && k < |entries|
    && SegmentMean(entries[k].path, lo, hi) == Some(l.speed)
    && l == LeadOf(entries[k], l.speed, lo, hi)
    && l.speed > -1.0
    && (forall j :: 0 <= j < k && SegmentMean(entries[j].path, lo, hi).Some? ==> SegmentMean(entries[j].path, lo, hi).value < l.speed)
    && (forall j :: k < j < |entries| && SegmentMean(entries[j].path, lo, hi).Some? ==> SegmentMean(entries[j].path, lo, hi).value <= l.speed)
  }

  /** The winner of a mini-sector is the first entry with the greatest mean
      speed there; there is none exactly when no entry has a point in it
      with a mean speed above -1. */
  lemma {:induction false} FastestIsFirstMaximum(entries: seq<Entry>, lo: real, hi: real)
    ensures Fastest(entries, lo, hi).None? <==>
      forall j :: 0 <= j < |entries| && SegmentMean(entries[j].path, lo, hi).Some? ==> SegmentMean(entries[j].path, lo, hi).value <= -1.0
    ensures Fastest(entries, lo, hi).Some? ==> exists k :: WinsAt(entries, lo, hi, k, Fastest(entries, lo, hi).value)
  {
    if entries != [] {
      var n := |entries|;
      var init := entries[..n - 1];
      FastestIsFirstMaximum(init, lo, hi);
      var prev := Fastest(init, lo, hi);
      var m := SegmentMean(entries[n - 1].path, lo, hi);
      var r := Fastest(entries, lo, hi);
      if prev.Some? {
        var k0 :| WinsAt(init, lo, hi, k0, prev.value);
        WinsAtBound(init, lo, hi, k0, prev.value);
        if m.Some? && m.value > prev.value.speed {
          WinsAtLast(entries, init, lo, hi, r.value);
        } else {
          WinsAtExtend(entries, lo, hi, k0, r.value);
        }
      } else {
        AllAtMostSplit(entries, init, lo, hi, -1.0);
        if m.Some? && m.value > -1.0 {
          WinsAtLast(entries, init, lo, hi, r.value);
        }
      }
    }
  }

  /** The winner's speed bounds every entry's mean. */
  lemma {:induction false} WinsAtBound(entries: seq<Entry>, lo: real, hi: real, k: nat, l: Lead)
    requires WinsAt(entries, lo, hi, k, l)
    ensures forall j :: 0 <= j < |entries| && SegmentMean(entries[j].path, lo, hi).Some? ==>
      SegmentMean(entries[j].path, lo, hi).value <= l.speed
  {
  }

  /** "Every mean is at most b" splits into the front and the last entry. */
  lemma {:induction false} AllAtMostSplit(entries: seq<Entry>, init: seq<Entry>, lo: real, hi: real, b: real)
    requires entries != [] && init == entries[..|entries| - 1]
    ensures (forall j :: 0 <= j < |entries| && SegmentMean(entries[j].path, lo, hi).Some? ==>
               SegmentMean(entries[j].path, lo, hi).value <= b)
      <==> (forall j :: 0 <= j < |init| && SegmentMean(init[j].path, lo, hi).Some? ==>
               SegmentMean(init[j].path, lo, hi).value <= b)
           && (SegmentMean(entries[|entries| - 1].path, lo, hi).Some? ==> SegmentMean(entries[|entries| - 1].path, lo, hi).value <= b)
  {
    assert forall j :: 0 <= j < |init| ==> init[j] == entries[j];
  }

  /** A last entry faster than every earlier one wins. */
  lemma {:induction false} WinsAtLast(entries: seq<Entry>, init: seq<Entry>, lo: real, hi: real, l: Lead)
    requires entries != [] && init == entries[..|entries| - 1]
    requires SegmentMean(entries[|entries| - 1].path, lo, hi) == Some(l.speed)
    requires l == LeadOf(entries[|entries| - 1], l.speed, lo, hi) && l.speed > -1.0
    requires forall j :: 0 <= j < |init| && SegmentMean(init[j].path, lo, hi).Some? ==>
      SegmentMean(init[j].path, lo, hi).value < l.speed
    ensures WinsAt(entries, lo, hi, |entries| - 1, l)
  {
    assert forall j :: 0 <= j < |init| ==> init[j] == entries[j];
  }

  /** A winner of the front stays the winner when the last entry is no faster. */
  lemma {:induction false} WinsAtExtend(entries: seq<Entry>, lo: real, hi: real, k: nat, l: Lead)
    requires entries != []
    requires WinsAt(entries[..|entries| - 1], lo, hi, k, l)
    requires SegmentMean(entries[|entries| - 1].path, lo, hi).Some? ==> SegmentMean(entries[|entries| - 1].path, lo, hi).value <= l.speed
    ensures WinsAt(entries, lo, hi, k, l)
  {
    var init := entries[..|entries| - 1];
    assert forall j :: 0 <= j < |init| ==> init[j] == entries[j];
  }

  /** The inner loop of the map: the running maximum over `driver_telemetry`
      in insertion order, kept in `fastest_speed`, `fastest_driver` and
      `fastest_sector_data`. */
  method FastestInSegment(entries: seq<Entry>, lo: real, hi: real) returns (fastest: Option<Lead>)
    ensures fastest == Fastest(entries, lo, hi)
  {
    var fastestDriver: Option<string> := None;
    var fastestSpeed := -1.0;
    var fastestData: Option<(seq<real>, seq<real>)> := None;
    for k := 0 to |entries|
      invariant fastestDriver.Some? == fastestData.Some? == Fastest(entries[..k], lo, hi).Some?
      invariant fastestSpeed == Best(Fastest(entries[..k], lo, hi))
      invariant Fastest(entries[..k], lo, hi).Some? ==>
        var l := Fastest(entries[..k], lo, hi).value;
        fastestDriver.value == l.driver && fastestData.value == (l.x, l.y)
    {
      assert entries[..k + 1][..k] == entries[..k];
      var e := entries[k];
      var dist := Distance(e.path);
      var speeds := Masked(e.path.speed, dist, lo, hi);
      if speeds != [] {
        var meanSpeed := Mean(speeds);
        if meanSpeed > fastestSpeed {
          fastestSpeed := meanSpeed;
          fastestDriver := Some(e.driver);
          fastestData := Some((Masked(e.path.x, dist, lo, hi), Masked(e.path.y, dist, lo, hi)));
        }
      }
    }
    assert entries[..|entries|] == entries;
    if fastestData.Some? && fastestDriver.Some? {
      fastest := Some(Lead(fastestDriver.value, fastestSpeed, fastestData.value.0, fastestData.value.1));
    } else {
      fastest := None;
    }
  }

  // ---------------------------------------------------------------------
  // The map
  // ---------------------------------------------------------------------

  /** The trace of mini-sector i between the points `b`, if it has a winner. */
  function SegmentRow(entries: seq<Entry>, b: seq<real>): int -> Option<Lead>
  {
    i => if 0 <= i && i + 1 < |b| then Fastest(entries, b[i], b[i + 1]) else None
  }

  /** The mini-sector loop: one trace per mini-sector that has a winner, in
      track order. */
  method DominanceTraces(entries: seq<Entry>, n: nat) returns (traces: seq<Lead>)
    ensures traces == Collect(Segments(n), SegmentRow(entries, Linspace(n)))
  {
    var b := Linspace(n);
    var segments := Segments(n);
    traces := [];
    for i := 0 to |segments|
      invariant traces == Collect(segments[..i], SegmentRow(entries, b))
    {
      CollectStep(segments, SegmentRow(entries, b), i);
      var lead := FastestInSegment(entries, b[i], b[i + 1]);
      if lead.Some? {
        traces := traces + [lead.value];
      }
    }
    assert segments[..|segments|] == segments;
  }

  /** A mini-sector that no driver has a point in contributes no trace, and
      a trace comes from a mini-sector whose winner it names. */
  lemma {:induction false} EmptySegmentNoTrace(entries: seq<Entry>, n: nat, i: nat)
    requires i + 1 < n
    requires forall k :: 0 <= k < |entries| ==> SegmentMean(entries[k].path, Linspace(n)[i], Linspace(n)[i + 1]).None?
    ensures SegmentRow(entries, Linspace(n))(i).None?
  {
    var b := Linspace(n);
    FastestIsFirstMaximum(entries, b[i], b[i + 1]);
  }

  lemma {:induction false} NoDataNoEntries(drivers: seq<string>, resample: Resampler)
    ensures TrackEntries(drivers, map[], resample) == []
  {
    if drivers != [] {
      NoDataNoEntries(drivers[..|drivers| - 1], resample);
    }
  }

  /** The figure's data: the mini-sector traces and, when requested, the
      outline drawn from the first entry's coordinates. */
  datatype DominanceMap = DominanceMap(traces: seq<Lead>, outline: Option<(seq<real>, seq<real>)>)

  /** `create_track_dominance_map` over the fastest-lap telemetry `data`:
      None when no requested driver has X, Y and Speed. */
  method CreateTrackDominanceMap(drivers: seq<string>, data: map<string, Trace>, resample: Resampler, n: nat, showOutline: bool)
    returns (r: Option<DominanceMap>)
    ensures r.None? <==> TrackEntries(drivers, data, resample) == []
    ensures r.Some? ==> r.value.traces == Collect(Segments(n), SegmentRow(TrackEntries(drivers, data, resample), Linspace(n)))
    ensures r.Some? && showOutline ==>
      r.value.outline == Some((TrackEntries(drivers, data, resample)[0].path.x, TrackEntries(drivers, data, resample)[0].path.y))
    ensures r.Some? && !showOutline ==> r.value.outline.None?
  {
    if data == map[] {
      NoDataNoEntries(drivers, resample);
      return None;
    }
    var entries := PrepareTelemetry(drivers, data, resample);
    if entries == [] {
      return None;
    }
    var traces := DominanceTraces(entries, n);
    var outline := if showOutline then Some((entries[0].path.x, entries[0].path.y)) else None;
    r := Some(DominanceMap(traces, outline));
  }
}
