/** Display formatting of lap times, sector times, gaps, position changes
    and tyre ages (utils/formatters.py). Durations are whole milliseconds,
    so the three-decimal renderings are exact. */
module Formatters {

  import opened Common
  import opened Numerals

  /** A lap-time cell: missing (NaN or None), already text, or a duration. */
  datatype LapTimeValue = Absent | Text(text: string) | Millis(ms: int)

  /** A sector-time or gap cell: missing, or a duration. */
  datatype DurationValue = NoDuration | Duration(ms: int)

  const NotAvailable: string := "N/A"

  /** The shape `M:SS.mmm`: minutes with no leading zero, a colon, two digits
      of seconds below 60, a point and three digits of milliseconds. */
  predicate IsLapTimeText(r: string)
  {
    && |r| >= 8
    && r[|r| - 7] == ':' && r[|r| - 4] == '.'
    && AllDigits(r[..|r| - 7]) && (|r| > 8 ==> r[0] != '0')
    && AllDigits(r[|r| - 6..|r| - 4]) && ParseDigits(r[|r| - 6..|r| - 4]) < 60
    && AllDigits(r[|r| - 3..])
  }

  /** Reads `M:SS.mmm` back as milliseconds: M * 60 s + SS.mmm. */
  function ParseLapTime(r: string): Option<int>
  {
    if IsLapTimeText(r) then
      Some(ParseDigits(r[..|r| - 7]) * 60000 + ParseDigits(r[|r| - 6..|r| - 4]) * 1000
           + ParseDigits(r[|r| - 3..]))
    else None
  }

  /** Reads `S.mmm` (any number of whole-second digits) back as milliseconds. */
  function ParseFixed3(r: string): Option<int>
  {
    if |r| >= 5 && r[|r| - 4] == '.' && AllDigits(r[..|r| - 4]) && AllDigits(r[|r| - 3..]) then
      Some(ParseDigits(r[..|r| - 4]) * 1000 + ParseDigits(r[|r| - 3..]))
    else None
  }

  lemma FieldsOfLapTime(m: string, ss: string, mmm: string)
    requires |m| >= 1 && |ss| == 2 && |mmm| == 3
    ensures var r := m + ":" + ss + "." + mmm;
      && |r| == |m| + 7 && r[|r| - 7] == ':' && r[|r| - 4] == '.'
      && r[..|r| - 7] == m && r[|r| - 6..|r| - 4] == ss && r[|r| - 3..] == mmm
  {
  }

  lemma FieldsOfFixed3(w: string, mmm: string)
    requires |w| >= 1 && |mmm| == 3
    ensures var r := w + "." + mmm;
      && |r| == |w| + 4 && r[|r| - 4] == '.' && r[..|r| - 4] == w && r[|r| - 3..] == mmm
  {
  }

  /** `W.mmm` built from its two fields reads back as `v`. */
  lemma {:induction false} ParseFixed3Of(w: string, mmm: string, v: int)
    requires |w| >= 1 && AllDigits(w) && |mmm| == 3 && AllDigits(mmm)
    requires v == ParseDigits(w) * 1000 + ParseDigits(mmm)
    ensures |w + "." + mmm| == |w| + 4 && ParseFixed3(w + "." + mmm) == Some(v)
  {
    FieldsOfFixed3(w, mmm);
  }

  /** `M:SS.mmm` built from its three fields reads back as their value `v`. */
  lemma {:induction false} ParseLapTimeOf(m: string, ss: string, mmm: string, v: int)
    requires |m| >= 1 && AllDigits(m) && (|m| > 1 ==> m[0] != '0')
    requires |ss| == 2 && AllDigits(ss) && ParseDigits(ss) < 60
    requires |mmm| == 3 && AllDigits(mmm)
    requires v == ParseDigits(m) * 60000 + ParseDigits(ss) * 1000 + ParseDigits(mmm)
    ensures IsLapTimeText(m + ":" + ss + "." + mmm) && ParseLapTime(m + ":" + ss + "." + mmm) == Some(v)
  {
    FieldsOfLapTime(m, ss, mmm);
    ParseLapTimeFields(m + ":" + ss + "." + mmm, m, ss, mmm, v);
  }

  lemma {:induction false} ParseLapTimeFields(r: string, m: string, ss: string, mmm: string, v: int)
    requires IsLapTimeText(r)
    requires r[..|r| - 7] == m && r[|r| - 6..|r| - 4] == ss && r[|r| - 3..] == mmm
    requires AllDigits(m) && AllDigits(ss) && AllDigits(mmm)
    requires v == ParseDigits(m) * 60000 + ParseDigits(ss) * 1000 + ParseDigits(mmm)
    ensures IsLapTimeText(r) && ParseLapTime(r) == Some(v)
  {
  }

  /** The `{minutes}:{seconds:06.3f}` rendering of a positive duration. */
  function MinutesSeconds(ms: nat): (r: string)
    requires ms > 0
    ensures IsLapTimeText(r) && ParseLapTime(r) == Some(ms)
  {
    var minutes, rest := ms / 60000, ms % 60000;
    var seconds, millis := rest / 1000, rest % 1000;
    SplitMillis(ms);
    var m := NatToString(minutes);
    var ss := Pad2(seconds);
    var mmm := Pad3(millis);
    NatToStringRoundTrip(minutes);
    ParseLapTimeOf(m, ss, mmm, ms);
    m + ":" + ss + "." + mmm
  }

  /** Minutes, seconds below 60 and milliseconds below 1000 add back up. */
  lemma {:induction false} SplitMillis(ms: nat)
    ensures (ms % 60000) / 1000 < 60 && (ms % 60000) % 1000 < 1000
    ensures (ms / 60000) * 60000 + ((ms % 60000) / 1000) * 1000 + (ms % 60000) % 1000 == ms
  {
  }

  /** `{s:.3f}` of a non-negative duration: whole seconds, unpadded. */
  function Fixed3(ms: nat): (r: string)
    ensures ParseFixed3(r) == Some(ms)
    ensures AllDigits(r[..|r| - 4]) && (|r| > 5 ==> r[0] != '0')
  {
    var w := NatToString(ms / 1000);
    var mmm := Pad3(ms % 1000);
    NatToStringRoundTrip(ms / 1000);
    ParseFixed3Of(w, mmm, ms);
    FieldsOfFixed3(w, mmm);
    w + "." + mmm
  }

  /** format_lap_time: a string passes through, a missing value or a
      duration of zero or less is "N/A", anything else is `M:SS.mmm`. */
  function FormatLapTime(v: LapTimeValue): (r: string)
    ensures v.Absent? ==> r == NotAvailable
    ensures v.Text? ==> r == v.text
    ensures v.Millis? && v.ms <= 0 ==> r == NotAvailable
    ensures v.Millis? && v.ms > 0 ==> IsLapTimeText(r) && ParseLapTime(r) == Some(v.ms)
  {
    match v
    case Absent => NotAvailable
    case Text(t) => t
    case Millis(ms) => if ms <= 0 then NotAvailable else MinutesSeconds(ms)
  }

  /** format_sector_time: "N/A" unless positive; otherwise `{s:06.3f}`, that is
      at least two whole-second digits, six characters below 100 s. */
  function FormatSectorTime(v: DurationValue): (r: string)
    ensures (v.NoDuration? || v.ms <= 0) ==> r == NotAvailable
    ensures v.Duration? && v.ms > 0 ==>
      && ParseFixed3(r) == Some(v.ms)
      && (|r| == 6 <==> v.ms < 100000)
  {
    match v
    case NoDuration => NotAvailable
    case Duration(ms) =>
      if ms <= 0 then NotAvailable
      else
        var w := PadAtLeast2(ms / 1000);
        var mmm := Pad3(ms % 1000);
        ParseFixed3Of(w, mmm, ms);
        w + "." + mmm
  }

  /** format_gap_time: "0.000" for a missing or zero gap; `+M:SS.mmm` from a
      minute upwards; otherwise `+` followed by `{gap:.3f}`, which for a
      negative gap keeps its minus sign ("+-1.500"). */
  function FormatGapTime(v: DurationValue): (r: string)
    ensures (v.NoDuration? || v.ms == 0) ==> r == "0.000"
    ensures v.Duration? && v.ms >= 60000 ==> |r| > 1 && r[0] == '+' && ParseLapTime(r[1..]) == Some(v.ms)
    ensures v.Duration? && 0 < v.ms < 60000 ==> |r| > 1 && r[0] == '+' && ParseFixed3(r[1..]) == Some(v.ms)
    ensures v.Duration? && v.ms < 0 ==> |r| > 2 && r[..2] == "+-" && ParseFixed3(r[2..]) == Some(-v.ms)
  {
    match v
    case NoDuration => "0.000"
    case Duration(ms) =>
      if ms == 0 then "0.000"
      else if ms >= 60000 then
        var t := MinutesSeconds(ms);
        assert ("+" + t)[1..] == t;
        "+" + t
      else if ms > 0 then
        var t := Fixed3(ms);
        assert ("+" + t)[1..] == t;
        "+" + t
      else
        var t := Fixed3(-ms);
        assert ("+-" + t)[2..] == t;
        "+-" + t
  }

  const Rising: string := "\U{1F4C8} +"
  const Falling: string := "\U{1F4C9} "
  const Level: string := "\U{27A1}\U{FE0F} 0"

  /** get_position_change_text: the sign of start - end picks the arrow and
      the style; the number shown is that change, with its sign. */
  function PositionChangeText(startPos: int, endPos: int): (r: (string, string))
    ensures var change := startPos - endPos;
      && (r.1 == "success" <==> change > 0)
      && (r.1 == "error" <==> change < 0)
      && (r.1 == "info" <==> change == 0)
      && (change > 0 ==> |r.0| > |Rising| && r.0[..|Rising|] == Rising && ParseInt(r.0[|Rising|..]) == Some(change))
      && (change < 0 ==> |r.0| > |Falling| && r.0[..|Falling|] == Falling && ParseInt(r.0[|Falling|..]) == Some(change))
      && (change == 0 ==> r.0 == Level)
  {
    var change := startPos - endPos;
    IntToStringRoundTrip(change);
    if change > 0 then
      var t := Rising + IntToString(change);
      assert t[..|Rising|] == Rising && t[|Rising|..] == IntToString(change);
      (t, "success")
    else if change < 0 then
      var t := Falling + IntToString(change);
      assert t[..|Falling|] == Falling && t[|Falling|..] == IntToString(change);
      (t, "error")
    else (Level, "info")
  }

  /** get_lap_time_color_class: the podium positions get their own class. */
  function LapTimeColorClass(position: int): (r: string)
    ensures r == "fastest-lap" <==> position == 1
    ensures r == "second-lap" <==> position == 2
    ensures r == "third-lap" <==> position == 3
    ensures r == "" <==> !(1 <= position <= 3)
  {
    if position == 1 then "fastest-lap"
    else if position == 2 then "second-lap"
    else if position == 3 then "third-lap"
    else ""
  }

  /** format_tire_age: "New" for a missing or zero age, else "<n> laps". */
  function FormatTireAge(tyreLife: Option<int>): (r: string)
    ensures r == "New" <==> (tyreLife.None? || tyreLife.value == 0)
    ensures tyreLife.Some? && tyreLife.value != 0 ==>
      |r| > 5 && r[|r| - 5..] == " laps" && ParseInt(r[..|r| - 5]) == Some(tyreLife.value)
  {
    if tyreLife.None? || tyreLife.value == 0 then "New"
    else
      var n := IntToString(tyreLife.value);
      IntToStringRoundTrip(tyreLife.value);
      var r := n + " laps";
      assert r[|r| - 5..] == " laps" && r[..|r| - 5] == n;
      r
  }

  /** The rendering is injective: two positive durations that format alike
      are the same duration. */
  lemma {:induction false} LapTimeInjective(a: int, b: int)
    requires a > 0 && b > 0
    requires FormatLapTime(Millis(a)) == FormatLapTime(Millis(b))
    ensures a == b
  {
    assert ParseLapTime(FormatLapTime(Millis(a))) == Some(a);
    assert ParseLapTime(FormatLapTime(Millis(b))) == Some(b);
  }

  /** The minutes field is whole minutes and the rest is below a minute, so
      a formatted time never shows 60 or more seconds. */
  lemma {:induction false} LapTimeMinutes(ms: int)
    requires ms > 0
    ensures var r := FormatLapTime(Millis(ms));
      ParseDigits(r[..|r| - 7]) == ms / 60000
  {
    var r := FormatLapTime(Millis(ms));
    var m := ParseDigits(r[..|r| - 7]);
    var rest := ParseDigits(r[|r| - 6..|r| - 4]) * 1000 + ParseDigits(r[|r| - 3..]);
    assert m * 60000 + rest == ms;
    assert 0 <= rest < 60000;
  }
}
