/** The session's driver roster: the per-driver details read from the
    session once and cached, and the team tables derived from them. */
module DriverManager {

  import opened Common

  // ---------------------------------------------------------------------
  // Session input
  // ---------------------------------------------------------------------

  /** What `session.get_driver` knows of a driver; None is a missing key.
      The team colour may also be present with a None value, which
      `dict.get` returns as it is. */
  datatype DriverData = DriverData(
    firstName: Option<string>,
    lastName: Option<string>,
    abbreviation: Option<string>,
    teamName: Option<string>,
    teamColor: Option<Option<string>>,
    driverNumber: Option<string>,
    countryCode: Option<string>,
    broadcastName: Option<string>)

  /** A session: its driver codes, the lookup of one driver (None when the
      session has no data for it), and the position in `drivers` at which
      reading the session raises, if it does. */
  datatype Session = Session(drivers: seq<string>, lookup: string -> Option<DriverData>, failure: Option<nat>)

  /** The number of drivers read before the loop stops. */
  function ReadCount(s: Session): (n: nat)
    ensures n <= |s.drivers|
    ensures s.failure.None? ==> n == |s.drivers|
  {
    if s.failure.Some? && s.failure.value < |s.drivers| then s.failure.value else |s.drivers|
  }

  function GetOr(v: Option<string>, default: string): (r: string)
    ensures v.Some? ==> r == v.value
    ensures v.None? ==> r == default
  {
    if v.Some? then v.value else default
  }

  // ---------------------------------------------------------------------
  // Stripping a full name
  // ---------------------------------------------------------------------

  /** The characters `str.strip()` removes that this model knows of. */
  predicate IsSpace(c: char)
  {
    c == ' ' || c == '\t' || c == '\n' || c == '\r' || c == '\U{B}' || c == '\U{C}'
    || c == '\U{1C}' || c == '\U{1D}' || c == '\U{1E}' || c == '\U{1F}'
  }

  function TrimStart(s: string): (r: string)
    ensures |r| <= |s|
    ensures r == s[|s| - |r|..]
    ensures forall k :: 0 <= k < |s| - |r| ==> IsSpace(s[k])
    ensures r == [] || !IsSpace(r[0])
  {
    if s != [] && IsSpace(s[0]) then
      var r := TrimStart(s[1..]);
      assert forall k :: 1 <= k < |s| - |r| ==> s[k] == s[1..][k - 1];
      r
    else s
  }

  function TrimEnd(s: string): (r: string)
    ensures |r| <= |s|
    ensures r == s[..|r|]
    ensures forall k :: |r| <= k < |s| ==> IsSpace(s[k])
    ensures r == [] || !IsSpace(r[|r| - 1])
  {
    if s != [] && IsSpace(s[|s| - 1]) then
      var r := TrimEnd(s[..|s| - 1]);
      assert forall k :: |r| <= k < |s| - 1 ==> s[k] == s[..|s| - 1][k];
      r
    else s
  }

  /** `str.strip()`: `s` without its leading and trailing whitespace. */
  function Strip(s: string): (r: string)
    ensures r == [] || (!IsSpace(r[0]) && !IsSpace(r[|r| - 1]))
  {
    var front := TrimStart(s);
    var r := TrimEnd(front);
    assert r != [] ==> r[0] == front[0];
    r
  }

  /** `s[i..j]` is `s` with only whitespace cut from either end. */
  predicate TrimmedSlice(s: string, i: int, j: int)
  {
    && 0 <= i <= j <= |s|
    && (forall k :: 0 <= k < i ==> IsSpace(s[k]))
    && (forall k :: j <= k < |s| ==> IsSpace(s[k]))
  }

  /** The stripped string is a slice of the original with whitespace cut
      from both ends, and no more. */
  lemma StripSlice(s: string)
    ensures exists i, j :: TrimmedSlice(s, i, j) && Strip(s) == s[i..j]
  {
    var front := TrimStart(s);
    var r := TrimEnd(front);
    var i := |s| - |front|;
    var j := i + |r|;
    assert front == s[i..];
    assert r == s[i..j];
    assert forall k :: j <= k < |s| ==> s[k] == front[k - i];
    assert TrimmedSlice(s, i, j);
  }

  /** Stripping twice changes nothing more. */
  lemma StripIdempotent(s: string)
    ensures Strip(Strip(s)) == Strip(s)
  {
    var r := Strip(s);
    assert TrimStart(r) == r;
    assert TrimEnd(r) == r;
  }

  // ---------------------------------------------------------------------
  // Driver details
  // ---------------------------------------------------------------------

  /** One value of `_driver_info`. */
  datatype Details = Details(
    fullName: string,
    abbreviation: string,
    teamName: string,
    teamColor: Option<string>,
    driverNumber: string,
    countryCode: string,
    broadcastName: string)

  /** The details of driver `code` from its session data, with the
      defaults for missing keys. */
  function DetailsOf(code: string, d: DriverData): (r: Details)
    ensures r.abbreviation == GetOr(d.abbreviation, code)
    ensures r.teamName == GetOr(d.teamName, "Unknown")
    ensures r.teamColor == (if d.teamColor.Some? then d.teamColor.value else Some("#808080"))
    ensures r.fullName == Strip(GetOr(d.firstName, "") + " " + GetOr(d.lastName, ""))
    ensures r.broadcastName == GetOr(d.broadcastName, code)
  {
    Details(
      Strip(GetOr(d.firstName, "") + " " + GetOr(d.lastName, "")),
      GetOr(d.abbreviation, code),
      GetOr(d.teamName, "Unknown"),
      if d.teamColor.Some? then d.teamColor.value else Some("#808080"),
      GetOr(d.driverNumber, ""),
      GetOr(d.countryCode, ""),
      GetOr(d.broadcastName, code))
  }

  /** A dict with string keys: its keys in insertion order and its entries. */
  datatype Table<V> = Table(keys: seq<string>, values: map<string, V>)

  ghost predicate WellKeyed<V>(t: Table<V>)
  {
    NoDuplicates(t.keys) && forall k :: k in t.values <==> k in t.keys
  }

  /** `t[k] = v`: a new key goes last, an existing one keeps its place. */
  function Put<V>(t: Table<V>, k: string, v: V): (r: Table<V>)
    requires WellKeyed(t)
    ensures WellKeyed(r)
    ensures r.values == t.values[k := v]
  {
    if k in t.values then Table(t.keys, t.values[k := v])
    else
      assert forall i :: 0 <= i < |t.keys| ==> t.keys[i] in t.values;
      Table(t.keys + [k], t.values[k := v])
  }

  /** The details table after reading the given driver codes in order. */
  function Fill(codes: seq<string>, lookup: string -> Option<DriverData>): (t: Table<Details>)
    ensures WellKeyed(t)
  {
    if codes == [] then Table([], map[])
    else
      var t := Fill(codes[..|codes| - 1], lookup);
      var code := codes[|codes| - 1];
      var data := lookup(code);
      if data.Some? then Put(t, code, DetailsOf(code, data.value)) else t
  }

  /** Reading one more code: its details go in when the session has data. */
  lemma {:induction false} FillStep(codes: seq<string>, lookup: string -> Option<DriverData>, i: nat)
    requires i < |codes|
    ensures var data := lookup(codes[i]);
      Fill(codes[..i + 1], lookup) ==
        if data.Some? then Put(Fill(codes[..i], lookup), codes[i], DetailsOf(codes[i], data.value))
        else Fill(codes[..i], lookup)
  {
    assert codes[..i + 1][..i] == codes[..i];
  }

  /** A code has details exactly when it was read and the session had data
      for it, and then they are its data with the defaults applied. */
  lemma {:induction false} FillEntries(codes: seq<string>, lookup: string -> Option<DriverData>, code: string)
    ensures code in Fill(codes, lookup).values <==> code in codes && lookup(code).Some?
    ensures code in Fill(codes, lookup).values ==> Fill(codes, lookup).values[code] == DetailsOf(code, lookup(code).value)
  {
    if codes != [] {
      FillEntries(codes[..|codes| - 1], lookup, code);
      MemberSplit(codes, code);
    }
  }

  /** `_driver_info` once filled: the drivers read before any error. */
  function DriverInfoOf(s: Session): (t: Table<Details>)
    ensures WellKeyed(t)
  {
    Fill(s.drivers[..ReadCount(s)], s.lookup)
  }

  /** The drivers that get details, and which details they get; an error
      keeps what was read before it. */
  lemma DriverInfoEntries(s: Session, code: string)
    ensures code in DriverInfoOf(s).values <==> code in s.drivers[..ReadCount(s)] && s.lookup(code).Some?
    ensures code in DriverInfoOf(s).values ==> DriverInfoOf(s).values[code] == DetailsOf(code, s.lookup(code).value)
    ensures s.failure.None? ==> (code in DriverInfoOf(s).values <==> code in s.drivers && s.lookup(code).Some?)
  {
    FillEntries(s.drivers[..ReadCount(s)], s.lookup, code);
    assert s.failure.None? ==> s.drivers[..ReadCount(s)] == s.drivers;
  }

  // ---------------------------------------------------------------------
  // Derived tables
  // ---------------------------------------------------------------------

  /** `_team_mappings`: each driver's team. */
  function TeamMappingsOf(t: Table<Details>): (m: map<string, string>)
    ensures m.Keys == t.values.Keys
    ensures forall k :: k in m ==> m[k] == t.values[k].teamName
  {
    map k | k in t.values :: t.values[k].teamName
  }

  /** The loop of `get_team_mappings`: every driver code of the table in
      turn mapped to its team. */
  method MapTeams(info: Table<Details>) returns (mappings: map<string, string>)
    requires WellKeyed(info)
    ensures mappings == TeamMappingsOf(info)
  {
    mappings := map[];
    for i := 0 to |info.keys|
      invariant mappings == map k | k in info.keys[..i] :: info.values[k].teamName
    {
      assert info.keys[..i + 1] == info.keys[..i] + [info.keys[i]];
      var code := info.keys[i];
      mappings := mappings[code := info.values[code].teamName];
    }
    assert info.keys[..|info.keys|] == info.keys;
  }

  function StartsWithHash(c: string): bool
  {
    c != [] && c[0] == '#'
  }

  /** A team colour as drawn: '#' put in front when missing; an empty or
      missing colour becomes '#808080'. */
  function NormalizeColor(c: Option<string>): (r: string)
    ensures StartsWithHash(r)
    ensures c.Some? && StartsWithHash(c.value) ==> r == c.value
    ensures c.Some? && c.value != [] && !StartsWithHash(c.value) ==> r == "#" + c.value
    ensures c.None? || c.value == [] ==> r == "#808080"
  {
    var color := if c.Some? && c.value != [] && !StartsWithHash(c.value) then Some("#" + c.value) else c;
    if color.Some? && color.value != [] then color.value else "#808080"
  }

  predicate OnTeam(values: map<string, Details>, team: string, code: string)
  {
    code in values && values[code].teamName == team
  }

  /** The team colours after the drivers `codes`: the first driver of a
      team sets its colour. */
  function ColorsOver(codes: seq<string>, values: map<string, Details>): (m: map<string, string>)
    requires forall i :: 0 <= i < |codes| ==> codes[i] in values
  {
    if codes == [] then map[]
    else
      var m := ColorsOver(codes[..|codes| - 1], values);
      var info := values[codes[|codes| - 1]];
      if info.teamName in m then m else m[info.teamName := NormalizeColor(info.teamColor)]
  }

  lemma {:induction false} ColorsStep(codes: seq<string>, values: map<string, Details>, i: nat)
    requires forall k :: 0 <= k < |codes| ==> codes[k] in values
    requires i < |codes|
    ensures var m := ColorsOver(codes[..i], values);
      var info := values[codes[i]];
      ColorsOver(codes[..i + 1], values) ==
        if info.teamName in m then m else m[info.teamName := NormalizeColor(info.teamColor)]
  {
    assert codes[..i + 1][..i] == codes[..i];
  }

  /** Driver k is the first of `team` among `codes`. */
  predicate FirstOfTeam(codes: seq<string>, values: map<string, Details>, team: string, k: int)
  {
    0 <= k < |codes| && OnTeam(values, team, codes[k]) && forall j :: 0 <= j < k ==> !OnTeam(values, team, codes[j])
  }

  /** There is one colour per team of the drivers, taken from the team's
      first driver. */
  lemma {:induction false} ColorsFromFirstDriver(codes: seq<string>, values: map<string, Details>, team: string)
    requires forall i :: 0 <= i < |codes| ==> codes[i] in values
    ensures team in ColorsOver(codes, values) <==> exists k :: 0 <= k < |codes| && OnTeam(values, team, codes[k])
    ensures team in ColorsOver(codes, values) ==>
      exists k :: FirstOfTeam(codes, values, team, k) && ColorsOver(codes, values)[team] == NormalizeColor(values[codes[k]].teamColor)
  {
    if codes != [] {
      var n := |codes|;
      var init := codes[..n - 1];
      ColorsFromFirstDriver(init, values, team);
      assert forall j :: 0 <= j < n - 1 ==> codes[j] == init[j];
      var m := ColorsOver(init, values);
      if team in m {
        var k :| FirstOfTeam(init, values, team, k) && m[team] == NormalizeColor(values[init[k]].teamColor);
        assert FirstOfTeam(codes, values, team, k);
      } else if OnTeam(values, team, codes[n - 1]) {
        assert FirstOfTeam(codes, values, team, n - 1);
      } else {
        assert forall k :: 0 <= k < n ==> (OnTeam(values, team, codes[k]) ==> k < n - 1);
      }
    }
  }

  /** `get_team_colors` over a details table. */
  function TeamColors(t: Table<Details>): (m: map<string, string>)
    requires WellKeyed(t)
  {
    ColorsOver(t.keys, t.values)
  }

  /** The display name of each driver: its abbreviation (the code when the
      session had none). */
  function DisplayNamesOf(t: Table<Details>): (m: map<string, string>)
    ensures m.Keys == t.values.Keys
    ensures forall k :: k in m ==> m[k] == t.values[k].abbreviation
  {
    map k | k in t.values :: t.values[k].abbreviation
  }

  /** The display names fall back to the driver code. */
  lemma DisplayNameFallback(s: Session, code: string)
    requires code in DriverInfoOf(s).values
    ensures s.lookup(code).Some?
    ensures DisplayNamesOf(DriverInfoOf(s))[code] == GetOr(s.lookup(code).value.abbreviation, code)
  {
    DriverInfoEntries(s, code);
  }

  /** One entry of a team's list in `get_drivers_by_team`. */
  datatype Member = Member(code: string, name: string, fullName: string, number: string)

  function MemberOf(code: string, info: Details): Member
  {
    Member(code, info.abbreviation, info.fullName, info.driverNumber)
  }

  function MembersOf(codes: seq<string>, values: map<string, Details>): (r: seq<Member>)
    requires forall i :: 0 <= i < |codes| ==> codes[i] in values
    ensures |r| == |codes|
    ensures forall i :: 0 <= i < |codes| ==> r[i] == MemberOf(codes[i], values[codes[i]])
  {
    seq(|codes|, i requires 0 <= i < |codes| => MemberOf(codes[i], values[codes[i]]))
  }

  function TeamOf(values: map<string, Details>, team: string): string -> bool
  {
    code => OnTeam(values, team, code)
  }

  /** The team lists after the drivers `codes`. */
  function GroupOver(codes: seq<string>, values: map<string, Details>): (m: map<string, seq<Member>>)
    requires forall i :: 0 <= i < |codes| ==> codes[i] in values
  {
    if codes == [] then map[]
    else
      var m := GroupOver(codes[..|codes| - 1], values);
      var code := codes[|codes| - 1];
      var info := values[code];
      var member := MemberOf(code, info);
      if info.teamName in m then m[info.teamName := m[info.teamName] + [member]] else m[info.teamName := [member]]
  }

  lemma {:induction false} GroupStep(codes: seq<string>, values: map<string, Details>, i: nat)
    requires forall k :: 0 <= k < |codes| ==> codes[k] in values
    requires i < |codes|
    ensures var m := GroupOver(codes[..i], values);
      var info := values[codes[i]];
      var member := MemberOf(codes[i], info);
      GroupOver(codes[..i + 1], values) ==
        if info.teamName in m then m[info.teamName := m[info.teamName] + [member]] else m[info.teamName := [member]]
  {
    assert codes[..i + 1][..i] == codes[..i];
  }

  /** `setdefault(team, []).append(member)`. */
  lemma {:induction false} AddMember(m: map<string, seq<Member>>, team: string, member: Member, m': map<string, seq<Member>>)
    requires m' == (if team in m then m else m[team := []])[team := (if team in m then m else m[team := []])[team] + [member]]
    ensures m' == if team in m then m[team := m[team] + [member]] else m[team := [member]]
  {
    if team !in m {
      assert [] + [member] == [member];
    }
  }

  lemma {:induction false} MembersSnoc(codes: seq<string>, code: string, values: map<string, Details>)
    requires forall i :: 0 <= i < |codes| ==> codes[i] in values
    requires code in values
    ensures MembersOf(codes + [code], values) == MembersOf(codes, values) + [MemberOf(code, values[code])]
  {
  }

  /** Each team's list holds exactly its drivers, in order: the members of
      the drivers filtered by team. */
  lemma {:induction false} GroupByTeam(codes: seq<string>, values: map<string, Details>, team: string)
    requires forall i :: 0 <= i < |codes| ==> codes[i] in values
    ensures team in GroupOver(codes, values) <==> Filter(codes, TeamOf(values, team)) != []
    ensures team in GroupOver(codes, values) ==> GroupOver(codes, values)[team] == MembersOf(Filter(codes, TeamOf(values, team)), values)
  {
    if codes != [] {
      var n := |codes|;
      var init := codes[..n - 1];
      var code := codes[n - 1];
      GroupByTeam(init, values, team);
      assert codes == init + [code];
      FilterSnoc(init, code, TeamOf(values, team));
      var before := Filter(init, TeamOf(values, team));
      if OnTeam(values, team, code) {
        MembersSnoc(before, code, values);
      }
    }
  }

  /** Every driver is listed under its own team and under no other, once. */
  lemma {:induction false} ListedOnce(codes: seq<string>, values: map<string, Details>, code: string, team: string)
    requires forall i :: 0 <= i < |codes| ==> codes[i] in values
    requires NoDuplicates(codes)
    requires code in codes
    ensures team in GroupOver(codes, values) ==> NoDuplicates(Filter(codes, TeamOf(values, team)))
    ensures values[code].teamName == team <==> code in Filter(codes, TeamOf(values, team))
  {
    FilterComplete(codes, TeamOf(values, team), code);
    FilterNoDuplicates(codes, TeamOf(values, team));
  }

  /** `get_drivers_by_team` over a details table. */
  function DriversByTeam(t: Table<Details>): (m: map<string, seq<Member>>)
    requires WellKeyed(t)
  {
    GroupOver(t.keys, t.values)
  }

  // ---------------------------------------------------------------------
  // The manager
  // ---------------------------------------------------------------------

  /** `DynamicDriverManager`: reads the session at most once and caches the
      details and the team mappings. */
  class DynamicDriverManager {
    const session: Session
    var driverInfo: Option<Table<Details>>
    var teamMappings: Option<map<string, string>>

    /** A cached table is the one the session yields. */
    predicate Valid()
      reads this
    {
      && (driverInfo.Some? ==> driverInfo.value == DriverInfoOf(session))
      && (teamMappings.Some? ==> teamMappings.value == TeamMappingsOf(DriverInfoOf(session)))
    }

    constructor(session: Session)
      ensures Valid()
      ensures this.session == session && driverInfo.None? && teamMappings.None?
    {
      this.session := session;
      driverInfo := None;
      teamMappings := None;
    }

    /** `get_driver_info`: on the first call the session's drivers are read
        in order into `_driver_info`; an error stops the reading and keeps
        what was read. Later calls return the cached table. */
    method GetDriverInfo() returns (info: Table<Details>)
      requires Valid()
      modifies this
      ensures Valid()
      ensures info == DriverInfoOf(session) && driverInfo == Some(info)
      ensures old(driverInfo).Some? ==> info == old(driverInfo).value
      ensures teamMappings == old(teamMappings)
    {
      if driverInfo.None? {
        driverInfo := Some(Table([], map[]));
        var stop := ReadCount(session);
        var i := 0;
        while i < stop
          invariant 0 <= i <= stop
          invariant driverInfo == Some(Fill(session.drivers[..i], session.lookup))
          invariant teamMappings == old(teamMappings)
        {
          FillStep(session.drivers, session.lookup, i);
          var code := session.drivers[i];
          var data := session.lookup(code);
          if data.Some? {
            driverInfo := Some(Put(driverInfo.value, code, DetailsOf(code, data.value)));
          }
          i := i + 1;
        }
      }
      info := driverInfo.value;
    }

    /** `get_team_mappings`: each driver's team, computed once and cached. */
    method GetTeamMappings() returns (m: map<string, string>)
      requires Valid()
      modifies this
      ensures Valid()
      ensures m == TeamMappingsOf(DriverInfoOf(session)) && teamMappings == Some(m)
      ensures old(teamMappings).Some? ==> m == old(teamMappings).value && driverInfo == old(driverInfo)
      ensures old(teamMappings).None? ==> driverInfo == Some(DriverInfoOf(session))
    {
      if teamMappings.None? {
        var info := GetDriverInfo();
        var mappings := MapTeams(info);
        teamMappings := Some(mappings);
      }
      m := teamMappings.value;
    }

    /** `get_team_colors`: one colour per team, from its first driver. */
    method GetTeamColors() returns (colors: map<string, string>)
      requires Valid()
      modifies this
      ensures Valid() && driverInfo.Some? && teamMappings == old(teamMappings)
      ensures colors == TeamColors(DriverInfoOf(session))
    {
      var info := GetDriverInfo();
      colors := map[];
      for i := 0 to |info.keys|
        invariant colors == ColorsOver(info.keys[..i], info.values)
        invariant Valid() && driverInfo == Some(info) && teamMappings == old(teamMappings)
      {
        ColorsStep(info.keys, info.values, i);
        var details := info.values[info.keys[i]];
        var team := details.teamName;
        if team !in colors {
          var color := details.teamColor;
          if color.Some? && color.value != [] && !StartsWithHash(color.value) {
            color := Some("#" + color.value);
          }
          colors := colors[team := if color.Some? && color.value != [] then color.value else "#808080"];
        }
      }
      assert info.keys[..|info.keys|] == info.keys;
    }

    /** `get_driver_display_names`: each driver's abbreviation. */
    method GetDriverDisplayNames() returns (names: map<string, string>)
      requires Valid()
      modifies this
      ensures Valid() && driverInfo.Some? && teamMappings == old(teamMappings)
      ensures names == DisplayNamesOf(DriverInfoOf(session))
    {
      var info := GetDriverInfo();
      names := map[];
      for i := 0 to |info.keys|
        invariant names == map k | k in info.keys[..i] :: info.values[k].abbreviation
      {
        assert info.keys[..i + 1] == info.keys[..i] + [info.keys[i]];
        var code := info.keys[i];
        names := names[code := info.values[code].abbreviation];
      }
      assert info.keys[..|info.keys|] == info.keys;
    }

    /** `get_drivers_by_team`: the drivers grouped by team, in table order. */
    method GetDriversByTeam() returns (teams: map<string, seq<Member>>)
      requires Valid()
      modifies this
      ensures Valid() && driverInfo.Some? && teamMappings == old(teamMappings)
      ensures teams == DriversByTeam(DriverInfoOf(session))
    {
      var info := GetDriverInfo();
      teams := map[];
      for i := 0 to |info.keys|
        invariant teams == GroupOver(info.keys[..i], info.values)
        invariant Valid() && driverInfo == Some(info) && teamMappings == old(teamMappings)
      {
        GroupStep(info.keys, info.values, i);
        var code := info.keys[i];
        var details := info.values[code];
        ghost var before := teams;
        if details.teamName !in teams {
          teams := teams[details.teamName := []];
        }
        teams := teams[details.teamName := teams[details.teamName] + [MemberOf(code, details)]];
        AddMember(before, details.teamName, MemberOf(code, details), teams);
      }
      assert info.keys[..|info.keys|] == info.keys;
    }
  }
}
