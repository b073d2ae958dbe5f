/** The leaderboard ids of the remote statistics service and the rules that
    fold a personal-statistics response into a player. */
module Api {
  import opened Wrappers
  import opened Text
  import opened Factions
  import opened Teams
  import opened Players

  /** The errors `_init_player` can raise: an enum value out of range
      (`ValueError`) or a leaderboard id missing from the table (`KeyError`). */
  datatype ApiError =
    | InvalidSoloMatchType(value: int)
    | InvalidTeamMatchType(value: int)
    | UnknownLeaderboard(id: int)

  // ---------------------------------------------------------------------
  // Enums

  /** `_SoloMatchType` */
  datatype SoloMatchType = Custom | S1v1 | S2v2 | S3v3 | S4v4 {
    function Value(): nat {
      match this
      case Custom => 0
      case S1v1 => 1
      case S2v2 => 2
      case S3v3 => 3
      case S4v4 => 4
    }

    /** `str(m)`: the member name without `S_`, in lower case. */
    function Label(): string {
      match this
      case Custom => "custom"
      case S1v1 => "1v1"
      case S2v2 => "2v2"
      case S3v3 => "3v3"
      case S4v4 => "4v4"
    }
  }

  const SoloMatchTypes: seq<SoloMatchType> := [Custom, S1v1, S2v2, S3v3, S4v4]

  /** `_SoloMatchType(v)` */
  function SoloMatchTypeOf(v: int): (r: Option<SoloMatchType>)
    ensures r.Some? <==> 0 <= v < |SoloMatchTypes|
    ensures r.Some? ==> r.value.Value() == v
  {
    if 0 <= v < |SoloMatchTypes| then Some(SoloMatchTypes[v]) else None
  }

  /** `_TeamMatchType` */
  datatype TeamMatchType = T2v2 | T3v3 | T4v4 {
    function Value(): nat {
      match this
      case T2v2 => 0
      case T3v3 => 1
      case T4v4 => 2
    }
  }

  const TeamMatchTypes: seq<TeamMatchType> := [T2v2, T3v3, T4v4]

  /** `_TeamMatchType(v)` */
  function TeamMatchTypeOf(v: int): (r: Option<TeamMatchType>)
    ensures r.Some? <==> 0 <= v < |TeamMatchTypes|
    ensures r.Some? ==> r.value.Value() == v
  {
    if 0 <= v < |TeamMatchTypes| then Some(TeamMatchTypes[v]) else None
  }

  /** `_Difficulty` */
  datatype Difficulty = Easy | Medium | Hard | Expert {
    function Value(): nat {
      match this
      case Easy => 0
      case Medium => 1
      case Hard => 2
      case Expert => 3
    }
  }

  const TeamFactions: seq<TeamFaction> := [Axis, Allies]

  /** Each enum value converts back to its member. */
  lemma EnumValuesRoundTrip(m: SoloMatchType, t: TeamMatchType)
    ensures SoloMatchTypeOf(m.Value()) == Some(m)
    ensures TeamMatchTypeOf(t.Value()) == Some(t)
  {
    match m
    case Custom => assert SoloMatchTypes[0] == Custom;
    case S1v1 => assert SoloMatchTypes[1] == S1v1;
    case S2v2 => assert SoloMatchTypes[2] == S2v2;
    case S3v3 => assert SoloMatchTypes[3] == S3v3;
    case S4v4 => assert SoloMatchTypes[4] == S4v4;
  }

  // ---------------------------------------------------------------------
  // Leaderboard ids

  /** `get_solo_leaderboard_id` */
  function SoloLeaderboardId(m: SoloMatchType, f: Faction): (id: nat)
    ensures f == UK <==> id >= 50
    ensures m == Custom <==> id < 4 || id == 50
    ensures id < 20 || 50 <= id <= 54
  {
    if m == Custom then (if f == UK then 50 else f.Id())
    else if f == UK then 50 + m.Value() else m.Value() * 4 + f.Id()
  }

  /** `get_team_leaderboard_id` */
  function TeamLeaderboardId(m: TeamMatchType, t: TeamFaction): (id: nat)
    ensures 20 <= id <= 25
  {
    20 + m.Value() * 2 + t.Value()
  }

  /** `get_ai_leaderboard_id` */
  function AiLeaderboardId(m: TeamMatchType, d: Difficulty, t: TeamFaction): (id: nat)
    ensures 26 <= id <= 49
  {
    26 + m.Value() * 8 + d.Value() * 2 + t.Value()
  }

  /** The match type and faction a solo leaderboard id stands for. */
  function SoloLeaderboardOf(id: int): Option<(SoloMatchType, Faction)> {
    if 0 <= id < 4 then Some((Custom, AllFactions[id]))
    else if id == 50 then Some((Custom, UK))
    else if 4 <= id < 20 then Some((SoloMatchTypes[id / 4], AllFactions[id % 4]))
    else if 51 <= id <= 54 then Some((SoloMatchTypes[id - 50], UK))
    else None
  }

  /** The match type and team faction a team leaderboard id stands for. */
  function TeamLeaderboardOf(id: int): Option<(TeamMatchType, TeamFaction)> {
    if 20 <= id <= 25 then Some((TeamMatchTypes[(id - 20) / 2], TeamFactions[(id - 20) % 2])) else None
  }

  /** The match type, difficulty and team faction an AI leaderboard id stands for. */
  function AiLeaderboardOf(id: int): Option<(TeamMatchType, Difficulty, TeamFaction)> {
    if 26 <= id <= 49 then
      Some((TeamMatchTypes[(id - 26) / 8], [Easy, Medium, Hard, Expert][(id - 26) % 8 / 2], TeamFactions[(id - 26) % 2]))
    else None
  }

  /** Every solo leaderboard id decodes to its match type and faction. */
  lemma SoloLeaderboardRoundTrip(m: SoloMatchType, f: Faction)
    ensures SoloLeaderboardOf(SoloLeaderboardId(m, f)) == Some((m, f))
  {
    match f
    case WM => assert AllFactions[0] == WM;
    case SU => assert AllFactions[1] == SU;
    case OKW => assert AllFactions[2] == OKW;
    case US => assert AllFactions[3] == US;
    case UK =>
  }

  /** Every team leaderboard id decodes to its match type and team faction. */
  lemma TeamLeaderboardRoundTrip(m: TeamMatchType, t: TeamFaction)
    ensures TeamLeaderboardOf(TeamLeaderboardId(m, t)) == Some((m, t))
  {
  }

  /** Every AI leaderboard id decodes to its match type, difficulty and team faction. */
  lemma AiLeaderboardRoundTrip(m: TeamMatchType, d: Difficulty, t: TeamFaction)
    ensures AiLeaderboardOf(AiLeaderboardId(m, d, t)) == Some((m, d, t))
  {
    var id := AiLeaderboardId(m, d, t);
    assert (id - 26) / 8 == m.Value();
    assert (id - 26) % 8 / 2 == d.Value();
    assert (id - 26) % 2 == t.Value();
  }

  /** Each family is injective and no two families share an id. */
  lemma LeaderboardIdsDistinct(
    m1: SoloMatchType, f1: Faction, m2: SoloMatchType, f2: Faction,
    tm1: TeamMatchType, t1: TeamFaction, tm2: TeamMatchType, t2: TeamFaction,
    am1: TeamMatchType, d1: Difficulty, at1: TeamFaction, am2: TeamMatchType, d2: Difficulty, at2: TeamFaction)
    ensures SoloLeaderboardId(m1, f1) == SoloLeaderboardId(m2, f2) ==> m1 == m2 && f1 == f2
    ensures TeamLeaderboardId(tm1, t1) == TeamLeaderboardId(tm2, t2) ==> tm1 == tm2 && t1 == t2
    ensures AiLeaderboardId(am1, d1, at1) == AiLeaderboardId(am2, d2, at2) ==> am1 == am2 && d1 == d2 && at1 == at2
    ensures SoloLeaderboardId(m1, f1) != TeamLeaderboardId(tm1, t1)
    ensures SoloLeaderboardId(m1, f1) != AiLeaderboardId(am1, d1, at1)
    ensures TeamLeaderboardId(tm1, t1) != AiLeaderboardId(am1, d1, at1)
  {
    SoloLeaderboardRoundTrip(m1, f1);
    SoloLeaderboardRoundTrip(m2, f2);
    TeamLeaderboardRoundTrip(tm1, t1);
    TeamLeaderboardRoundTrip(tm2, t2);
    AiLeaderboardRoundTrip(am1, d1, at1);
    AiLeaderboardRoundTrip(am2, d2, at2);
  }

  // ---------------------------------------------------------------------
  // Leaderboard table

  /** A leaderboard entry: its name and, once fetched, its rank total. */
  datatype Leaderboard = Leaderboard(name: string, rankTotal: Option<int>)

  /** `f'{m}_{f.name}'` */
  function SoloLeaderboardName(m: SoloMatchType, f: Faction): string {
    m.Label() + "_" + f.Name()
  }

  /** `f'Team_of_{m.value + 2}_{t.name.capitalize()}'` */
  function TeamLeaderboardName(m: TeamMatchType, t: TeamFaction): string {
    "Team_of_" + NatToString(m.Value() + 2) + "_" + (if t == Axis then "Axis" else "Allies")
  }

  const RankedSoloMatchTypes: seq<SoloMatchType> := [S1v1, S2v2, S3v3, S4v4]

  /** The entries of the solo comprehension in its order: match type outer,
      faction inner, `CUSTOM` skipped. */
  function SoloLeaderboardTable(): (t: seq<(int, Leaderboard)>)
    ensures |t| == 20
  {
    seq(20, k requires 0 <= k < 20 =>
      var m := RankedSoloMatchTypes[k / 5];
      var f := AllFactions[k % 5];
      (SoloLeaderboardId(m, f), Leaderboard(SoloLeaderboardName(m, f), None)))
  }

  /** The entries of the team comprehension in its order. */
  function TeamLeaderboardTable(): (t: seq<(int, Leaderboard)>)
    ensures |t| == 6
  {
    seq(6, k requires 0 <= k < 6 =>
      var m := TeamMatchTypes[k / 2];
      var t := TeamFactions[k % 2];
      (TeamLeaderboardId(m, t), Leaderboard(TeamLeaderboardName(m, t), None)))
  }

  /** A dict built from entries: a later entry with the same key wins. */
  function TableToMap(entries: seq<(int, Leaderboard)>): (m: map<int, Leaderboard>)
    ensures m.Keys == set i | 0 <= i < |entries| :: entries[i].0
  {
    if |entries| == 0 then map[]
    else
      var prefix := entries[..|entries| - 1];
      assert forall i :: 0 <= i < |prefix| ==> prefix[i] == entries[i];
      TableToMap(prefix)[entries[|entries| - 1].0 := entries[|entries| - 1].1]
  }

  /** The keys of `self.leaderboards` in insertion order. */
  function LeaderboardIds(): (ids: seq<int>)
    ensures |ids| == 26
  {
    var table := SoloLeaderboardTable() + TeamLeaderboardTable();
    seq(26, i requires 0 <= i < 26 => table[i].0)
  }

  /** `self.solo_leaderboards | self.team_leaderboards` */
  function InitialLeaderboards(): map<int, Leaderboard> {
    TableToMap(SoloLeaderboardTable()) + TableToMap(TeamLeaderboardTable())
  }

  lemma FactionAtId(f: Faction)
    ensures f.Id() < |AllFactions| && AllFactions[f.Id()] == f
  {
  }

  /** The index of a leaderboard id in the table's insertion order, read
      back from the id itself. */
  function TablePosition(id: int): int {
    match SoloLeaderboardOf(id)
    case Some((m, f)) => (m.Value() - 1) * 5 + f.Id()
    case None =>
      match TeamLeaderboardOf(id)
      case Some((m, t)) => 20 + m.Value() * 2 + t.Value()
      case None => -1
  }

  lemma TablePositions()
    ensures forall i :: 0 <= i < 26 ==> TablePosition(LeaderboardIds()[i]) == i
  {
    forall i | 0 <= i < 26 ensures TablePosition(LeaderboardIds()[i]) == i {
      if i < 20 {
        SoloTablePosition(i);
      } else {
        TeamTablePosition(i);
      }
    }
  }

  lemma SoloTablePosition(i: nat)
    requires i < 20
    ensures TablePosition(LeaderboardIds()[i]) == i
  {
    var m := RankedSoloMatchTypes[i / 5];
    var f := AllFactions[i % 5];
    assert LeaderboardIds()[i] == SoloLeaderboardId(m, f);
    SoloLeaderboardRoundTrip(m, f);
    assert m.Value() == i / 5 + 1;
    assert f.Id() == i % 5;
  }

  lemma TeamTablePosition(i: nat)
    requires 20 <= i < 26
    ensures TablePosition(LeaderboardIds()[i]) == i
  {
    var k := i - 20;
    var m := TeamMatchTypes[k / 2];
    var t := TeamFactions[k % 2];
    assert LeaderboardIds()[i] == TeamLeaderboardId(m, t);
    TeamLeaderboardRoundTrip(m, t);
    assert m.Value() == k / 2 && t.Value() == k % 2;
    assert SoloLeaderboardOf(LeaderboardIds()[i]).None?;
  }

  /** Where a ranked solo leaderboard sits in the solo comprehension. */
  lemma SoloTableEntry(m: SoloMatchType, f: Faction)
    requires m != Custom
    ensures var k := (m.Value() - 1) * 5 + f.Id();
            && 0 <= k < 20
            && SoloLeaderboardTable()[k] == (SoloLeaderboardId(m, f), Leaderboard(SoloLeaderboardName(m, f), None))
  {
    FactionAtId(f);
    var k := (m.Value() - 1) * 5 + f.Id();
    assert k / 5 == m.Value() - 1 && k % 5 == f.Id();
    assert RankedSoloMatchTypes[m.Value() - 1] == m;
  }

  /** Where a team leaderboard sits in the team comprehension. */
  lemma TeamTableEntry(m: TeamMatchType, t: TeamFaction)
    ensures var k := m.Value() * 2 + t.Value();
            && 0 <= k < 6
            && TeamLeaderboardTable()[k] == (TeamLeaderboardId(m, t), Leaderboard(TeamLeaderboardName(m, t), None))
  {
    var k := m.Value() * 2 + t.Value();
    assert k / 2 == m.Value() && k % 2 == t.Value();
    assert TeamMatchTypes[m.Value()] == m && TeamFactions[t.Value()] == t;
  }

  /** An entry whose key no later entry repeats is the one the dict keeps. */
  lemma {:induction false} TableToMapLookup(entries: seq<(int, Leaderboard)>, i: nat)
    requires i < |entries|
    requires forall j :: i < j < |entries| ==> entries[j].0 != entries[i].0
    ensures entries[i].0 in TableToMap(entries) && TableToMap(entries)[entries[i].0] == entries[i].1
  {
    if i < |entries| - 1 {
      var prefix := entries[..|entries| - 1];
      TableToMapLookup(prefix, i);
    }
  }

  /** A sequence without repetitions has as many distinct elements as entries. */
  lemma {:induction false} DistinctCount(s: seq<int>)
    requires forall i, j :: 0 <= i < j < |s| ==> s[i] != s[j]
    ensures |set i | 0 <= i < |s| :: s[i]| == |s|
  {
    if |s| > 0 {
      var prefix := s[..|s| - 1];
      DistinctCount(prefix);
      var before := set i | 0 <= i < |prefix| :: prefix[i];
      var after := set i | 0 <= i < |s| :: s[i];
      assert after == before + {s[|s| - 1]};
      assert s[|s| - 1] !in before;
    }
  }

  /** The table's ids in insertion order are pairwise distinct. */
  lemma LeaderboardIdsDistinctInTable()
    ensures forall i, j :: 0 <= i < j < 26 ==> LeaderboardIds()[i] != LeaderboardIds()[j]
  {
    TablePositions();
  }

  lemma InitialLeaderboardKeys()
    ensures InitialLeaderboards().Keys == set i | 0 <= i < 26 :: LeaderboardIds()[i]
  {
    var ids := LeaderboardIds();
    var solo := SoloLeaderboardTable();
    var team := TeamLeaderboardTable();
    var keys := InitialLeaderboards().Keys;
    assert keys == TableToMap(solo).Keys + TableToMap(team).Keys;
    forall x | x in keys ensures exists i :: 0 <= i < 26 && ids[i] == x {
      if x in TableToMap(team) {
        var i :| 0 <= i < 6 && team[i].0 == x;
        assert ids[20 + i] == x;
      } else {
        var i :| 0 <= i < 20 && solo[i].0 == x;
        assert ids[i] == x;
      }
    }
    forall i | 0 <= i < 26 ensures ids[i] in keys {
      if i < 20 {
        assert solo[i].0 == ids[i];
      } else {
        assert team[i - 20].0 == ids[i];
      }
    }
  }

  lemma SoloLeaderboardEntry(m: SoloMatchType, f: Faction)
    requires m != Custom
    ensures SoloLeaderboardId(m, f) in InitialLeaderboards()
    ensures InitialLeaderboards()[SoloLeaderboardId(m, f)] == Leaderboard(SoloLeaderboardName(m, f), None)
  {
    var solo := SoloLeaderboardTable();
    SoloTableEntry(m, f);
    var k := (m.Value() - 1) * 5 + f.Id();
    LeaderboardIdsDistinctInTable();
    assert forall j :: 0 <= j < 20 ==> solo[j].0 == LeaderboardIds()[j];
    TableToMapLookup(solo, k);
    assert SoloLeaderboardId(m, f) !in TableToMap(TeamLeaderboardTable());
  }

  lemma TeamLeaderboardEntry(m: TeamMatchType, t: TeamFaction)
    ensures TeamLeaderboardId(m, t) in InitialLeaderboards()
    ensures InitialLeaderboards()[TeamLeaderboardId(m, t)] == Leaderboard(TeamLeaderboardName(m, t), None)
  {
    var team := TeamLeaderboardTable();
    TeamTableEntry(m, t);
    LeaderboardIdsDistinctInTable();
    assert forall j :: 0 <= j < 6 ==> team[j].0 == LeaderboardIds()[20 + j];
    TableToMapLookup(team, m.Value() * 2 + t.Value());
  }

  lemma CustomLeaderboardsAbsent(f: Faction)
    ensures SoloLeaderboardId(Custom, f) !in InitialLeaderboards()
  {
    InitialLeaderboardKeys();
    TablePositions();
    SoloLeaderboardRoundTrip(Custom, f);
    var x := SoloLeaderboardId(Custom, f);
    assert TablePosition(x) < 0;
  }

  /** The table holds the 20 ranked solo leaderboards and the 6 team
      leaderboards: 26 distinct ids, none of them a custom-game id, each
      with its name and no rank total yet. */
  lemma InitialLeaderboardsContents()
    ensures |InitialLeaderboards()| == 26
    ensures forall m, f :: m != Custom ==>
              SoloLeaderboardId(m, f) in InitialLeaderboards()
              && InitialLeaderboards()[SoloLeaderboardId(m, f)] == Leaderboard(SoloLeaderboardName(m, f), None)
    ensures forall m, t ::
              TeamLeaderboardId(m, t) in InitialLeaderboards()
              && InitialLeaderboards()[TeamLeaderboardId(m, t)] == Leaderboard(TeamLeaderboardName(m, t), None)
    ensures forall f :: SoloLeaderboardId(Custom, f) !in InitialLeaderboards()
  {
    InitialLeaderboardKeys();
    LeaderboardIdsDistinctInTable();
    DistinctCount(LeaderboardIds());
    forall m, f | m != Custom
      ensures SoloLeaderboardId(m, f) in InitialLeaderboards()
              && InitialLeaderboards()[SoloLeaderboardId(m, f)] == Leaderboard(SoloLeaderboardName(m, f), None)
    {
      SoloLeaderboardEntry(m, f);
    }
    forall m, t
      ensures TeamLeaderboardId(m, t) in InitialLeaderboards()
              && InitialLeaderboards()[TeamLeaderboardId(m, t)] == Leaderboard(TeamLeaderboardName(m, t), None)
    {
      TeamLeaderboardEntry(m, t);
    }
    forall f ensures SoloLeaderboardId(Custom, f) !in InitialLeaderboards() {
      CustomLeaderboardsAbsent(f);
    }
  }

  // ---------------------------------------------------------------------
  // Personal statistics responses

  /** One entry of `leaderboardStats`. */
  datatype LeaderboardStat = LeaderboardStat(
    statgroupId: int,
    leaderboardId: int,
    wins: int,
    losses: int,
    streak: int,
    drops: int,
    rank: int,
    rankLevel: int,
    rankTotal: int,
    highestRank: int,
    highestRankLevel: int)

  /** One entry of a stat group's `members`. */
  datatype Member = Member(profileId: int, alias: string, name: string, level: int, country: string)

  /** One entry of `statGroups`; `groupType` is the group's `type` (its size). */
  datatype StatGroup = StatGroup(id: int, groupType: int, members: seq<Member>)

  /** A personal-statistics response; `NoResponse` is the empty dict. */
  datatype PersonalStats =
    | NoResponse
    | Response(leaderboardStats: seq<LeaderboardStat>, statGroups: seq<StatGroup>)

  /** The guard of `_get_player`: no request, and so an empty response, for
      a relic id that is not positive. */
  function PersonalStatsFor(relicId: int, response: PersonalStats): (json: PersonalStats)
    ensures json.Response? ==> relicId > 0 && json == response
    ensures relicId <= 0 ==> json == NoResponse
    ensures relicId > 0 ==> json == response
  {
    if relicId <= 0 then NoResponse else response
  }

  // _set_player_stats_from_json

  /** The index of the first entry for the leaderboard, if any. */
  function FirstStatIndex(stats: seq<LeaderboardStat>, leaderboardId: int): (r: Option<nat>)
    ensures r.None? <==> forall i :: 0 <= i < |stats| ==> stats[i].leaderboardId != leaderboardId
    ensures r.Some? ==> r.value < |stats| && stats[r.value].leaderboardId == leaderboardId
    ensures r.Some? ==> forall j :: 0 <= j < r.value ==> stats[j].leaderboardId != leaderboardId
    decreases |stats|
  {
    if |stats| == 0 then None
    else if stats[0].leaderboardId == leaderboardId then Some(0)
    else
      match FirstStatIndex(stats[1..], leaderboardId)
      case None => None
      case Some(i) => Some(i + 1)
  }

  function WithStats(player: Player, s: LeaderboardStat): Player {
    player.(wins := s.wins, losses := s.losses, streak := s.streak, drops := s.drops,
            rank := s.rank, rankLevel := s.rankLevel, rankTotal := s.rankTotal,
            highestRank := s.highestRank, highestRankLevel := s.highestRankLevel)
  }

  /** The player after `_set_player_stats_from_json`: unchanged for an empty
      response or when no entry is for the leaderboard; otherwise the nine
      stat fields of the first entry for it, and nothing else, replaced. */
  function StatsFromJson(player: Player, leaderboardId: int, json: PersonalStats): (p: Player)
    ensures p.(wins := player.wins, losses := player.losses, streak := player.streak,
               drops := player.drops, rank := player.rank, rankLevel := player.rankLevel,
               rankTotal := player.rankTotal, highestRank := player.highestRank,
               highestRankLevel := player.highestRankLevel) == player
    ensures json.NoResponse? ==> p == player
    ensures json.Response? && FirstStatIndex(json.leaderboardStats, leaderboardId).None? ==> p == player
    ensures json.Response? && FirstStatIndex(json.leaderboardStats, leaderboardId).Some? ==>
              p == WithStats(player, json.leaderboardStats[FirstStatIndex(json.leaderboardStats, leaderboardId).value])
  {
    if json.NoResponse? then player
    else
      match FirstStatIndex(json.leaderboardStats, leaderboardId)
      case None => player
      case Some(i) => WithStats(player, json.leaderboardStats[i])
  }

  /** `_set_player_stats_from_json` */
  method SetPlayerStatsFromJson(player: Player, leaderboardId: int, json: PersonalStats) returns (p: Player)
    ensures p == StatsFromJson(player, leaderboardId, json)
  {
    p := player;
    if json.NoResponse? {
      return;
    }
    var stats := json.leaderboardStats;
    for i := 0 to |stats|
      invariant forall j :: 0 <= j < i ==> stats[j].leaderboardId != leaderboardId
    {
      var s := stats[i];
      if s.leaderboardId == leaderboardId {
        p := WithStats(player, s);
        return;
      }
    }
  }

  // _set_extra_player_data_from_json

  /** The position of the first member, across the groups in order, with
      the profile id. */
  function FindMember(groups: seq<StatGroup>, profileId: int): (r: Option<(nat, nat)>)
    ensures r.None? <==> forall i, k :: 0 <= i < |groups| && 0 <= k < |groups[i].members| ==>
                           groups[i].members[k].profileId != profileId
    ensures r.Some? ==> var (i, k) := r.value;
              && i < |groups| && k < |groups[i].members| && groups[i].members[k].profileId == profileId
              && (forall i', k' :: 0 <= i' < i && 0 <= k' < |groups[i'].members| ==>
                    groups[i'].members[k'].profileId != profileId)
              && (forall k' :: 0 <= k' < k ==> groups[i].members[k'].profileId != profileId)
    decreases |groups|
  {
    if |groups| == 0 then None
    else
      match FindInMembers(groups[0].members, profileId)
      case Some(k) => Some((0, k))
      case None =>
        match FindMember(groups[1..], profileId)
        case None => None
        case Some((i, k)) => Some((i + 1, k))
  }

  /** The index of the first member with the profile id. */
  function FindInMembers(members: seq<Member>, profileId: int): (r: Option<nat>)
    ensures r.None? <==> forall k :: 0 <= k < |members| ==> members[k].profileId != profileId
    ensures r.Some? ==> r.value < |members| && members[r.value].profileId == profileId
    ensures r.Some? ==> forall k :: 0 <= k < r.value ==> members[k].profileId != profileId
    decreases |members|
  {
    if |members| == 0 then None
    else if members[0].profileId == profileId then Some(0)
    else
      match FindInMembers(members[1..], profileId)
      case None => None
      case Some(k) => Some(k + 1)
  }

  function WithMember(player: Player, m: Member): Player {
    player.(name := m.alias, steamProfile := m.name, prestige := m.level, country := m.country)
  }

  /** The player after `_set_extra_player_data_from_json`: alias, name,
      level and country of the first member with the player's relic id, and
      nothing else, copied in; unchanged when there is none. */
  function ExtraDataFromJson(player: Player, json: PersonalStats): (p: Player)
    ensures p.(name := player.name, steamProfile := player.steamProfile,
               prestige := player.prestige, country := player.country) == player
    ensures json.NoResponse? || FindMember(json.statGroups, player.relicId).None? ==> p == player
    ensures json.Response? && FindMember(json.statGroups, player.relicId).Some? ==>
              var (i, k) := FindMember(json.statGroups, player.relicId).value;
              var m := json.statGroups[i].members[k];
              && m.profileId == player.relicId
              && p.name == m.alias && p.steamProfile == m.name && p.prestige == m.level && p.country == m.country
  {
    if json.NoResponse? then player
    else
      match FindMember(json.statGroups, player.relicId)
      case None => player
      case Some((i, k)) => WithMember(player, json.statGroups[i].members[k])
  }

  /** `_set_extra_player_data_from_json` */
  method SetExtraPlayerDataFromJson(player: Player, json: PersonalStats) returns (p: Player)
    ensures p == ExtraDataFromJson(player, json)
  {
    p := player;
    if json.NoResponse? {
      return;
    }
    var groups := json.statGroups;
    for i := 0 to |groups|
      invariant forall i', k' :: 0 <= i' < i && 0 <= k' < |groups[i'].members| ==>
                  groups[i'].members[k'].profileId != player.relicId
    {
      var members := groups[i].members;
      for k := 0 to |members|
        invariant forall k' :: 0 <= k' < k ==> members[k'].profileId != player.relicId
      {
        var m := members[k];
        if m.profileId == player.relicId {
          p := WithMember(player, m);
          return;
        }
      }
    }
  }

  // _set_teams_from_json

  /** `[m['profile_id'] for m in members]`, as appended one by one. */
  function ProfileIds(members: seq<Member>): (ids: seq<int>)
    ensures |ids| == |members|
    ensures forall k :: 0 <= k < |members| ==> ids[k] == members[k].profileId
  {
    seq(|members|, k requires 0 <= k < |members| => members[k].profileId)
  }

  predicate IsTeamStat(s: LeaderboardStat, statgroupId: int, leaderboardId: int) {
    s.statgroupId == statgroupId && s.leaderboardId == leaderboardId
  }

  function WithTeamStats(t: Team, s: LeaderboardStat): Team {
    t.(rank := s.rank, rankLevel := s.rankLevel, highestRank := s.highestRank,
       highestRankLevel := s.highestRankLevel)
  }

  /** The team after the stats loop: every matching entry overwrites the
      four rank fields in turn. */
  function ApplyTeamStats(t: Team, stats: seq<LeaderboardStat>, statgroupId: int, leaderboardId: int): (r: Team)
    ensures r.(rank := t.rank, rankLevel := t.rankLevel, highestRank := t.highestRank,
               highestRankLevel := t.highestRankLevel) == t
  {
    if |stats| == 0 then t
    else
      var prev := ApplyTeamStats(t, stats[..|stats| - 1], statgroupId, leaderboardId);
      var s := stats[|stats| - 1];
      if IsTeamStat(s, statgroupId, leaderboardId) then WithTeamStats(prev, s) else prev
  }

  /** With no matching entry the team keeps its ranks. */
  lemma {:induction false} ApplyTeamStatsNoMatch(t: Team, stats: seq<LeaderboardStat>, gid: int, lid: int)
    requires forall j :: 0 <= j < |stats| ==> !IsTeamStat(stats[j], gid, lid)
    ensures ApplyTeamStats(t, stats, gid, lid) == t
  {
    if |stats| > 0 {
      ApplyTeamStatsNoMatch(t, stats[..|stats| - 1], gid, lid);
    }
  }

  /** The last matching entry wins. */
  lemma {:induction false} ApplyTeamStatsLastWins(t: Team, stats: seq<LeaderboardStat>, gid: int, lid: int, j: nat)
    requires j < |stats| && IsTeamStat(stats[j], gid, lid)
    requires forall j' :: j < j' < |stats| ==> !IsTeamStat(stats[j'], gid, lid)
    ensures ApplyTeamStats(t, stats, gid, lid) == WithTeamStats(t, stats[j])
  {
    var prefix := stats[..|stats| - 1];
    if j < |stats| - 1 {
      ApplyTeamStatsLastWins(t, prefix, gid, lid, j);
    }
  }

  /** The position of the last entry for the stat group and leaderboard. */
  function LastTeamStat(stats: seq<LeaderboardStat>, gid: int, lid: int): (r: Option<nat>)
    ensures r.None? <==> forall j :: 0 <= j < |stats| ==> !IsTeamStat(stats[j], gid, lid)
    ensures r.Some? ==> r.value < |stats| && IsTeamStat(stats[r.value], gid, lid)
                        && forall j :: r.value < j < |stats| ==> !IsTeamStat(stats[j], gid, lid)
  {
    if |stats| == 0 then None
    else if IsTeamStat(stats[|stats| - 1], gid, lid) then Some(|stats| - 1)
    else LastTeamStat(stats[..|stats| - 1], gid, lid)
  }

  /** The four rank fields are those of the last entry for the stat group
      and leaderboard, and stay -1 when there is none. */
  predicate RankedFrom(t: Team, stats: seq<LeaderboardStat>, gid: int, lid: int) {
    match LastTeamStat(stats, gid, lid)
    case None =>
      t.rank == -1 && t.rankLevel == -1 && t.highestRank == -1 && t.highestRankLevel == -1
    case Some(j) =>
      && j < |stats|
      && t.rank == stats[j].rank && t.rankLevel == stats[j].rankLevel
      && t.highestRank == stats[j].highestRank && t.highestRankLevel == stats[j].highestRankLevel
  }

  /** Scanning the stats from a team without ranks leaves the ranks of the
      last matching entry, or none. */
  lemma ApplyTeamStatsRanked(t: Team, stats: seq<LeaderboardStat>, gid: int, lid: int)
    requires t.rank == -1 && t.rankLevel == -1 && t.highestRank == -1 && t.highestRankLevel == -1
    ensures RankedFrom(ApplyTeamStats(t, stats, gid, lid), stats, gid, lid)
  {
    match LastTeamStat(stats, gid, lid)
    case None => ApplyTeamStatsNoMatch(t, stats, gid, lid);
    case Some(j) => ApplyTeamStatsLastWins(t, stats, gid, lid, j);
  }

  /** The team `_set_teams_from_json` builds for a group of more than one
      player; the team leaderboard is only looked up (and the group type
      only checked) when there are stats to scan. */
  function TeamOfGroup(g: StatGroup, stats: seq<LeaderboardStat>, tf: TeamFaction): (r: Result<Team, ApiError>)
    ensures r.Err? <==> |stats| > 0 && TeamMatchTypeOf(g.groupType - 2).None?
    ensures r.Err? ==> r.error == InvalidTeamMatchType(g.groupType - 2)
    ensures r.Ok? ==> BuiltFrom(r.value, g, stats, tf)
  {
    var base := NewTeam(g.id).(members := ProfileIds(g.members));
    if |stats| == 0 then Ok(base)
    else
      match TeamMatchTypeOf(g.groupType - 2)
      case None => Err(InvalidTeamMatchType(g.groupType - 2))
      case Some(m) =>
        ApplyTeamStatsRanked(base, stats, g.id, TeamLeaderboardId(m, tf));
        Ok(ApplyTeamStats(base, stats, g.id, TeamLeaderboardId(m, tf)))
  }

  /** The team has the group's id and its members' profile ids, in order.
      Its ranks come from the last entry for the group on the team
      leaderboard of its size and the team faction, and stay -1 without
      one (in particular when there are no stats). */
  predicate BuiltFrom(t: Team, g: StatGroup, stats: seq<LeaderboardStat>, tf: TeamFaction) {
    && t.id == g.id && t.members == ProfileIds(g.members)
    && (|stats| == 0 ==>
          t.rank == -1 && t.rankLevel == -1 && t.highestRank == -1 && t.highestRankLevel == -1)
    && (TeamMatchTypeOf(g.groupType - 2).Some? ==>
          RankedFrom(t, stats, g.id, TeamLeaderboardId(TeamMatchTypeOf(g.groupType - 2).value, tf)))
  }

  /** The groups of more than one player, in order. */
  function TeamGroups(groups: seq<StatGroup>): (r: seq<StatGroup>)
    ensures |r| <= |groups|
    ensures forall i :: 0 <= i < |r| ==> r[i].groupType > 1 && r[i] in groups
    ensures forall i :: 0 <= i < |groups| && groups[i].groupType > 1 ==> groups[i] in r
    decreases |groups|
  {
    if |groups| == 0 then []
    else
      assert forall i :: 1 <= i < |groups| ==> groups[i] == groups[1..][i - 1];
      assert forall g :: g in groups[1..] ==> g in groups;
      (if groups[0].groupType > 1 then [groups[0]] else []) + TeamGroups(groups[1..])
  }

  /** The groups are kept in order: filtering two runs of groups one after
      the other gives the two filtered runs one after the other. */
  lemma {:induction false} TeamGroupsAppend(a: seq<StatGroup>, b: seq<StatGroup>)
    ensures TeamGroups(a + b) == TeamGroups(a) + TeamGroups(b)
    decreases |a|
  {
    if |a| > 0 {
      assert (a + b)[1..] == a[1..] + b;
      TeamGroupsAppend(a[1..], b);
    } else {
      assert a + b == b;
    }
  }

  /** Some group has more than four players: no team match type fits it. */
  predicate HasOversizedGroup(groups: seq<StatGroup>) {
    exists i :: 0 <= i < |groups| && groups[i].groupType > 4
  }

  lemma HasOversizedGroupCons(groups: seq<StatGroup>)
    requires |groups| > 0
    ensures HasOversizedGroup(groups) <==> groups[0].groupType > 4 || HasOversizedGroup(groups[1..])
  {
    if HasOversizedGroup(groups) && groups[0].groupType <= 4 {
      var i :| 0 <= i < |groups| && groups[i].groupType > 4;
      assert groups[1..][i - 1] == groups[i];
    }
    if HasOversizedGroup(groups[1..]) {
      var i :| 0 <= i < |groups| - 1 && groups[1..][i].groupType > 4;
      assert groups[i + 1] == groups[1..][i];
    }
  }

  /** One team per group, in order, each built from its group. */
  predicate AllBuiltFrom(ts: seq<Team>, gs: seq<StatGroup>, stats: seq<LeaderboardStat>, tf: TeamFaction) {
    |ts| == |gs| && forall i :: 0 <= i < |gs| ==> BuiltFrom(ts[i], gs[i], stats, tf)
  }

  lemma AllBuiltFromCons(t: Team, ts: seq<Team>, g: StatGroup, gs: seq<StatGroup>,
                         stats: seq<LeaderboardStat>, tf: TeamFaction)
    requires BuiltFrom(t, g, stats, tf) && AllBuiltFrom(ts, gs, stats, tf)
    ensures AllBuiltFrom([t] + ts, [g] + gs, stats, tf)
  {
    assert forall i :: 1 <= i <= |ts| ==> ([t] + ts)[i] == ts[i - 1] && ([g] + gs)[i] == gs[i - 1];
  }

  /** The teams appended for the groups in order, or the first error. */
  function TeamsFromGroups(groups: seq<StatGroup>, stats: seq<LeaderboardStat>, tf: TeamFaction)
    : (r: Result<seq<Team>, ApiError>)
    ensures r.Err? <==> |stats| > 0 && HasOversizedGroup(groups)
    ensures r.Ok? ==> AllBuiltFrom(r.value, TeamGroups(groups), stats, tf)
    decreases |groups|
  {
    if |groups| == 0 then Ok([])
    else
      var g := groups[0];
      HasOversizedGroupCons(groups);
      if g.groupType <= 1 then
        TeamsFromGroups(groups[1..], stats, tf)
      else
        match TeamOfGroup(g, stats, tf)
        case Err(e) => Err(e)
        case Ok(t) =>
          match TeamsFromGroups(groups[1..], stats, tf)
          case Err(e) => Err(e)
          case Ok(ts) =>
            AllBuiltFromCons(t, ts, g, TeamGroups(groups[1..]), stats, tf);
            Ok([t] + ts)
  }

  /** The player after `_set_teams_from_json`: its teams extended by one
      team per group of more than one player, and nothing else changed. */
  function TeamsFromJson(player: Player, json: PersonalStats): (r: Result<Player, ApiError>)
    ensures r.Ok? ==> r.value.(teams := player.teams) == player
    ensures r.Ok? ==> |player.teams| <= |r.value.teams| && r.value.teams[..|player.teams|] == player.teams
    ensures json.NoResponse? ==> r == Ok(player)
    ensures json.Response? && r.Ok? ==>
              AllBuiltFrom(r.value.teams[|player.teams|..], TeamGroups(json.statGroups),
                           json.leaderboardStats, PlayerTeamFaction(player))
    ensures r.Err? <==> json.Response? && |json.leaderboardStats| > 0 && HasOversizedGroup(json.statGroups)
  {
    if json.NoResponse? then Ok(player)
    else
      match TeamsFromGroups(json.statGroups, json.leaderboardStats, PlayerTeamFaction(player))
      case Err(e) => Err(e)
      case Ok(ts) =>
        assert (player.teams + ts)[|player.teams|..] == ts;
        Ok(player.(teams := player.teams + ts))
  }

  /** Prepends the teams built so far to the result for the remaining groups. */
  function PrependTeams(built: seq<Team>, rest: Result<seq<Team>, ApiError>): Result<seq<Team>, ApiError> {
    match rest
    case Err(e) => Err(e)
    case Ok(ts) => Ok(built + ts)
  }

  lemma PrependTeamsLaws(a: seq<Team>, b: seq<Team>, rest: Result<seq<Team>, ApiError>)
    ensures PrependTeams([], rest) == rest
    ensures PrependTeams(a, PrependTeams(b, rest)) == PrependTeams(a + b, rest)
  {
    if rest.Ok? {
      assert [] + rest.value == rest.value;
      assert a + (b + rest.value) == (a + b) + rest.value;
    }
  }

  /** The inner loops of `_set_teams_from_json` for one group. */
  method BuildGroupTeam(g: StatGroup, stats: seq<LeaderboardStat>, tf: TeamFaction) returns (r: Result<Team, ApiError>)
    ensures r == TeamOfGroup(g, stats, tf)
  {
    var t := NewTeam(g.id);
    for k := 0 to |g.members|
      invariant t == NewTeam(g.id).(members := ProfileIds(g.members[..k]))
    {
      assert ProfileIds(g.members[..k + 1]) == ProfileIds(g.members[..k]) + [g.members[k].profileId];
      t := t.(members := t.members + [g.members[k].profileId]);
    }
    assert g.members[..|g.members|] == g.members;
    ghost var base := t;
    for j := 0 to |stats|
      invariant j > 0 ==> TeamMatchTypeOf(g.groupType - 2).Some?
      invariant j > 0 ==> t == ApplyTeamStats(base, stats[..j], g.id, TeamLeaderboardId(TeamMatchTypeOf(g.groupType - 2).value, tf))
      invariant j == 0 ==> t == base
    {
      var s := stats[j];
      var m := TeamMatchTypeOf(g.groupType - 2);
      if m.None? {
        return Err(InvalidTeamMatchType(g.groupType - 2));
      }
      var lid := TeamLeaderboardId(m.value, tf);
      assert stats[..j + 1][..j] == stats[..j];
      if s.statgroupId == t.id && s.leaderboardId == lid {
        t := t.(rank := s.rank, rankLevel := s.rankLevel, highestRank := s.highestRank,
                highestRankLevel := s.highestRankLevel);
      }
    }
    assert stats[..|stats|] == stats;
    r := Ok(t);
  }

  /** One step of the outer loop of `_set_teams_from_json`. */
  lemma TeamsFromGroupsStep(groups: seq<StatGroup>, i: nat, stats: seq<LeaderboardStat>, tf: TeamFaction)
    requires i < |groups|
    ensures groups[i].groupType <= 1 ==>
              TeamsFromGroups(groups[i..], stats, tf) == TeamsFromGroups(groups[i + 1..], stats, tf)
    ensures groups[i].groupType > 1 && TeamOfGroup(groups[i], stats, tf).Err? ==>
              TeamsFromGroups(groups[i..], stats, tf) == Err(TeamOfGroup(groups[i], stats, tf).error)
    ensures groups[i].groupType > 1 && TeamOfGroup(groups[i], stats, tf).Ok? ==>
              TeamsFromGroups(groups[i..], stats, tf)
              == PrependTeams([TeamOfGroup(groups[i], stats, tf).value], TeamsFromGroups(groups[i + 1..], stats, tf))
  {
    assert groups[i..][1..] == groups[i + 1..];
  }

  /** `_set_teams_from_json` */
  method SetTeamsFromJson(player: Player, json: PersonalStats) returns (r: Result<Player, ApiError>)
    ensures r == TeamsFromJson(player, json)
  {
    if json.NoResponse? {
      return Ok(player);
    }
    var groups := json.statGroups;
    var stats := json.leaderboardStats;
    var tf := PlayerTeamFaction(player);
    var added: seq<Team> := [];
    assert groups[0..] == groups;
    PrependTeamsLaws([], [], TeamsFromGroups(groups, stats, tf));
    for i := 0 to |groups|
      invariant TeamsFromGroups(groups, stats, tf) == PrependTeams(added, TeamsFromGroups(groups[i..], stats, tf))
    {
      var g := groups[i];
      TeamsFromGroupsStep(groups, i, stats, tf);
      if g.groupType <= 1 {
        continue;
      }
      var t := BuildGroupTeam(g, stats, tf);
      if t.Err? {
        return Err(t.error);
      }
      PrependTeamsLaws(added, [t.value], TeamsFromGroups(groups[i + 1..], stats, tf));
      added := added + [t.value];
    }
    assert groups[|groups|..] == [];
    assert TeamsFromGroups(groups, stats, tf) == Ok(added + []);
    assert added + [] == added;
    r := Ok(player.(teams := player.teams + added));
  }

  // ---------------------------------------------------------------------
  // The API object

  /** `CoH2API`: its request timeout and its leaderboard table, whose keys
      `order` lists in insertion order. The HTTP client is not modelled. */
  class CoH2Api {
    var timeout: int
    var leaderboards: map<int, Leaderboard>
    var order: seq<int>

    /** The keys of the table are those of `order`, each once. */
    predicate Valid()
      reads this
    {
      && (forall i, j :: 0 <= i < j < |order| ==> order[i] != order[j])
      && leaderboards.Keys == set i | 0 <= i < |order| :: order[i]
    }

    /** `__init__`: builds the leaderboard table. */
    constructor(timeout: int)
      ensures Valid()
      ensures this.timeout == timeout
      ensures leaderboards == InitialLeaderboards() && order == LeaderboardIds()
    {
      this.timeout := timeout;
      leaderboards := InitialLeaderboards();
      order := LeaderboardIds();
      new;
      InitialLeaderboardKeys();
      LeaderboardIdsDistinctInTable();
    }

    /** `init_leaderboards`, given the `rankTotal` of each leaderboard's
        response, in the table's order. */
    method InitLeaderboards(rankTotals: seq<int>)
      modifies this
      requires Valid()
      requires |rankTotals| == |order|
      ensures Valid()
      ensures timeout == old(timeout) && order == old(order)
      ensures leaderboards.Keys == old(leaderboards.Keys)
      ensures forall i :: 0 <= i < |order| ==>
                leaderboards[order[i]] == old(leaderboards[order[i]]).(rankTotal := Some(rankTotals[i]))
    {
      if |rankTotals| == 0 {
        return;
      }
      ghost var before := leaderboards;
      assert forall j :: 0 <= j < |order| ==> order[j] in before;
      for i := 0 to |order|
        invariant order == old(order) && timeout == old(timeout)
        invariant leaderboards.Keys == before.Keys
        invariant forall j :: 0 <= j < i ==>
                    leaderboards[order[j]] == before[order[j]].(rankTotal := Some(rankTotals[j]))
        invariant forall j :: i <= j < |order| ==> leaderboards[order[j]] == before[order[j]]
      {
        var id := order[i];
        leaderboards := leaderboards[id := leaderboards[id].(rankTotal := Some(rankTotals[i]))];
      }
    }

    /** `_set_rank_total`: the cached rank total fills in a missing one. */
    function SetRankTotal(player: Player, leaderboardId: int): (r: Result<Player, ApiError>)
      reads this
      ensures r.Err? <==> leaderboardId !in leaderboards
      ensures r.Err? ==> r.error == UnknownLeaderboard(leaderboardId)
      ensures r.Ok? ==> r.value.(rankTotal := player.rankTotal) == player
      ensures r.Ok? && player.rankTotal > 0 ==> r.value == player
      ensures r.Ok? && player.rankTotal <= 0 ==>
                r.value.rankTotal == (match leaderboards[leaderboardId].rankTotal
                                      case Some(total) => total
                                      case None => player.rankTotal)
    {
      if leaderboardId !in leaderboards then Err(UnknownLeaderboard(leaderboardId))
      else
        var rankTotal := leaderboards[leaderboardId].rankTotal;
        if player.rankTotal <= 0 && rankTotal.Some? then Ok(player.(rankTotal := rankTotal.value))
        else Ok(player)
    }

    /** What `_init_player` returns, or the error it raises. */
    function InitPlayerOf(player: Player, numPlayers: nat, json: PersonalStats): Result<Player, ApiError>
      reads this
    {
      match SoloMatchTypeOf(numPlayers / 2)
      case None => Err(InvalidSoloMatchType(numPlayers / 2))
      case Some(m) =>
        var leaderboardId := SoloLeaderboardId(m, player.faction);
        var p := StatsFromJson(player, leaderboardId, json);
        match SetRankTotal(p, leaderboardId)
        case Err(e) => Err(e)
        case Ok(p) => TeamsFromJson(ExtraDataFromJson(p, json), json)
    }

    /** `_init_player` */
    method InitPlayer(player: Player, numPlayers: nat, json: PersonalStats) returns (r: Result<Player, ApiError>)
      ensures r == InitPlayerOf(player, numPlayers, json)
    {
      var m := SoloMatchTypeOf(numPlayers / 2);
      if m.None? {
        return Err(InvalidSoloMatchType(numPlayers / 2));
      }
      var leaderboardId := SoloLeaderboardId(m.value, player.faction);
      var p := SetPlayerStatsFromJson(player, leaderboardId, json);
      p :- SetRankTotal(p, leaderboardId);
      p := SetExtraPlayerDataFromJson(p, json);
      r := SetTeamsFromJson(p, json);
    }

    /** Initialising a player keeps who it is: id, relic id, side and
        faction, and the teams it had. */
    lemma InitPlayerKeepsIdentity(player: Player, numPlayers: nat, json: PersonalStats)
      requires InitPlayerOf(player, numPlayers, json).Ok?
      ensures var p := InitPlayerOf(player, numPlayers, json).value;
              && p.id == player.id && p.relicId == player.relicId
              && p.teamId == player.teamId && p.faction == player.faction
              && |player.teams| <= |p.teams| && p.teams[..|player.teams|] == player.teams
    {
    }

    /** A player without a positive relic id gets no response, so at most
        its rank total changes. */
    lemma InitPlayerWithoutProfile(player: Player, numPlayers: nat, response: PersonalStats)
      requires player.relicId <= 0
      requires InitPlayerOf(player, numPlayers, PersonalStatsFor(player.relicId, response)).Ok?
      ensures InitPlayerOf(player, numPlayers, PersonalStatsFor(player.relicId, response)).value.(rankTotal := player.rankTotal)
              == player
    {
    }

    /** Fewer than two players means a custom game, whose leaderboard is
        not in the table; ten or more is no solo match type at all. */
    lemma InitPlayerMatchSizes(player: Player, numPlayers: nat, json: PersonalStats)
      requires leaderboards.Keys == InitialLeaderboards().Keys
      ensures numPlayers < 2 ==>
                InitPlayerOf(player, numPlayers, json) == Err(UnknownLeaderboard(SoloLeaderboardId(Custom, player.faction)))
      ensures numPlayers >= 10 ==> InitPlayerOf(player, numPlayers, json) == Err(InvalidSoloMatchType(numPlayers / 2))
    {
      if numPlayers < 2 {
        CustomLeaderboardsAbsent(player.faction);
        assert SoloMatchTypes[0] == Custom;
        assert SoloMatchTypeOf(numPlayers / 2) == Some(Custom);
      }
    }
  }
}
