/** A match of two parties, each with its pre-made teams and rank estimates. */
module Matches {
  import opened Wrappers
  import opened Teams
  import opened Players

  /** The `ValueError`s raised while building a match, and the
      `ZeroDivisionError` of `relative_rank` for a ranked player whose rank
      total is 0. */
  datatype MatchError = TooFewPlayers | PartySizeOutOfRange | UnequalPartySizes | ZeroDivision

  const MatchMinSize := 2
  const PartyMinSize := 1
  const PartyMaxSize := 4

  /** `sys.maxsize` on a 64-bit interpreter: the initial minimum relative rank. */
  const SysMaxSize: int := 0x7FFF_FFFF_FFFF_FFFF

  /** `Party`: its players and what the constructor derives from them. */
  datatype Party = Party(
    players: seq<Player>,
    preMadeTeams: map<int, Team>,
    minRelativeRank: real,
    maxRelativeRank: real,
    rankEstimates: map<int, Estimate>,
    avgEstimatedRank: real,
    avgEstimatedRankLevel: real)
  {
    /** `Party.size` */
    function Size(): (n: nat)
      ensures n == |players|
    {
      |players|
    }
  }

  /** `Match`: the two parties, side 0 first. */
  datatype Match = Match(parties: (Party, Party))

  // ---------------------------------------------------------------------
  // Pre-made teams

  /** `[p.relic_id for p in players]` */
  function RelicIds(players: seq<Player>): (ids: seq<int>)
    ensures |ids| == |players|
    ensures forall i :: 0 <= i < |players| ==> ids[i] == players[i].relicId
  {
    seq(|players|, i requires 0 <= i < |players| => players[i].relicId)
  }

  /** `all(member in player_ids for member in team.members)` */
  predicate FullyContained(t: Team, ids: seq<int>) {
    forall m :: m in t.members ==> m in ids
  }

  /** The teams of the first loop of `_add_player_pre_made_teams`: those
      fully contained in the party, in order. */
  function ContainedTeams(teams: seq<Team>, ids: seq<int>): (r: seq<Team>)
  {
    if |teams| == 0 then []
    else
      var last := teams[|teams| - 1];
      ContainedTeams(teams[..|teams| - 1], ids) + (if FullyContained(last, ids) then [last] else [])
  }

  lemma {:induction false} ContainedTeamsMembers(teams: seq<Team>, ids: seq<int>)
    ensures forall t :: t in ContainedTeams(teams, ids) <==> t in teams && FullyContained(t, ids)
  {
    if |teams| > 0 {
      ContainedTeamsMembers(teams[..|teams| - 1], ids);
      assert forall t :: t in teams <==> t in teams[..|teams| - 1] || t == teams[|teams| - 1];
    }
  }

  /** The running maximum of the first loop (0 for no team). */
  function MaxTeamSize(ts: seq<Team>): (m: nat)
    ensures forall t :: t in ts ==> |t.members| <= m
    ensures |ts| > 0 ==> exists t :: t in ts && |t.members| == m
    ensures |ts| == 0 ==> m == 0
  {
    if |ts| == 0 then 0
    else
      var rest := MaxTeamSize(ts[..|ts| - 1]);
      var last := ts[|ts| - 1];
      assert forall t :: t in ts ==> t in ts[..|ts| - 1] || t == last;
      if rest >= |last.members| then rest else |last.members|
  }

  /** The teams the second loop keeps: at least `size` members, in order. */
  function LargestTeams(ts: seq<Team>, size: nat): (r: seq<Team>)
  {
    if |ts| == 0 then []
    else
      var last := ts[|ts| - 1];
      LargestTeams(ts[..|ts| - 1], size) + (if |last.members| >= size then [last] else [])
  }

  lemma {:induction false} LargestTeamsMembers(ts: seq<Team>, size: nat)
    ensures forall t :: t in LargestTeams(ts, size) <==> t in ts && |t.members| >= size
  {
    if |ts| > 0 {
      LargestTeamsMembers(ts[..|ts| - 1], size);
      assert forall t :: t in ts <==> t in ts[..|ts| - 1] || t == ts[|ts| - 1];
    }
  }

  /** The teams one player contributes: the fully contained teams of
      maximal size. */
  function PlayerPreMadeTeams(p: Player, ids: seq<int>): seq<Team> {
    var candidates := ContainedTeams(p.teams, ids);
    LargestTeams(candidates, MaxTeamSize(candidates))
  }

  /** Repeated `self.pre_made_teams.add(team)`. */
  function AddTeams(acc: map<int, Team>, ts: seq<Team>): (r: map<int, Team>)
    requires KeyedById(acc)
    ensures KeyedById(r)
  {
    if |ts| == 0 then acc
    else AddTeam(AddTeams(acc, ts[..|ts| - 1]), ts[|ts| - 1])
  }

  /** Adding teams adds exactly their ids, keeps the teams already present
      and inserts only teams from the sequence. */
  lemma {:induction false} AddTeamsContents(acc: map<int, Team>, ts: seq<Team>)
    requires KeyedById(acc)
    ensures AddTeams(acc, ts).Keys == acc.Keys + set t | t in ts :: t.id
    ensures forall id :: id in acc ==> AddTeams(acc, ts)[id] == acc[id]
    ensures forall id :: id in AddTeams(acc, ts) ==> id in acc || AddTeams(acc, ts)[id] in ts
  {
    if |ts| > 0 {
      var last := ts[|ts| - 1];
      var prefix := ts[..|ts| - 1];
      AddTeamsContents(acc, prefix);
      assert forall t :: t in ts <==> t in prefix || t == last;
    }
  }

  /** The party's pre-made teams after the players processed so far. */
  function PartyPreMadeTeams(players: seq<Player>, ids: seq<int>): (r: map<int, Team>)
    ensures KeyedById(r)
  {
    if |players| == 0 then map[]
    else
      AddTeams(PartyPreMadeTeams(players[..|players| - 1], ids),
               PlayerPreMadeTeams(players[|players| - 1], ids))
  }

  lemma ContainedTeamsStep(teams: seq<Team>, i: nat, ids: seq<int>)
    requires i < |teams|
    ensures ContainedTeams(teams[..i + 1], ids)
            == ContainedTeams(teams[..i], ids) + (if FullyContained(teams[i], ids) then [teams[i]] else [])
  {
    assert teams[..i + 1][..i] == teams[..i];
  }

  lemma MaxTeamSizeStep(ts: seq<Team>, t: Team)
    ensures MaxTeamSize(ts + [t]) == Max(MaxTeamSize(ts), |t.members|)
  {
    assert (ts + [t])[..|ts|] == ts;
  }

  lemma LargestTeamsStep(ts: seq<Team>, i: nat, size: nat)
    requires i < |ts|
    ensures LargestTeams(ts[..i + 1], size)
            == LargestTeams(ts[..i], size) + (if |ts[i].members| >= size then [ts[i]] else [])
  {
    assert ts[..i + 1][..i] == ts[..i];
  }

  lemma AddTeamsStep(acc: map<int, Team>, ts: seq<Team>, t: Team)
    requires KeyedById(acc)
    ensures AddTeams(acc, ts + [t]) == AddTeam(AddTeams(acc, ts), t)
  {
    assert (ts + [t])[..|ts|] == ts;
  }

  /** The first loop of `_add_player_pre_made_teams`: the player's fully
      contained teams, in order, and the largest of their sizes. */
  method CollectContainedTeams(p: Player, playerIds: seq<int>)
    returns (playerPreMadeTeams: seq<Team>, maxPlayerPreMadeTeamSize: nat)
    ensures playerPreMadeTeams == ContainedTeams(p.teams, playerIds)
    ensures maxPlayerPreMadeTeamSize == MaxTeamSize(playerPreMadeTeams)
  {
    playerPreMadeTeams := [];
    maxPlayerPreMadeTeamSize := 0;
    for i := 0 to |p.teams|
      invariant playerPreMadeTeams == ContainedTeams(p.teams[..i], playerIds)
      invariant maxPlayerPreMadeTeamSize == MaxTeamSize(playerPreMadeTeams)
    {
      var team := p.teams[i];
      ContainedTeamsStep(p.teams, i, playerIds);
      if FullyContained(team, playerIds) {
        var preMadeTeamSize := |team.members|;
        MaxTeamSizeStep(playerPreMadeTeams, team);
        maxPlayerPreMadeTeamSize := Max(maxPlayerPreMadeTeamSize, preMadeTeamSize);
        playerPreMadeTeams := playerPreMadeTeams + [team];
      }
    }
    assert p.teams[..|p.teams|] == p.teams;
  }

  /** `_add_player_pre_made_teams`, loop by loop. */
  method AddPlayerPreMadeTeams(preMadeTeams: map<int, Team>, p: Player, playerIds: seq<int>)
    returns (r: map<int, Team>)
    requires KeyedById(preMadeTeams)
    ensures r == AddTeams(preMadeTeams, PlayerPreMadeTeams(p, playerIds))
  {
    var playerPreMadeTeams, maxPlayerPreMadeTeamSize := CollectContainedTeams(p, playerIds);
    r := preMadeTeams;
    for i := 0 to |playerPreMadeTeams|
      invariant r == AddTeams(preMadeTeams, LargestTeams(playerPreMadeTeams[..i], maxPlayerPreMadeTeamSize))
    {
      var team := playerPreMadeTeams[i];
      ghost var kept := LargestTeams(playerPreMadeTeams[..i], maxPlayerPreMadeTeamSize);
      LargestTeamsStep(playerPreMadeTeams, i, maxPlayerPreMadeTeamSize);
      if |team.members| >= maxPlayerPreMadeTeamSize {
        AddTeamsStep(preMadeTeams, kept, team);
        assert LargestTeams(playerPreMadeTeams[..i + 1], maxPlayerPreMadeTeamSize) == kept + [team];
        r := AddTeam(r, team);
      } else {
        assert LargestTeams(playerPreMadeTeams[..i + 1], maxPlayerPreMadeTeamSize) == kept;
      }
    }
    assert playerPreMadeTeams[..|playerPreMadeTeams|] == playerPreMadeTeams;
  }

  /** A player contributes exactly its fully contained teams that no other
      fully contained team of that player outnumbers. */
  lemma PlayerPreMadeTeamsMaximal(p: Player, ids: seq<int>, t: Team)
    ensures t in PlayerPreMadeTeams(p, ids) <==>
              && t in p.teams && FullyContained(t, ids)
              && forall u :: u in p.teams && FullyContained(u, ids) ==> |u.members| <= |t.members|
  {
    var candidates := ContainedTeams(p.teams, ids);
    var m := MaxTeamSize(candidates);
    ContainedTeamsMembers(p.teams, ids);
    LargestTeamsMembers(candidates, m);
    if t in p.teams && FullyContained(t, ids)
       && forall u :: u in p.teams && FullyContained(u, ids) ==> |u.members| <= |t.members| {
      var u :| u in candidates && |u.members| == m;
      assert |t.members| >= m;
    }
  }

  /** A larger fully contained team of the same player crowds out a smaller one. */
  lemma LargerTeamCrowdsOut(p: Player, ids: seq<int>, big: Team, small: Team)
    requires big in p.teams && FullyContained(big, ids)
    requires |small.members| < |big.members|
    ensures small !in PlayerPreMadeTeams(p, ids)
  {
    PlayerPreMadeTeamsMaximal(p, ids, small);
  }

  /** Players 1, 2, 3 where player 2 reports the teams (1, 2) and (2, 3):
      with no team (1, 2, 3) both are kept; reporting (1, 2, 3) as well
      keeps only that one. */
  lemma OverlappingTeamsExample(ab: Team, bc: Team, abc: Team, p: Player)
    requires ab.members == [1, 2] && bc.members == [2, 3] && abc.members == [1, 2, 3]
    ensures PlayerPreMadeTeams(p.(teams := [ab, bc]), [1, 2, 3]) == [ab, bc]
    ensures PlayerPreMadeTeams(p.(teams := [ab, bc, abc]), [1, 2, 3]) == [abc]
  {
    var ids := [1, 2, 3];
    assert FullyContained(ab, ids) && FullyContained(bc, ids) && FullyContained(abc, ids);
    var none: seq<Team> := [];
    assert none + [ab] == [ab] && [ab] + [bc] == [ab, bc] && [ab, bc] + [abc] == [ab, bc, abc];
    TeamsAppend(none, ab, ids, 2);
    TeamsAppend([ab], bc, ids, 2);
    TeamsAppend(none, ab, ids, 3);
    TeamsAppend([ab], bc, ids, 3);
    TeamsAppend([ab, bc], abc, ids, 3);
    MaxTeamSizeStep(none, ab);
    MaxTeamSizeStep([ab], bc);
    MaxTeamSizeStep([ab, bc], abc);
    assert MaxTeamSize([ab, bc]) == 2;
    assert MaxTeamSize([ab, bc, abc]) == 3;
  }

  /** One team more at the end, for the two filters of the selection. */
  lemma TeamsAppend(ts: seq<Team>, t: Team, ids: seq<int>, size: nat)
    ensures ContainedTeams(ts + [t], ids) == ContainedTeams(ts, ids) + (if FullyContained(t, ids) then [t] else [])
    ensures LargestTeams(ts + [t], size) == LargestTeams(ts, size) + (if |t.members| >= size then [t] else [])
  {
    assert (ts + [t])[..|ts|] == ts;
  }

  /** Every pre-made team of a party consists of the party's players and is
      one of the teams a player of the party contributes. */
  lemma {:induction false} PartyPreMadeTeamsSound(players: seq<Player>, ids: seq<int>)
    ensures forall id :: id in PartyPreMadeTeams(players, ids) ==>
              var t := PartyPreMadeTeams(players, ids)[id];
              && t.id == id && FullyContained(t, ids)
              && exists i :: 0 <= i < |players| && t in PlayerPreMadeTeams(players[i], ids)
  {
    if |players| > 0 {
      var prefix := players[..|players| - 1];
      PartyPreMadeTeamsSound(prefix, ids);
      var last := players[|players| - 1];
      var r := PartyPreMadeTeams(players, ids);
      forall id | id in r
        ensures FullyContained(r[id], ids)
                && exists i :: 0 <= i < |players| && r[id] in PlayerPreMadeTeams(players[i], ids)
      {
        var prev := PartyPreMadeTeams(prefix, ids);
        AddTeamsContents(prev, PlayerPreMadeTeams(last, ids));
        if id in prev {
          var i :| 0 <= i < |prefix| && prev[id] in PlayerPreMadeTeams(prefix[i], ids);
          assert players[i] == prefix[i];
        } else {
          assert r[id] in PlayerPreMadeTeams(last, ids);
          PlayerPreMadeTeamsMaximal(last, ids, r[id]);
        }
      }
    }
  }

  /** The ids of the teams the players contribute, over all players. */
  function ContributedIds(players: seq<Player>, ids: seq<int>): set<int> {
    set i, t | 0 <= i < |players| && t in PlayerPreMadeTeams(players[i], ids) :: t.id
  }

  lemma ContributedIdsSnoc(players: seq<Player>, ids: seq<int>)
    requires |players| > 0
    ensures var prefix, last := players[..|players| - 1], players[|players| - 1];
            ContributedIds(players, ids)
            == ContributedIds(prefix, ids) + set t | t in PlayerPreMadeTeams(last, ids) :: t.id
  {
    var prefix, last := players[..|players| - 1], players[|players| - 1];
    var mine := set t | t in PlayerPreMadeTeams(last, ids) :: t.id;
    forall id | id in ContributedIds(players, ids)
      ensures id in ContributedIds(prefix, ids) + mine
    {
      var i, t :| 0 <= i < |players| && t in PlayerPreMadeTeams(players[i], ids) && t.id == id;
      if i < |prefix| {
        assert prefix[i] == players[i];
        assert t in PlayerPreMadeTeams(prefix[i], ids);
        assert id in ContributedIds(prefix, ids);
      } else {
        assert i == |prefix|;
        assert t in PlayerPreMadeTeams(last, ids);
        assert id in mine;
      }
    }
    forall id | id in ContributedIds(prefix, ids)
      ensures id in ContributedIds(players, ids)
    {
      var i, t :| 0 <= i < |prefix| && t in PlayerPreMadeTeams(prefix[i], ids) && t.id == id;
      assert players[i] == prefix[i];
    }
    forall id | id in mine
      ensures id in ContributedIds(players, ids)
    {
      var t :| t in PlayerPreMadeTeams(last, ids) && t.id == id;
      assert t in PlayerPreMadeTeams(players[|players| - 1], ids);
    }
  }

  /** The party's pre-made teams are the union of the teams its players
      contribute: every contributed id is present. */
  lemma {:induction false} PartyPreMadeTeamsComplete(players: seq<Player>, ids: seq<int>)
    ensures PartyPreMadeTeams(players, ids).Keys == ContributedIds(players, ids)
  {
    if |players| > 0 {
      var prefix := players[..|players| - 1];
      PartyPreMadeTeamsComplete(prefix, ids);
      AddTeamsContents(PartyPreMadeTeams(prefix, ids), PlayerPreMadeTeams(players[|players| - 1], ids));
      ContributedIdsSnoc(players, ids);
    } else {
      assert ContributedIds(players, ids) == {};
    }
  }

  /** The player reported a team made up of the party's players. */
  predicate ReportsContainedTeam(p: Player, ids: seq<int>) {
    exists t :: t in p.teams && FullyContained(t, ids)
  }

  /** A player contributes a team exactly when it reported a contained one. */
  lemma PlayerPreMadeTeamsNonEmpty(p: Player, ids: seq<int>)
    ensures |PlayerPreMadeTeams(p, ids)| > 0 <==> ReportsContainedTeam(p, ids)
  {
    var candidates := ContainedTeams(p.teams, ids);
    var m := MaxTeamSize(candidates);
    ContainedTeamsMembers(p.teams, ids);
    LargestTeamsMembers(candidates, m);
    if ReportsContainedTeam(p, ids) {
      var t :| t in p.teams && FullyContained(t, ids);
      assert t in candidates;
      var u :| u in candidates && |u.members| == m;
      assert u in PlayerPreMadeTeams(p, ids);
    }
  }

  /** Some of the players reported a team made up of the players `ids`. */
  predicate AnyReportsContainedTeam(players: seq<Player>, ids: seq<int>) {
    exists i :: 0 <= i < |players| && ReportsContainedTeam(players[i], ids)
  }

  lemma AnyReportsContainedTeamSnoc(players: seq<Player>, ids: seq<int>)
    requires |players| > 0
    ensures var prefix, last := players[..|players| - 1], players[|players| - 1];
            AnyReportsContainedTeam(players, ids)
            <==> AnyReportsContainedTeam(prefix, ids) || ReportsContainedTeam(last, ids)
  {
    var prefix := players[..|players| - 1];
    if AnyReportsContainedTeam(prefix, ids) {
      var i :| 0 <= i < |prefix| && ReportsContainedTeam(prefix[i], ids);
      assert players[i] == prefix[i];
    }
    if AnyReportsContainedTeam(players, ids) && !ReportsContainedTeam(players[|players| - 1], ids) {
      var i :| 0 <= i < |players| && ReportsContainedTeam(players[i], ids);
      assert prefix[i] == players[i];
    }
  }

  /** A party has a pre-made team exactly when one of its players reported
      a team made up of the party's players. */
  lemma {:induction false} PartyPreMadeTeamsNonEmpty(players: seq<Player>, ids: seq<int>)
    ensures PartyPreMadeTeams(players, ids).Keys != {} <==> AnyReportsContainedTeam(players, ids)
  {
    if |players| > 0 {
      var prefix := players[..|players| - 1];
      var last := players[|players| - 1];
      PartyPreMadeTeamsNonEmpty(prefix, ids);
      AnyReportsContainedTeamSnoc(players, ids);
      var prev := PartyPreMadeTeams(prefix, ids);
      var mine := PlayerPreMadeTeams(last, ids);
      AddTeamsContents(prev, mine);
      PlayerPreMadeTeamsNonEmpty(last, ids);
      if |mine| > 0 {
        assert mine[0].id in PartyPreMadeTeams(players, ids).Keys;
      }
    }
  }

  // ---------------------------------------------------------------------
  // Relative ranks and rank estimates

  /** No ranked player makes `relative_rank` divide by zero. */
  predicate NoZeroDivision(players: seq<Player>) {
    forall i :: 0 <= i < |players| ==> (IsRanked(players[i]) ==> players[i].rankTotal != 0)
  }

  /** `relative_ranks`: the relative ranks of the ranked players, in order. */
  function RankedRelativeRanks(players: seq<Player>): (r: seq<real>)
    requires NoZeroDivision(players)
    ensures |r| <= |players|
  {
    if |players| == 0 then []
    else
      var last := players[|players| - 1];
      RankedRelativeRanks(players[..|players| - 1]) + (if IsRanked(last) then [RelativeRank(last)] else [])
  }

  /** The positions of the ranked players, in increasing order: each
      position holds a ranked player, and every ranked player's position
      is listed. */
  function RankedIndices(players: seq<Player>): (ps: seq<nat>)
    ensures forall k :: 0 <= k < |ps| ==> ps[k] < |players| && IsRanked(players[ps[k]])
    ensures forall k, l :: 0 <= k < l < |ps| ==> ps[k] < ps[l]
    ensures forall i :: 0 <= i < |players| && IsRanked(players[i]) ==> i in ps
  {
    if |players| == 0 then []
    else
      var prefix := players[..|players| - 1];
      var prev := RankedIndices(prefix);
      assert forall i :: 0 <= i < |prefix| ==> prefix[i] == players[i];
      if IsRanked(players[|players| - 1]) then prev + [|players| - 1] else prev
  }

  /** The relative ranks are those of the ranked players, one per ranked
      player and in the players' order. */
  lemma {:induction false} RankedRelativeRanksAt(players: seq<Player>)
    requires NoZeroDivision(players)
    ensures |RankedRelativeRanks(players)| == |RankedIndices(players)|
    ensures forall k :: 0 <= k < |RankedIndices(players)| ==>
              RankedRelativeRanks(players)[k] == RelativeRank(players[RankedIndices(players)[k]])
  {
    if |players| > 0 {
      var prefix, last := players[..|players| - 1], players[|players| - 1];
      assert NoZeroDivision(prefix) by {
        assert forall i :: 0 <= i < |prefix| ==> prefix[i] == players[i];
      }
      RankedRelativeRanksAt(prefix);
      var prev, pi := RankedRelativeRanks(prefix), RankedIndices(prefix);
      var extra := if IsRanked(last) then [RelativeRank(last)] else [];
      var ps := RankedIndices(players);
      assert RankedRelativeRanks(players) == prev + extra;
      assert ps == if IsRanked(last) then pi + [|players| - 1] else pi;
      forall k | 0 <= k < |ps|
        ensures RankedRelativeRanks(players)[k] == RelativeRank(players[ps[k]])
      {
        if k < |pi| {
          assert ps[k] == pi[k] && prefix[pi[k]] == players[pi[k]];
          assert (prev + extra)[k] == prev[k];
        } else {
          assert ps[k] == |players| - 1;
        }
      }
    }
  }

  /** `min_relative_rank`, starting from `sys.maxsize`. */
  function MinRelativeRank(players: seq<Player>): real
    requires NoZeroDivision(players)
  {
    if |players| == 0 then SysMaxSize as real
    else
      var last := players[|players| - 1];
      var m := MinRelativeRank(players[..|players| - 1]);
      if IsRanked(last) && RelativeRank(last) < m then RelativeRank(last) else m
  }

  /** `max_relative_rank`, starting from 0. */
  function MaxRelativeRank(players: seq<Player>): real
    requires NoZeroDivision(players)
  {
    if |players| == 0 then 0.0
    else
      var last := players[|players| - 1];
      var m := MaxRelativeRank(players[..|players| - 1]);
      if IsRanked(last) && RelativeRank(last) > m then RelativeRank(last) else m
  }

  /** Python's `sum` over reals. */
  function Sum(xs: seq<real>): real {
    if |xs| == 0 then 0.0 else Sum(xs[..|xs| - 1]) + xs[|xs| - 1]
  }

  /** `avg_relative_rank`: the mean relative rank of the ranked players, or 0. */
  function AvgRelativeRank(players: seq<Player>): real
    requires NoZeroDivision(players)
  {
    var rs := RankedRelativeRanks(players);
    if |rs| > 0 then Sum(rs) / |rs| as real else 0.0
  }

  /** `rank_estimates` after the players processed so far: a later player
      with the same relic id overwrites an earlier one. */
  function RankEstimates(players: seq<Player>, avg: real): (m: map<int, Estimate>)
    ensures m.Keys == set i | 0 <= i < |players| :: players[i].relicId
  {
    if |players| == 0 then map[]
    else
      var last := players[|players| - 1];
      var prev := RankEstimates(players[..|players| - 1], avg);
      assert forall i :: 0 <= i < |players| - 1 ==> players[..|players| - 1][i] == players[i];
      prev[last.relicId := EstimateRank(last, avg)]
  }

  /** `sum_estimates[0]`: the sum of the estimated ranks. */
  function SumEstimatedRanks(players: seq<Player>, avg: real): int {
    if |players| == 0 then 0
    else SumEstimatedRanks(players[..|players| - 1], avg) + EstimateRank(players[|players| - 1], avg).rank
  }

  /** `sum_estimates[1]`: the sum of the estimated rank levels. */
  function SumEstimatedRankLevels(players: seq<Player>, avg: real): int {
    if |players| == 0 then 0
    else SumEstimatedRankLevels(players[..|players| - 1], avg) + EstimateRank(players[|players| - 1], avg).rankLevel
  }

  /** What `Party(players)` builds when it does not raise. */
  function PartyOf(players: seq<Player>): (party: Party)
    requires PartyMinSize <= |players| <= PartyMaxSize && NoZeroDivision(players)
    ensures party.players == players && party.Size() == |players|
  {
    var avg := AvgRelativeRank(players);
    Party(players,
          PartyPreMadeTeams(players, RelicIds(players)),
          MinRelativeRank(players),
          MaxRelativeRank(players),
          RankEstimates(players, avg),
          SumEstimatedRanks(players, avg) as real / |players| as real,
          SumEstimatedRankLevels(players, avg) as real / |players| as real)
  }

  lemma PartyPreMadeTeamsStep(players: seq<Player>, i: nat, ids: seq<int>)
    requires i < |players|
    ensures PartyPreMadeTeams(players[..i + 1], ids)
              == AddTeams(PartyPreMadeTeams(players[..i], ids), PlayerPreMadeTeams(players[i], ids))
  {
    assert players[..i + 1][..i] == players[..i];
  }

  lemma RelativeRanksStep(players: seq<Player>, i: nat)
    requires i < |players| && NoZeroDivision(players[..i])
    requires IsRanked(players[i]) ==> players[i].rankTotal != 0
    ensures NoZeroDivision(players[..i + 1])
    ensures RankedRelativeRanks(players[..i + 1]) == RankedRelativeRanks(players[..i])
              + (if IsRanked(players[i]) then [RelativeRank(players[i])] else [])
    ensures var m := MinRelativeRank(players[..i]);
            MinRelativeRank(players[..i + 1])
              == if IsRanked(players[i]) && RelativeRank(players[i]) < m then RelativeRank(players[i]) else m
    ensures var m := MaxRelativeRank(players[..i]);
            MaxRelativeRank(players[..i + 1])
              == if IsRanked(players[i]) && RelativeRank(players[i]) > m then RelativeRank(players[i]) else m
  {
    assert players[..i + 1][..i] == players[..i];
    assert forall j :: 0 <= j < i ==> players[..i + 1][j] == players[..i][j];
  }

  lemma EstimatesStep(players: seq<Player>, i: nat, avg: real)
    requires i < |players|
    ensures RankEstimates(players[..i + 1], avg)
              == RankEstimates(players[..i], avg)[players[i].relicId := EstimateRank(players[i], avg)]
    ensures SumEstimatedRanks(players[..i + 1], avg)
              == SumEstimatedRanks(players[..i], avg) + EstimateRank(players[i], avg).rank
    ensures SumEstimatedRankLevels(players[..i + 1], avg)
              == SumEstimatedRankLevels(players[..i], avg) + EstimateRank(players[i], avg).rankLevel
  {
    assert players[..i + 1][..i] == players[..i];
  }

  /** `Party.__init__`: a size check, then the two loops over the players. */
  method NewParty(players: seq<Player>) returns (r: Result<Party, MatchError>)
    ensures !(PartyMinSize <= |players| <= PartyMaxSize) ==> r == Err(PartySizeOutOfRange)
    ensures PartyMinSize <= |players| <= PartyMaxSize && !NoZeroDivision(players) ==> r == Err(ZeroDivision)
    ensures r.Ok? <==> PartyMinSize <= |players| <= PartyMaxSize && NoZeroDivision(players)
    ensures r.Ok? ==> r.value == PartyOf(players)
  {
    if |players| == 0 || !(PartyMinSize <= |players| <= PartyMaxSize) {
      return Err(PartySizeOutOfRange);
    }
    var ok, preMadeTeams, minRelativeRank, maxRelativeRank, relativeRanks := ScanPlayers(players);
    if !ok {
      return Err(ZeroDivision);
    }
    var avgRelativeRank := if |relativeRanks| > 0 then Sum(relativeRanks) / |relativeRanks| as real else 0.0;
    var rankEstimates, sumRanks, sumLevels := EstimatePlayers(players, avgRelativeRank);
    var size := |players|;
    r := Ok(Party(players, preMadeTeams, minRelativeRank, maxRelativeRank, rankEstimates,
                  sumRanks as real / size as real, sumLevels as real / size as real));
  }

  /** The first loop of `Party.__init__`: the pre-made teams and the relative
      ranks, stopped by a ranked player with a leaderboard of size 0. */
  method ScanPlayers(players: seq<Player>)
    returns (ok: bool, preMadeTeams: map<int, Team>, minRelativeRank: real, maxRelativeRank: real,
             relativeRanks: seq<real>)
    ensures ok <==> NoZeroDivision(players)
    ensures ok ==> preMadeTeams == PartyPreMadeTeams(players, RelicIds(players))
                   && relativeRanks == RankedRelativeRanks(players)
                   && minRelativeRank == MinRelativeRank(players)
                   && maxRelativeRank == MaxRelativeRank(players)
  {
    preMadeTeams, minRelativeRank, maxRelativeRank, relativeRanks := map[], SysMaxSize as real, 0.0, [];
    var playerIds := RelicIds(players);
    for i := 0 to |players|
      invariant NoZeroDivision(players[..i])
      invariant preMadeTeams == PartyPreMadeTeams(players[..i], playerIds)
      invariant relativeRanks == RankedRelativeRanks(players[..i])
      invariant minRelativeRank == MinRelativeRank(players[..i])
      invariant maxRelativeRank == MaxRelativeRank(players[..i])
    {
      var p := players[i];
      PartyPreMadeTeamsStep(players, i, playerIds);
      preMadeTeams := AddPlayerPreMadeTeams(preMadeTeams, p, playerIds);
      if IsRanked(p) && p.rankTotal == 0 {
        assert !NoZeroDivision(players);
        return false, preMadeTeams, minRelativeRank, maxRelativeRank, relativeRanks;
      }
      RelativeRanksStep(players, i);
      if IsRanked(p) {
        var rr := RelativeRank(p);
        relativeRanks := relativeRanks + [rr];
        minRelativeRank := if rr < minRelativeRank then rr else minRelativeRank;
        maxRelativeRank := if rr > maxRelativeRank then rr else maxRelativeRank;
      }
    }
    assert players[..|players|] == players;
    ok := true;
  }

  /** The second loop of `Party.__init__`: every player's estimate and the
      sums of the estimated ranks and levels. */
  method EstimatePlayers(players: seq<Player>, avgRelativeRank: real)
    returns (rankEstimates: map<int, Estimate>, sumRanks: int, sumLevels: int)
    ensures rankEstimates == RankEstimates(players, avgRelativeRank)
    ensures sumRanks == SumEstimatedRanks(players, avgRelativeRank)
    ensures sumLevels == SumEstimatedRankLevels(players, avgRelativeRank)
  {
    rankEstimates, sumRanks, sumLevels := map[], 0, 0;
    for i := 0 to |players|
      invariant rankEstimates == RankEstimates(players[..i], avgRelativeRank)
      invariant sumRanks == SumEstimatedRanks(players[..i], avgRelativeRank)
      invariant sumLevels == SumEstimatedRankLevels(players[..i], avgRelativeRank)
    {
      var p := players[i];
      EstimatesStep(players, i, avgRelativeRank);
      var estimate := EstimateRank(p, avgRelativeRank);
      sumRanks, sumLevels := sumRanks + estimate.rank, sumLevels + estimate.rankLevel;
      rankEstimates := rankEstimates[p.relicId := estimate];
    }
    assert players[..|players|] == players;
  }

  /** The minimum and maximum relative ranks bound every ranked player's;
      with no ranked player they keep their initial values. */
  lemma {:induction false} RelativeRankBounds(players: seq<Player>)
    requires NoZeroDivision(players)
    ensures forall i :: 0 <= i < |players| && IsRanked(players[i]) ==>
              MinRelativeRank(players) <= RelativeRank(players[i]) <= MaxRelativeRank(players)
    ensures (forall i :: 0 <= i < |players| ==> !IsRanked(players[i])) ==>
              MinRelativeRank(players) == SysMaxSize as real && MaxRelativeRank(players) == 0.0
  {
    if |players| > 0 {
      var prefix := players[..|players| - 1];
      assert forall i :: 0 <= i < |prefix| ==> prefix[i] == players[i];
      RelativeRankBounds(prefix);
    }
  }

  /** The minimum is `sys.maxsize` or some ranked player's relative rank,
      and never above `sys.maxsize`; the maximum is 0.0 or some ranked
      player's relative rank, and never below 0.0. */
  lemma {:induction false} RelativeRankExtremesReached(players: seq<Player>)
    requires NoZeroDivision(players)
    ensures MinRelativeRank(players) <= SysMaxSize as real
    ensures MinRelativeRank(players) == SysMaxSize as real || RankedRelativeRankIs(players, MinRelativeRank(players))
    ensures MaxRelativeRank(players) >= 0.0
    ensures MaxRelativeRank(players) == 0.0 || RankedRelativeRankIs(players, MaxRelativeRank(players))
  {
    if |players| > 0 {
      var prefix, last := players[..|players| - 1], players[|players| - 1];
      assert forall i :: 0 <= i < |prefix| ==> prefix[i] == players[i];
      RelativeRankExtremesReached(prefix);
      RankedRelativeRankIsSnoc(players, MinRelativeRank(prefix));
      RankedRelativeRankIsSnoc(players, MaxRelativeRank(prefix));
      if IsRanked(last) {
        assert RankedRelativeRankIs(players, RelativeRank(last)) by {
          assert players[|players| - 1] == last;
        }
      }
    }
  }

  /** Some ranked player has relative rank `x`. */
  predicate RankedRelativeRankIs(players: seq<Player>, x: real)
    requires NoZeroDivision(players)
  {
    exists i :: 0 <= i < |players| && IsRanked(players[i]) && RelativeRank(players[i]) == x
  }

  lemma RankedRelativeRankIsSnoc(players: seq<Player>, x: real)
    requires |players| > 0 && NoZeroDivision(players)
    requires NoZeroDivision(players[..|players| - 1])
    ensures RankedRelativeRankIs(players[..|players| - 1], x) ==> RankedRelativeRankIs(players, x)
  {
    var prefix := players[..|players| - 1];
    if RankedRelativeRankIs(prefix, x) {
      var i :| 0 <= i < |prefix| && IsRanked(prefix[i]) && RelativeRank(prefix[i]) == x;
      assert players[i] == prefix[i];
    }
  }

  /** Each relic id's estimate is that of the last player with that id. */
  lemma {:induction false} RankEstimatesOfPlayers(players: seq<Player>, avg: real, i: nat)
    requires i < |players|
    requires forall j :: i < j < |players| ==> players[j].relicId != players[i].relicId
    ensures RankEstimates(players, avg)[players[i].relicId] == EstimateRank(players[i], avg)
  {
    if i < |players| - 1 {
      var prefix := players[..|players| - 1];
      assert prefix[i] == players[i];
      RankEstimatesOfPlayers(prefix, avg, i);
    }
  }

  // ---------------------------------------------------------------------
  // Match

  /** `[p for p in players if p.team_id == side]` */
  function Side(players: seq<Player>, side: int): (r: seq<Player>)
    ensures |r| <= |players|
    ensures forall p :: p in r <==> p in players && p.teamId == side
    ensures |players| == 1 ==> r == if players[0].teamId == side then players else []
  {
    if |players| == 0 then []
    else
      var last := players[|players| - 1];
      assert forall p :: p in players ==> p in players[..|players| - 1] || p == last;
      Side(players[..|players| - 1], side) + (if last.teamId == side then [last] else [])
  }

  /** The side keeps the input order: the side of two runs of players one
      after the other is the two sides one after the other. */
  lemma {:induction false} SideAppend(a: seq<Player>, b: seq<Player>, side: int)
    ensures Side(a + b, side) == Side(a, side) + Side(b, side)
    decreases |b|
  {
    if |b| == 0 {
      assert a + b == a;
    } else {
      var c, front, last := a + b, b[..|b| - 1], b[|b| - 1];
      var extra := if last.teamId == side then [last] else [];
      assert c[..|c| - 1] == a + front;
      assert c[|c| - 1] == last;
      calc {
        Side(c, side);
        Side(a + front, side) + extra;
        { SideAppend(a, front, side); }
        (Side(a, side) + Side(front, side)) + extra;
        Side(a, side) + (Side(front, side) + extra);
        Side(a, side) + Side(b, side);
      }
    }
  }

  /** The number of players on neither side 0 nor side 1. */
  function OffSideCount(players: seq<Player>): nat {
    if |players| == 0 then 0
    else
      OffSideCount(players[..|players| - 1])
      + (if players[|players| - 1].teamId != 0 && players[|players| - 1].teamId != 1 then 1 else 0)
  }

  /** The two sides and the dropped players account for every player. */
  lemma {:induction false} SidesPartition(players: seq<Player>)
    ensures |Side(players, 0)| + |Side(players, 1)| + OffSideCount(players) == |players|
  {
    if |players| > 0 {
      SidesPartition(players[..|players| - 1]);
    }
  }

  predicate PartyOk(players: seq<Player>) {
    PartyMinSize <= |players| <= PartyMaxSize && NoZeroDivision(players)
  }

  function PartyError(players: seq<Player>): MatchError {
    if PartyMinSize <= |players| <= PartyMaxSize then ZeroDivision else PartySizeOutOfRange
  }

  /** What `Match(players)` builds, or the error it raises first. */
  function MatchOf(players: seq<Player>): (r: Result<Match, MatchError>)
    ensures r.Ok? <==> |players| >= MatchMinSize && PartyOk(Side(players, 0)) && PartyOk(Side(players, 1))
                       && |Side(players, 0)| == |Side(players, 1)|
    ensures |players| < MatchMinSize ==> r == Err(TooFewPlayers)
    ensures r.Ok? ==> r.value.parties.0.players == Side(players, 0)
                      && r.value.parties.1.players == Side(players, 1)
  {
    if |players| == 0 || |players| < MatchMinSize then Err(TooFewPlayers)
    else
      var s0 := Side(players, 0);
      var s1 := Side(players, 1);
      if !PartyOk(s0) then Err(PartyError(s0))
      else if !PartyOk(s1) then Err(PartyError(s1))
      else if |s0| != |s1| then Err(UnequalPartySizes)
      else Ok(Match((PartyOf(s0), PartyOf(s1))))
  }

  /** `Match.__init__` */
  method NewMatch(players: seq<Player>) returns (r: Result<Match, MatchError>)
    ensures r == MatchOf(players)
  {
    if |players| == 0 || |players| < MatchMinSize {
      return Err(TooFewPlayers);
    }
    var p0 :- NewParty(Side(players, 0));
    var p1 :- NewParty(Side(players, 1));
    if p0.Size() != p1.Size() {
      return Err(UnequalPartySizes);
    }
    r := Ok(Match((p0, p1)));
  }

  /** A built match has two non-empty parties of equal size, which together
      hold every player whose side is 0 or 1. */
  lemma MatchSizes(players: seq<Player>)
    requires MatchOf(players).Ok?
    ensures var m := MatchOf(players).value;
            && m.parties.0.Size() == m.parties.1.Size()
            && 1 <= m.parties.0.Size() <= 4
            && m.parties.0.Size() + m.parties.1.Size() + OffSideCount(players) == |players|
  {
    SidesPartition(players);
  }

  /** `highest_avg_rank_party`: 0 when party 0's average rank is lower, else 1. */
  function HighestAvgRankParty(m: Match): nat {
    if m.parties.0.avgEstimatedRank < m.parties.1.avgEstimatedRank then 0 else 1
  }

  /** `highest_avg_rank_level_party`: 0 when party 0's average level is higher, else 1. */
  function HighestAvgRankLevelParty(m: Match): nat {
    if m.parties.0.avgEstimatedRankLevel > m.parties.1.avgEstimatedRankLevel then 0 else 1
  }

  /** `has_pre_made_teams` */
  predicate HasPreMadeTeams(m: Match) {
    |m.parties.0.preMadeTeams| > 0 || |m.parties.1.preMadeTeams| > 0
  }

  lemma DivideSameSize(a: int, b: int, n: nat)
    requires n > 0
    ensures a as real / n as real < b as real / n as real <==> a < b
  {
    var x := a as real / n as real;
    var y := b as real / n as real;
    assert x * n as real == a as real;
    assert y * n as real == b as real;
    if x < y {
      assert x * n as real < y * n as real;
    }
  }

  /** Both parties have the same size, so the comparisons of averages are
      comparisons of the sums of the estimates. */
  lemma HighestAvgPartyBySums(players: seq<Player>)
    requires MatchOf(players).Ok?
    ensures var m := MatchOf(players).value;
            var s0 := Side(players, 0);
            var s1 := Side(players, 1);
            && (HighestAvgRankParty(m) == 0 <==>
                  SumEstimatedRanks(s0, AvgRelativeRank(s0)) < SumEstimatedRanks(s1, AvgRelativeRank(s1)))
            && (HighestAvgRankLevelParty(m) == 0 <==>
                  SumEstimatedRankLevels(s0, AvgRelativeRank(s0)) > SumEstimatedRankLevels(s1, AvgRelativeRank(s1)))
  {
    var s0 := Side(players, 0);
    var s1 := Side(players, 1);
    DivideSameSize(SumEstimatedRanks(s0, AvgRelativeRank(s0)), SumEstimatedRanks(s1, AvgRelativeRank(s1)), |s0|);
    DivideSameSize(SumEstimatedRankLevels(s1, AvgRelativeRank(s1)), SumEstimatedRankLevels(s0, AvgRelativeRank(s0)), |s0|);
  }

  /** Some player of the party reported a team made up of the party's players. */
  predicate SomeReportsContainedTeam(party: seq<Player>) {
    AnyReportsContainedTeam(party, RelicIds(party))
  }

  /** A match has pre-made teams exactly when some player reported a team
      made up of players of its own party. */
  lemma HasPreMadeTeamsIff(players: seq<Player>)
    requires MatchOf(players).Ok?
    ensures HasPreMadeTeams(MatchOf(players).value) <==>
              SomeReportsContainedTeam(Side(players, 0)) || SomeReportsContainedTeam(Side(players, 1))
  {
    var s0 := Side(players, 0);
    var s1 := Side(players, 1);
    var m := MatchOf(players).value;
    var k0 := PartyPreMadeTeams(s0, RelicIds(s0));
    var k1 := PartyPreMadeTeams(s1, RelicIds(s1));
    assert m.parties.0.preMadeTeams == k0 && m.parties.1.preMadeTeams == k1;
    assert HasPreMadeTeams(m) <==> k0.Keys != {} || k1.Keys != {} by {
      assert |k0| > 0 <==> k0.Keys != {};
      assert |k1| > 0 <==> k1.Keys != {};
    }
    PartyPreMadeTeamsNonEmpty(s0, RelicIds(s0));
    PartyPreMadeTeamsNonEmpty(s1, RelicIds(s1));
  }
}
