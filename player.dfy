/** A player of a match, its rank level curve and its rank estimate. */
module Players {
  import opened Text
  import opened Factions
  import opened Teams

  /** `Player`: log data (slot id, name, relic id, side, faction) followed by
      the data the remote service fills in. */
  datatype Player = Player(
    id: int,
    name: string,
    relicId: int,
    teamId: int,
    faction: Faction,
    steamProfile: string,
    prestige: int,
    country: string,
    wins: int,
    losses: int,
    streak: int,
    drops: int,
    rank: int,
    rankTotal: int,
    rankLevel: int,
    highestRank: int,
    highestRankLevel: int,
    teams: seq<Team>)

  /** `Player(id, name, relic_id, team_id, faction)` with the dataclass
      defaults for the remote data. */
  function NewPlayer(id: int, name: string, relicId: int, teamId: int, faction: Faction): (p: Player)
    ensures p.id == id && p.name == name && p.relicId == relicId && p.teamId == teamId
    ensures p.faction == faction && p.teams == []
    ensures p.steamProfile == "" && p.prestige == -1 && p.country == ""
    ensures p.wins == 0 && p.losses == 0 && p.streak == 0 && p.drops == 0
    ensures p.rank == -1 && p.rankTotal == -1 && p.rankLevel == -1
    ensures p.highestRank == -1 && p.highestRankLevel == -1
    ensures !IsRanked(p) && !HasHighestRank(p) && RelativeRank(p) == 0.0 && NumGames(p) == 0
  {
    Player(id, name, relicId, teamId, faction, "", -1, "", 0, 0, 0, 0, -1, -1, -1, -1, -1, [])
  }

  function Min(a: int, b: int): int {
    if a <= b then a else b
  }

  function Max(a: int, b: int): int {
    if a >= b then a else b
  }

  /** `team_faction`: derived from the faction, never from the side id. */
  function PlayerTeamFaction(p: Player): (t: TeamFaction)
    ensures t == Allies <==> IsAlliesFaction(p.faction)
  {
    TeamFactionOf(p.faction)
  }

  /** `is_ranked` */
  predicate IsRanked(p: Player) {
    p.rank > 0 && p.rankLevel > 0
  }

  /** `has_highest_rank` */
  predicate HasHighestRank(p: Player) {
    p.highestRank > 0 && p.highestRankLevel > 0
  }

  /** `relative_rank`: rank over rank total for a ranked player, else 0.
      Python raises `ZeroDivisionError` for a ranked player whose rank total
      is 0, hence the precondition. */
  function RelativeRank(p: Player): (r: real)
    requires IsRanked(p) ==> p.rankTotal != 0
    ensures !IsRanked(p) ==> r == 0.0
    ensures IsRanked(p) && p.rank <= p.rankTotal ==> 0.0 < r <= 1.0
  {
    if IsRanked(p) then p.rank as real / p.rankTotal as real else 0.0
  }

  /** `num_games` */
  function NumGames(p: Player): (n: int)
    ensures p.wins >= 0 && p.losses >= 0 ==> n >= p.wins && n >= p.losses
  {
    p.wins + p.losses
  }

  const SteamCommunityUrl := "https://steamcommunity.com"

  /** `get_steam_profile_url` */
  function SteamProfileUrl(p: Player): (url: string)
    ensures StartsWith(url, SteamCommunityUrl)
  {
    SteamCommunityUrl + ReplaceAll(p.steamProfile, "steam", "profiles")
  }

  /** The remote service reports profiles as `/steam/<digits>`, which become
      `https://steamcommunity.com/profiles/<digits>`. */
  lemma SteamProfileUrlForId(p: Player, digits: string)
    requires AllDigits(digits) && p.steamProfile == "/steam/" + digits
    ensures SteamProfileUrl(p) == SteamCommunityUrl + "/profiles/" + digits
  {
    var s := p.steamProfile;
    assert s[..5] != "steam" by {
      assert s[..5][0] == '/';
    }
    assert ReplaceAll(s, "steam", "profiles") == "/" + ReplaceAll(s[1..], "steam", "profiles");
    assert s[1..][..5] == "steam";
    var rest := s[1..][5..];
    assert rest == "/" + digits;
    assert ReplaceAll(s[1..], "steam", "profiles") == "profiles" + ReplaceAll(rest, "steam", "profiles");
    assert forall i :: 0 <= i < |rest| ==> rest[i] != 's' by {
      forall i | 0 <= i < |rest| ensures rest[i] != 's' {
        if i > 0 {
          assert rest[i] == digits[i - 1];
        }
      }
    }
    ReplaceAllWithout(rest, "steam", "profiles");
    assert SteamCommunityUrl + ("/" + ("profiles" + rest)) == SteamCommunityUrl + "/profiles/" + digits;
  }

  /** `Player.__eq__` / `__hash__`: only the relic id is compared. */
  predicate SamePlayer(a: Player, b: Player) {
    a.relicId == b.relicId
  }

  /** Python's `round` on an exact value: to the nearest integer, halves to even. */
  function RoundHalfEven(x: real): (r: int)
    ensures x - 0.5 <= r as real <= x + 0.5
    ensures (r as real == x + 0.5 || r as real == x - 0.5) ==> r % 2 == 0
  {
    var f := x.Floor;
    var d := x - f as real;
    if d < 0.5 then f else if d > 0.5 then f + 1 else if f % 2 == 0 then f else f + 1
  }

  /** Percentages of the population below the top 200 held by levels 14
      down to 1: `[6, 8, 6, 5] + 3 * [10] + 2 * [7] + [6] + 4 * [5]`. */
  const LevelRatios: seq<int> := [6, 8, 6, 5, 10, 10, 10, 7, 7, 6, 5, 5, 5, 5]

  /** The thresholds the `for` loop of `rank_level_from_rank` appends, from
      the given `remain` onwards. */
  function Ranking(ratios: seq<int>, total: int, remain: int, nTop: int): (r: seq<int>)
    ensures |r| == |ratios|
  {
    if |ratios| == 0 then []
    else [remain + nTop] + Ranking(ratios[1..], total, remain - Share(ratios[0], total, remain), nTop)
  }

  /** `min(round(rank_total * (r / 100)), max(0, remain))`: the players a
      level takes from the remaining population. */
  function Share(ratio: int, total: int, remain: int): int {
    Min(RoundHalfEven(total as real * (ratio as real / 100.0)), Max(0, remain))
  }

  /** The 14 cumulative thresholds for a leaderboard of `total` players. */
  function Thresholds(total: int): seq<int> {
    var nTop := Min(200, total);
    Ranking(LevelRatios, total, total - nTop, nTop)
  }

  /** What the `while` loop counts: the leading thresholds that `rank` does
      not exceed. */
  function CountLeading(ranking: seq<int>, rank: int): (c: nat)
    ensures c <= |ranking|
  {
    if |ranking| == 0 || rank > ranking[0] then 0 else 1 + CountLeading(ranking[1..], rank)
  }

  /** `rank_level_from_rank`: -1 for a non-positive input, a fixed level for
      the top 200, otherwise the number of thresholds at or above the rank. */
  function RankLevel(rank: int, total: int): (lvl: int)
    ensures lvl == -1 <==> rank <= 0 || total <= 0
    ensures -1 <= lvl <= 20
  {
    if rank <= 0 || total <= 0 then -1
    else if rank <= 2 then 20
    else if rank <= 13 then 19
    else if rank <= 36 then 18
    else if rank <= 80 then 17
    else if rank <= 200 then 16
    else CountLeading(Thresholds(total), rank)
  }

  /** `rank_level_from_rank`, step by step as the source computes it. */
  method RankLevelFromRank(rank: int, rankTotal: int) returns (lvl: int)
    ensures lvl == RankLevel(rank, rankTotal)
  {
    if rank <= 0 || rankTotal <= 0 {
      return -1;
    }
    lvl := 0;
    if 0 < rank <= 2 {
      lvl := 20;
    } else if 2 < rank <= 13 {
      lvl := 19;
    } else if 13 < rank <= 36 {
      lvl := 18;
    } else if 36 < rank <= 80 {
      lvl := 17;
    } else if 80 < rank <= 200 {
      lvl := 16;
    } else {
      var ratios := LevelRatios;
      var nTop := Min(200, rankTotal);
      var remain := rankTotal - nTop;
      var ranking: seq<int> := [];
      ghost var full := Ranking(ratios, rankTotal, remain, nTop);
      assert ratios[0..] == ratios;
      for i := 0 to |ratios|
        invariant ranking + Ranking(ratios[i..], rankTotal, remain, nTop) == full
      {
        var n := Min(RoundHalfEven(rankTotal as real * (ratios[i] as real / 100.0)), Max(0, remain));
        RankingStep(ratios, i, rankTotal, remain, nTop);
        ranking := ranking + [remain + nTop];
        remain := remain - n;
      }
      assert ratios[|ratios|..] == [];
      assert ranking == Thresholds(rankTotal);
      while lvl < |ranking| && rank <= ranking[lvl]
        invariant 0 <= lvl <= |ranking|
        invariant CountLeading(ranking, rank) == lvl + CountLeading(ranking[lvl..], rank)
      {
        assert ranking[lvl..][1..] == ranking[lvl + 1..];
        lvl := lvl + 1;
      }
    }
  }

  lemma RankingStep(ratios: seq<int>, i: nat, total: int, remain: int, nTop: int)
    requires i < |ratios|
    ensures Ranking(ratios[i..], total, remain, nTop)
         == [remain + nTop] + Ranking(ratios[i + 1..], total, remain - Share(ratios[i], total, remain), nTop)
  {
    assert ratios[i..][1..] == ratios[i + 1..];
  }

  predicate NonIncreasing(s: seq<int>) {
    forall i, j :: 0 <= i < j < |s| ==> s[i] >= s[j]
  }

  lemma {:induction false} RankingShape(ratios: seq<int>, total: int, remain: int, nTop: int)
    requires total > 0 && remain >= 0
    requires forall i :: 0 <= i < |ratios| ==> ratios[i] >= 0
    ensures var r := Ranking(ratios, total, remain, nTop);
            && (|r| > 0 ==> r[0] == remain + nTop)
            && NonIncreasing(r)
            && forall i :: 0 <= i < |r| ==> nTop <= r[i] <= remain + nTop
  {
    if |ratios| > 0 {
      assert total as real * (ratios[0] as real / 100.0) >= 0.0;
      var n := Share(ratios[0], total, remain);
      assert 0 <= n <= remain;
      RankingShape(ratios[1..], total, remain - n, nTop);
      var r := Ranking(ratios, total, remain, nTop);
      assert r[1..] == Ranking(ratios[1..], total, remain - n, nTop);
    }
  }

  /** The thresholds start at the leaderboard size, never increase and stay
      at or above `min(200, rank_total)`. */
  lemma ThresholdsShape(total: int)
    requires total > 0
    ensures var t := Thresholds(total);
            && |t| == 14 && t[0] == total && NonIncreasing(t)
            && forall i :: 0 <= i < 14 ==> Min(200, total) <= t[i] <= total
  {
    RankingShape(LevelRatios, total, total - Min(200, total), Min(200, total));
  }

  /** On non-increasing thresholds, the leading count is exactly the number
      of thresholds at or above the rank: those come first. */
  lemma {:induction false} CountLeadingOfNonIncreasing(s: seq<int>, rank: int)
    requires NonIncreasing(s)
    ensures forall j :: 0 <= j < |s| ==> (j < CountLeading(s, rank) <==> rank <= s[j])
  {
    if |s| > 0 {
      CountLeadingOfNonIncreasing(s[1..], rank);
      assert forall j :: 0 < j < |s| ==> s[1..][j - 1] == s[j];
    }
  }

  lemma {:induction false} CountLeadingAntitone(s: seq<int>, r1: int, r2: int)
    requires r1 <= r2
    ensures CountLeading(s, r2) <= CountLeading(s, r1)
  {
    if |s| > 0 && r2 <= s[0] {
      CountLeadingAntitone(s[1..], r1, r2);
    }
  }

  /** Below the top 200 the level is 0..14 and counts the thresholds at or
      above the rank. */
  lemma RankLevelBelowTop200(rank: int, total: int)
    requires rank > 200 && total > 0
    ensures 0 <= RankLevel(rank, total) <= 14
    ensures forall j :: 0 <= j < 14 ==>
              (j < RankLevel(rank, total) <==> rank <= Thresholds(total)[j])
  {
    ThresholdsShape(total);
    CountLeadingOfNonIncreasing(Thresholds(total), rank);
  }

  /** A rank beyond both the top 200 and the leaderboard size has level 0. */
  lemma RankLevelBeyondTotal(rank: int, total: int)
    requires total > 0 && rank > 200 && rank > total
    ensures RankLevel(rank, total) == 0
  {
    ThresholdsShape(total);
  }

  /** A rank within the leaderboard has a positive level. */
  lemma RankLevelWithinTotal(rank: int, total: int)
    requires 0 < rank <= total
    ensures 1 <= RankLevel(rank, total) <= 20
  {
    if rank > 200 {
      ThresholdsShape(total);
    }
  }

  /** The top 200 ranks have levels 16..20 whatever the leaderboard size. */
  lemma RankLevelTop200(rank: int, total1: int, total2: int)
    requires 0 < rank <= 200 && total1 > 0 && total2 > 0
    ensures RankLevel(rank, total1) == RankLevel(rank, total2)
    ensures 16 <= RankLevel(rank, total1) <= 20
  {
  }

  /** For a fixed leaderboard, a worse (higher) rank never has a higher level. */
  lemma RankLevelMonotone(r1: int, r2: int, total: int)
    requires 0 < r1 <= r2 && total > 0
    ensures RankLevel(r2, total) <= RankLevel(r1, total)
  {
    if r2 > 200 {
      ThresholdsShape(total);
      CountLeadingAntitone(Thresholds(total), r1, r2);
    }
  }

  /** `estimate_rank`'s result: an indicator, a rank and a rank level. */
  datatype Estimate = Estimate(indicator: string, rank: int, rankLevel: int)

  /** `estimate_rank`: the current rank (unmarked), else the highest rank
      (`+`), else a guess (`?`) from the peers' average relative rank or,
      without one, the middle of the leaderboard. */
  function EstimateRank(p: Player, avgRelativeRank: real): (e: Estimate)
    ensures e.indicator == "" <==> IsRanked(p) || p.relicId <= 0
    ensures e.indicator == "" ==> e.rank == p.rank && e.rankLevel == p.rankLevel
    ensures e.indicator == "+" <==> e.indicator != "" && HasHighestRank(p)
    ensures e.indicator == "+" ==> e.rank == p.highestRank && e.rankLevel == p.highestRankLevel
    ensures e.indicator != "" && e.indicator != "+" ==> e.indicator == "?"
    ensures e.indicator == "?" ==> e.rankLevel == RankLevel(e.rank, p.rankTotal)
    ensures e.indicator == "?" && avgRelativeRank > 0.0 ==>
              -0.5 <= e.rank as real - Scaled(avgRelativeRank, p.rankTotal) <= 0.5
    ensures e.indicator == "?" && avgRelativeRank > 0.0
            && (e.rank as real - Scaled(avgRelativeRank, p.rankTotal) == 0.5
                || e.rank as real - Scaled(avgRelativeRank, p.rankTotal) == -0.5) ==>
              e.rank % 2 == 0
    ensures e.indicator == "?" && avgRelativeRank <= 0.0 ==>
              -1 <= 2 * e.rank - p.rankTotal <= 1
    ensures e.indicator == "?" && avgRelativeRank <= 0.0
            && (2 * e.rank - p.rankTotal == 1 || 2 * e.rank - p.rankTotal == -1) ==>
              e.rank % 2 == 0
  {
    if IsRanked(p) || p.relicId <= 0 then Estimate("", p.rank, p.rankLevel)
    else if p.highestRank > 0 && p.highestRankLevel > 0 then
      Estimate("+", p.highestRank, p.highestRankLevel)
    else if avgRelativeRank > 0.0 then
      var avgRank := RoundHalfEven(Scaled(avgRelativeRank, p.rankTotal));
      Estimate("?", avgRank, RankLevel(avgRank, p.rankTotal))
    else
      var avgRank := RoundHalfEven(p.rankTotal as real / 2.0);
      Estimate("?", avgRank, RankLevel(avgRank, p.rankTotal))
  }

  /** A player with neither a current nor a highest rank gets a `?` guess,
      and the guess stays within the leaderboard when the peers' average
      relative rank is a proportion. */
  lemma EstimateWithinLeaderboard(p: Player, avgRelativeRank: real)
    requires p.rankTotal > 0 && avgRelativeRank <= 1.0
    requires !IsRanked(p) && p.relicId > 0 && !HasHighestRank(p)
    ensures EstimateRank(p, avgRelativeRank).indicator == "?"
    ensures 0 <= EstimateRank(p, avgRelativeRank).rank <= p.rankTotal
  {
    if avgRelativeRank > 0.0 {
      RoundedShareWithin(avgRelativeRank, p.rankTotal);
    }
  }

  /** `avg_relative_rank * rank_total`: a relative rank scaled to a leaderboard. */
  function Scaled(relativeRank: real, total: int): (x: real)
    ensures 0.0 < relativeRank <= 1.0 && total > 0 ==> 0.0 < x <= total as real
  {
    relativeRank * total as real
  }

  /** A proportion of `t`, rounded, lies in 0..t. */
  lemma RoundedShareWithin(a: real, t: int)
    requires 0.0 < a <= 1.0 && t > 0
    ensures 0 <= RoundHalfEven(Scaled(a, t)) <= t
  {
    var x := Scaled(a, t);
    var r := RoundHalfEven(x);
    RoundedWithin(r, x, t);
  }

  /** An integer within 0.5 of a value in (0, t] lies in 0..t. */
  lemma RoundedWithin(r: int, x: real, t: int)
    requires 0.0 < x <= t as real && x - 0.5 <= r as real <= x + 0.5
    ensures 0 <= r <= t
  {
  }
}
