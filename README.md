# CoH2 Live Stats — a verified model of the derived-data engine

CoH2 Live Stats watches the log file of *Company of Heroes 2*. It notices
when a new match starts and fetches each player's statistics from Relic's
leaderboard service. From those it derives two things: which players queued
together as pre-made teams, and an estimated rank for players without one.
This project models that engine in Dafny and proves properties of the model.

It has one module per source file:

- `Factions` (`faction.dfy`) covers the five factions, their log-file keys
  and the Axis/Allies split.
- `Teams` (`team.dfy`) covers a pre-made team record and its display rule.
  Teams are equal when their ids are, so a set of teams is a map keyed by
  id.
- `Players` (`player.dfy`) covers a player record and its derived
  properties:
  - the 20-level rank curve, `rank_level_from_rank`, as a method with both
    of its loops, proved equal to a specification function;
  - the three-way rank estimate.
- `Matches` (`match.dfy`) covers `Party` and `Match`
  construction. Construction is a method with loops, and it returns the
  `ValueError`s as `Err` values. It also covers the heuristic that keeps
  each player's largest fully contained teams, the rank statistics, and the
  comparison of the two sides.
- `Api` (`coh2api.dfy`) covers the three leaderboard-id families, the
  leaderboard table built by `CoH2API.__init__`, and the rules that fold a
  personal-statistics response into a player and its teams:
  - the response is a datatype, and `NoResponse` stands for the empty dict;
  - `CoH2API` is a class whose table `init_leaderboards` updates in place.
- `LogWatch` (`log_watcher.dfy`) covers the log watcher:
  - the player-line regular expression, modelled with Python's `re.search`
    semantics (leftmost start, greedy name, `$` before a final line break);
  - the two loops of `_parse_log` as methods;
  - `LogFileEventHandler` as a class with its stored hash, last player line
    and the queue it fills;
  - the consumer loop of `main` with its `notified` and `is_first_item`
    flags.
- `ScriptUtil` (`script_util.dfy`) covers the string-listing helpers of
  `scripts/script_util.py` and their doctest outputs.
- `Wrappers` and `Text` are shared helpers: `Option`/`Result`, digits,
  `str(int)`, `int(str)`, `join` and `replace`.

None of these modules reads files, hashes content or talks to the network.
Instead:

- the log is a `seq<string>` of lines;
- the SHA-256 digest is a string parameter;
- the service's responses are parameters.

Teams with only one member never become pre-made teams: `_set_teams_from_json`
skips stat groups of type 1 or less (`src/coh2_live_stats/coh2api.py:241-242`),
and `Party._add_player_pre_made_teams` has no size filter of its own. The model
does the same: `Api.TeamGroups` drops those groups, and
`Matches.PlayerPreMadeTeams` has no filter.

## Model

| member | source | states |
|---|---|---|
| Factions.AllFactionsComplete | src/coh2_live_stats/data/faction.py:31-35 | iterating over the enum visits every faction |
| Factions.FactionKeysDistinct | src/coh2_live_stats/data/faction.py:31-35 | faction ids are below 5 and distinct, and the log keys are distinct |
| Factions.TeamFactionOf | src/coh2_live_stats/data/faction.py:109-116 | `TeamFaction.from_faction` is Allies (value 1) exactly for the Allies factions and Axis (value 0) exactly for the Axis factions |
| Factions.FromTeamFaction | src/coh2_live_stats/data/faction.py:72-79 | `from_team_faction(t)` holds exactly the factions whose team faction is t |
| Factions.FindByKeyLog | src/coh2_live_stats/data/faction.py:87-90 | the search finds nothing exactly when no member has that key; otherwise it returns a member of the list |
| Factions.FromLog | src/coh2_live_stats/data/faction.py:81-92 | a result has the given log key; the `ValueError` is raised exactly when no faction has that key |
| Factions.FromLogKeyLog | src/coh2_live_stats/data/faction.py:81-92 | `from_log(f.key_log) == f` for every faction |
| Factions.AxisAlliesPartition | src/coh2_live_stats/data/faction.py:52-79 | each faction is either Axis or Allies, never both, and belongs to the list of its own team faction |
| Teams.NewTeam | src/coh2_live_stats/data/team.py:22-31 | a new team has the given id, no members, -1 for its rank, rank level, highest rank and highest rank level, and ranks shown as dashes |
| Teams.DisplayRank | src/coh2_live_stats/data/team.py:33-40 | shows the current rank when rank and level are both positive, else the highest rank when both of those are positive, else two dashes |
| Teams.AddTeam | src/coh2_live_stats/data/team.py:42-50 | adding to a set of teams compared by id: the key set grows by the team's id, existing entries stay, and a new id holds the team |
| Players.NewPlayer | src/coh2_live_stats/data/player.py:38-61 | a new player carries the log fields and the dataclass defaults: empty Steam profile and country, prestige -1, no wins, losses, streak or drops, -1 for rank, rank total, rank level, highest rank and highest rank level, and no teams; so it is unranked, has no highest rank and has relative rank 0 |
| Players.PlayerTeamFaction | src/coh2_live_stats/data/player.py:63-68 | the team faction is Allies exactly when the player's faction is an Allies faction |
| Players.RelativeRank | src/coh2_live_stats/data/player.py:80-83 | 0 for an unranked player; in (0, 1] for a ranked player whose rank lies within the rank total |
| Players.SteamProfileUrl | src/coh2_live_stats/data/player.py:100-104 | the profile URL starts with the Steam community address |
| Players.SteamProfileUrlForId | src/coh2_live_stats/data/player.py:100-104 | a `/steam/<digits>` profile becomes `https://steamcommunity.com/profiles/<digits>` |
| Players.RoundHalfEven | src/coh2_live_stats/data/player.py:125-127 | Python's `round`: within 0.5 of its argument, with halves going to the even neighbour |
| Players.RankLevel | src/coh2_live_stats/data/player.py:131-158 | the level is -1 exactly when rank or rank total is non-positive, and always lies in -1..20 |
| Players.RankLevelFromRank | src/coh2_live_stats/data/player.py:131-158 | the `for` and `while` loops compute exactly the specified rank level |
| Players.RankingShape | src/coh2_live_stats/data/player.py:148-155 | the thresholds the `for` loop appends never increase and stay at or above the top-200 count |
| Players.ThresholdsShape | src/coh2_live_stats/data/player.py:148-155 | the 14 thresholds start at the rank total, never increase and stay at or above min(200, rank total) |
| Players.CountLeadingOfNonIncreasing | src/coh2_live_stats/data/player.py:156-157 | on non-increasing thresholds the `while` loop counts exactly the thresholds at or above the rank |
| Players.CountLeadingAntitone | src/coh2_live_stats/data/player.py:156-157 | a larger rank never passes more thresholds |
| Players.RankLevelBelowTop200 | src/coh2_live_stats/data/player.py:147-157 | beyond rank 200 the level is 0..14, and level j is passed exactly when the rank is at or below threshold j |
| Players.RankLevelBeyondTotal | src/coh2_live_stats/data/player.py:149-157 | a rank beyond both 200 and the rank total has level 0 |
| Players.RankLevelWithinTotal | src/coh2_live_stats/data/player.py:131-158 | a rank within the leaderboard has a level of at least 1 |
| Players.RankLevelTop200 | src/coh2_live_stats/data/player.py:137-146 | ranks 1-200 get levels 16-20 whatever the rank total |
| Players.RankLevelMonotone | src/coh2_live_stats/data/player.py:131-158 | for a fixed rank total, a worse rank never has a higher level |
| Players.EstimateRank | src/coh2_live_stats/data/player.py:112-128 | the precedence of the estimate: the current rank for a ranked player or a non-positive relic id, else the highest rank marked `+`, else a `?` guess from the side's average relative rank or the middle of the leaderboard, with its level from the rank curve; the guess is Python's `round` of the scaled average or of `rank_total / 2`: within 0.5 of it, and even on a tie |
| Players.EstimateWithinLeaderboard | src/coh2_live_stats/data/player.py:112-128 | a player with neither a current nor a highest rank gets a `?` guess, and with an average relative rank of at most 1 the guessed rank lies in 0..rank_total |
| Matches.ContainedTeamsMembers | src/coh2_live_stats/data/match.py:164-171 | the candidates are exactly the reported teams whose members all play in the party |
| Matches.MaxTeamSize | src/coh2_live_stats/data/match.py:163-170 | the maximum is an upper bound on the candidates' sizes and is reached by one of them; it is 0 with no candidates |
| Matches.LargestTeamsMembers | src/coh2_live_stats/data/match.py:172-174 | the kept teams are exactly the candidates of at least the maximal size |
| Matches.AddTeamsContents | src/coh2_live_stats/data/match.py:172-174 | adding teams to the set adds exactly their ids, keeps old entries, and stores only teams that were added |
| Matches.CollectContainedTeams | src/coh2_live_stats/data/match.py:162-171 | the first loop collects exactly the player's fully contained teams, in order, and the largest of their sizes |
| Matches.AddPlayerPreMadeTeams | src/coh2_live_stats/data/match.py:157-174 | the loops add exactly the player's largest fully contained teams to the party's set |
| Matches.PlayerPreMadeTeamsMaximal | src/coh2_live_stats/data/match.py:157-174 | a team is selected for a player exactly when the player reported it, all its members play in the party, and no other such team of that player is larger |
| Matches.LargerTeamCrowdsOut | src/coh2_live_stats/data/match.py:157-174 | a larger fully contained team of the same player crowds out a smaller one |
| Matches.OverlappingTeamsExample | src/coh2_live_stats/data/match.py:158-161 | teams (A,B) and (B,C) without (A,B,C) both survive; (A,B,C) crowds out the others |
| Matches.PartyPreMadeTeamsSound | src/coh2_live_stats/data/match.py:122-123 | every pre-made team of a party is keyed by its id, has all its members in the party, and is one of the teams a player of the party contributes: a largest fully contained team that player reported |
| Matches.PartyPreMadeTeamsComplete | src/coh2_live_stats/data/match.py:122-123 | the ids of a party's pre-made teams are exactly the ids of the teams its players contribute, taken together over all players |
| Matches.PartyPreMadeTeamsNonEmpty | src/coh2_live_stats/data/match.py:122-123 | a party has a pre-made team exactly when one of its players reported a team made up of the party's players |
| Matches.RankedRelativeRanks | src/coh2_live_stats/data/match.py:121-125 | each player contributes at most one relative rank |
| Matches.RankedIndices | src/coh2_live_stats/data/match.py:121-125 | the positions of the ranked players: increasing, each holding a ranked player, and listing every ranked player |
| Matches.RankedRelativeRanksAt | src/coh2_live_stats/data/match.py:121-125 | the relative ranks are exactly those of the ranked players, one per ranked player, in the players' order |
| Matches.RankEstimates | src/coh2_live_stats/data/match.py:139-144 | the estimates are keyed by exactly the players' relic ids |
| Matches.RankEstimatesOfPlayers | src/coh2_live_stats/data/match.py:141-144 | each player's entry is that player's estimate unless a later player shares its relic id |
| Matches.RelativeRankBounds | src/coh2_live_stats/data/match.py:118-127 | the minimum and maximum relative ranks bound every ranked player's, and keep `sys.maxsize` and 0.0 when nobody is ranked |
| Matches.RelativeRankExtremesReached | src/coh2_live_stats/data/match.py:118-127 | the minimum is `sys.maxsize` or a ranked player's relative rank and never above `sys.maxsize`; the maximum is 0.0 or a ranked player's relative rank and never below 0.0 |
| Matches.PartyOf | src/coh2_live_stats/data/match.py:106-155 | the party keeps its players in input order |
| Matches.NewParty | src/coh2_live_stats/data/match.py:106-155 | `ValueError` unless 1 to 4 players, `ZeroDivisionError` for a ranked player with rank total 0, and otherwise the specified party with its teams, ranks and averages |
| Matches.ScanPlayers | src/coh2_live_stats/data/match.py:117-127 | the first loop stops at a ranked player with rank total 0, and otherwise leaves the party's pre-made teams, the ranked players' relative ranks and their minimum and maximum |
| Matches.EstimatePlayers | src/coh2_live_stats/data/match.py:139-144 | the second loop leaves every relic id's estimate and the sums of the estimated ranks and levels |
| Matches.Side | src/coh2_live_stats/data/match.py:48-49 | the players of one side, exactly those with that team id; one player is kept exactly when it has that team id |
| Matches.SideAppend | src/coh2_live_stats/data/match.py:48-49 | the side keeps the input order: the side of two runs of players is the two sides one after the other |
| Matches.SidesPartition | src/coh2_live_stats/data/match.py:48-49 | side 0, side 1 and the other team ids together account for every player |
| Matches.MatchOf | src/coh2_live_stats/data/match.py:38-55 | a match is built exactly when there are at least 2 players and both sides are valid parties of equal size; party 0 holds side 0 and party 1 holds side 1 |
| Matches.NewMatch | src/coh2_live_stats/data/match.py:38-55 | construction raises or builds exactly as specified |
| Matches.MatchSizes | src/coh2_live_stats/data/match.py:44-55 | a built match has two parties of equal size 1..4 that hold every player of side 0 or 1 |
| Matches.HighestAvgPartyBySums | src/coh2_live_stats/data/match.py:59-82 | party 0 has the highest average rank exactly when its sum of estimated ranks is lower, and the highest average level exactly when its sum of levels is higher; ties go to party 1 |
| Matches.HasPreMadeTeamsIff | src/coh2_live_stats/data/match.py:84-90 | a match has pre-made teams exactly when some player reported a team made up of players of their own party |
| Api.SoloMatchTypeOf | src/coh2_live_stats/coh2api.py:33-40 | `_SoloMatchType(v)` succeeds exactly for 0..4 and returns the member with that value |
| Api.TeamMatchTypeOf | src/coh2_live_stats/coh2api.py:51-60 | `_TeamMatchType(v)` succeeds exactly for 0..2 and returns the member with that value |
| Api.EnumValuesRoundTrip | src/coh2_live_stats/coh2api.py:33-60 | converting an enum member's value back gives the member |
| Api.SoloLeaderboardId | src/coh2_live_stats/coh2api.py:160-170 | solo ids are in 0..19 or 50..54; the id is 50 or more exactly for UK, and a custom-game id exactly when it is below 4 or 50 |
| Api.TeamLeaderboardId | src/coh2_live_stats/coh2api.py:172-180 | team ids lie in 20..25 |
| Api.AiLeaderboardId | src/coh2_live_stats/coh2api.py:182-193 | AI ids lie in 26..49 |
| Api.SoloLeaderboardRoundTrip | src/coh2_live_stats/coh2api.py:160-170 | every solo id decodes back to its match type and faction |
| Api.TeamLeaderboardRoundTrip | src/coh2_live_stats/coh2api.py:172-180 | every team id decodes back to its match type and team faction |
| Api.AiLeaderboardRoundTrip | src/coh2_live_stats/coh2api.py:182-193 | every AI id decodes back to its match type, difficulty and team faction |
| Api.LeaderboardIdsDistinct | src/coh2_live_stats/coh2api.py:160-193 | each id family is injective, and no two families share an id |
| Api.TableToMapLookup | src/coh2_live_stats/coh2api.py:112-127 | in a dict built from entries, an entry whose key no later entry repeats is the one kept |
| Api.LeaderboardIds | src/coh2_live_stats/coh2api.py:112-127 | the table has 26 keys in insertion order |
| Api.LeaderboardIdsDistinctInTable | src/coh2_live_stats/coh2api.py:112-127 | the 26 keys are pairwise distinct |
| Api.SoloLeaderboardEntry | src/coh2_live_stats/coh2api.py:112-119 | every ranked solo leaderboard is in the table under its name `<size>_<FACTION>`, without a rank total |
| Api.TeamLeaderboardEntry | src/coh2_live_stats/coh2api.py:120-126 | every team leaderboard is in the table under its name `Team_of_<n>_<Faction>`, without a rank total |
| Api.CustomLeaderboardsAbsent | src/coh2_live_stats/coh2api.py:116-117 | no custom-game leaderboard is in the table |
| Api.InitialLeaderboardsContents | src/coh2_live_stats/coh2api.py:112-127 | the table holds exactly the 20 ranked solo and the 6 team leaderboards, 26 in all |
| Api.PersonalStatsFor | src/coh2_live_stats/coh2api.py:257-267 | a player without a positive relic id gets the empty response, and a player with one gets the service's response unchanged |
| Api.FirstStatIndex | src/coh2_live_stats/coh2api.py:202-203 | finds the first statistics entry for the leaderboard, or reports that there is none |
| Api.StatsFromJson | src/coh2_live_stats/coh2api.py:195-213 | only the nine stat fields change; the player is unchanged for an empty response or when no entry matches, and otherwise takes the first matching entry's values |
| Api.SetPlayerStatsFromJson | src/coh2_live_stats/coh2api.py:195-213 | the loop with its early return computes exactly that update |
| Api.FindMember | src/coh2_live_stats/coh2api.py:227-229 | finds the first member with the profile id across the groups in order, or reports that there is none |
| Api.FindInMembers | src/coh2_live_stats/coh2api.py:228-229 | finds the first member with the profile id within one group |
| Api.ExtraDataFromJson | src/coh2_live_stats/coh2api.py:222-234 | only alias, Steam profile, prestige and country change, copied from the first member whose profile id is the relic id; otherwise the player is unchanged |
| Api.SetExtraPlayerDataFromJson | src/coh2_live_stats/coh2api.py:222-234 | the nested loops with their early return compute exactly that update |
| Api.ApplyTeamStats | src/coh2_live_stats/coh2api.py:246-254 | only the four rank fields of the team change |
| Api.ApplyTeamStatsNoMatch | src/coh2_live_stats/coh2api.py:246-254 | with no entry for the group and leaderboard the team keeps its ranks |
| Api.ApplyTeamStatsLastWins | src/coh2_live_stats/coh2api.py:246-254 | the last matching entry provides the team's ranks |
| Api.TeamOfGroup | src/coh2_live_stats/coh2api.py:243-254 | the team has the group's id and members, and the four rank fields of the last stats entry for the group's id on the team leaderboard of type `group type - 2` and the player's team faction, or -1 without such an entry or without stats; an invalid team match type raises exactly when stats exist to compare |
| Api.LastTeamStat | src/coh2_live_stats/coh2api.py:246-254 | the last entry for the stat group and leaderboard: it matches and no later entry does, or there is no matching entry at all |
| Api.ApplyTeamStatsRanked | src/coh2_live_stats/coh2api.py:246-254 | scanning the stats from a team with ranks -1 leaves the ranks of the last matching entry, or -1 when none matches |
| Api.TeamGroups | src/coh2_live_stats/coh2api.py:240-242 | exactly the groups of more than one player become teams: every kept group is one of them, and every one of them is kept |
| Api.TeamGroupsAppend | src/coh2_live_stats/coh2api.py:240-242 | the kept groups stay in the order of the groups, since filtering two runs one after the other gives the filtered runs one after the other |
| Api.TeamsFromGroups | src/coh2_live_stats/coh2api.py:240-255 | one team per group of more than one player, in order, each with that group's id, members and ranks as for `Api.TeamOfGroup`; an error exactly when stats exist and some group has more than four players |
| Api.TeamsFromJson | src/coh2_live_stats/coh2api.py:236-255 | only the teams change: the existing teams stay as a prefix, and after them comes one team per group of more than one player, built from that group with its id, members and ranks as for `Api.TeamOfGroup`, in order; an empty response changes nothing; the call fails exactly when the response has stats and a group of more than four players |
| Api.PrependTeamsLaws | src/coh2_live_stats/coh2api.py:255 | the teams are appended in order: prepending nothing changes nothing, and two prepends combine |
| Api.BuildGroupTeam | src/coh2_live_stats/coh2api.py:243-254 | the inner loops build exactly the specified team |
| Api.TeamsFromGroupsStep | src/coh2_live_stats/coh2api.py:240-255 | one outer-loop step skips a small group, stops at an error, or appends the group's team |
| Api.SetTeamsFromJson | src/coh2_live_stats/coh2api.py:236-255 | the loops compute exactly the specified teams or the first error |
| Api.CoH2Api.constructor | src/coh2_live_stats/coh2api.py:105-127 | the table is the 26-entry leaderboard table, keyed in insertion order, each key once |
| Api.CoH2Api.InitLeaderboards | src/coh2_live_stats/coh2api.py:269-280 | each leaderboard gets the rank total of the response at its position, with keys, order and timeout unchanged |
| Api.CoH2Api.SetRankTotal | src/coh2_live_stats/coh2api.py:215-220 | an unknown leaderboard raises `KeyError`; only the rank total can change, and only when it is non-positive and the table has one |
| Api.CoH2Api.InitPlayer | src/coh2_live_stats/coh2api.py:147-158 | `_init_player` applies the four updates in the source's order for the solo leaderboard of `num_players // 2` |
| Api.CoH2Api.InitPlayerKeepsIdentity | src/coh2_live_stats/coh2api.py:147-158 | initialisation keeps id, relic id, side, faction and existing teams |
| Api.CoH2Api.InitPlayerWithoutProfile | src/coh2_live_stats/coh2api.py:257-259 | a player without a positive relic id has at most its rank total changed |
| Api.CoH2Api.InitPlayerMatchSizes | src/coh2_live_stats/coh2api.py:150-154 | fewer than 2 players means a custom-game id, which raises `KeyError`; 10 or more makes the solo match type raise `ValueError` |
| LogWatch.LastSpace | src/coh2_live_stats/__main__.py:73 | the position of the last space, or the absence of any space |
| LogWatch.KeySuffix | src/coh2_live_stats/__main__.py:74 | finds a faction whose key, after a space, ends the text, or reports that no faction does |
| LogWatch.StripFinalNewline | src/coh2_live_stats/__main__.py:74 | `$` matches at the end or before one final line break |
| LogWatch.SplitNameRelic | src/coh2_live_stats/__main__.py:73 | a split is the name, a space and a run of digits |
| LogWatch.MatchBody | src/coh2_live_stats/__main__.py:73-74 | a match has a name without line breaks, digits for the relic id and one digit for the team |
| LogWatch.MatchFields | src/coh2_live_stats/__main__.py:71-75 | every match is well formed |
| LogWatch.PlayerOf | src/coh2_live_stats/__main__.py:132-138 | the player fields are the matched groups converted with `int` and `Faction.from_log` |
| LogWatch.KeySuffixUnique | src/coh2_live_stats/__main__.py:74 | a line ends with at most one faction key, so the alternation is unambiguous |
| LogWatch.SplitNameRelicOf | src/coh2_live_stats/__main__.py:73 | the greedy name means the relic id is the token after the name |
| LogWatch.MatchBodySound | src/coh2_live_stats/__main__.py:73-74 | every match is exactly the text it was matched in |
| LogWatch.MatchFieldsOf | src/coh2_live_stats/__main__.py:71-75 | every well-formed player line, with or without a final line break, matches and gives back its groups |
| LogWatch.MatchFieldsSound | src/coh2_live_stats/__main__.py:71-75 | the pattern matches only the text of a well-formed match, optionally followed by one line break |
| LogWatch.SearchFromNone | src/coh2_live_stats/__main__.py:120 | `re.search` finds nothing exactly when the pattern matches at no position of the line |
| LogWatch.SearchFromFirst | src/coh2_live_stats/__main__.py:120 | what `re.search` finds is the match at a position where the pattern matches and before which it matches nowhere |
| LogWatch.FirstMatchNone | src/coh2_live_stats/__main__.py:120 | a search over positions in order finds nothing exactly when every attempt finds nothing |
| LogWatch.FirstMatchFirst | src/coh2_live_stats/__main__.py:120 | a search over positions in order reports the first attempt that finds something |
| LogWatch.NoMatchWithoutG | src/coh2_live_stats/__main__.py:72 | the pattern cannot start at a character other than `G` |
| LogWatch.ParseLineOf | src/coh2_live_stats/__main__.py:71-75 | a Human or AI player line after a timestamp without `G` is recognised with its groups |
| LogWatch.Parsed | src/coh2_live_stats/__main__.py:119-120 | one search result per line, and every match found is well formed |
| LogWatch.ParsedAppend | src/coh2_live_stats/__main__.py:119-120 | each line is searched on its own, so the results for a longer snapshot extend those for its first lines |
| LogWatch.Scan | src/coh2_live_stats/__main__.py:117-125 | every collected match is well formed |
| LogWatch.LastReset | src/coh2_live_stats/__main__.py:122-123 | the last slot-0 player line, with none after it |
| LogWatch.RosterFromLastReset | src/coh2_live_stats/__main__.py:117-125 | the roster is every player line from the last slot-0 line onward, in file order |
| LogWatch.ScanLastLine | src/coh2_live_stats/__main__.py:117-125 | `pl` is the index of the last player line, or 0 when there is none |
| LogWatch.ScanAppendReset | src/coh2_live_stats/__main__.py:122-125 | lines appended after a slot-0 player line replace the roster and move `pl` into them |
| LogWatch.ScanNonPlayerSuffix | src/coh2_live_stats/__main__.py:117-125 | lines without a player line change neither the roster nor `pl` |
| LogWatch.PlayersOfAt | src/coh2_live_stats/__main__.py:130-140 | the players come in the order of the matches, and the player at each position is the one built from the match there |
| LogWatch.EmptyLogParse | src/coh2_live_stats/__main__.py:90 | the first parse of an empty log reports a new, empty, non-multiplayer match |
| LogWatch.ReparseNotNew | src/coh2_live_stats/__main__.py:127-128 | parsing the same lines again is not a new match |
| LogWatch.NewMatchAppended | src/coh2_live_stats/__main__.py:119-128 | a new roster appended to a parsed log is a new match with exactly the new roster |
| LogWatch.PlayingStatusAppended | src/coh2_live_stats/__main__.py:142-146 | the playing status written right after the last player line turns the parse into a multiplayer match, and it is not new |
| LogWatch.FirstLinePlayerNotNew | src/coh2_live_stats/__main__.py:117-128 | a log whose only player line is its first, parsed after a log without player lines, is not reported as new |
| LogWatch.ScanLines | src/coh2_live_stats/__main__.py:117-125 | the scan loop computes exactly the roster and `pl` |
| LogWatch.BuildPlayers | src/coh2_live_stats/__main__.py:130-140 | the player loop computes exactly the players of the matches |
| LogWatch.ParseLines | src/coh2_live_stats/__main__.py:117-148 | the two loops and the status check compute exactly the parse of the snapshot against the given stored line, and the new `pl` |
| LogWatch.LogFileEventHandler.constructor | src/coh2_live_stats/__main__.py:77-92 | the hash starts empty, and the kickstart parse, made against -1, is queued |
| LogWatch.LogFileEventHandler.ParseLog | src/coh2_live_stats/__main__.py:113-148 | the parse compares against the stored line and then stores the new `pl` |
| LogWatch.LogFileEventHandler.Produce | src/coh2_live_stats/__main__.py:110-111 | one parse is appended to the queue |
| LogWatch.LogFileEventHandler.OnModified | src/coh2_live_stats/__main__.py:94-108 | directory events, other paths and an unchanged hash change nothing; otherwise one parse is queued and the hash stored |
| LogWatch.Consume | src/coh2_live_stats/__main__.py:241-255 | each item prints the match exactly when it is new, and notifies as the `notified`/`is_first_item` flags dictate |
| LogWatch.NotifiesOnlyLater | src/coh2_live_stats/__main__.py:249 | only a multiplayer item that is not the first is notified |
| LogWatch.StaysNotified | src/coh2_live_stats/__main__.py:245-253 | after a notification the flag stays up until a new match |
| LogWatch.AtMostOncePerMatch | src/coh2_live_stats/__main__.py:245-253 | there is a new match between any two notifications |
| LogWatch.FirstEligibleNotified | src/coh2_live_stats/__main__.py:245-253 | after a new match, the first later multiplayer item that is not the first item is notified |
| ScriptUtil.Flip | scripts/script_util.py:25-31 | `flip(f)(b, a) == f(a, b)` wherever f is defined |
| ScriptUtil.FlipExample | scripts/script_util.py:28-29 | `flip(lambda x, y: x / y)(2, 3) == 1.5` |
| ScriptUtil.Wrap | scripts/script_util.py:34-42 | the result is w, then s, then w |
| ScriptUtil.WrapExamples | scripts/script_util.py:37-40 | the doctest outputs of `wrap` |
| ScriptUtil.Bullet | scripts/script_util.py:45-53 | the bullet is `indent` spaces, c, a space and s |
| ScriptUtil.BulletExamples | scripts/script_util.py:48-51 | the doctest outputs of `bullet` |
| ScriptUtil.ListMultiLines | scripts/script_util.py:56-64 | for items without line breaks, the lines of the listing are exactly the bullets, with no trailing line |
| ScriptUtil.ListMultiExamples | scripts/script_util.py:59-62 | the doctest outputs of `list_multi` |
| ScriptUtil.Quoted | scripts/script_util.py:92-93 | quoting wraps each item in w |
| ScriptUtil.ListInline | scripts/script_util.py:78-96 | no items give the empty string; one item gives that item, wrapped when quoting (the intended behaviour, see Findings) |
| ScriptUtil.ListInlineQuoted | scripts/script_util.py:92-93 | quoting is listing the wrapped items unquoted |
| ScriptUtil.ListInlineShape | scripts/script_util.py:94-95 | two or more items give all but the last joined by `, `, then ` or ` and the last |
| ScriptUtil.ListInlineAppend | scripts/script_util.py:94-95 | appending an item moves the ` or ` to before it |
| ScriptUtil.ListInlineExamples | scripts/script_util.py:83-90 | the quoted doctest outputs of `list_inline` for two and three items |
| ScriptUtil.ListInlineUnquotedExample | scripts/script_util.py:87-88 | `list_inline(['a', 'b', 'c'], __quote=False) == 'a, b or c'` |
| ScriptUtil.ListSingle | scripts/script_util.py:67-75 | no items give the bare bullet `* ` after the indent; one item gives `* 'a'`, the item wrapped in single quotes, as the corrected `list_inline` does (as written, see Findings, it gives `* "'a'"`) |
| ScriptUtil.ListSingleShape | scripts/script_util.py:67-75 | with two or more items, the bullet holds the quoted items but the last joined by `, `, then ` or ` and the last quoted item |
| ScriptUtil.ListInlineQuotedShape | scripts/script_util.py:92-95 | with two or more items, the quoted listing is the quoted items but the last joined by `, `, then ` or ` and the last quoted item |
| ScriptUtil.ListSingleAsWrittenOneItem | scripts/script_util.py:75 | as written, `list_single(['a'])` is `* "'a'"`; the corrected listing makes it `* 'a'` |
| ScriptUtil.ListSingleExamples | scripts/script_util.py:70-73 | the doctest outputs of `list_single` |
| ScriptUtil.SplitLines | scripts/script_util.py:64 | `split('\n')`, which `list_multi` does not call: it reads the `'\n'.join` back for `ScriptUtil.ListMultiLines`, and always gives at least one line |
| ScriptUtil.PyRepr | scripts/script_util.py:95 | Python's string `repr` uses double quotes exactly when the string holds a single quote and no double quote |
| ScriptUtil.ListInlineAsWrittenAgrees | scripts/script_util.py:94-96 | the code as written agrees with the intended listing for every count of items except one |
| ScriptUtil.ListInlineAsWrittenOneItem | scripts/script_util.py:94-96 | as written, `list_inline(['a'])` gives `"'a'"`, five characters, not the `'a'` its docstring shows |
| ScriptUtil.ListInlineOneItem | scripts/script_util.py:81-82 | the intended listing gives `'a'` for `['a']`, and `a` unquoted |
| Text.NatToString | src/coh2_live_stats/data/team.py:37 | `str(n)` is a run of digits, one digit exactly when n < 10, starting with `0` only for 0 |
| Text.ParseNatToString | src/coh2_live_stats/data/team.py:37 | `int(str(n)) == n` |
| Text.IntToString | src/coh2_live_stats/data/team.py:37-39 | `str(i)` is digits, preceded by `-` for a negative i, and reads back as i, with no leading zero |
| Text.ReplaceAllWithout | src/coh2_live_stats/data/player.py:102-104 | a replacement leaves alone a string that never holds the start of the pattern |

Definitions without a row of their own are covered by the rows of the
members that state their properties:

- `Matches.PlayerPreMadeTeams`, `Matches.AddTeams` and
  `Matches.PartyPreMadeTeams`: by `Matches.PlayerPreMadeTeamsMaximal`,
  `Matches.AddTeamsContents`, `Matches.PartyPreMadeTeamsSound` and
  `Matches.PartyPreMadeTeamsComplete`.
- `Matches.MinRelativeRank`, `Matches.MaxRelativeRank` and
  `Matches.AvgRelativeRank`: by `Matches.RelativeRankBounds`,
  `Matches.RelativeRankExtremesReached`,
  `Matches.RankedRelativeRanksAt` and `Matches.ScanPlayers`.
- `Matches.HighestAvgRankParty` and `Matches.HighestAvgRankLevelParty`: by
  `Matches.HighestAvgPartyBySums`. `Matches.HasPreMadeTeams`: by
  `Matches.HasPreMadeTeamsIff`.
- `Matches.Party.Size` and `Matches.RelicIds`: by `Matches.MatchSizes` and
  `Matches.PlayerPreMadeTeamsMaximal`.
- `Players.IsRanked` and `Players.HasHighestRank`: by `Players.RelativeRank`
  and `Players.EstimateRank`. `Players.SamePlayer` and `Teams.SameTeam` are
  the id-only equalities described under "Left out"; `Teams.AddTeam` uses
  the second.
- `LogWatch.MatchAt`, `LogWatch.SearchFrom` and `LogWatch.ParseLine`: by
  `LogWatch.MatchFieldsOf`, `LogWatch.MatchFieldsSound`,
  `LogWatch.SearchFromNone`, `LogWatch.SearchFromFirst` and
  `LogWatch.ParseLineOf`.
- `LogWatch.ParseLogOf`, the model of `_parse_log`, and
  `LogWatch.IsMultiplayer`: by `LogWatch.ParseLines`, `LogWatch.EmptyLogParse`,
  `LogWatch.ReparseNotNew`, `LogWatch.NewMatchAppended`,
  `LogWatch.PlayingStatusAppended` and `LogWatch.FirstLinePlayerNotNew`.
- `LogWatch.NotifiedAfter` and `LogWatch.NotifiesAt`: by `LogWatch.Consume`,
  `LogWatch.NotifiesOnlyLater`, `LogWatch.StaysNotified`,
  `LogWatch.AtMostOncePerMatch` and `LogWatch.FirstEligibleNotified`.
- `Api.SoloLeaderboardName`, `Api.TeamLeaderboardName`, `Api.TableToMap`
  and `Api.InitialLeaderboards`: by `Api.SoloLeaderboardEntry`,
  `Api.TeamLeaderboardEntry`, `Api.TableToMapLookup` and
  `Api.InitialLeaderboardsContents`. `Api.ProfileIds`: by `Api.TeamOfGroup`.
  `Api.CoH2Api.InitPlayerOf`: by `Api.CoH2Api.InitPlayer` and the
  `InitPlayer…` rows after it.
- `ScriptUtil.ListMulti` and `ScriptUtil.Bullets`: by
  `ScriptUtil.ListMultiLines` and `ScriptUtil.ListMultiExamples`.
  `ScriptUtil.ListInlineAsWritten`: by `ScriptUtil.ListInlineAsWrittenAgrees`
  and `ScriptUtil.ListInlineAsWrittenOneItem`.

## Left out

- Network and HTTP are not modelled. That covers the `httpx` client and `asyncio.gather`, `get_players`, `_get_player`'s request, `get_leaderboards`, `_get_leaderboard`, timeouts and `close`. The responses are parameters: `Api.PersonalStatsFor` keeps the `relic_id <= 0` guard, and `InitLeaderboards` takes the rank totals in table order. `get_players` is the per-player `InitPlayer` mapped over the roster, and it is not modelled.
- File watching, the watchdog observer, `call_soon_threadsafe`, the asyncio queue, `_tickle_logfile`, and cancellation and teardown in `main` are concurrency and OS plumbing. They are left out. The queue is the sequence of items put on it, and `Consume` runs over such a sequence.
- Reading and decoding the log file and its SHA-256 digest are I/O. The log is given as its lines, and the digest as a string.
- Rendering (`output.py`, `data/color.py`), sound playback, settings and logging are presentation and configuration around foreign libraries. They are left out.
- `util.py`, `win_ratio`, `drop_ratio` and `get_prestige_level_stars` are float formatting helpers used only for display. They are left out.
- Players.NumGames: `num_games` is `wins + losses` and only feeds `win_ratio` and `drop_ratio`, which are left out. Its contract states only that the sum is at least each count.
- LogWatch.Consume: in the source, `_get_players` raises inside the consumer loop for a roster it cannot rank: `KeyError` for one player, and `ValueError` for ten or more players or for a stat group of more than four. `main` logs the exception as unexpected (`src/coh2_live_stats/__main__.py:266-268`), re-raises it and shuts down. The model reacts to every item in the same way whatever the roster, so it does not model that exit.
- `Players.RelativeRank`, `Matches.AvgRelativeRank`, `Players.RoundHalfEven`: floats are modelled as exact reals. Bit-exact IEEE rounding of `rank_total * (r / 100)`, of `rank / rank_total` and of the averages is not captured.
- Player and Team records are values. The `_set_*` methods update the player in place, and `_init_player` returns the same object. The model returns the updated value instead, so aliasing of one player object from several places is not captured.
- `LogWatch.PlayerOf`: `\d` and `int()` accept only the ASCII digits 0-9. Python's versions also accept other Unicode decimal digits.
- `ScriptUtil.PyRepr`: it escapes only the ASCII control characters, DEL and the C1 range. Python's `repr` also escapes other non-printable Unicode characters.
- The superseded copies `main.py`, `player.py`, `faction.py`, `team.py` and `src/coh2_live_stats/player.py`, the unused enums `data/column.py` and `data/match_type.py`, and the build and documentation scripts are not part of this model.
- `Player.__eq__`/`__hash__` and `Team.__eq__`/`__hash__` are modelled by the predicates `Players.SamePlayer` and `Teams.SameTeam`, which compare only the relic id or the team id. Team sets use them through `Teams.AddTeam`. Player sets are never built by the core.
- `_Difficulty` carries only its values, used by `Api.AiLeaderboardId`. The `__str__`/`__repr__` of the enums matter only for the leaderboard names, which `Api.SoloLeaderboardName` and `Api.TeamLeaderboardName` spell out.

## Findings

| source | as written | input that shows it | evidently intended | confidence | as-written member | corrected member |
|---|---|---|---|---|---|---|
| scripts/script_util.py:95 | for fewer than two items, the result is `str(__s)[1:-1]`, the list's `repr` without its brackets, so a quoted item is `repr`'d a second time | `list_inline(['a'])` gives `"'a'"` (the `repr` of the already wrapped `'a'`) | `'a'`, as the docstring at scripts/script_util.py:81-82 shows: the single item, wrapped when quoting | not executed | ScriptUtil.ListInlineAsWrittenOneItem | ScriptUtil.ListInlineOneItem |
