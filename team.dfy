/** A pre-made team reported by the remote service. */
module Teams {
  import opened Text

  /** `Team`: equality and hashing use `id` alone (see `AddTeam`). */
  datatype Team = Team(
    id: int,
    members: seq<int>,
    rank: int,
    rankLevel: int,
    highestRank: int,
    highestRankLevel: int)

  /** `Team(id)`: the dataclass defaults for every other field. */
  function NewTeam(id: int): (t: Team)
    ensures t.id == id && t.members == []
    ensures t.rank == -1 && t.rankLevel == -1 && t.highestRank == -1 && t.highestRankLevel == -1
    ensures DisplayRank(t) == ("-", "-")
  {
    Team(id, [], -1, -1, -1, -1)
  }

  /** `Team()`: the default team. */
  const DefaultTeam: Team := NewTeam(-1)

  /** `display_rank`: the current rank if there is one, else the highest
      rank if there is one, else dashes. */
  function DisplayRank(t: Team): (r: (string, string))
    ensures r.0 == "-" <==> r.1 == "-"
    ensures r.0 == "-" <==> (!(t.rank > 0 && t.rankLevel > 0)
                             && !(t.highestRank > 0 && t.highestRankLevel > 0))
    ensures t.rank > 0 && t.rankLevel > 0 ==>
              IsDigits(r.0) && ParseNat(r.0) == t.rank && IsDigits(r.1) && ParseNat(r.1) == t.rankLevel
    ensures !(t.rank > 0 && t.rankLevel > 0) && t.highestRank > 0 && t.highestRankLevel > 0 ==>
              IsDigits(r.0) && ParseNat(r.0) == t.highestRank
              && IsDigits(r.1) && ParseNat(r.1) == t.highestRankLevel
  {
    if t.rank > 0 && t.rankLevel > 0 then (IntToString(t.rank), IntToString(t.rankLevel))
    else if t.highestRank > 0 && t.highestRankLevel > 0 then
      (IntToString(t.highestRank), IntToString(t.highestRankLevel))
    else ("-", "-")
  }

  /** `Team.__eq__` / `__hash__`: only the id is compared. */
  predicate SameTeam(a: Team, b: Team) {
    a.id == b.id
  }

  /** A set of teams under id-only equality, represented as a map from each
      id to the one team kept for it. */
  predicate KeyedById(teams: map<int, Team>) {
    forall id :: id in teams ==> teams[id].id == id
  }

  /** `set.add` on a set of teams, keyed by the team id: a team whose id is
      already present leaves the set alone, otherwise it is inserted. */
  function AddTeam(teams: map<int, Team>, t: Team): (r: map<int, Team>)
    requires KeyedById(teams)
    ensures KeyedById(r)
    ensures r.Keys == teams.Keys + {t.id}
    ensures forall id :: id in teams ==> r[id] == teams[id]
    ensures t.id in r && SameTeam(r[t.id], t)
    ensures t.id !in teams ==> r[t.id] == t
  {
    if t.id in teams then teams else teams[t.id := t]
  }
}
