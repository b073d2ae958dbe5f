/** The five playable factions, their log-file keys and the two team
    factions (Axis and Allies) they belong to. */
module Factions {
  import opened Wrappers

  /** A playable faction; the constructors appear in the enum's declaration order. */
  datatype Faction = WM | SU | OKW | US | UK {

    /** The id the remote service uses for the faction. */
    function Id(): nat {
      match this
      case WM => 0
      case SU => 1
      case OKW => 2
      case US => 3
      case UK => 4
    }

    /** The faction's identifier in the game's log file. */
    function KeyLog(): string {
      match this
      case WM => "german"
      case SU => "soviet"
      case OKW => "west_german"
      case US => "aef"
      case UK => "british"
    }

    /** The enum member's name. */
    function Name(): string {
      match this
      case WM => "WM"
      case SU => "SU"
      case OKW => "OKW"
      case US => "US"
      case UK => "UK"
    }

    function FullName(): string {
      match this
      case WM => "Wehrmacht"
      case SU => "Soviet Union"
      case OKW => "Oberkommando West"
      case US => "US Forces"
      case UK => "British Forces"
    }
  }

  /** The factions in enum iteration order (what `for member in cls` visits). */
  const AllFactions: seq<Faction> := [WM, SU, OKW, US, UK]

  /** Every faction is visited by the enum iteration. */
  lemma AllFactionsComplete(f: Faction)
    ensures f in AllFactions
  {
    match f
    case WM => assert AllFactions[0] == f;
    case SU => assert AllFactions[1] == f;
    case OKW => assert AllFactions[2] == f;
    case US => assert AllFactions[3] == f;
    case UK => assert AllFactions[4] == f;
  }

  function AlliesFactions(): seq<Faction> {
    [SU, US, UK]
  }

  function AxisFactions(): seq<Faction> {
    [WM, OKW]
  }

  predicate IsAxisFaction(f: Faction) {
    f in AxisFactions()
  }

  predicate IsAlliesFaction(f: Faction) {
    f in AlliesFactions()
  }

  /** What the remote service considers a faction. */
  datatype TeamFaction = Axis | Allies {
    function Value(): nat {
      if Axis? then 0 else 1
    }
  }

  /** `TeamFaction.from_faction`: `TeamFaction(int(f.is_allies_faction))`. */
  function TeamFactionOf(f: Faction): (t: TeamFaction)
    ensures t == Allies <==> IsAlliesFaction(f)
    ensures t == Axis <==> IsAxisFaction(f)
    ensures t.Value() == if IsAlliesFaction(f) then 1 else 0
  {
    AllFactionsComplete(f);
    if IsAlliesFaction(f) then Allies else Axis
  }

  /** `Faction.from_team_faction`: the factions of a team faction. */
  function FromTeamFaction(t: TeamFaction): (fs: seq<Faction>)
    ensures forall f :: f in fs <==> TeamFactionOf(f) == t
  {
    if t == Axis then AxisFactions() else AlliesFactions()
  }

  datatype FactionError = NotALogFileIdentifier(key: string)

  /** The first of `members` whose log key is `key`. */
  function FindByKeyLog(members: seq<Faction>, key: string): (r: Option<Faction>)
    ensures r.None? <==> forall i :: 0 <= i < |members| ==> members[i].KeyLog() != key
    ensures r.Some? ==> exists i :: 0 <= i < |members| && members[i] == r.value
                          && r.value.KeyLog() == key
                          && forall j :: 0 <= j < i ==> members[j].KeyLog() != key
  {
    if |members| == 0 then None
    else if members[0].KeyLog() == key then Some(members[0])
    else
      var r := FindByKeyLog(members[1..], key);
      assert r.Some? ==> forall i :: 0 < i < |members| && members[i] == r.value ==> members[1..][i - 1] == r.value;
      r
  }

  /** `Faction.from_log`: a linear search over the factions; a string that
      is not a log key raises `ValueError`. */
  function FromLog(key: string): (r: Result<Faction, FactionError>)
    ensures r.Ok? ==> r.value.KeyLog() == key
    ensures r.Err? <==> forall f: Faction :: f.KeyLog() != key
    ensures r.Err? ==> r.error == NotALogFileIdentifier(key)
  {
    var found := FindByKeyLog(AllFactions, key);
    if found.Some? then Ok(found.value)
    else
      assert forall f: Faction :: f.KeyLog() != key by {
        forall f: Faction ensures f.KeyLog() != key {
          AllFactionsComplete(f);
        }
      }
      Err(NotALogFileIdentifier(key))
  }

  /** Ids are 0..4 and distinct, and so are the log keys. */
  lemma FactionKeysDistinct(f: Faction, g: Faction)
    ensures f.Id() < 5
    ensures f.Id() == g.Id() ==> f == g
    ensures f.KeyLog() == g.KeyLog() ==> f == g
  {
  }

  /** `from_log(f.key_log) == f` for every faction. */
  lemma FromLogKeyLog(f: Faction)
    ensures FromLog(f.KeyLog()) == Ok(f)
  {
    var r := FromLog(f.KeyLog());
    assert r.Ok? by {
      assert f.KeyLog() == f.KeyLog();
    }
    FactionKeysDistinct(r.value, f);
  }

  /** Axis and Allies partition the factions. */
  lemma AxisAlliesPartition(f: Faction)
    ensures IsAxisFaction(f) != IsAlliesFaction(f)
    ensures f in FromTeamFaction(TeamFactionOf(f))
  {
  }
}
