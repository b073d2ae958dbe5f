/** The log-file watcher: the player-line grammar, the parse of one snapshot
    of the log, the handler that de-duplicates modify events, and the
    consumer loop that decides when to notify. */
module LogWatch {
  import opened Wrappers
  import opened Text
  import opened Factions
  import opened Players

  /** `LogInfo`: what one parse of the log reports. */
  datatype LogInfo = LogInfo(players: seq<Player>, isNewMatch: bool, isMultiplayerMatch: bool)

  /** The named groups of a player-line match, as matched text. */
  datatype PlayerMatch = PlayerMatch(slot: char, name: string, relicId: string, team: char, faction: string)

  const HumanPrefix: string := "GAME -- Human Player: "
  const AiPrefix: string := "GAME -- AI Player: "
  const PlayingMarker: string := "Party::SetStatus - S_PLAYING"

  // ---------------------------------------------------------------------
  // The player-line pattern

  /** What the groups of a match can hold: one digit, a name without line
      break (`.` does not match one), a run of digits, one digit and a
      faction's log key. */
  predicate WellFormed(m: PlayerMatch) {
    IsDigit(m.slot) && NoNewline(m.name) && IsDigits(m.relicId) && IsDigit(m.team)
    && FromLog(m.faction).Ok?
  }

  /** The text a match covers after `Player: `. */
  function Fields(m: PlayerMatch): string {
    [m.slot, ' '] + Body(m)
  }

  /** The text a match covers after the slot digit and its space. */
  function Body(m: PlayerMatch): string {
    m.name + " " + m.relicId + " " + [m.team] + " " + m.faction
  }

  /** The position of the last space of `s`. */
  function LastSpace(s: string): (r: Option<nat>)
    ensures r.Some? ==> r.value < |s| && s[r.value] == ' '
                        && forall i :: r.value < i < |s| ==> s[i] != ' '
    ensures r.None? ==> forall i :: 0 <= i < |s| ==> s[i] != ' '
  {
    if |s| == 0 then None
    else if s[|s| - 1] == ' ' then Some(|s| - 1)
    else LastSpace(s[..|s| - 1])
  }

  /** The first faction of `fs` whose log key, after a space, ends `body`. */
  function KeySuffix(body: string, fs: seq<Faction>): (r: Option<Faction>)
    ensures r.Some? ==> r.value in fs && EndsWith(body, " " + r.value.KeyLog())
    ensures r.None? ==> forall i :: 0 <= i < |fs| ==> !EndsWith(body, " " + fs[i].KeyLog())
  {
    if |fs| == 0 then None
    else if EndsWith(body, " " + fs[0].KeyLog()) then Some(fs[0])
    else
      var r := KeySuffix(body, fs[1..]);
      assert r.None? ==> forall i :: 1 <= i < |fs| ==> fs[i] == fs[1..][i - 1];
      r
  }

  /** `s` without one trailing line break: `$` matches at the end of the
      string and before a final line break. */
  function StripFinalNewline(s: string): (r: string)
    ensures s == r || s == r + "\n"
  {
    if |s| > 0 && s[|s| - 1] == '\n' then s[..|s| - 1] else s
  }

  /** `(?P<name>.*) (?P<relic_id>\d+)` anchored at both ends of `s`: the
      greedy name takes everything up to the last space. */
  function SplitNameRelic(s: string): (r: Option<(string, string)>)
    ensures r.Some? ==> s == r.value.0 + " " + r.value.1 && IsDigits(r.value.1)
  {
    match LastSpace(s)
    case None => None
    case Some(q) =>
      if IsDigits(s[q + 1..]) then
        assert s == s[..q] + " " + s[q + 1..];
        Some((s[..q], s[q + 1..]))
      else None
  }

  /** `(?P<name>.*) (?P<relic_id>\d+) (?P<team>\d)` anchored at both ends of
      `front`: the team digit is fixed by the end, the name and the relic id
      then by `SplitNameRelic`. */
  function MatchFront(front: string): (r: Option<(string, string, char)>)
    ensures r.Some? ==> IsDigits(r.value.1) && IsDigit(r.value.2)
    ensures r.Some? && NoNewline(front) ==> NoNewline(r.value.0)
  {
    if |front| < 2 || !IsDigit(front[|front| - 1]) || front[|front| - 2] != ' ' then None
    else match SplitNameRelic(front[..|front| - 2])
      case None => None
      case Some(nr) =>
        assert forall i :: 0 <= i < |nr.0| ==> nr.0[i] == front[i];
        Some((nr.0, nr.1, front[|front| - 1]))
  }

  /** A front is the text of its groups. */
  lemma MatchFrontSound(front: string)
    requires MatchFront(front).Some?
    ensures var t := MatchFront(front).value; front == t.0 + " " + t.1 + " " + [t.2]
  {
    SplitLastTwo(front);
  }

  /** `(?P<name>.*) (?P<relic_id>\d+) (?P<team>\d) (?P<faction>…)` anchored at
      both ends of `body`, which `.` keeps free of line breaks.  The faction
      key is fixed by the end of the body, the rest by `MatchFront`. */
  function MatchBody(body: string): (r: Option<(string, string, char, Faction)>)
    ensures r.Some? ==> NoNewline(r.value.0) && IsDigits(r.value.1) && IsDigit(r.value.2)
  {
    if !NoNewline(body) then None
    else match KeySuffix(body, AllFactions)
      case None => None
      case Some(f) =>
        var front := body[..|body| - |f.KeyLog()| - 1];
        assert forall i :: 0 <= i < |front| ==> front[i] == body[i];
        match MatchFront(front)
        case None => None
        case Some(t) => Some((t.0, t.1, t.2, f))
  }

  /** `(?P<id>\d) (?P<name>.*) (?P<relic_id>\d+) (?P<team>\d) (?P<faction>…)$`
      anchored at the start of `r`; `$` lets one final line break follow. */
  function MatchFields(r: string): (res: Option<PlayerMatch>)
    ensures res.Some? ==> WellFormed(res.value)
  {
    if |r| < 2 || !IsDigit(r[0]) || r[1] != ' ' then None
    else match MatchBody(StripFinalNewline(r[2..]))
      case None => None
      case Some(b) =>
        FromLogKeyLog(b.3);
        Some(PlayerMatch(r[0], b.0, b.1, b.2, b.3.KeyLog()))
  }

  /** The pattern tried at position `start` of `line`. */
  function MatchAt(line: string, start: nat): (res: Option<PlayerMatch>)
    requires start <= |line|
    ensures res.Some? ==> WellFormed(res.value)
  {
    var s := line[start..];
    if StartsWith(s, HumanPrefix) then MatchFields(s[|HumanPrefix|..])
    else if StartsWith(s, AiPrefix) then MatchFields(s[|AiPrefix|..])
    else None
  }

  /** `re.search` from position `start`: the first position where the pattern matches. */
  function SearchFrom(line: string, start: nat): (res: Option<PlayerMatch>)
    requires start <= |line|
    ensures res.Some? ==> WellFormed(res.value)
    decreases |line| - start
  {
    var m := MatchAt(line, start);
    if m.Some? || start == |line| then m else SearchFrom(line, start + 1)
  }

  /** `PLAYER_PATTERN.search(line)` */
  function ParseLine(line: string): (res: Option<PlayerMatch>)
    ensures res.Some? ==> WellFormed(res.value)
  {
    SearchFrom(line, 0)
  }

  /** `Player(int(id), name, int(relic_id), int(team), Faction.from_log(faction))` */
  function PlayerOf(m: PlayerMatch): (p: Player)
    requires WellFormed(m)
    ensures p.name == m.name && p.id == DigitValue(m.slot) && p.teamId == DigitValue(m.team)
    ensures p.relicId == ParseNat(m.relicId) && p.faction.KeyLog() == m.faction
  {
    NewPlayer(DigitValue(m.slot), m.name, ParseNat(m.relicId), DigitValue(m.team), FromLog(m.faction).value)
  }

  // ---------------------------------------------------------------------
  // Properties of the pattern

  lemma KeyLogShape(f: Faction)
    ensures |f.KeyLog()| > 0 && NoNewline(f.KeyLog())
    ensures forall i :: 0 <= i < |f.KeyLog()| ==> f.KeyLog()[i] != ' '
  {
  }

  /** No faction key preceded by a space ends another one preceded by a space. */
  lemma KeySuffixesDistinct(f: Faction, g: Faction)
    requires |" " + f.KeyLog()| <= |" " + g.KeyLog()|
    requires EndsWith(" " + g.KeyLog(), " " + f.KeyLog())
    ensures f == g
  {
    KeyLogShape(g);
    SpacedSuffix(f.KeyLog(), g.KeyLog());
    FactionKeysDistinct(f, g);
  }

  /** A word without spaces ends, after a space, only with itself. */
  lemma SpacedSuffix(x: string, y: string)
    requires forall i :: 0 <= i < |y| ==> y[i] != ' '
    requires EndsWith(" " + y, " " + x)
    ensures x == y
  {
    var a, b := " " + x, " " + y;
    var k := |b| - |a|;
    assert b[k] == a[0];
    if k > 0 {
      assert false;
    }
    assert x == a[1..] == b[1..] == y;
  }

  /** A line ends with at most one faction key. */
  lemma KeySuffixUnique(body: string, f: Faction, g: Faction)
    requires EndsWith(body, " " + f.KeyLog()) && EndsWith(body, " " + g.KeyLog())
    ensures f == g
  {
    var a, b := " " + f.KeyLog(), " " + g.KeyLog();
    if |a| <= |b| {
      assert b[|b| - |a|..] == body[|body| - |a|..];
      KeySuffixesDistinct(f, g);
    } else {
      assert a[|a| - |b|..] == body[|body| - |b|..];
      KeySuffixesDistinct(g, f);
    }
  }

  lemma NoNewlineConcat(a: string, b: string)
    ensures NoNewline(a + b) <==> NoNewline(a) && NoNewline(b)
  {
    if NoNewline(a) && NoNewline(b) {
      assert forall i :: 0 <= i < |a + b| ==> (a + b)[i] == if i < |a| then a[i] else b[i - |a|];
    }
    if NoNewline(a + b) {
      assert forall i :: 0 <= i < |a| ==> a[i] == (a + b)[i];
      assert forall i :: 0 <= i < |b| ==> b[i] == (a + b)[|a| + i];
    }
  }

  /** The greedy name: when the relic id has no space, the split is after the name. */
  lemma SplitNameRelicOf(name: string, relicId: string)
    requires IsDigits(relicId)
    ensures SplitNameRelic(name + " " + relicId) == Some((name, relicId))
  {
    var s := name + " " + relicId;
    assert s[|name|] == ' ';
    assert forall i :: |name| < i < |s| ==> s[i] == relicId[i - |name| - 1];
    assert s[|name| + 1..] == relicId;
    assert s[..|name|] == name;
  }

  lemma BodyNoNewline(name: string, relicId: string, team: char, f: Faction)
    requires NoNewline(name) && IsDigits(relicId) && IsDigit(team)
    ensures NoNewline(name + " " + relicId + " " + [team] + " " + f.KeyLog())
  {
    KeyLogShape(f);
    assert NoNewline(relicId) && NoNewline([team]);
    NoNewlineConcat(name, " ");
    NoNewlineConcat(name + " ", relicId);
    NoNewlineConcat(name + " " + relicId, " ");
    NoNewlineConcat(name + " " + relicId + " ", [team]);
    NoNewlineConcat(name + " " + relicId + " " + [team], " ");
    NoNewlineConcat(name + " " + relicId + " " + [team] + " ", f.KeyLog());
  }

  /** The faction key that ends a body is the one `KeySuffix` finds. */
  lemma KeySuffixOf(body: string, f: Faction)
    requires EndsWith(body, " " + f.KeyLog())
    ensures KeySuffix(body, AllFactions) == Some(f)
  {
    var g := KeySuffix(body, AllFactions);
    assert g.Some? by {
      AllFactionsComplete(f);
      var i :| 0 <= i < |AllFactions| && AllFactions[i] == f;
    }
    KeySuffixUnique(body, f, g.value);
  }

  lemma MatchBodyOf(name: string, relicId: string, team: char, f: Faction)
    requires NoNewline(name) && IsDigits(relicId) && IsDigit(team)
    ensures MatchBody(name + " " + relicId + " " + [team] + " " + f.KeyLog()) == Some((name, relicId, team, f))
  {
    var front := name + " " + relicId + " " + [team];
    var body := front + " " + f.KeyLog();
    assert NoNewline(body) by {
      BodyNoNewline(name, relicId, team, f);
    }
    assert KeySuffix(body, AllFactions) == Some(f) by {
      KeySuffixOf(body, f);
    }
    assert body[..|body| - |f.KeyLog()| - 1] == front;
    assert MatchFront(front) == Some((name, relicId, team)) by {
      MatchFrontOf(name, relicId, team);
    }
    MatchBodyFromParts(body, f, front, (name, relicId, team));
  }

  /** `MatchBody` once the faction key and the front's groups are known. */
  lemma MatchBodyFromParts(body: string, f: Faction, front: string, t: (string, string, char))
    requires NoNewline(body) && KeySuffix(body, AllFactions) == Some(f)
    requires |f.KeyLog()| + 1 <= |body| && front == body[..|body| - |f.KeyLog()| - 1]
    requires MatchFront(front) == Some(t)
    ensures MatchBody(body) == Some((t.0, t.1, t.2, f))
  {
  }

  /** The greedy name again: a front built from its groups is split back into them. */
  lemma MatchFrontOf(name: string, relicId: string, team: char)
    requires IsDigits(relicId) && IsDigit(team)
    ensures MatchFront(name + " " + relicId + " " + [team]) == Some((name, relicId, team))
  {
    var front := name + " " + relicId + " " + [team];
    assert |front| >= 2 && front[|front| - 1] == team && front[|front| - 2] == ' ';
    assert SplitNameRelic(front[..|front| - 2]) == Some((name, relicId)) by {
      assert front[..|front| - 2] == name + " " + relicId;
      SplitNameRelicOf(name, relicId);
    }
  }

  /** The fields after the slot digit and its space, without the final line break. */
  lemma MatchBodyTrailer(m: PlayerMatch, end: string)
    requires WellFormed(m)
    requires end == "" || end == "\n"
    ensures var r := Fields(m) + end; |r| >= 2 && r[0] == m.slot && r[1] == ' '
    ensures StripFinalNewline((Fields(m) + end)[2..]) == Body(m)
  {
    var body := Body(m);
    assert (Fields(m) + end)[2..] == body + end;
    var f := FromLog(m.faction).value;
    KeyLogShape(f);
    assert body[|body| - 1] == m.faction[|m.faction| - 1];
    if end == "\n" {
      assert (body + end)[..|body + end| - 1] == body;
    }
  }

  /** Every well-formed match, followed by nothing or a line break, is
      matched back to itself. */
  lemma MatchFieldsOf(m: PlayerMatch, end: string)
    requires WellFormed(m)
    requires end == "" || end == "\n"
    ensures MatchFields(Fields(m) + end) == Some(m)
  {
    MatchBodyTrailer(m, end);
    var f := FromLog(m.faction).value;
    MatchBodyOf(m.name, m.relicId, m.team, f);
  }

  /** Every match is the text it was matched in. */
  lemma MatchBodySound(body: string)
    requires MatchBody(body).Some?
    ensures var b := MatchBody(body).value;
            body == b.0 + " " + b.1 + " " + [b.2] + " " + b.3.KeyLog()
  {
    var f, t := MatchBodyParts(body);
    var key := " " + f.KeyLog();
    var front := body[..|body| - |f.KeyLog()| - 1];
    assert body == front + key by {
      assert |key| == |f.KeyLog()| + 1;
      SplitSuffix(body, key);
    }
    assert front == t.0 + " " + t.1 + " " + [t.2] by {
      MatchFrontSound(front);
    }
    Regroup(body, front, t.0, t.1, [t.2], f.KeyLog());
  }

  /** What a match of a body is made of. */
  lemma MatchBodyParts(body: string) returns (f: Faction, t: (string, string, char))
    requires MatchBody(body).Some?
    ensures KeySuffix(body, AllFactions) == Some(f) && |f.KeyLog()| + 1 <= |body|
    ensures MatchFront(body[..|body| - |f.KeyLog()| - 1]) == Some(t)
    ensures MatchBody(body) == Some((t.0, t.1, t.2, f))
  {
    f := KeySuffix(body, AllFactions).value;
    t := MatchFront(body[..|body| - |f.KeyLog()| - 1]).value;
  }

  /** Regrouping the concatenations of a body. */
  lemma Regroup(body: string, front: string, name: string, relicId: string, team: string, key: string)
    requires body == front + (" " + key) && front == name + " " + relicId + " " + team
    ensures body == name + " " + relicId + " " + team + " " + key
  {
  }

  lemma SplitSuffix(s: string, suffix: string)
    requires EndsWith(s, suffix)
    ensures s == s[..|s| - |suffix|] + suffix
  {
  }

  lemma SplitLastTwo(s: string)
    requires |s| >= 2 && s[|s| - 2] == ' '
    ensures s == s[..|s| - 2] + " " + [s[|s| - 1]]
  {
  }

  /** The pattern matches exactly the lines made of a well-formed match's
      fields and at most one final line break. */
  lemma MatchFieldsSound(r: string)
    requires MatchFields(r).Some?
    ensures var m := MatchFields(r).value; r == Fields(m) || r == Fields(m) + "\n"
  {
    var m := MatchFields(r).value;
    var body := StripFinalNewline(r[2..]);
    assert |r| >= 2 && r[0] == m.slot && r[1] == ' ' && MatchBody(body).Some? by {
      MatchFieldsParts(r);
    }
    assert body == Body(m) by {
      MatchFieldsParts(r);
      MatchBodySound(body);
    }
    assert r == [m.slot, ' '] + body || r == [m.slot, ' '] + body + "\n" by {
      SplitSlot(r, body);
    }
  }

  lemma SplitSlot(r: string, body: string)
    requires |r| >= 2 && r[1] == ' '
    requires r[2..] == body || r[2..] == body + "\n"
    ensures r == [r[0], ' '] + body || r == [r[0], ' '] + body + "\n"
  {
    assert r == [r[0], r[1]] + r[2..];
  }

  /** What a match of the fields is made of. */
  lemma MatchFieldsParts(r: string)
    requires MatchFields(r).Some?
    ensures |r| >= 2 && r[1] == ' ' && MatchBody(StripFinalNewline(r[2..])).Some?
    ensures var b := MatchBody(StripFinalNewline(r[2..])).value;
            MatchFields(r).value == PlayerMatch(r[0], b.0, b.1, b.2, b.3.KeyLog())
  {
  }

  /** Positions where the pattern cannot start are skipped. */
  lemma {:induction false} SearchSkip(line: string, start: nat, k: nat)
    requires start <= k <= |line|
    requires forall j :: start <= j < k ==> MatchAt(line, j).None?
    ensures SearchFrom(line, start) == SearchFrom(line, k)
    decreases k - start
  {
    if start < k {
      SearchSkip(line, start + 1, k);
    }
  }

  /** The pattern tried at each position of `line`; nothing past its end. */
  function Attempts(line: string): nat -> Option<PlayerMatch> {
    (k: nat) => if k <= |line| then MatchAt(line, k) else None
  }

  /** The first of `attempt(start)`, …, `attempt(end)` that finds a match;
      `attempt(end)` is reported whatever it finds. */
  function FirstMatch(attempt: nat -> Option<PlayerMatch>, start: nat, end: nat): Option<PlayerMatch>
    requires start <= end
    decreases end - start
  {
    if attempt(start).Some? || start == end then attempt(start)
    else FirstMatch(attempt, start + 1, end)
  }

  lemma {:induction false} FirstMatchNone(attempt: nat -> Option<PlayerMatch>, start: nat, end: nat)
    requires start <= end
    ensures FirstMatch(attempt, start, end).None? <==> forall k :: start <= k <= end ==> attempt(k).None?
    decreases end - start
  {
    if start < end && attempt(start).None? {
      FirstMatchNone(attempt, start + 1, end);
    }
  }

  lemma {:induction false} FirstMatchFirst(attempt: nat -> Option<PlayerMatch>, start: nat, end: nat) returns (k: nat)
    requires start <= end && FirstMatch(attempt, start, end).Some?
    ensures start <= k <= end && attempt(k) == FirstMatch(attempt, start, end)
    ensures forall j :: start <= j < k ==> attempt(j).None?
    decreases end - start
  {
    if attempt(start).Some? || start == end {
      k := start;
    } else {
      k := FirstMatchFirst(attempt, start + 1, end);
    }
  }

  /** `SearchFrom` tries the positions in order. */
  lemma {:induction false} SearchIsFirstMatch(line: string, start: nat)
    requires start <= |line|
    ensures SearchFrom(line, start) == FirstMatch(Attempts(line), start, |line|)
    decreases |line| - start
  {
    assert Attempts(line)(start) == MatchAt(line, start);
    if MatchAt(line, start).None? && start < |line| {
      SearchIsFirstMatch(line, start + 1);
    }
  }

  /** `re.search` finds nothing exactly when the pattern matches at no
      position. */
  lemma SearchFromNone(line: string, start: nat)
    requires start <= |line|
    ensures SearchFrom(line, start).None? <==> forall k :: start <= k <= |line| ==> MatchAt(line, k).None?
  {
    SearchIsFirstMatch(line, start);
    FirstMatchNone(Attempts(line), start, |line|);
    assert forall k :: start <= k <= |line| ==> Attempts(line)(k) == MatchAt(line, k);
  }

  /** What `re.search` finds is the match at the leftmost position where
      the pattern matches. */
  lemma SearchFromFirst(line: string, start: nat) returns (k: nat)
    requires start <= |line| && SearchFrom(line, start).Some?
    ensures start <= k <= |line| && MatchAt(line, k) == SearchFrom(line, start)
    ensures forall j :: start <= j < k ==> MatchAt(line, j).None?
  {
    SearchIsFirstMatch(line, start);
    k := FirstMatchFirst(Attempts(line), start, |line|);
    assert forall j :: start <= j <= k ==> Attempts(line)(j) == MatchAt(line, j);
  }

  lemma PrefixChars()
    ensures |HumanPrefix| == 22 && |AiPrefix| == 19
    ensures HumanPrefix[0] == 'G' && AiPrefix[0] == 'G'
    ensures HumanPrefix[8] == 'H' && AiPrefix[8] == 'A'
  {
  }

  /** The pattern cannot start at a character other than `G`. */
  lemma NoMatchWithoutG(line: string, j: nat)
    requires j < |line| && line[j] != 'G'
    ensures MatchAt(line, j).None?
  {
    PrefixChars();
    assert !StartsWith(line[j..], HumanPrefix) by {
      if StartsWith(line[j..], HumanPrefix) {
        assert false;
      }
    }
    assert !StartsWith(line[j..], AiPrefix) by {
      if StartsWith(line[j..], AiPrefix) {
        assert false;
      }
    }
  }

  /** The pattern matches where a player-line prefix is followed by the fields. */
  lemma MatchAtPrefix(s: string, prefix: string, m: PlayerMatch, end: string)
    requires prefix == HumanPrefix || prefix == AiPrefix
    requires WellFormed(m)
    requires end == "" || end == "\n"
    requires s == prefix + (Fields(m) + end)
    ensures MatchAt(s, 0) == Some(m)
  {
    assert s[0..] == s;
    assert s[|prefix|..] == Fields(m) + end;
    MatchFieldsOf(m, end);
    if prefix == AiPrefix {
      assert !StartsWith(s, HumanPrefix) by {
        PrefixChars();
        if StartsWith(s, HumanPrefix) {
          assert false;
        }
      }
    }
  }

  /** A match at position `k` of a line is a match at 0 of its suffix. */
  lemma MatchAtSuffix(line: string, k: nat)
    requires k <= |line|
    ensures MatchAt(line, k) == MatchAt(line[k..], 0)
  {
    assert line[k..][0..] == line[k..];
  }

  /** A search skips a prefix without `G`. */
  lemma SkipTimestamp(pre: string, rest: string)
    requires forall i :: 0 <= i < |pre| ==> pre[i] != 'G'
    ensures SearchFrom(pre + rest, 0) == SearchFrom(pre + rest, |pre|)
  {
    var line := pre + rest;
    forall j | 0 <= j < |pre|
      ensures MatchAt(line, j).None?
    {
      assert line[j] == pre[j];
      NoMatchWithoutG(line, j);
    }
    SearchSkip(line, 0, |pre|);
  }

  /** A player line as the game writes it: a prefix without `G` (the
      timestamp), `GAME -- Human Player: ` or `GAME -- AI Player: `, the
      fields and at most one line break, parses to its fields. */
  lemma ParseLineOf(pre: string, prefix: string, m: PlayerMatch, end: string)
    requires prefix == HumanPrefix || prefix == AiPrefix
    requires forall i :: 0 <= i < |pre| ==> pre[i] != 'G'
    requires WellFormed(m)
    requires end == "" || end == "\n"
    ensures ParseLine(pre + prefix + Fields(m) + end) == Some(m)
  {
    var rest := prefix + (Fields(m) + end);
    var line := pre + rest;
    assert line == pre + prefix + Fields(m) + end;
    SkipTimestamp(pre, rest);
    assert line[|pre|..] == rest;
    MatchAtPrefix(rest, prefix, m, end);
    MatchAtSuffix(line, |pre|);
  }

  // ---------------------------------------------------------------------
  // Parsing a snapshot of the log

  /** The state of the scan loop in `_parse_log`: `player_matches` and `pl`. */
  datatype ScanState = ScanState(matches: seq<PlayerMatch>, lastLine: nat)

  /** Every match found is well formed. */
  predicate AllWellFormed(ms: seq<Option<PlayerMatch>>) {
    forall i :: 0 <= i < |ms| && ms[i].Some? ==> WellFormed(ms[i].value)
  }

  /** What the pattern finds on each line of a snapshot. */
  function Parsed(lines: seq<string>): (ms: seq<Option<PlayerMatch>>)
    ensures |ms| == |lines| && AllWellFormed(ms)
  {
    seq(|lines|, i requires 0 <= i < |lines| => ParseLine(lines[i]))
  }

  /** Parsing is line by line. */
  lemma ParsedAppend(a: seq<string>, b: seq<string>)
    ensures Parsed(a + b) == Parsed(a) + Parsed(b)
  {
    var ab, pa, pb := a + b, Parsed(a), Parsed(b);
    forall i | 0 <= i < |ab| ensures Parsed(ab)[i] == (pa + pb)[i] {
      if i < |a| {
        assert ab[i] == a[i];
      } else {
        assert ab[i] == b[i - |a|];
      }
    }
  }

  /** One iteration of the scan loop, on line `i` and its match `m`. */
  function ScanStep(prev: ScanState, m: Option<PlayerMatch>, i: nat): ScanState {
    match m
    case None => prev
    case Some(pm) => ScanState((if pm.slot == '0' then [] else prev.matches) + [pm], i)
  }

  /** The scan of the lines' matches `ms` in file order: each match is
      appended, a match with slot 0 first clears the matches, and
      `lastLine` is the index of the last player line (0 when there is
      none). */
  function Scan(ms: seq<Option<PlayerMatch>>): (s: ScanState)
    ensures AllWellFormed(ms) ==> forall i :: 0 <= i < |s.matches| ==> WellFormed(s.matches[i])
  {
    if |ms| == 0 then ScanState([], 0)
    else
      assert AllWellFormed(ms) ==> AllWellFormed(ms[..|ms| - 1]);
      ScanStep(Scan(ms[..|ms| - 1]), ms[|ms| - 1], |ms| - 1)
  }

  /** A match whose slot id is 0: the first player of a new roster. */
  predicate IsReset(m: Option<PlayerMatch>) {
    m.Some? && m.value.slot == '0'
  }

  /** A player line whose slot id is 0. */
  predicate IsResetLine(line: string) {
    IsReset(ParseLine(line))
  }

  /** Every match, in file order. */
  function AllMatches(ms: seq<Option<PlayerMatch>>): seq<PlayerMatch> {
    if |ms| == 0 then []
    else AllMatches(ms[..|ms| - 1]) + match ms[|ms| - 1] case None => [] case Some(m) => [m]
  }

  /** The index of the last slot-0 match (0 when there is none). */
  function LastReset(ms: seq<Option<PlayerMatch>>): (k: nat)
    ensures k == 0 || (k < |ms| && IsReset(ms[k]))
    ensures forall j :: k < j < |ms| ==> !IsReset(ms[j])
  {
    if |ms| == 0 then 0
    else if IsReset(ms[|ms| - 1]) then |ms| - 1
    else
      var k := LastReset(ms[..|ms| - 1]);
      assert forall j :: k < j < |ms| - 1 ==> ms[j] == ms[..|ms| - 1][j];
      k
  }

  /** The roster is every match from the last slot-0 match onward. */
  lemma {:induction false} RosterFromLastReset(ms: seq<Option<PlayerMatch>>)
    ensures Scan(ms).matches == AllMatches(ms[LastReset(ms)..])
  {
    if |ms| > 0 {
      var n := |ms| - 1;
      var prefix := ms[..n];
      RosterFromLastReset(prefix);
      if IsReset(ms[n]) {
        assert ms[n..] == [ms[n]];
        assert [ms[n]][..0] == [];
      } else {
        var k := LastReset(prefix);
        assert LastReset(ms) == k;
        var suf := ms[k..];
        assert suf[..|suf| - 1] == prefix[k..];
        assert suf[|suf| - 1] == ms[n];
        var tail := match ms[n] case None => [] case Some(m) => [m];
        assert AllMatches(suf) == AllMatches(prefix[k..]) + tail;
        assert Scan(ms).matches == Scan(prefix).matches + tail;
      }
    }
  }

  /** `lastLine` is the index of the last player line, or 0 when there is none. */
  lemma {:induction false} ScanLastLine(ms: seq<Option<PlayerMatch>>)
    ensures var k := Scan(ms).lastLine;
            (k == 0 || (k < |ms| && ms[k].Some?))
            && forall j :: k < j < |ms| ==> ms[j].None?
  {
    if |ms| > 0 {
      var prefix := ms[..|ms| - 1];
      ScanLastLine(prefix);
      assert forall j :: 0 <= j < |prefix| ==> prefix[j] == ms[j];
    }
  }

  /** Matches appended after a slot-0 match replace the roster. */
  lemma {:induction false} ScanAppendReset(a: seq<Option<PlayerMatch>>, b: seq<Option<PlayerMatch>>, j: nat)
    requires j < |b| && IsReset(b[j])
    ensures Scan(a + b).matches == Scan(b).matches
    ensures Scan(a + b).lastLine == |a| + Scan(b).lastLine
  {
    var last := |b| - 1;
    var prefix := b[..last];
    assert (a + b)[..|a + b| - 1] == a + prefix;
    if j < last {
      assert prefix[j] == b[j];
      ScanAppendReset(a, prefix, j);
    }
  }

  /** Lines without a player line change nothing in the scan. */
  lemma {:induction false} ScanNonPlayerSuffix(a: seq<Option<PlayerMatch>>, b: seq<Option<PlayerMatch>>)
    requires forall i :: 0 <= i < |b| ==> b[i].None?
    ensures Scan(a + b) == Scan(a)
  {
    if |b| > 0 {
      assert (a + b)[..|a + b| - 1] == a + b[..|b| - 1];
      ScanNonPlayerSuffix(a, b[..|b| - 1]);
    } else {
      assert a + b == a;
    }
  }

  /** `Player(...)` for each match, in order. */
  function PlayersOf(ms: seq<PlayerMatch>): (ps: seq<Player>)
    requires forall i :: 0 <= i < |ms| ==> WellFormed(ms[i])
    ensures |ps| == |ms|
  {
    if |ms| == 0 then []
    else PlayersOf(ms[..|ms| - 1]) + [PlayerOf(ms[|ms| - 1])]
  }

  /** The player at each position is the one built from the match there. */
  lemma {:induction false} PlayersOfAt(ms: seq<PlayerMatch>, i: nat)
    requires forall k :: 0 <= k < |ms| ==> WellFormed(ms[k])
    requires i < |ms|
    ensures PlayersOf(ms)[i] == PlayerOf(ms[i])
  {
    var prefix := ms[..|ms| - 1];
    var prev := PlayersOf(prefix);
    var last := PlayerOf(ms[|ms| - 1]);
    assert PlayersOf(ms) == prev + [last];
    if i < |prefix| {
      PlayersOfAt(prefix, i);
      assert prefix[i] == ms[i];
      assert (prev + [last])[i] == prev[i];
      assert PlayersOf(ms)[i] == prev[i];
    } else {
      assert i == |ms| - 1;
      assert PlayersOf(ms)[i] == last;
    }
  }

  /** Whether a line follows line `pl` and holds the playing marker. */
  function IsMultiplayer(lines: seq<string>, pl: nat): bool {
    if pl < |lines| - 1 then Contains(lines[pl + 1], PlayingMarker) else false
  }

  /** `_parse_log` on a snapshot `lines`, given the stored `_last_player_line`. */
  function ParseLogOf(lines: seq<string>, lastPlayerLine: int): LogInfo {
    var s := Scan(Parsed(lines));
    LogInfo(PlayersOf(s.matches), s.lastLine != lastPlayerLine, IsMultiplayer(lines, s.lastLine))
  }

  lemma ParseLogOfScan(lines: seq<string>, lastPlayerLine: int, matches: seq<PlayerMatch>, pl: nat)
    requires ScanState(matches, pl) == Scan(Parsed(lines))
    ensures forall i :: 0 <= i < |matches| ==> WellFormed(matches[i])
    ensures ParseLogOf(lines, lastPlayerLine)
              == LogInfo(PlayersOf(matches), pl != lastPlayerLine, IsMultiplayer(lines, pl))
  {
  }

  /** The first parse of an empty log reports a new, empty, non-multiplayer match. */
  lemma EmptyLogParse()
    ensures ParseLogOf([], -1) == LogInfo([], true, false)
  {
  }

  /** Parsing the same lines again is not a new match. */
  lemma ReparseNotNew(lines: seq<string>)
    ensures !ParseLogOf(lines, Scan(Parsed(lines)).lastLine).isNewMatch
  {
  }

  /** A new roster written after a parsed log is reported as a new match
      with exactly the new players. */
  lemma NewMatchAppended(lines: seq<string>, more: seq<string>, j: nat)
    requires |lines| > 0
    requires j < |more| && IsResetLine(more[j])
    ensures var info := ParseLogOf(lines + more, Scan(Parsed(lines)).lastLine);
            info.players == PlayersOf(Scan(Parsed(more)).matches) && info.isNewMatch
  {
    ParsedAppend(lines, more);
    ScanAppendReset(Parsed(lines), Parsed(more), j);
    ScanLastLine(Parsed(lines));
  }

  /** The playing status written right after the last player line turns the
      same match into a multiplayer match that is not new. */
  lemma PlayingStatusAppended(lines: seq<string>, status: string)
    requires |lines| > 0 && ParseLine(lines[|lines| - 1]).Some?
    requires ParseLine(status).None? && Contains(status, PlayingMarker)
    ensures var before := Scan(Parsed(lines)).lastLine;
            var info := ParseLogOf(lines + [status], before);
            info == LogInfo(PlayersOf(Scan(Parsed(lines)).matches), false, true)
  {
    ParsedAppend(lines, [status]);
    ScanNonPlayerSuffix(Parsed(lines), Parsed([status]));
    var all := lines + [status];
    assert all[|lines|] == status;
  }

  /** A log whose only player line is its first line, parsed after a log
      without player lines, is not reported as a new match: both parses
      leave `pl` at 0. */
  lemma FirstLinePlayerNotNew(first: string, rest: seq<string>)
    requires ParseLine(first).Some?
    requires forall i :: 0 <= i < |rest| ==> ParseLine(rest[i]).None?
    ensures Scan(Parsed([first] + rest)).matches == [ParseLine(first).value]
    ensures !ParseLogOf([first] + rest, Scan(Parsed([])).lastLine).isNewMatch
  {
    ParsedAppend([first], rest);
    ScanNonPlayerSuffix(Parsed([first]), Parsed(rest));
    assert Parsed([first])[..0] == [];
  }

  // ---------------------------------------------------------------------
  // The parse loops

  /** The first loop of `_parse_log`: matches each line, clearing the
      matches at a slot-0 line, and remembers the last player line. */
  method ScanLines(lines: seq<string>) returns (matches: seq<PlayerMatch>, pl: nat)
    ensures ScanState(matches, pl) == Scan(Parsed(lines))
  {
    pl := 0;
    matches := [];
    ghost var ms := Parsed(lines);
    for i := 0 to |lines|
      invariant ScanState(matches, pl) == Scan(ms[..i])
    {
      assert ms[..i + 1][..i] == ms[..i];
      var m := ParseLine(lines[i]);
      assert ms[i] == m;
      if m.Some? {
        if m.value.slot == '0' {
          matches := [];
        }
        matches := matches + [m.value];
        pl := i;
      }
    }
    assert ms[..|lines|] == ms;
  }

  /** The second loop of `_parse_log`: a player per match, in order. */
  method BuildPlayers(matches: seq<PlayerMatch>) returns (players: seq<Player>)
    requires forall i :: 0 <= i < |matches| ==> WellFormed(matches[i])
    ensures players == PlayersOf(matches)
  {
    players := [];
    for i := 0 to |matches|
      invariant players == PlayersOf(matches[..i])
    {
      PlayersOfStep(matches, i);
      players := players + [PlayerOf(matches[i])];
    }
    assert matches[..|matches|] == matches;
  }

  /** The body of `_parse_log` apart from storing `_last_player_line`:
      the parse of `lines` and the new last player line. */
  method ParseLines(lines: seq<string>, lastPlayerLine: int) returns (info: LogInfo, pl: nat)
    ensures info == ParseLogOf(lines, lastPlayerLine)
    ensures pl == Scan(Parsed(lines)).lastLine
  {
    var matches;
    matches, pl := ScanLines(lines);
    ParseLogOfScan(lines, lastPlayerLine, matches, pl);
    var isNewMatch := pl != lastPlayerLine;
    var players := BuildPlayers(matches);
    var isMultiplayerMatch := if pl < |lines| - 1 then Contains(lines[pl + 1], PlayingMarker) else false;
    info := LogInfo(players, isNewMatch, isMultiplayerMatch);
  }

  lemma PlayersOfStep(ms: seq<PlayerMatch>, i: nat)
    requires i < |ms| && forall k :: 0 <= k < |ms| ==> WellFormed(ms[k])
    ensures PlayersOf(ms[..i + 1]) == PlayersOf(ms[..i]) + [PlayerOf(ms[i])]
  {
    assert ms[..i + 1][..i] == ms[..i];
  }

  // ---------------------------------------------------------------------
  // The event handler

  /** A file-system event: whether it is about a directory, and its path. */
  datatype FileEvent = FileEvent(isDirectory: bool, srcPath: string)

  /** `LogFileEventHandler`.  `queue` is the sequence of everything put on
      the queue; the file's contents and their hash are passed in. */
  class LogFileEventHandler {
    const logfile: string
    var lastHash: string
    var lastPlayerLine: int
    var queue: seq<LogInfo>

    /** The constructor: no hash yet, no player line yet, and a kickstart
        parse of the log as it is. */
    constructor(logfile: string, lines: seq<string>)
      ensures this.logfile == logfile && lastHash == ""
      ensures queue == [ParseLogOf(lines, -1)]
      ensures lastPlayerLine == Scan(Parsed(lines)).lastLine
    {
      this.logfile := logfile;
      lastHash := "";
      lastPlayerLine := -1;
      queue := [];
      new;
      Produce(lines);
    }

    /** `_parse_log` on the log's current `lines`. */
    method ParseLog(lines: seq<string>) returns (info: LogInfo)
      modifies this
      ensures info == ParseLogOf(lines, old(lastPlayerLine))
      ensures lastPlayerLine == Scan(Parsed(lines)).lastLine
      ensures lastHash == old(lastHash) && queue == old(queue)
    {
      var pl;
      info, pl := ParseLines(lines, lastPlayerLine);
      lastPlayerLine := pl;
    }

    /** `_produce`: puts a parse of the log on the queue. */
    method Produce(lines: seq<string>)
      modifies this
      ensures queue == old(queue) + [ParseLogOf(lines, old(lastPlayerLine))]
      ensures lastPlayerLine == Scan(Parsed(lines)).lastLine
      ensures lastHash == old(lastHash)
    {
      var info := ParseLog(lines);
      queue := queue + [info];
    }

    /** `on_modified`: a modification of the log whose content hash differs
        from the stored one is parsed and its hash stored; anything else is
        ignored. */
    method OnModified(event: FileEvent, hash: string, lines: seq<string>)
      modifies this
      ensures event.isDirectory || event.srcPath != logfile || hash == old(lastHash) ==>
                lastHash == old(lastHash) && lastPlayerLine == old(lastPlayerLine) && queue == old(queue)
      ensures !event.isDirectory && event.srcPath == logfile && hash != old(lastHash) ==>
                lastHash == hash && lastPlayerLine == Scan(Parsed(lines)).lastLine
                && queue == old(queue) + [ParseLogOf(lines, old(lastPlayerLine))]
    {
      if event.isDirectory || event.srcPath != logfile {
        return;
      }
      if lastHash != hash {
        Produce(lines);
        lastHash := hash;
      }
    }
  }

  // ---------------------------------------------------------------------
  // The consumer loop

  /** What the consumer loop does with one queue item: print the match and
      notify. */
  datatype Reaction = Reaction(printed: bool, notified: bool)

  /** The `notified` flag after the first `n` items. */
  function NotifiedAfter(items: seq<LogInfo>, n: nat): bool
    requires n <= |items|
  {
    if n == 0 then false
    else
      var i := n - 1;
      (!items[i].isNewMatch && NotifiedAfter(items, i)) || (items[i].isMultiplayerMatch && i != 0)
  }

  /** Whether item `i` is notified: the flag, reset by a new match, is still
      down, the match is a multiplayer match and the item is not the first. */
  predicate NotifiesAt(items: seq<LogInfo>, i: nat)
    requires i < |items|
  {
    !(!items[i].isNewMatch && NotifiedAfter(items, i)) && items[i].isMultiplayerMatch && i != 0
  }

  /** The `while` loop of `main` over the queue items `items`. */
  method Consume(items: seq<LogInfo>) returns (reactions: seq<Reaction>)
    ensures |reactions| == |items|
    ensures forall i :: 0 <= i < |items| ==>
              reactions[i] == Reaction(items[i].isNewMatch, NotifiesAt(items, i))
  {
    var notified := false;
    var isFirstItem := true;
    reactions := [];
    for i := 0 to |items|
      invariant |reactions| == i
      invariant notified == NotifiedAfter(items, i)
      invariant isFirstItem <==> i == 0
      invariant forall k :: 0 <= k < i ==> reactions[k] == Reaction(items[k].isNewMatch, NotifiesAt(items, k))
    {
      var info := items[i];
      var printed := false;
      if info.isNewMatch {
        notified := false;
        printed := true;
      }
      var notify := false;
      if !notified && info.isMultiplayerMatch && !isFirstItem {
        notify := true;
        notified := true;
      }
      reactions := reactions + [Reaction(printed, notify)];
      isFirstItem := false;
    }
  }

  /** Only a multiplayer item that is not the first is notified. */
  lemma NotifiesOnlyLater(items: seq<LogInfo>, i: nat)
    requires i < |items|
    ensures NotifiesAt(items, i) ==> i > 0 && items[i].isMultiplayerMatch
  {
  }

  /** After a notification the flag stays up until a new match. */
  lemma {:induction false} StaysNotified(items: seq<LogInfo>, i: nat, n: nat)
    requires i < n <= |items| && NotifiesAt(items, i)
    requires forall k :: i < k < n ==> !items[k].isNewMatch
    ensures NotifiedAfter(items, n)
    decreases n
  {
    if n > i + 1 {
      StaysNotified(items, i, n - 1);
    }
  }

  /** Between two notifications there is a new match: each match is
      notified at most once. */
  lemma AtMostOncePerMatch(items: seq<LogInfo>, i: nat, j: nat)
    requires i < j < |items| && NotifiesAt(items, i) && NotifiesAt(items, j)
    ensures exists k :: i < k <= j && items[k].isNewMatch
  {
    if forall k :: i < k <= j ==> !items[k].isNewMatch {
      StaysNotified(items, i, j);
      assert false;
    }
  }

  /** From a new match (or the start) on, as long as no item was eligible,
      the flag is down when tested. */
  lemma {:induction false} DownSince(items: seq<LogInfo>, k: nat, n: nat)
    requires k <= n < |items|
    requires k == 0 || items[k].isNewMatch
    requires forall p :: k < p <= n ==> !items[p].isNewMatch
    requires forall p :: k <= p < n ==> !(items[p].isMultiplayerMatch && p != 0)
    ensures !(!items[n].isNewMatch && NotifiedAfter(items, n))
    decreases n
  {
    if n > k {
      DownSince(items, k, n - 1);
    }
  }

  /** After a new match (or from the start), the first multiplayer item
      that is not the first item is notified. */
  lemma FirstEligibleNotified(items: seq<LogInfo>, k: nat, j: nat)
    requires k <= j < |items|
    requires k == 0 || items[k].isNewMatch
    requires forall p :: k < p <= j ==> !items[p].isNewMatch
    requires forall p :: k <= p < j ==> !(items[p].isMultiplayerMatch && p != 0)
    requires items[j].isMultiplayerMatch && j != 0
    ensures NotifiesAt(items, j)
  {
    DownSince(items, k, j);
  }
}
