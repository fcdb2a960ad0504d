/**
 * The participation extractor of lib/riot/service.ts: the match document's shape
 * (teams, players, characters, stats), the per-match record `TrackedMatch`, the
 * canonical character pair `normalizeDuo`, and `extractTrackedMatch`, which finds the
 * tracked player in a match and reads that player's record.
 */
module MatchExtract {
  import opened Wrappers
  import opened JsValue
  import opened JsText

  /** A character slot: `char_id` and `is_anchor` are read as untyped values. */
  datatype CharacterDto = CharacterDto(charId: Option<Json>, isAnchor: Option<Json>)

  datatype StatsDto = StatsDto(
    roundsPlayed: Option<Json>,
    rounds: Option<Json>,
    firstHits: Option<Json>,
    comboPeak: Option<Json>,
    assistsCalled: Option<Json>,
    damageDealt: Option<Json>,
    tagsPerformed: Option<Json>)

  datatype PlayerDto = PlayerDto(puuid: Option<string>, characters: Option<seq<CharacterDto>>, stats: Option<StatsDto>)

  datatype TeamDto = TeamDto(won: Option<Json>, players: Option<seq<PlayerDto>>)

  datatype MetadataDto = MetadataDto(matchId: Option<string>)

  datatype InfoDto = InfoDto(gameMode: Option<Json>, gameDuration: Option<Json>, teams: Option<seq<TeamDto>>)

  /** A match document as the match detail endpoint returns it; every level may be missing. */
  datatype MatchDto = MatchDto(metadata: Option<MetadataDto>, info: Option<InfoDto>)

  datatype MatchResult = Win | Loss

  /** The two characters of a match, in canonical order. */
  datatype Duo = Duo(first: string, second: string)

  /** The tracked player's record of one match. */
  datatype TrackedMatch = TrackedMatch(
    matchId: string,
    result: MatchResult,
    duo: Duo,
    anchorChar: Option<string>,
    pointChar: Option<string>,
    gameMode: Option<string>,
    durationSeconds: Option<int>,
    firstHits: int,
    comboPeak: int,
    assistsCalled: int,
    damageDealt: int,
    tagsPerformed: int,
    roundsPlayed: Option<int>)

  /** `numberOrZero`: the value when it is a number, else 0. */
  function NumberOrZero(v: Option<Json>): (r: int)
    ensures v.Some? && v.value.JNum? ==> r == v.value.n
    ensures !(v.Some? && v.value.JNum?) ==> r == 0
  {
    if v.Some? && v.value.JNum? then v.value.n else 0
  }

  /** `numberOrNull`: the value when it is a number, else null. */
  function NumberOrNull(v: Option<Json>): (r: Option<int>)
    ensures r.Some? <==> v.Some? && v.value.JNum?
    ensures r.Some? ==> r.value == v.value.n
  {
    if v.Some? && v.value.JNum? then Some(v.value.n) else None
  }

  /** The names `normalizeDuo` keeps: `[first, second].filter(Boolean)`. */
  function KnownNames(first: Option<string>, second: Option<string>): (r: seq<string>)
    ensures |r| <= 2 && forall i :: 0 <= i < |r| ==> r[i] != ""
  {
    (if first.Some? && first.value != "" then [first.value] else [])
    + (if second.Some? && second.value != "" then [second.value] else [])
  }

  /** `[a, b].sort((x, y) => x.localeCompare(y))`, with code-point order for `localeCompare`. */
  function SortPair(a: string, b: string): (d: Duo)
    ensures LexLessEq(d.first, d.second)
    ensures multiset{d.first, d.second} == multiset{a, b}
  {
    LexTotal(a, b);
    if LexLess(b, a) then Duo(b, a) else Duo(a, b)
  }

  /** Sorting two names does not depend on the order they are given in. */
  lemma SortPairSymmetric(a: string, b: string)
    ensures SortPair(a, b) == SortPair(b, a)
  {
    LexTotal(a, b);
    if LexLessEq(a, b) && LexLessEq(b, a) {
      LexAntisymmetric(a, b);
    }
  }

  /** `normalizeDuo`: two known names sorted; one known name paired with the anchor when
      that is another non-empty name, else with itself; none gives the anchor (or
      "Unknown") with "Unknown". Empty names count as unknown. */
  function NormalizeDuo(first: Option<string>, second: Option<string>, anchorFallback: Option<string>): (d: Duo)
    ensures d.second != ""
    ensures d.first == "" ==> KnownNames(first, second) == [] && anchorFallback == Some("")
    ensures KnownNames(first, second) == [] ==>
              d == Duo(if anchorFallback.Some? then anchorFallback.value else "Unknown", "Unknown")
    ensures |KnownNames(first, second)| == 1 ==>
              var n := KnownNames(first, second)[0];
              d.first == n
              && d.second == (if anchorFallback.Some? && anchorFallback.value != "" && anchorFallback.value != n
                              then anchorFallback.value else n)
    ensures |KnownNames(first, second)| == 2 ==>
              LexLessEq(d.first, d.second) && multiset{d.first, d.second} == multiset{first.value, second.value}
  {
    var raw := KnownNames(first, second);
    if |raw| == 0 then Duo(if anchorFallback.Some? then anchorFallback.value else "Unknown", "Unknown")
    else if |raw| == 1 then
      Duo(raw[0], if anchorFallback.Some? && anchorFallback.value != "" && anchorFallback.value != raw[0]
                  then anchorFallback.value else raw[0])
    else SortPair(raw[0], raw[1])
  }

  /** The duo of a match does not depend on the order its two characters are listed in. */
  lemma NormalizeDuoSymmetric(first: Option<string>, second: Option<string>, anchorFallback: Option<string>)
    ensures NormalizeDuo(first, second, anchorFallback) == NormalizeDuo(second, first, anchorFallback)
  {
    var raw := KnownNames(first, second);
    if |raw| == 2 {
      SortPairSymmetric(first.value, second.value);
    }
  }

  predicate HasStringId(c: CharacterDto) {
    c.charId.Some? && c.charId.value.JStr?
  }

  /** The `char_id` of a character whose id is a string. */
  function IdOf(c: CharacterDto): string
    requires HasStringId(c)
  {
    c.charId.value.s
  }

  /** `characters.filter((c) => typeof c.char_id === "string")`. */
  function WithStringIds(cs: seq<CharacterDto>): (r: seq<CharacterDto>)
    ensures |r| <= |cs|
    ensures forall i :: 0 <= i < |r| ==> HasStringId(r[i])
    ensures forall c :: c in r <==> c in cs && HasStringId(c)
  {
    if cs == [] then []
    else WithStringIds(cs[..|cs| - 1]) + (if HasStringId(cs[|cs| - 1]) then [cs[|cs| - 1]] else [])
  }

  /** `characters.map((c) => c.char_id)` over characters with string ids. */
  function Names(chars: seq<CharacterDto>): (r: seq<string>)
    requires forall i :: 0 <= i < |chars| ==> HasStringId(chars[i])
    ensures |r| == |chars|
    ensures forall i :: 0 <= i < |r| ==> r[i] == IdOf(chars[i])
  {
    seq(|chars|, i requires 0 <= i < |chars| => IdOf(chars[i]))
  }

  /** `characters.find((c) => c.is_anchor)?.char_id`, searching from position `from`. */
  function FlaggedAnchor(chars: seq<CharacterDto>, from: nat): (r: Option<string>)
    requires forall i :: 0 <= i < |chars| ==> HasStringId(chars[i])
    requires from <= |chars|
    ensures r.None? <==> forall i :: from <= i < |chars| ==> !Truthy(chars[i].isAnchor)
    ensures r.Some? ==> exists i :: from <= i < |chars| && Truthy(chars[i].isAnchor)
                                    && r.value == IdOf(chars[i])
                                    && forall j :: from <= j < i ==> !Truthy(chars[j].isAnchor)
    decreases |chars| - from
  {
    if from == |chars| then None
    else if Truthy(chars[from].isAnchor) then Some(IdOf(chars[from]))
    else FlaggedAnchor(chars, from + 1)
  }

  /** `characters.find((c) => c.is_anchor === false)?.char_id`, searching from `from`. */
  function FlaggedPoint(chars: seq<CharacterDto>, from: nat): (r: Option<string>)
    requires forall i :: 0 <= i < |chars| ==> HasStringId(chars[i])
    requires from <= |chars|
    ensures r.None? <==> forall i :: from <= i < |chars| ==> chars[i].isAnchor != Some(JBool(false))
    ensures r.Some? ==> exists i :: from <= i < |chars| && chars[i].isAnchor == Some(JBool(false))
                                    && r.value == IdOf(chars[i])
                                    && forall j :: from <= j < i ==> chars[j].isAnchor != Some(JBool(false))
    decreases |chars| - from
  {
    if from == |chars| then None
    else if chars[from].isAnchor == Some(JBool(false)) then Some(IdOf(chars[from]))
    else FlaggedPoint(chars, from + 1)
  }

  /** `names.find((name) => name !== anchor)`, searching from `from`. */
  function OtherName(names: seq<string>, anchor: Option<string>, from: nat): (r: Option<string>)
    requires from <= |names|
    ensures r.None? <==> forall i :: from <= i < |names| ==> Some(names[i]) == anchor
    ensures r.Some? ==> Some(r.value) != anchor
    ensures r.Some? ==> exists i :: from <= i < |names| && r.value == names[i]
                                    && forall j :: from <= j < i ==> Some(names[j]) == anchor
    decreases |names| - from
  {
    if from == |names| then None
    else if Some(names[from]) != anchor then Some(names[from])
    else OtherName(names, anchor, from + 1)
  }

  /** The anchor: the first character flagged `is_anchor`, else the second name when
      there are two or more, else the first, else none. */
  function ResolveAnchor(chars: seq<CharacterDto>): (r: Option<string>)
    requires forall i :: 0 <= i < |chars| ==> HasStringId(chars[i])
    ensures r.None? <==> chars == []
    ensures r.Some? ==> r.value in Names(chars)
    ensures FlaggedAnchor(chars, 0).Some? ==> r == FlaggedAnchor(chars, 0)
    ensures FlaggedAnchor(chars, 0).None? && |chars| >= 2 ==> r == Some(Names(chars)[1])
    ensures FlaggedAnchor(chars, 0).None? && |chars| == 1 ==> r == Some(Names(chars)[0])
  {
    var names := Names(chars);
    match FlaggedAnchor(chars, 0)
    case Some(id) => Some(id)
    case None => if |names| > 1 then Some(names[1]) else if |names| == 1 then Some(names[0]) else None
  }

  /** The point character: the first flagged `is_anchor === false`, else the first name
      other than the anchor, else the first name, else none. */
  function ResolvePoint(chars: seq<CharacterDto>, anchor: Option<string>): (r: Option<string>)
    requires forall i :: 0 <= i < |chars| ==> HasStringId(chars[i])
    ensures r.None? <==> chars == []
    ensures r.Some? ==> r.value in Names(chars)
    ensures (FlaggedPoint(chars, 0).None? && exists i :: 0 <= i < |chars| && Some(Names(chars)[i]) != anchor) ==> r != anchor
    ensures FlaggedPoint(chars, 0).Some? ==> r == FlaggedPoint(chars, 0)
    ensures FlaggedPoint(chars, 0).None? && OtherName(Names(chars), anchor, 0).Some? ==> r == OtherName(Names(chars), anchor, 0)
    ensures FlaggedPoint(chars, 0).None? && OtherName(Names(chars), anchor, 0).None? && chars != [] ==>
              r == Some(Names(chars)[0])
  {
    var names := Names(chars);
    match FlaggedPoint(chars, 0)
    case Some(id) => Some(id)
    case None =>
      match OtherName(names, anchor, 0)
      case Some(n) => Some(n)
      case None => if |names| > 0 then Some(names[0]) else None
  }

  /** With no `is_anchor` flags and two different names, the anchor is the second
      character and the point character the first. */
  lemma UnflaggedAnchorAndPoint(chars: seq<CharacterDto>)
    requires forall i :: 0 <= i < |chars| ==> HasStringId(chars[i]) && chars[i].isAnchor.None?
    requires |chars| >= 2 && Names(chars)[0] != Names(chars)[1]
    ensures ResolveAnchor(chars) == Some(Names(chars)[1])
    ensures ResolvePoint(chars, ResolveAnchor(chars)) == Some(Names(chars)[0])
  {
    assert FlaggedAnchor(chars, 0).None?;
    assert FlaggedPoint(chars, 0).None?;
    assert OtherName(Names(chars), Some(Names(chars)[1]), 0) == Some(Names(chars)[0]);
  }

  const NoStats := StatsDto(None, None, None, None, None, None, None)

  /** `player.stats ?? {}`. */
  function StatsOf(player: PlayerDto): StatsDto {
    if player.stats.Some? then player.stats.value else NoStats
  }

  /** The characters of a player that have string ids. */
  function CharactersOf(player: PlayerDto): (r: seq<CharacterDto>)
    ensures forall i :: 0 <= i < |r| ==> HasStringId(r[i])
  {
    WithStringIds(if player.characters.Some? then player.characters.value else [])
  }

  /** `numberOrNull(stats.rounds_played ?? stats.rounds)`: `rounds` is read only when
      `rounds_played` is null or undefined; a non-number `rounds_played` gives null. */
  function RoundsPlayedOf(stats: StatsDto): (r: Option<int>)
    ensures !IsNullish(stats.roundsPlayed) ==> r == NumberOrNull(stats.roundsPlayed)
    ensures IsNullish(stats.roundsPlayed) ==> r == NumberOrNull(stats.rounds)
  {
    NumberOrNull(Coalesce(stats.roundsPlayed, stats.rounds))
  }

  /** `dto.metadata?.match_id ?? fallbackMatchId`. */
  function MatchIdOf(dto: MatchDto, fallbackMatchId: string): string {
    if dto.metadata.Some? && dto.metadata.value.matchId.Some? then dto.metadata.value.matchId.value
    else fallbackMatchId
  }

  /** The record `extractTrackedMatch` builds for the tracked player found in `team`. */
  function TrackFrom(dto: MatchDto, team: TeamDto, player: PlayerDto, fallbackMatchId: string): (m: TrackedMatch)
    ensures m.matchId == MatchIdOf(dto, fallbackMatchId)
    ensures m.result == Win <==> Truthy(team.won)
    ensures m.anchorChar.None? <==> CharactersOf(player) == []
    ensures m.anchorChar.Some? ==> m.anchorChar.value in Names(CharactersOf(player))
    ensures m.pointChar.Some? ==> m.pointChar.value in Names(CharactersOf(player))
    ensures m.anchorChar == ResolveAnchor(CharactersOf(player))
    ensures m.pointChar == ResolvePoint(CharactersOf(player), m.anchorChar)
    ensures var names := Names(CharactersOf(player));
            m.duo == NormalizeDuo(if |names| > 0 then Some(names[0]) else None,
                                  if |names| > 1 then Some(names[1]) else None,
                                  m.anchorChar)
    ensures m.durationSeconds == NumberOrNull(if dto.info.Some? then dto.info.value.gameDuration else None)
    ensures m.firstHits == NumberOrZero(StatsOf(player).firstHits)
    ensures m.comboPeak == NumberOrZero(StatsOf(player).comboPeak)
    ensures m.assistsCalled == NumberOrZero(StatsOf(player).assistsCalled)
    ensures m.damageDealt == NumberOrZero(StatsOf(player).damageDealt)
    ensures m.tagsPerformed == NumberOrZero(StatsOf(player).tagsPerformed)
    ensures m.roundsPlayed == RoundsPlayedOf(StatsOf(player))
  {
    var chars := CharactersOf(player);
    var names := Names(chars);
    var anchor := ResolveAnchor(chars);
    var point := ResolvePoint(chars, anchor);
    var stats := StatsOf(player);
    var info := dto.info;
    TrackedMatch(
      MatchIdOf(dto, fallbackMatchId),
      if Truthy(team.won) then Win else Loss,
      NormalizeDuo(if |names| > 0 then Some(names[0]) else None,
                   if |names| > 1 then Some(names[1]) else None,
                   anchor),
      anchor,
      point,
      if info.Some? && info.value.gameMode.Some? && info.value.gameMode.value.JStr?
      then Some(info.value.gameMode.value.s) else None,
      NumberOrNull(if info.Some? then info.value.gameDuration else None),
      NumberOrZero(stats.firstHits),
      NumberOrZero(stats.comboPeak),
      NumberOrZero(stats.assistsCalled),
      NumberOrZero(stats.damageDealt),
      NumberOrZero(stats.tagsPerformed),
      RoundsPlayedOf(stats))
  }

  /** `dto.info?.teams ?? []`. */
  function TeamsOf(dto: MatchDto): seq<TeamDto> {
    if dto.info.Some? && dto.info.value.teams.Some? then dto.info.value.teams.value else []
  }

  /** `team.players ?? []`. */
  function PlayersOf(team: TeamDto): seq<PlayerDto> {
    if team.players.Some? then team.players.value else []
  }

  /** Player `p` of team `t` is the tracked player. */
  predicate IsTarget(teams: seq<TeamDto>, t: int, p: int, puuid: string) {
    0 <= t < |teams| && 0 <= p < |PlayersOf(teams[t])| && PlayersOf(teams[t])[p].puuid == Some(puuid)
  }

  /** (t1, p1) comes before (t2, p2) in team-then-player order. */
  predicate Precedes(t1: int, p1: int, t2: int, p2: int) {
    t1 < t2 || (t1 == t2 && p1 < p2)
  }

  /** The position of the first player with `puuid` among `players[from..]`. */
  function FindPlayer(players: seq<PlayerDto>, puuid: string, from: nat): (r: Option<nat>)
    requires from <= |players|
    ensures r.None? <==> forall p :: from <= p < |players| ==> players[p].puuid != Some(puuid)
    ensures r.Some? ==> from <= r.value < |players| && players[r.value].puuid == Some(puuid)
                        && forall p :: from <= p < r.value ==> players[p].puuid != Some(puuid)
    decreases |players| - from
  {
    if from == |players| then None
    else if players[from].puuid == Some(puuid) then Some(from)
    else FindPlayer(players, puuid, from + 1)
  }

  /** The first (team, player) position of the tracked player among `teams[from..]`. */
  function FindTarget(teams: seq<TeamDto>, puuid: string, from: nat): (r: Option<(nat, nat)>)
    requires from <= |teams|
    ensures r.None? <==> forall t, p :: from <= t ==> !IsTarget(teams, t, p, puuid)
    ensures r.Some? ==> from <= r.value.0 && IsTarget(teams, r.value.0, r.value.1, puuid)
    ensures r.Some? ==> forall t, p :: from <= t && IsTarget(teams, t, p, puuid) ==>
                          !Precedes(t, p, r.value.0, r.value.1)
    decreases |teams| - from
  {
    if from == |teams| then None
    else
      match FindPlayer(PlayersOf(teams[from]), puuid, 0)
      case Some(p) =>
        assert IsTarget(teams, from, p, puuid);
        Some((from, p))
      case None => FindTarget(teams, puuid, from + 1)
  }

  /** What `extractTrackedMatch` returns: the record of the first player with `puuid`
      in team-then-player order, or null when no player has it. */
  function Extracted(dto: MatchDto, puuid: string, fallbackMatchId: string): Option<TrackedMatch> {
    var teams := TeamsOf(dto);
    match FindTarget(teams, puuid, 0)
    case None => None
    case Some((t, p)) => Some(TrackFrom(dto, teams[t], PlayersOf(teams[t])[p], fallbackMatchId))
  }

  /** No record comes out exactly when no player of any team has `puuid`. */
  lemma ExtractedNone(dto: MatchDto, puuid: string, fallbackMatchId: string)
    ensures Extracted(dto, puuid, fallbackMatchId).None? <==> forall t, p :: !IsTarget(TeamsOf(dto), t, p, puuid)
  {
    var r := FindTarget(TeamsOf(dto), puuid, 0);
    assert Extracted(dto, puuid, fallbackMatchId).None? <==> r.None?;
  }

  /** A match in which the player is found yields the record of the player's first slot,
      so its result is WIN exactly when that slot's team won. */
  lemma ExtractedFirstTarget(dto: MatchDto, puuid: string, fallbackMatchId: string, t: nat, p: nat)
    requires IsTarget(TeamsOf(dto), t, p, puuid)
    requires forall t', p' :: IsTarget(TeamsOf(dto), t', p', puuid) ==> !Precedes(t', p', t, p)
    ensures Extracted(dto, puuid, fallbackMatchId)
              == Some(TrackFrom(dto, TeamsOf(dto)[t], PlayersOf(TeamsOf(dto)[t])[p], fallbackMatchId))
    ensures Extracted(dto, puuid, fallbackMatchId).value.result == Win <==> Truthy(TeamsOf(dto)[t].won)
    ensures Extracted(dto, puuid, fallbackMatchId).value.matchId == MatchIdOf(dto, fallbackMatchId)
  {
    var r := FindTarget(TeamsOf(dto), puuid, 0);
    assert r.Some?;
    assert r.value == (t, p);
  }

  /** `extractTrackedMatch`: scan the teams, then each team's players, and build the record
      of the first player whose `puuid` is the tracked one. */
  method ExtractTrackedMatch(dto: MatchDto, puuid: string, fallbackMatchId: string) returns (r: Option<TrackedMatch>)
    ensures r == Extracted(dto, puuid, fallbackMatchId)
    ensures r.None? <==> forall t, p :: !IsTarget(TeamsOf(dto), t, p, puuid)
  {
    var teams := TeamsOf(dto);
    var t := 0;
    while t < |teams|
      invariant 0 <= t <= |teams|
      invariant forall t', p' :: t' < t ==> !IsTarget(teams, t', p', puuid)
    {
      var team := teams[t];
      var players := PlayersOf(team);
      var p := 0;
      while p < |players|
        invariant 0 <= p <= |players|
        invariant forall p' :: 0 <= p' < p ==> players[p'].puuid != Some(puuid)
      {
        var player := players[p];
        if player.puuid == Some(puuid) {
          ExtractedFirstTarget(dto, puuid, fallbackMatchId, t, p);
          return Some(TrackFrom(dto, team, player, fallbackMatchId));
        }
        p := p + 1;
      }
      t := t + 1;
    }
    return None;
  }
}
