/**
 * The part of the match parser (core/data_ingestion.py) that the draft model
 * depends on: draft records and their per-team filters, the extraction of the
 * pick/ban sequence, the winner flag of each team, the "no games" case of
 * parse_match, and the KDA ratio of a player line.
 *
 * JSON objects are modelled as records whose optional keys are `Option`s;
 * `dict.get(key, default)` becomes `GetOr(default)`.
 */
module DataIngestion {
  import opened Common

  /** MatchMetadata; the parse timestamp is not modelled. */
  datatype MatchMetadata = MatchMetadata(
    matchId: string,
    seriesId: Option<string>,
    tournament: string,
    team1Id: string,
    team1Name: string,
    team2Id: string,
    team2Name: string,
    gameNumber: int,
    winnerTeamId: Option<string>,
    durationSeconds: int)

  /** One entry of DraftData's lists: champion, team_id, sequence and type. */
  datatype DraftEntry = DraftEntry(champion: string, teamId: string, sequence: int, kind: string)

  datatype DraftData = DraftData(bans: seq<DraftEntry>, picks: seq<DraftEntry>, sequence: seq<DraftEntry>)

  /**
   * `[e['champion'] for e in entries if e['team_id'] == teamId]`.
   * An order-preserving filter: it distributes over concatenation
   * (ChampionsOfTeamAppend) and keeps exactly the team's champions
   * (ChampionsOfTeamMembers).
   */
  function ChampionsOfTeam(entries: seq<DraftEntry>, teamId: string): seq<string> {
    if entries == [] then []
    else
      var last := entries[|entries| - 1];
      ChampionsOfTeam(entries[..|entries| - 1], teamId) + (if last.teamId == teamId then [last.champion] else [])
  }

  lemma {:induction false} ChampionsOfTeamMembers(entries: seq<DraftEntry>, teamId: string)
    ensures |ChampionsOfTeam(entries, teamId)| <= |entries|
    ensures forall c :: c in ChampionsOfTeam(entries, teamId) <==>
      exists i :: 0 <= i < |entries| && entries[i].teamId == teamId && entries[i].champion == c
  {
    if entries != [] {
      ChampionsOfTeamMembers(entries[..|entries| - 1], teamId);
    }
  }

  lemma {:induction false} ChampionsOfTeamAppend(a: seq<DraftEntry>, b: seq<DraftEntry>, teamId: string)
    ensures ChampionsOfTeam(a + b, teamId) == ChampionsOfTeam(a, teamId) + ChampionsOfTeam(b, teamId)
  {
    if b == [] {
      assert a + b == a;
    } else {
      var init := b[..|b| - 1];
      assert (a + b)[..|a + b| - 1] == a + init;
      ChampionsOfTeamAppend(a, init, teamId);
    }
  }

  /** DraftData.get_team_picks */
  function GetTeamPicks(d: DraftData, teamId: string): seq<string> {
    ChampionsOfTeam(d.picks, teamId)
  }

  /** DraftData.get_team_bans */
  function GetTeamBans(d: DraftData, teamId: string): seq<string> {
    ChampionsOfTeam(d.bans, teamId)
  }

  /** One raw draft action of the JSON game: draftable.name, drafter.id, type, sequenceNumber. */
  datatype RawAction = RawAction(
    draftableName: Option<string>,
    drafterId: Option<string>,
    actionType: Option<string>,
    sequenceNumber: Option<int>)

  function EntryOf(a: RawAction): DraftEntry {
    DraftEntry(a.draftableName.GetOr(""), a.drafterId.GetOr(""), a.sequenceNumber.GetOr(0), a.actionType.GetOr(""))
  }

  function Entries(actions: seq<RawAction>): (r: seq<DraftEntry>)
    ensures |r| == |actions| && forall i :: 0 <= i < |actions| ==> r[i] == EntryOf(actions[i])
  {
    seq(|actions|, i requires 0 <= i < |actions| => EntryOf(actions[i]))
  }

  /** The entries of `s` whose type is `kind`, in order. */
  function OfKind(s: seq<DraftEntry>, kind: string): (r: seq<DraftEntry>)
    ensures |r| <= |s|
    ensures forall e :: e in r <==> e in s && e.kind == kind
  {
    if s == [] then []
    else
      var init := OfKind(s[..|s| - 1], kind);
      assert s == s[..|s| - 1] + [s[|s| - 1]];
      init + (if s[|s| - 1].kind == kind then [s[|s| - 1]] else [])
  }

  /** A "ban" entry is never a "pick" entry, so the two lists together never outnumber the sequence. */
  lemma {:induction false} BansAndPicksFit(s: seq<DraftEntry>)
    ensures |OfKind(s, "ban")| + |OfKind(s, "pick")| <= |s|
  {
    if s != [] {
      BansAndPicksFit(s[..|s| - 1]);
    }
  }

  /** The value that _extract_draft builds. */
  function DraftOf(actions: seq<RawAction>): DraftData {
    var s := Entries(actions);
    DraftData(OfKind(s, "ban"), OfKind(s, "pick"), s)
  }

  /** GridDataParser._extract_draft */
  method ExtractDraft(actions: seq<RawAction>) returns (d: DraftData)
    ensures d == DraftOf(actions)
    ensures |d.sequence| == |actions|
    ensures forall i :: 0 <= i < |actions| ==> d.sequence[i] == EntryOf(actions[i])
    ensures forall e :: e in d.bans <==> e in d.sequence && e.kind == "ban"
    ensures forall e :: e in d.picks <==> e in d.sequence && e.kind == "pick"
    ensures |d.bans| + |d.picks| <= |d.sequence|
  {
    var bans: seq<DraftEntry> := [];
    var picks: seq<DraftEntry> := [];
    var sequence: seq<DraftEntry> := [];
    for i := 0 to |actions|
      invariant sequence == Entries(actions[..i])
      invariant bans == OfKind(sequence, "ban")
      invariant picks == OfKind(sequence, "pick")
    {
      var entry := EntryOf(actions[i]);
      assert Entries(actions[..i + 1]) == sequence + [entry];
      sequence := sequence + [entry];
      assert sequence[..|sequence| - 1] == Entries(actions[..i]);
      if entry.kind == "ban" {
        bans := bans + [entry];
      } else if entry.kind == "pick" {
        picks := picks + [entry];
      }
    }
    assert actions[..|actions|] == actions;
    d := DraftData(bans, picks, sequence);
    BansAndPicksFit(sequence);
  }

  /** One team object of the JSON game. `stats` is its nested "stats" object, `fields` its own keys. */
  datatype RawTeam = RawTeam(
    id: Option<string>,
    name: Option<string>,
    win: Option<bool>,
    stats: map<string, int>,
    fields: map<string, int>)

  datatype RawGame = RawGame(
    id: Option<string>,
    teams: seq<RawTeam>,
    draftActions: seq<RawAction>,
    clockSeconds: Option<int>)

  /** The match JSON; a missing seriesState or games key is an empty `games`. */
  datatype RawMatch = RawMatch(games: seq<RawGame>)

  /** `str(team.get('id', ''))` */
  function TeamIdOf(t: RawTeam): string { t.id.GetOr("") }

  /**
   * The winner choice of _extract_metadata: only when there are two teams and
   * the first one carries a 'win' key; the first team is preferred.
   */
  function WinnerOf(teams: seq<RawTeam>): (r: Option<string>)
    ensures r.Some? ==> |teams| >= 2 && teams[0].win.Some?
    ensures |teams| >= 2 && teams[0].win == Some(true) ==> r == Some(TeamIdOf(teams[0]))
    ensures |teams| >= 2 && teams[0].win == Some(false) ==>
              r == (if teams[1].win == Some(true) then Some(TeamIdOf(teams[1])) else None)
  {
    if |teams| >= 2 && teams[0].win.Some? then
      if teams[0].win.value then Some(TeamIdOf(teams[0]))
      else if teams[1].win.GetOr(false) then Some(TeamIdOf(teams[1]))
      else None
    else None
  }

  /** GridDataParser._extract_metadata */
  function ExtractMetadata(g: RawGame): (m: MatchMetadata)
    ensures m.winnerTeamId == WinnerOf(g.teams)
    ensures |g.teams| < 2 ==> m.team1Id == "" && m.team2Id == "" && m.winnerTeamId.None?
  {
    var two := |g.teams| >= 2;
    MatchMetadata(
      matchId := g.id.GetOr("unknown"),
      seriesId := None,
      tournament := "LCK Spring 2024",
      team1Id := if two then TeamIdOf(g.teams[0]) else "",
      team1Name := if two then g.teams[0].name.GetOr("Team 1") else "",
      team2Id := if two then TeamIdOf(g.teams[1]) else "",
      team2Name := if two then g.teams[1].name.GetOr("Team 2") else "",
      gameNumber := 1,
      winnerTeamId := WinnerOf(g.teams),
      durationSeconds := g.clockSeconds.GetOr(0))
  }

  /** TeamStats, with the fields that _extract_team_stats sets. */
  datatype TeamStats = TeamStats(
    teamId: string,
    teamName: string,
    baronKills: int,
    dragonKills: int,
    heraldKills: int,
    towerKills: int,
    inhibitorKills: int,
    win: bool)

  function Lookup(m: map<string, int>, key: string, default: int): int {
    if key in m then m[key] else default
  }

  /**
   * `if metadata.winner_team_id: stats.win = (team_id == winner)`; Python's
   * truth test also rejects an empty winner id.
   */
  function TeamWon(teamId: string, winner: Option<string>): bool {
    winner.Some? && winner.value != "" && teamId == winner.value
  }

  function TeamStatsOf(t: RawTeam, meta: MatchMetadata): TeamStats {
    TeamStats(
      teamId := TeamIdOf(t),
      teamName := t.name.GetOr(""),
      baronKills := Lookup(t.stats, "baronKills", Lookup(t.fields, "baronKills", 0)),
      dragonKills := Lookup(t.stats, "dragonKills", Lookup(t.fields, "dragonKills", 0)),
      heraldKills := Lookup(t.stats, "heraldKills", Lookup(t.fields, "riftHeraldKills", 0)),
      towerKills := Lookup(t.stats, "towerKills", Lookup(t.fields, "turretKills", 0)),
      inhibitorKills := Lookup(t.stats, "inhibitorKills", Lookup(t.fields, "inhibitorKills", 0)),
      win := TeamWon(TeamIdOf(t), meta.winnerTeamId))
  }

  /** GridDataParser._extract_team_stats */
  method ExtractTeamStats(teams: seq<RawTeam>, meta: MatchMetadata) returns (stats: seq<TeamStats>)
    ensures |stats| == |teams|
    ensures forall i :: 0 <= i < |teams| ==> stats[i] == TeamStatsOf(teams[i], meta)
    ensures forall i :: 0 <= i < |stats| ==>
              (stats[i].win <==> meta.winnerTeamId.Some? && meta.winnerTeamId.value != "" && stats[i].teamId == meta.winnerTeamId.value)
    ensures meta.winnerTeamId.None? ==> forall i :: 0 <= i < |stats| ==> !stats[i].win
    ensures forall i, j :: 0 <= i < |stats| && 0 <= j < |stats| && stats[i].win && stats[j].win ==> stats[i].teamId == stats[j].teamId
  {
    stats := [];
    for i := 0 to |teams|
      invariant |stats| == i
      invariant forall k :: 0 <= k < i ==> stats[k] == TeamStatsOf(teams[k], meta)
    {
      var s := TeamStatsOf(teams[i], meta);
      stats := stats + [s];
    }
  }

  /** The parsed match as far as the draft model uses it (player lines and timeline left out). */
  datatype ParsedMatch = ParsedMatch(metadata: MatchMetadata, draft: DraftData, teamStats: seq<TeamStats>)

  /** GridDataParser.parse_match: None when there are no games, otherwise the first game parsed. */
  method ParseMatch(raw: RawMatch) returns (r: Option<ParsedMatch>)
    ensures r.None? <==> raw.games == []
    ensures r.Some? ==> r.value.metadata == ExtractMetadata(raw.games[0])
    ensures r.Some? ==> r.value.draft == DraftOf(raw.games[0].draftActions)
    ensures r.Some? ==> |r.value.teamStats| == |raw.games[0].teams|
    ensures r.Some? ==> forall i :: 0 <= i < |raw.games[0].teams| ==>
              r.value.teamStats[i] == TeamStatsOf(raw.games[0].teams[i], r.value.metadata)
  {
    if raw.games == [] {
      return None;
    }
    var game := raw.games[0];
    var metadata := ExtractMetadata(game);
    var draft := ExtractDraft(game.draftActions);
    var teamStats := ExtractTeamStats(game.teams, metadata);
    r := Some(ParsedMatch(metadata, draft, teamStats));
  }

  /** PlayerStats.kda: kills + assists when there are no deaths, otherwise divided by deaths. */
  function Kda(kills: int, deaths: int, assists: int): (r: real)
    ensures deaths == 0 ==> r == (kills + assists) as real
    ensures deaths != 0 ==> r * deaths as real == (kills + assists) as real
    ensures deaths > 0 && kills + assists >= 0 ==> 0.0 <= r <= (kills + assists) as real
  {
    if deaths == 0 then (kills + assists) as real
    else (kills + assists) as real / deaths as real
  }
}
