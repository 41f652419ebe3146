/**
 * DraftMasterGame (components/draft_master_game.py): replays a historical
 * match as a 20-phase draft game in which the player drafts team 1 against
 * an AI drafting team 2, scores every move against the assistant's
 * recommendations and ranks completed games on a leaderboard.
 *
 * `random.choice` becomes an index chosen by the caller, `datetime.now()` a
 * timestamp parameter and the generated game id a parameter. The
 * dictionary of active games keeps its insertion order in `gameOrder`.
 */
module DraftMaster {
  import opened Common
  import opened Ranking
  import opened DataIngestion
  import opened Drafting
  import opened Scoring

  /** Phases 0-2, 5-6 and 11-12 are bans; every other phase is a pick. */
  const BanPhases: seq<int> := [0, 1, 2, 5, 6, 11, 12]

  /** The length of a game: it completes once the phase counter reaches it. */
  const FinalPhase := 20

  const TimeLimit := 30

  predicate IsBanPhase(phase: int) {
    phase in BanPhases
  }

  function ActionType(phase: int): (r: string)
    ensures r == "ban" <==> IsBanPhase(phase)
    ensures r == "ban" || r == "pick"
  {
    if IsBanPhase(phase) then "ban" else "pick"
  }

  /** The draft order: three bans, two picks, two bans, four picks, two bans, then picks only. */
  lemma DraftOrder(phase: int)
    ensures IsBanPhase(phase) <==> 0 <= phase <= 2 || 5 <= phase <= 6 || 11 <= phase <= 12
  {
    if 0 <= phase <= 2 || 5 <= phase <= 6 || 11 <= phase <= 12 {
      assert phase == BanPhases[phase - (if phase <= 2 then 0 else if phase <= 6 then 2 else 6)];
    }
  }

  /** A described phase, or the generic "Phase n" label. */
  datatype PhaseDescription = Described(text: string) | Numbered(phase: int)

  function PhaseDescriptionOf(phase: int): (d: PhaseDescription)
    ensures d.Numbered? <==> phase < 0 || phase > 13
    ensures d.Numbered? ==> d.phase == phase
  {
    if phase == 0 then Described("First Ban Phase - Ban 1")
    else if phase == 1 then Described("First Ban Phase - Ban 2")
    else if phase == 2 then Described("First Ban Phase - Ban 3")
    else if phase == 3 then Described("First Pick Phase - Pick 1")
    else if phase == 4 then Described("First Pick Phase - Pick 2")
    else if phase == 5 then Described("Second Ban Phase - Ban 1")
    else if phase == 6 then Described("Second Ban Phase - Ban 2")
    else if phase == 7 then Described("Second Pick Phase - Pick 1")
    else if phase == 8 then Described("Second Pick Phase - Pick 2")
    else if phase == 9 then Described("Second Pick Phase - Pick 3")
    else if phase == 10 then Described("Second Pick Phase - Pick 4")
    else if phase == 11 then Described("Final Ban Phase - Ban 1")
    else if phase == 12 then Described("Final Ban Phase - Ban 2")
    else if phase == 13 then Described("Final Pick Phase")
    else Numbered(phase)
  }

  /** A description of the form "... - Ban n". */
  predicate DescribesBan(text: string) {
    |text| >= 5 && text[|text| - 5] == 'B' && text[|text| - 4] == 'a' && text[|text| - 3] == 'n'
  }

  /** The described phases agree with the draft order: a description names a ban exactly on a ban phase. */
  lemma DescriptionsFollowDraftOrder(phase: int)
    requires 0 <= phase <= 13
    ensures PhaseDescriptionOf(phase).Described?
    ensures IsBanPhase(phase) <==> DescribesBan(PhaseDescriptionOf(phase).text)
  {
    DraftOrder(phase);
  }

  /** The hints a difficulty shows: top 5, top 3, the best one, or none. */
  function Hints(difficulty: string, recs: seq<DraftRecommendation>): (h: seq<DraftRecommendation>)
    requires difficulty == "hard" ==> recs != []
    ensures |h| <= |recs| && h == recs[..|h|]
    ensures difficulty == "easy" ==> |h| == Min(5, |recs|)
    ensures difficulty == "medium" ==> |h| == Min(3, |recs|)
    ensures difficulty == "hard" ==> |h| == 1
    ensures difficulty != "easy" && difficulty != "medium" && difficulty != "hard" ==> h == []
  {
    if difficulty == "easy" then Prefix(recs, 5)
    else if difficulty == "medium" then Prefix(recs, 3)
    else if difficulty == "hard" then [recs[0]]
    else []
  }

  /**
   * In pro mode (and on an unknown difficulty) no hint is shown, so every
   * move is scored as unrecommended: no base points, the streak reset, and
   * only the time bonus, counted twice above 200.
   */
  lemma UnhintedMoveScoresTimeOnly(difficulty: string, recs: seq<DraftRecommendation>, chosen: string, c: Counters, t: real)
    requires difficulty != "easy" && difficulty != "medium" && difficulty != "hard"
    ensures var rank := RankOf(Hints(difficulty, recs), chosen);
      && rank.None?
      && NextCounters(rank, c) == c.(streak := 0)
      && MoveTotal(rank, NextCounters(rank, c), t) ==
           TimeBonus(t) + (if TimeBonus(t) > 200 then TimeBonus(t) else 0)
  {
    var rank := RankOf(Hints(difficulty, recs), chosen);
    var n := NextCounters(rank, c);
    var tb := TimeBonus(t);
    if tb > 200 {
      SpeedBonusCountedTwice(rank, n, t);
    } else {
      assert BonusesOf(rank, n, t) == [];
    }
  }

  /** Whether the random draw `aiIndex` picks one of `count` ranked recommendations. */
  predicate AiIndexDefined(difficulty: string, count: nat, aiIndex: nat) {
    if difficulty == "easy" then aiIndex < Min(10, count)
    else if difficulty == "medium" then aiIndex < Min(5, count)
    else (difficulty == "hard" || difficulty == "pro") && count > 0
  }

  /** Whether the AI's random choice has a recommendation to choose from. */
  predicate AiChoiceDefined(difficulty: string, recs: seq<DraftRecommendation>, aiIndex: nat) {
    AiIndexDefined(difficulty, |recs|, aiIndex)
  }

  /** The AI's choice: a random one of the top 10 (easy) or top 5 (medium), else the best. */
  function AiChoice(difficulty: string, recs: seq<DraftRecommendation>, aiIndex: nat): (r: DraftRecommendation)
    requires AiChoiceDefined(difficulty, recs, aiIndex)
    ensures r in recs
    ensures difficulty == "hard" || difficulty == "pro" ==> r == recs[0]
  {
    if difficulty == "easy" then Prefix(recs, 10)[aiIndex]
    else if difficulty == "medium" then Prefix(recs, 5)[aiIndex]
    else recs[0]
  }

  /** On a sorted list, hard and pro choose a best recommendation, and easy and medium one of the best 10 and 5. */
  lemma AiChoiceRanks(difficulty: string, recs: seq<DraftRecommendation>, aiIndex: nat)
    requires AiChoiceDefined(difficulty, recs, aiIndex)
    requires NonIncreasing(recs, Impact)
    ensures difficulty == "hard" || difficulty == "pro" ==>
      forall x :: x in recs ==> Impact(x) <= Impact(AiChoice(difficulty, recs, aiIndex))
    ensures difficulty == "easy" ==> AiChoice(difficulty, recs, aiIndex) == recs[aiIndex] && aiIndex < 10
    ensures difficulty == "medium" ==> AiChoice(difficulty, recs, aiIndex) == recs[aiIndex] && aiIndex < 5
  {
    if difficulty == "hard" || difficulty == "pro" {
      forall x | x in recs
        ensures Impact(x) <= Impact(recs[0])
      {
        var i :| 0 <= i < |recs| && recs[i] == x;
        if i > 0 {
          assert Impact(recs[0]) >= Impact(recs[i]);
        }
      }
    }
  }

  /** The AI's move for its choice: the champion, with the choice's first reason when it has one. */
  function AiAnswer(difficulty: string, recs: seq<DraftRecommendation>, aiIndex: nat): (m: AiMove)
    requires AiChoiceDefined(difficulty, recs, aiIndex)
    ensures exists r :: r in recs && r.champion == m.champion
    ensures difficulty == "hard" || difficulty == "pro" ==> m.champion == recs[0].champion
    ensures m.reason.Some? <==> AiChoice(difficulty, recs, aiIndex).reasoning != []
  {
    var chosen := AiChoice(difficulty, recs, aiIndex);
    AiMove(chosen.champion, if chosen.reasoning != [] then Some(chosen.reasoning[0]) else None)
  }

  datatype AvailableActions = AvailableActions(
    actionType: string,
    availableChampions: seq<string>,
    recommendations: seq<DraftRecommendation>,
    timeLimit: int,
    phase: int,
    phaseDescription: PhaseDescription)

  /** The AI's move; a missing reason stands for "Strategic choice". */
  datatype AiMove = AiMove(champion: string, reason: Option<Reason>)

  datatype Comparison =
    | NoRealMatch
    | Comparison(realTeamPicks: seq<string>, similarity: real, sharedChampions: set<string>, realTeamWon: bool)

  datatype StatsBreakdown = StatsBreakdown(perfectMoves: int, comboCount: int, streakBest: int, avgTime: real)

  datatype FinalResults = FinalResults(
    finalScore: FinalScore,
    winProbability: real,
    playerPicks: seq<string>,
    playerBans: seq<string>,
    aiPicks: seq<string>,
    aiBans: seq<string>,
    comparison: Comparison,
    newAchievements: seq<string>,
    celebration: Celebration,
    stats: StatsBreakdown)

  datatype MoveOutcome =
    | InvalidChampion
    | Moved(playerMove: MoveRecord, aiMove: AiMove, currentScore: int, gameComplete: bool,
            streak: int, combo: int, perfectMoves: int, finalResults: Option<FinalResults>)

  /** The first match of the corpus, from position `from` on, with the given id. */
  function FindMatchFrom(matches: seq<ParsedMatch>, matchId: string, from: nat): Option<ParsedMatch>
    requires from <= |matches|
    decreases |matches| - from
  {
    if from == |matches| then None
    else if matches[from].metadata.matchId == matchId then Some(matches[from])
    else FindMatchFrom(matches, matchId, from + 1)
  }

  /** The first match of the corpus with the given id. */
  function FindMatch(matches: seq<ParsedMatch>, matchId: string): Option<ParsedMatch> {
    FindMatchFrom(matches, matchId, 0)
  }

  lemma {:induction false} FindMatchFromIsFirst(matches: seq<ParsedMatch>, matchId: string, from: nat)
    requires from <= |matches|
    decreases |matches| - from
    ensures FindMatchFrom(matches, matchId, from).None? <==>
      forall i :: from <= i < |matches| ==> matches[i].metadata.matchId != matchId
    ensures FindMatchFrom(matches, matchId, from).Some? ==>
      exists i :: && from <= i < |matches| && matches[i] == FindMatchFrom(matches, matchId, from).value
                  && matches[i].metadata.matchId == matchId
                  && (forall j :: from <= j < i ==> matches[j].metadata.matchId != matchId)
  {
    if from < |matches| && matches[from].metadata.matchId != matchId {
      FindMatchFromIsFirst(matches, matchId, from + 1);
    }
  }

  /**
   * The match found carries the id and is the first one that does; none is
   * found only when no match has it.
   */
  lemma FindMatchIsFirst(matches: seq<ParsedMatch>, matchId: string)
    ensures FindMatch(matches, matchId).None? <==> forall i :: 0 <= i < |matches| ==> matches[i].metadata.matchId != matchId
    ensures FindMatch(matches, matchId).Some? ==>
      exists i :: && 0 <= i < |matches| && matches[i] == FindMatch(matches, matchId).value
                  && matches[i].metadata.matchId == matchId
                  && (forall j :: 0 <= j < i ==> matches[j].metadata.matchId != matchId)
  {
    FindMatchFromIsFirst(matches, matchId, 0);
  }

  /** The real match can be compared once found: it has team stats to read the result from. */
  predicate Comparable(matches: seq<ParsedMatch>, matchId: string) {
    FindMatch(matches, matchId).Some? ==> FindMatch(matches, matchId).value.teamStats != []
  }

  /**
   * _compare_to_real_match: no comparison without the real match; otherwise
   * the real team 1's picks, the champions both sides picked, 20 points of
   * similarity per shared champion, and whether team 1 won.
   */
  function CompareToRealMatch(matches: seq<ParsedMatch>, matchId: string, playerPicks: seq<string>): (c: Comparison)
    requires Comparable(matches, matchId)
    ensures c.NoRealMatch? <==> FindMatch(matches, matchId).None?
    ensures c.Comparison? ==>
      var m := FindMatch(matches, matchId).value;
      && c.realTeamPicks == GetTeamPicks(m.draft, m.metadata.team1Id)
      && (forall x :: x in c.sharedChampions <==> x in playerPicks && x in c.realTeamPicks)
      && c.similarity == 20.0 * |c.sharedChampions| as real
      && c.realTeamWon == m.teamStats[0].win
  {
    match FindMatch(matches, matchId)
    case None => NoRealMatch
    case Some(m) =>
      var realPicks := GetTeamPicks(m.draft, m.metadata.team1Id);
      var common := (set x | x in playerPicks) * (set x | x in realPicks);
      Comparison(realPicks, |common| as real / 5.0 * 100.0, common, m.teamStats[0].win)
  }

  lemma {:induction false} DistinctAtMostLength(s: seq<string>)
    ensures |set x | x in s| <= |s|
  {
    if s != [] {
      var init := s[..|s| - 1];
      DistinctAtMostLength(init);
      assert s == init + [s[|s| - 1]];
      assert (set x | x in s) == (set x | x in init) + {s[|s| - 1]};
    }
  }

  /** Similarity is a percentage as long as the real team picked at most five champions. */
  lemma SimilarityIsPercentage(matches: seq<ParsedMatch>, matchId: string, playerPicks: seq<string>)
    requires Comparable(matches, matchId)
    requires CompareToRealMatch(matches, matchId, playerPicks).Comparison?
    requires |CompareToRealMatch(matches, matchId, playerPicks).realTeamPicks| <= 5
    ensures 0.0 <= CompareToRealMatch(matches, matchId, playerPicks).similarity <= 100.0
  {
    var c := CompareToRealMatch(matches, matchId, playerPicks);
    DistinctAtMostLength(c.realTeamPicks);
    assert c.sharedChampions <= set x | x in c.realTeamPicks;
    SubsetCardinality(c.sharedChampions, set x | x in c.realTeamPicks);
  }

  lemma SubsetCardinality(a: set<string>, b: set<string>)
    requires a <= b
    ensures |a| <= |b|
  {
    assert b == a + (b - a);
  }

  /** The best streak reached over the moves of a game. */
  function MaxStreak(moves: seq<MoveRecord>): (r: int)
    requires moves != []
    ensures forall i :: 0 <= i < |moves| ==> moves[i].extras.streak <= r
    ensures exists i :: 0 <= i < |moves| && moves[i].extras.streak == r
  {
    if |moves| == 1 then moves[0].extras.streak
    else
      var rest := MaxStreak(moves[..|moves| - 1]);
      assert forall i :: 0 <= i < |moves| - 1 ==> moves[..|moves| - 1][i] == moves[i];
      var last := moves[|moves| - 1].extras.streak;
      if last > rest then last else rest
  }

  /** A completed game as the leaderboard sees it. */
  datatype GameSummary = GameSummary(
    playerName: string,
    difficulty: string,
    finalScore: FinalScore,
    winProbability: real,
    completedAt: Option<Timestamp>)

  datatype LeaderboardEntry = LeaderboardEntry(
    rank: nat,
    playerName: string,
    score: int,
    rating: string,
    difficulty: string,
    winProbability: real,
    completedAt: Timestamp)

  function TotalOf(g: GameSummary): real {
    g.finalScore.totalScore as real
  }

  predicate AllCompleted(games: seq<GameSummary>) {
    forall i :: 0 <= i < |games| ==> games[i].completedAt.Some?
  }

  function CompletedOnly(games: seq<GameSummary>): (r: seq<GameSummary>)
    ensures AllCompleted(r)
    ensures |r| <= |games|
  {
    if games == [] then []
    else
      var rest := CompletedOnly(games[..|games| - 1]);
      if games[|games| - 1].completedAt.Some? then rest + [games[|games| - 1]] else rest
  }

  /** The completed games are exactly the games with a completion time. */
  lemma {:induction false} CompletedOnlyMembers(games: seq<GameSummary>)
    ensures forall g :: g in CompletedOnly(games) <==> g in games && g.completedAt.Some?
  {
    if games != [] {
      CompletedOnlyMembers(games[..|games| - 1]);
      assert forall g :: g in games <==> g in games[..|games| - 1] || g == games[|games| - 1];
    }
  }

  function LeaderboardEntryOf(g: GameSummary, rank: nat): LeaderboardEntry
    requires g.completedAt.Some?
  {
    LeaderboardEntry(rank, g.playerName, g.finalScore.totalScore, g.finalScore.rating,
                     g.difficulty, g.winProbability, g.completedAt.value)
  }

  /** Entries ranked 1, 2, ... in list order. */
  function RankedEntries(games: seq<GameSummary>): (r: seq<LeaderboardEntry>)
    requires AllCompleted(games)
    ensures |r| == |games|
    ensures forall i :: 0 <= i < |r| ==> r[i] == LeaderboardEntryOf(games[i], i + 1)
  {
    seq(|games|, i requires 0 <= i < |games| => LeaderboardEntryOf(games[i], i + 1))
  }

  /** get_leaderboard: completed games, stably sorted by total score, the first `limit`, ranked. */
  function Leaderboard(games: seq<GameSummary>, limit: int): (r: seq<LeaderboardEntry>)
    ensures forall i :: 0 <= i < |r| ==> r[i].rank == i + 1
    ensures limit == 0 ==> r == []
  {
    CompletedTop(CompletedOnly(games), limit);
    RankedEntries(Prefix(SortDesc(CompletedOnly(games), TotalOf), limit))
  }

  /** Sorting and cutting a list of completed games leaves completed games. */
  lemma CompletedTop(completed: seq<GameSummary>, limit: int)
    requires AllCompleted(completed)
    ensures AllCompleted(Prefix(SortDesc(completed, TotalOf), limit))
  {
    var sorted := SortDesc(completed, TotalOf);
    SortDescSorts(completed, TotalOf);
    var top := Prefix(sorted, limit);
    assert top == sorted[..|top|];
    forall i | 0 <= i < |top|
      ensures top[i].completedAt.Some?
    {
      assert top[i] == sorted[i];
      assert sorted[i] in multiset(completed);
      var j :| 0 <= j < |completed| && completed[j] == sorted[i];
    }
  }

  /**
   * The leaderboard ranks 1, 2, ... the first `limit` games of the sorted
   * completed games: `limit` entries or every completed game when there are
   * fewer, each game at most as often as it was completed, scores that never
   * increase down the list, and no completed game left off scoring more than
   * a listed one.
   */
  lemma LeaderboardFacts(games: seq<GameSummary>, limit: int)
    ensures var top := Prefix(SortDesc(CompletedOnly(games), TotalOf), limit);
      var board := Leaderboard(games, limit);
      && AllCompleted(top)
      && |board| == |top|
      && (forall i :: 0 <= i < |board| ==> board[i] == LeaderboardEntryOf(top[i], i + 1))
      && (limit >= 0 ==> |board| == Min(limit, |CompletedOnly(games)|))
      && multiset(top) <= multiset(CompletedOnly(games))
      && (forall i, j :: 0 <= i < j < |board| ==> board[i].score >= board[j].score)
      && (forall g :: g in games && g.completedAt.Some? && g !in top ==>
            forall i :: 0 <= i < |board| ==> g.finalScore.totalScore <= board[i].score)
      && (forall i :: 0 <= i < |board| ==>
            board[i].rank == i + 1 && exists g :: g in games && g.completedAt.Some? && board[i] == LeaderboardEntryOf(g, i + 1))
  {
    var completed := CompletedOnly(games);
    var top := Prefix(SortDesc(completed, TotalOf), limit);
    SortedPrefixFacts(completed, limit);
    SortedPrefixKeepsBest(completed, limit);
    CompletedTop(completed, limit);
    CompletedOnlyMembers(games);
    RankedEntriesOrdered(top);
    RankedEntriesFrom(top, games);
    var board := Leaderboard(games, limit);
    assert board == RankedEntries(top);
    forall g | g in games && g.completedAt.Some? && g !in top
      ensures forall i :: 0 <= i < |board| ==> g.finalScore.totalScore <= board[i].score
    {
      assert g in completed;
      forall i | 0 <= i < |board|
        ensures g.finalScore.totalScore <= board[i].score
      {
        assert TotalOf(g) <= TotalOf(top[i]);
      }
    }
  }

  /** The first `limit` of the sorted games: how many, where from, in what order. */
  lemma SortedPrefixFacts(completed: seq<GameSummary>, limit: int)
    ensures var top := Prefix(SortDesc(completed, TotalOf), limit);
      && (limit >= 0 ==> |top| == Min(limit, |completed|))
      && (forall g :: g in top ==> g in completed)
      && NonIncreasing(top, TotalOf)
  {
    var sorted := SortDesc(completed, TotalOf);
    SortDescSorts(completed, TotalOf);
    var top := Prefix(sorted, limit);
    assert top == sorted[..|top|];
    forall g | g in top
      ensures g in completed
    {
      assert g in multiset(sorted);
    }
    forall i, j | 0 <= i < j < |top|
      ensures TotalOf(top[i]) >= TotalOf(top[j])
    {
      assert top[i] == sorted[i] && top[j] == sorted[j];
    }
  }

  /**
   * The first `limit` of the sorted games repeat no game more often than the
   * input does, and every game cut scores no more than any game kept.
   */
  lemma SortedPrefixKeepsBest(completed: seq<GameSummary>, limit: int)
    ensures var top := Prefix(SortDesc(completed, TotalOf), limit);
      && multiset(top) <= multiset(completed)
      && (forall g :: g in completed && g !in top ==>
            forall i :: 0 <= i < |top| ==> TotalOf(g) <= TotalOf(top[i]))
  {
    var sorted := SortDesc(completed, TotalOf);
    SortDescSorts(completed, TotalOf);
    var top := Prefix(sorted, limit);
    assert top == sorted[..|top|];
    SortedTakeKeepsBest(sorted, |top|);
    assert forall g :: g in completed <==> g in sorted by {
      assert forall g :: g in completed <==> g in multiset(sorted);
    }
  }

  /** The first `n` of a sorted list: a sub-multiset of it that scores at least as well as the rest. */
  lemma SortedTakeKeepsBest(sorted: seq<GameSummary>, n: nat)
    requires n <= |sorted| && NonIncreasing(sorted, TotalOf)
    ensures multiset(sorted[..n]) <= multiset(sorted)
    ensures forall g :: g in sorted && g !in sorted[..n] ==>
      forall i :: 0 <= i < n ==> TotalOf(g) <= TotalOf(sorted[..n][i])
  {
    assert sorted == sorted[..n] + sorted[n..];
    forall g | g in sorted && g !in sorted[..n]
      ensures forall i :: 0 <= i < n ==> TotalOf(g) <= TotalOf(sorted[..n][i])
    {
      CutGameDominated(sorted, n, g);
    }
  }

  /** A game of a sorted list that is not among its first `n` scores no more than any of them. */
  lemma CutGameDominated(sorted: seq<GameSummary>, n: nat, g: GameSummary)
    requires n <= |sorted| && NonIncreasing(sorted, TotalOf)
    requires g in sorted && g !in sorted[..n]
    ensures forall i :: 0 <= i < n ==> TotalOf(g) <= TotalOf(sorted[i])
  {
    var k :| 0 <= k < |sorted| && sorted[k] == g;
    assert k >= n by {
      assert forall m :: 0 <= m < n ==> sorted[..n][m] == sorted[m];
    }
  }

  /** Ranking a list ordered by score keeps the scores in that order. */
  lemma RankedEntriesOrdered(top: seq<GameSummary>)
    requires AllCompleted(top) && NonIncreasing(top, TotalOf)
    ensures var board := RankedEntries(top);
      forall i, j :: 0 <= i < j < |board| ==> board[i].score >= board[j].score
  {
    var board := RankedEntries(top);
    forall i, j | 0 <= i < j < |board|
      ensures board[i].score >= board[j].score
    {
      assert TotalOf(top[i]) >= TotalOf(top[j]);
    }
  }

  /** Each ranked entry comes from a completed game of `games`. */
  lemma RankedEntriesFrom(top: seq<GameSummary>, games: seq<GameSummary>)
    requires AllCompleted(top)
    requires forall g :: g in top ==> g in games && g.completedAt.Some?
    ensures var board := RankedEntries(top);
      forall i :: 0 <= i < |board| ==>
        board[i].rank == i + 1 && exists g :: g in games && g.completedAt.Some? && board[i] == LeaderboardEntryOf(g, i + 1)
  {
    var board := RankedEntries(top);
    forall i | 0 <= i < |board|
      ensures board[i].rank == i + 1 && exists g :: g in games && g.completedAt.Some? && board[i] == LeaderboardEntryOf(g, i + 1)
    {
      var g := top[i];
      assert g in top;
      assert board[i] == LeaderboardEntryOf(g, i + 1);
    }
  }

  class DraftMasterGame {
    const matches: seq<ParsedMatch>
    const assistant: DraftingAssistant
    var activeGames: map<string, GameState>
    /** The keys of `activeGames` in insertion order. */
    var gameOrder: seq<string>

    ghost predicate Valid()
      reads this, assistant
    {
      && assistant.Valid()
      && (forall i :: 0 <= i < |gameOrder| ==> gameOrder[i] in activeGames)
      && (forall id :: id in activeGames ==> id in gameOrder)
      && (forall i, j :: 0 <= i < j < |gameOrder| ==> gameOrder[i] != gameOrder[j])
    }

    constructor(parsedMatches: seq<ParsedMatch>, draftingAssistant: DraftingAssistant)
      requires draftingAssistant.Valid()
      ensures Valid()
      ensures matches == parsedMatches && assistant == draftingAssistant
      ensures activeGames == map[] && gameOrder == []
    {
      matches := parsedMatches;
      assistant := draftingAssistant;
      activeGames := map[];
      gameOrder := [];
    }

    /** start_new_game: a fresh game on the match the random draw selected. */
    method StartNewGame(playerName: string, difficulty: string, matchIndex: nat, gameId: string, now: Timestamp)
      returns (gs: GameState)
      requires Valid()
      requires matchIndex < |matches|
      modifies this
      ensures Valid() && fresh(gs)
      ensures activeGames == old(activeGames)[gameId := gs]
      ensures gameOrder == if gameId in old(activeGames) then old(gameOrder) else old(gameOrder) + [gameId]
      ensures gs.gameId == gameId && gs.playerName == playerName && gs.difficulty == difficulty
      ensures gs.historicalMatchId == matches[matchIndex].metadata.matchId
      ensures gs.tournament == matches[matchIndex].metadata.tournament
      ensures gs.realTeam1 == matches[matchIndex].metadata.team1Name
      ensures gs.realTeam2 == matches[matchIndex].metadata.team2Name
      ensures gs.startedAt == now && gs.currentPhase == 0 && gs.score == 0 && gs.movesEvaluated == []
      ensures gs.playerPicks == [] && gs.playerBans == [] && gs.aiPicks == [] && gs.aiBans == []
      ensures gs.playerTurn && gs.streakCount == 0 && gs.perfectMoves == 0 && gs.comboCount == 0
      ensures gs.powerupsActive == [] && gs.achievements == []
      ensures gs.completedAt.None? && gs.finalWinProbability == 0.0
    {
      var m := matches[matchIndex].metadata;
      gs := new GameState(gameId, playerName, difficulty, m.matchId, m.tournament, m.team1Name, m.team2Name, now);
      if gameId !in activeGames {
        gameOrder := gameOrder + [gameId];
      }
      activeGames := activeGames[gameId := gs];
    }

    /** The champions neither side has picked or banned, in the assistant's order. */
    function Available(playerPicks: seq<string>, playerBans: seq<string>, aiPicks: seq<string>, aiBans: seq<string>): seq<string>
    {
      Unused(assistant.championOrder, DraftState(playerPicks, playerBans, aiPicks, aiBans, "", 0))
    }

    /** The ranked recommendations for the side `view` drafts as team `team`. */
    function Recommendations(view: DraftState, team: int, isBan: bool, available: seq<string>): seq<DraftRecommendation>
      reads assistant.predictor.graph
    {
      if isBan then assistant.predictor.RankedBans(view, team, available)
      else assistant.predictor.RankedPicks(view, team, available)
    }

    /** The player's view of the draft: the player is team 1. */
    function PlayerView(gs: GameState): DraftState
      reads gs
    {
      DraftState(gs.playerPicks, gs.playerBans, gs.aiPicks, gs.aiBans,
                 ActionType(gs.currentPhase), if gs.playerTurn then 1 else 2)
    }

    function AvailableFor(gs: GameState): seq<string>
      reads gs
    {
      Available(gs.playerPicks, gs.playerBans, gs.aiPicks, gs.aiBans)
    }

    /** Hard mode shows the best recommendation, so it needs a champion left to recommend. */
    predicate HintsDefined(gs: GameState)
      reads this, gs
    {
      gs.difficulty == "hard" ==> AvailableFor(gs) != []
    }

    function ActionsOf(gs: GameState): AvailableActions
      requires HintsDefined(gs)
      reads this, gs, assistant.predictor.graph
    {
      var recs := Recommendations(PlayerView(gs), 1, IsBanPhase(gs.currentPhase), AvailableFor(gs));
      var available := AvailableFor(gs);
      assert |recs| == Min(10, Min(30, |available|)) by {
        RecommendationsLength(PlayerView(gs), 1, IsBanPhase(gs.currentPhase), available);
      }
      AvailableActions(ActionType(gs.currentPhase), Prefix(available, 50),
                       Hints(gs.difficulty, recs), TimeLimit, gs.currentPhase, PhaseDescriptionOf(gs.currentPhase))
    }

    lemma RecommendationsLength(view: DraftState, team: int, isBan: bool, available: seq<string>)
      ensures |Recommendations(view, team, isBan, available)| == Min(10, Min(30, |available|))
      ensures NonIncreasing(Recommendations(view, team, isBan, available), Impact)
      ensures forall r :: r in Recommendations(view, team, isBan, available) ==> r.champion in available
    {
      var pool := Prefix(available, 30);
      var cands := if isBan then assistant.predictor.BanCandidates(view, team, pool)
                   else assistant.predictor.PickCandidates(view, team, pool);
      assistant.predictor.RankedFacts(cands, pool);
    }

    /** The recommender the phase calls, promising only which ranked list it returns. */
    method Recommend(view: DraftState, team: int, isBan: bool, available: seq<string>)
      returns (recs: seq<DraftRecommendation>)
      ensures recs == Recommendations(view, team, isBan, available)
    {
      if isBan {
        recs := assistant.predictor.RecommendBan(view, team, available);
      } else {
        recs := assistant.predictor.RecommendPick(view, team, available);
      }
    }

    /** get_available_actions. */
    method GetAvailableActions(gameId: string) returns (a: AvailableActions)
      requires Valid() && gameId in activeGames
      requires HintsDefined(activeGames[gameId])
      ensures a == ActionsOf(activeGames[gameId])
      ensures a.actionType == "ban" <==> IsBanPhase(a.phase)
      ensures forall c :: c in a.availableChampions ==> c in assistant.championOrder
      ensures |a.availableChampions| <= 50
    {
      var gs := activeGames[gameId];
      var phase := gs.currentPhase;
      var isBan := IsBanPhase(phase);
      var actionType := if isBan then "ban" else "pick";
      var available := Available(gs.playerPicks, gs.playerBans, gs.aiPicks, gs.aiBans);
      var view := DraftState(gs.playerPicks, gs.playerBans, gs.aiPicks, gs.aiBans, actionType,
                             if gs.playerTurn then 1 else 2);
      var recs := Recommend(view, 1, isBan, available);
      RecommendationsLength(view, 1, isBan, available);
      var hints := Hints(gs.difficulty, recs);
      a := AvailableActions(actionType, Prefix(available, 50), if gs.difficulty != "pro" then hints else [],
                            TimeLimit, phase, PhaseDescriptionOf(phase));
    }

    /** The AI's view after the player's move: the AI is team 1 of the state but asks as team 2. */
    function AiView(aiPicks: seq<string>, aiBans: seq<string>, playerPicks: seq<string>, playerBans: seq<string>,
                    actionType: string): DraftState
    {
      DraftState(aiPicks, aiBans, playerPicks, playerBans, actionType, 2)
    }

    function AiRecommendations(aiPicks: seq<string>, aiBans: seq<string>, playerPicks: seq<string>,
                               playerBans: seq<string>, actionType: string): seq<DraftRecommendation>
      reads assistant.predictor.graph
    {
      Recommendations(AiView(aiPicks, aiBans, playerPicks, playerBans, actionType), 2, actionType == "ban",
                      Available(playerPicks, playerBans, aiPicks, aiBans))
    }

    /**
     * The AI can answer the player's choice of `champion` with its random
     * draw `aiIndex`: it ranks up to 10 of the champions left free, so the
     * draw is judged against their number.
     */
    predicate AiMoveDefined(gs: GameState, champion: string, aiIndex: nat)
      reads gs
    {
      var isBan := IsBanPhase(gs.currentPhase);
      var playerPicks := if isBan then gs.playerPicks else gs.playerPicks + [champion];
      var playerBans := if isBan then gs.playerBans + [champion] else gs.playerBans;
      AiIndexDefined(gs.difficulty, |Available(playerPicks, playerBans, gs.aiPicks, gs.aiBans)|, aiIndex)
    }

    /**
     * _ai_make_move: the AI drafts one of its recommendations of the same
     * action, a champion that was still free.
     */
    method AiMakeMove(gs: GameState, actionType: string, aiIndex: nat)
      returns (m: AiMove)
      requires AiIndexDefined(gs.difficulty, |Available(gs.playerPicks, gs.playerBans, gs.aiPicks, gs.aiBans)|, aiIndex)
      modifies gs`aiPicks, gs`aiBans
      ensures var recs := AiRecommendations(old(gs.aiPicks), old(gs.aiBans), gs.playerPicks, gs.playerBans, actionType);
        && AiChoiceDefined(gs.difficulty, recs, aiIndex)
        && m == AiAnswer(gs.difficulty, recs, aiIndex)
      ensures m.champion in old(Available(gs.playerPicks, gs.playerBans, gs.aiPicks, gs.aiBans))
      ensures actionType == "ban" ==> gs.aiBans == old(gs.aiBans) + [m.champion] && gs.aiPicks == old(gs.aiPicks)
      ensures actionType != "ban" ==> gs.aiPicks == old(gs.aiPicks) + [m.champion] && gs.aiBans == old(gs.aiBans)
    {
      var view := AiView(gs.aiPicks, gs.aiBans, gs.playerPicks, gs.playerBans, actionType);
      var free := Available(gs.playerPicks, gs.playerBans, gs.aiPicks, gs.aiBans);
      var recs := Recommend(view, 2, actionType == "ban", free);
      RecommendationsLength(view, 2, actionType == "ban", free);
      var chosen := AiChoice(gs.difficulty, recs, aiIndex);
      if actionType == "ban" {
        gs.aiBans := gs.aiBans + [chosen.champion];
      } else {
        gs.aiPicks := gs.aiPicks + [chosen.champion];
      }
      m := AiAnswer(gs.difficulty, recs, aiIndex);
    }

    /** The final draft with the player as team 1. */
    function FinalView(gs: GameState): DraftState
      reads gs
    {
      DraftState(gs.playerPicks, gs.playerBans, gs.aiPicks, gs.aiBans, "complete", 1)
    }

    /**
     * The results of a finished game with moves `moves`, final draft `final`
     * (the player as team 1), achievements `before` unlocked ahead of
     * completion and final win probability `p`: the achievements `p` and the
     * moves newly earn, the final score over all of them, the celebration,
     * the comparison with the real match and the statistics.
     */
    function CompletionOf(moves: seq<MoveRecord>, perfectMoves: int, comboCount: int, final: DraftState,
                          matchId: string, before: seq<string>, p: real): (fr: FinalResults)
      requires moves != []
      requires Comparable(matches, matchId)
      ensures fr.winProbability == p
      ensures fr.newAchievements == NewAchievements(before, perfectMoves, TimesOf(moves), p)
      ensures forall a :: a in fr.newAchievements ==> a !in before
      ensures fr.finalScore.totalScore == SumScores(moves) + WinProbabilityBonus(p) + AchievementTotal(before + fr.newAchievements)
      ensures fr.playerPicks == final.team1Picks && fr.playerBans == final.team1Bans
      ensures fr.aiPicks == final.team2Picks && fr.aiBans == final.team2Bans
      ensures fr.comparison == CompareToRealMatch(matches, matchId, final.team1Picks)
      ensures fr.celebration == CelebrationOf(fr.finalScore, fr.newAchievements)
    {
      var newAchievements := NewAchievements(before, perfectMoves, TimesOf(moves), p);
      NewAchievementsMeaning(before, perfectMoves, TimesOf(moves), p);
      var finalScore := FinalScoreOf(moves, before + newAchievements, p, perfectMoves, comboCount);
      FinalResults(finalScore, p, final.team1Picks, final.team1Bans, final.team2Picks, final.team2Bans,
                   CompareToRealMatch(matches, matchId, final.team1Picks), newAchievements,
                   CelebrationOf(finalScore, newAchievements),
                   StatsBreakdown(perfectMoves, comboCount, MaxStreak(moves), AverageTime(TimesOf(moves))))
    }

    /** Stores the final win probability, unlocks the achievements it earns and stamps the completion time. */
    method RecordCompletion(gs: GameState, winProbability: real, now: Timestamp) returns (newAchievements: seq<string>)
      modifies gs`finalWinProbability, gs`achievements, gs`completedAt
      ensures gs.finalWinProbability == winProbability
      ensures newAchievements ==
        NewAchievements(old(gs.achievements), gs.perfectMoves, TimesOf(gs.movesEvaluated), winProbability)
      ensures gs.achievements == old(gs.achievements) + newAchievements
      ensures gs.completedAt == Some(now)
    {
      gs.finalWinProbability := winProbability;
      newAchievements := CheckAchievements(gs);
      gs.completedAt := Some(now);
    }

    /** _complete_game: final win probability, new achievements, final score, celebration, comparison. */
    method CompleteGame(gs: GameState, now: Timestamp) returns (fr: FinalResults)
      requires gs.movesEvaluated != []
      requires Comparable(matches, gs.historicalMatchId)
      modifies gs`finalWinProbability, gs`achievements, gs`completedAt
      ensures gs.finalWinProbability == old(assistant.predictor.PredictWinProbability(FinalView(gs)).team1)
      ensures fr.newAchievements ==
        NewAchievements(old(gs.achievements), gs.perfectMoves, TimesOf(gs.movesEvaluated), gs.finalWinProbability)
      ensures gs.achievements == old(gs.achievements) + fr.newAchievements
      ensures gs.completedAt == Some(now)
      ensures fr.finalScore ==
        FinalScoreOf(gs.movesEvaluated, gs.achievements, gs.finalWinProbability, gs.perfectMoves, gs.comboCount)
      ensures fr.winProbability == gs.finalWinProbability
      ensures fr.celebration == CelebrationOf(fr.finalScore, fr.newAchievements)
      ensures fr.comparison == CompareToRealMatch(matches, gs.historicalMatchId, gs.playerPicks)
      ensures fr.stats == StatsBreakdown(gs.perfectMoves, gs.comboCount, MaxStreak(gs.movesEvaluated),
                                         AverageTime(TimesOf(gs.movesEvaluated)))
      ensures fr.playerPicks == gs.playerPicks && fr.playerBans == gs.playerBans
      ensures fr.aiPicks == gs.aiPicks && fr.aiBans == gs.aiBans
      ensures fr == CompletionOf(gs.movesEvaluated, gs.perfectMoves, gs.comboCount, FinalView(gs), gs.historicalMatchId,
                                 old(gs.achievements), gs.finalWinProbability)
    {
      var winProbs := assistant.predictor.PredictWinProbability(FinalView(gs));
      var newAchievements := RecordCompletion(gs, winProbs.team1, now);
      var moves := gs.movesEvaluated;
      var finalScore := FinalScoreOf(moves, gs.achievements, winProbs.team1, gs.perfectMoves, gs.comboCount);
      var stats := StatsBreakdown(gs.perfectMoves, gs.comboCount, MaxStreak(moves), AverageTime(TimesOf(moves)));
      var comparison := CompareToRealMatch(matches, gs.historicalMatchId, gs.playerPicks);
      fr := FinalResults(finalScore, winProbs.team1, gs.playerPicks, gs.playerBans, gs.aiPicks, gs.aiBans,
                         comparison, newAchievements, CelebrationOf(finalScore, newAchievements), stats);
    }

    /** The player's half of make_move: score the move against the hints, record it, draft the champion. */
    static method PlayerMove(gs: GameState, champion: string, actions: AvailableActions, timeTaken: real)
      returns (record: MoveRecord)
      modifies gs`movesEvaluated, gs`score, gs`playerPicks, gs`playerBans, gs`streakCount, gs`perfectMoves, gs`comboCount
      ensures PlayerMoveScored(Counters(gs.streakCount, gs.perfectMoves, gs.comboCount), champion, actions, timeTaken, record, old(gs.currentPhase),
        Counters(old(gs.streakCount), old(gs.perfectMoves), old(gs.comboCount)))
      ensures gs.movesEvaluated == old(gs.movesEvaluated) + [record]
      ensures gs.score == old(gs.score) + record.score
      ensures actions.actionType == "ban" ==> gs.playerBans == old(gs.playerBans) + [champion] && gs.playerPicks == old(gs.playerPicks)
      ensures actions.actionType != "ban" ==> gs.playerPicks == old(gs.playerPicks) + [champion] && gs.playerBans == old(gs.playerBans)
    {
      var total, verdict, extras := ScorePick(champion, actions.recommendations, timeTaken, gs);
      record := MoveRecord(gs.currentPhase, actions.actionType, champion, total, verdict, timeTaken, extras);
      gs.movesEvaluated := gs.movesEvaluated + [record];
      gs.score := gs.score + total;
      if actions.actionType == "ban" {
        gs.playerBans := gs.playerBans + [champion];
      } else {
        gs.playerPicks := gs.playerPicks + [champion];
      }
    }

    /** The record of a scored move and the counters it left: rank among the hints, points, bonuses. */
    static ghost predicate PlayerMoveScored(after: Counters, champion: string, actions: AvailableActions, timeTaken: real,
                                           record: MoveRecord, phase: int, before: Counters)
    {
      var rank := RankOf(actions.recommendations, champion);
      var counters := NextCounters(rank, before);
      && after == counters
      && record == MoveRecord(phase, actions.actionType, champion, MoveTotal(rank, counters, timeTaken),
                              VerdictOf(rank, actions.recommendations), timeTaken,
                              Extras(BonusesOf(rank, counters, timeTaken), counters.streak, counters.combo,
                                     BaseScore(rank), TimeBonus(timeTaken)))
    }

    /**
     * make_move: an unavailable champion is refused with nothing changed;
     * otherwise the move is scored against the hints, recorded and
     * drafted, the AI answers, the phase advances, and reaching phase 20
     * completes the game.
     */
    method MakeMove(gameId: string, champion: string, timeTaken: real, aiIndex: nat, now: Timestamp)
      returns (r: MoveOutcome)
      requires Valid() && gameId in activeGames
      requires HintsDefined(activeGames[gameId])
      requires champion in Prefix(AvailableFor(activeGames[gameId]), 50) ==>
        && AiMoveDefined(activeGames[gameId], champion, aiIndex)
        && (activeGames[gameId].currentPhase + 1 >= FinalPhase ==> Comparable(matches, activeGames[gameId].historicalMatchId))
      modifies activeGames[gameId]
      ensures r.InvalidChampion? <==> champion !in old(Prefix(AvailableFor(activeGames[gameId]), 50))
      ensures r.InvalidChampion? ==> unchanged(activeGames[gameId])
      ensures r.Moved? ==> MoveApplied(activeGames[gameId], champion, timeTaken, now, r,
        old(ActionsOf(activeGames[gameId])), old(AvailableFor(activeGames[gameId])),
        old(activeGames[gameId].movesEvaluated), old(activeGames[gameId].score),
        Counters(old(activeGames[gameId].streakCount), old(activeGames[gameId].perfectMoves), old(activeGames[gameId].comboCount)),
        old(activeGames[gameId].currentPhase), old(activeGames[gameId].completedAt),
        old(activeGames[gameId].playerPicks), old(activeGames[gameId].playerBans),
        old(activeGames[gameId].aiPicks), old(activeGames[gameId].aiBans),
        old(activeGames[gameId].achievements), old(activeGames[gameId].finalWinProbability))
      ensures activeGames[gameId].gameId == old(activeGames[gameId].gameId)
      ensures activeGames[gameId].playerName == old(activeGames[gameId].playerName)
      ensures activeGames[gameId].difficulty == old(activeGames[gameId].difficulty)
      ensures activeGames[gameId].historicalMatchId == old(activeGames[gameId].historicalMatchId)
      ensures activeGames[gameId].tournament == old(activeGames[gameId].tournament)
      ensures activeGames[gameId].realTeam1 == old(activeGames[gameId].realTeam1)
      ensures activeGames[gameId].realTeam2 == old(activeGames[gameId].realTeam2)
      ensures activeGames[gameId].playerTurn == old(activeGames[gameId].playerTurn)
      ensures activeGames[gameId].powerupsActive == old(activeGames[gameId].powerupsActive)
      ensures activeGames[gameId].startedAt == old(activeGames[gameId].startedAt)
    {
      var gs := activeGames[gameId];
      var actions := ActionsOf(gs);
      if champion !in actions.availableChampions {
        return InvalidChampion;
      }
      r := ApplyMove(gs, champion, actions, timeTaken, aiIndex, now);
    }

    /** An accepted move: both sides draft, the phase advances, and phase 20 completes the game. */
    method ApplyMove(gs: GameState, champion: string, actions: AvailableActions, timeTaken: real, aiIndex: nat,
                     now: Timestamp)
      returns (r: MoveOutcome)
      requires actions.actionType == ActionType(gs.currentPhase)
      requires champion in AvailableFor(gs)
      requires AiIndexDefined(gs.difficulty, |Available(
        if actions.actionType == "ban" then gs.playerPicks else gs.playerPicks + [champion],
        if actions.actionType == "ban" then gs.playerBans + [champion] else gs.playerBans, gs.aiPicks, gs.aiBans)|, aiIndex)
      requires gs.currentPhase + 1 >= FinalPhase ==> Comparable(matches, gs.historicalMatchId)
      modifies gs`movesEvaluated, gs`score, gs`playerPicks, gs`playerBans, gs`streakCount, gs`perfectMoves, gs`comboCount
      modifies gs`aiPicks, gs`aiBans, gs`currentPhase, gs`finalWinProbability, gs`achievements, gs`completedAt
      ensures MoveApplied(gs, champion, timeTaken, now, r, actions, old(AvailableFor(gs)),
        old(gs.movesEvaluated), old(gs.score), Counters(old(gs.streakCount), old(gs.perfectMoves), old(gs.comboCount)),
        old(gs.currentPhase), old(gs.completedAt), old(gs.playerPicks), old(gs.playerBans), old(gs.aiPicks), old(gs.aiBans),
        old(gs.achievements), old(gs.finalWinProbability))
    {
      var record, aiMove := TakeTurns(gs, champion, actions, timeTaken, aiIndex);
      ghost var counters := Counters(gs.streakCount, gs.perfectMoves, gs.comboCount);
      ghost var draft := DraftState(gs.playerPicks, gs.playerBans, gs.aiPicks, gs.aiBans, "", 0);
      var finalResults := FinishTurn(gs, now, old(gs.achievements));
      assert Counters(gs.streakCount, gs.perfectMoves, gs.comboCount) == counters;
      assert DraftState(gs.playerPicks, gs.playerBans, gs.aiPicks, gs.aiBans, "", 0) == draft;
      r := Moved(record, aiMove, gs.score, finalResults.Some?, gs.streakCount, gs.comboCount, gs.perfectMoves, finalResults);
    }

    /** The player's move and the AI's answer, once the champion is accepted. */
    method TakeTurns(gs: GameState, champion: string, actions: AvailableActions, timeTaken: real, aiIndex: nat)
      returns (record: MoveRecord, aiMove: AiMove)
      requires actions.actionType == ActionType(gs.currentPhase)
      requires champion in AvailableFor(gs)
      requires AiIndexDefined(gs.difficulty, |Available(
        if actions.actionType == "ban" then gs.playerPicks else gs.playerPicks + [champion],
        if actions.actionType == "ban" then gs.playerBans + [champion] else gs.playerBans, gs.aiPicks, gs.aiBans)|, aiIndex)
      modifies gs`movesEvaluated, gs`score, gs`playerPicks, gs`playerBans, gs`streakCount, gs`perfectMoves, gs`comboCount
      modifies gs`aiPicks, gs`aiBans
      ensures PlayerMoveScored(Counters(gs.streakCount, gs.perfectMoves, gs.comboCount), champion, actions, timeTaken, record,
        old(gs.currentPhase), Counters(old(gs.streakCount), old(gs.perfectMoves), old(gs.comboCount)))
      ensures gs.movesEvaluated == old(gs.movesEvaluated) + [record]
      ensures gs.score == old(gs.score) + record.score
      ensures DraftsExtended(DraftState(gs.playerPicks, gs.playerBans, gs.aiPicks, gs.aiBans, "", 0), champion, aiMove.champion, actions.actionType == "ban",
        old(gs.playerPicks), old(gs.playerBans), old(gs.aiPicks), old(gs.aiBans))
      ensures aiMove.champion != champion && aiMove.champion in old(AvailableFor(gs))
    {
      ghost var before := DraftState(gs.playerPicks, gs.playerBans, gs.aiPicks, gs.aiBans, "", 0);
      ghost var playerPicks := if actions.actionType == "ban" then gs.playerPicks else gs.playerPicks + [champion];
      ghost var playerBans := if actions.actionType == "ban" then gs.playerBans + [champion] else gs.playerBans;
      ghost var phase := gs.currentPhase;
      ghost var counters := Counters(gs.streakCount, gs.perfectMoves, gs.comboCount);
      record := PlayerMove(gs, champion, actions, timeTaken);
      ghost var after := Counters(gs.streakCount, gs.perfectMoves, gs.comboCount);
      assert PlayerMoveScored(after, champion, actions, timeTaken, record, phase, counters);
      assert gs.playerPicks == playerPicks && gs.playerBans == playerBans;
      aiMove := AiMakeMove(gs, actions.actionType, aiIndex);
      assert Counters(gs.streakCount, gs.perfectMoves, gs.comboCount) == after;
      AiAnswerWasFree(before, gs.playerPicks, gs.playerBans, champion, aiMove.champion, actions.actionType == "ban");
    }

    /**
     * Advances the phase and completes the game from phase 20 on. `achievements`
     * is the game's list on entry; ApplyMove passes its own `old(gs.achievements)`
     * so that both contracts speak of the same term, which keeps ApplyMove's proof
     * well inside the solver's budget.
     */
    method FinishTurn(gs: GameState, now: Timestamp, ghost achievements: seq<string>) returns (finalResults: Option<FinalResults>)
      requires achievements == gs.achievements
      requires gs.movesEvaluated != []
      requires gs.currentPhase + 1 >= FinalPhase ==> Comparable(matches, gs.historicalMatchId)
      modifies gs`currentPhase, gs`finalWinProbability, gs`achievements, gs`completedAt
      ensures gs.currentPhase == old(gs.currentPhase) + 1
      ensures TurnClosed(gs, now, finalResults, old(gs.completedAt), achievements, old(gs.finalWinProbability))
      ensures finalResults.Some? ==>
        finalResults.value == CompletionOf(gs.movesEvaluated, gs.perfectMoves, gs.comboCount, FinalView(gs),
                                           gs.historicalMatchId, achievements, gs.finalWinProbability)
    {
      gs.currentPhase := gs.currentPhase + 1;
      finalResults := None;
      if gs.currentPhase >= FinalPhase {
        var fr := CompleteGame(gs, now);
        finalResults := Some(fr);
      }
    }

    /** How a turn ends: final results exist exactly from phase 20 on; they carry the final drafts and the stored
        win probability, and the achievements they newly earn are appended to the game's. Before phase 20 the
        completion time, achievements and win probability are untouched. */
    ghost predicate TurnClosed(gs: GameState, now: Timestamp, finalResults: Option<FinalResults>,
                               completedAt: Option<Timestamp>, achievements: seq<string>, winProbability: real)
      reads gs
    {
      && (finalResults.Some? <==> gs.currentPhase >= FinalPhase)
      && (finalResults.Some? ==>
            && gs.completedAt == Some(now)
            && finalResults.value.winProbability == gs.finalWinProbability
            && finalResults.value.playerPicks == gs.playerPicks && finalResults.value.playerBans == gs.playerBans
            && finalResults.value.aiPicks == gs.aiPicks && finalResults.value.aiBans == gs.aiBans
            && gs.achievements == achievements + finalResults.value.newAchievements)
      && (finalResults.None? ==>
            gs.completedAt == completedAt && gs.achievements == achievements && gs.finalWinProbability == winProbability)
    }

    /** What an accepted move did: the scored record, both drafts, the score, the phase and completion. */
    ghost predicate MoveApplied(gs: GameState, champion: string, timeTaken: real, now: Timestamp, r: MoveOutcome,
                                actions: AvailableActions, available: seq<string>,
                                moves: seq<MoveRecord>, score: int, counters: Counters, phase: int,
                                completedAt: Option<Timestamp>,
                                playerPicks: seq<string>, playerBans: seq<string>,
                                aiPicks: seq<string>, aiBans: seq<string>,
                                achievements: seq<string>, winProbability: real)
      reads gs
    {
      && r.Moved?
      && PlayerMoveScored(Counters(gs.streakCount, gs.perfectMoves, gs.comboCount), champion, actions, timeTaken, r.playerMove, phase, counters)
      && gs.movesEvaluated == moves + [r.playerMove]
      && r.currentScore == gs.score == score + r.playerMove.score
      && gs.currentPhase == phase + 1
      && (r.finalResults.Some? <==> r.gameComplete)
      && DraftsExtended(DraftState(gs.playerPicks, gs.playerBans, gs.aiPicks, gs.aiBans, "", 0), champion, r.aiMove.champion, actions.actionType == "ban", playerPicks, playerBans, aiPicks, aiBans)
      && r.aiMove.champion != champion && r.aiMove.champion in available
      && TurnClosed(gs, now, r.finalResults, completedAt, achievements, winProbability)
      && r.streak == gs.streakCount && r.combo == gs.comboCount && r.perfectMoves == gs.perfectMoves
    }

    /** The AI's answer, free after the player's move, was free before it and is not the player's champion. */
    lemma AiAnswerWasFree(before: DraftState, playerPicks: seq<string>, playerBans: seq<string>,
                          champion: string, answer: string, isBan: bool)
      requires isBan ==> playerBans == before.team1Bans + [champion] && playerPicks == before.team1Picks
      requires !isBan ==> playerPicks == before.team1Picks + [champion] && playerBans == before.team1Bans
      requires answer in Available(playerPicks, playerBans, before.team2Picks, before.team2Bans)
      ensures answer != champion
      ensures answer in Available(before.team1Picks, before.team1Bans, before.team2Picks, before.team2Bans)
    {
    }

    /** Both sides drafted one champion of the phase's action; the other lists are untouched. */
    static predicate DraftsExtended(now: DraftState, champion: string, answer: string, isBan: bool,
                                   playerPicks: seq<string>, playerBans: seq<string>,
                                   aiPicks: seq<string>, aiBans: seq<string>)
    {
      if isBan then
        now.team1Bans == playerBans + [champion] && now.team2Bans == aiBans + [answer]
        && now.team1Picks == playerPicks && now.team2Picks == aiPicks
      else
        now.team1Picks == playerPicks + [champion] && now.team2Picks == aiPicks + [answer]
        && now.team1Bans == playerBans && now.team2Bans == aiBans
    }

    /** The game objects the dictionary of active games refers to. */
    ghost function Games(): set<GameState>
      reads this
    {
      set id | id in activeGames :: activeGames[id]
    }

    /** The games named by `order`, as the leaderboard sees them. */
    function SummariesOf(order: seq<string>): (r: seq<GameSummary>)
      requires forall i :: 0 <= i < |order| ==> order[i] in activeGames
      reads this, Games()
      ensures |r| == |order|
    {
      if order == [] then []
      else SummariesOf(order[..|order| - 1]) + [SummaryOf(activeGames[order[|order| - 1]])]
    }

    static function SummaryOf(gs: GameState): GameSummary
      reads gs
    {
      GameSummary(gs.playerName, gs.difficulty,
                  FinalScoreOf(gs.movesEvaluated, gs.achievements, gs.finalWinProbability, gs.perfectMoves, gs.comboCount),
                  gs.finalWinProbability, gs.completedAt)
    }

    /** get_leaderboard over the active games in insertion order. */
    method GetLeaderboard(limit: int) returns (board: seq<LeaderboardEntry>)
      requires Valid()
      ensures board == Leaderboard(SummariesOf(gameOrder), limit)
    {
      var completed := CompletedOnly(SummariesOf(gameOrder));
      CompletedTop(completed, limit);
      var top := Prefix(SortDesc(completed, TotalOf), limit);
      board := [];
      for i := 0 to |top|
        invariant |board| == i
        invariant forall j :: 0 <= j < i ==> board[j] == LeaderboardEntryOf(top[j], j + 1)
      {
        board := board + [LeaderboardEntryOf(top[i], |board| + 1)];
      }
      assert board == RankedEntries(top);
    }
  }
}
