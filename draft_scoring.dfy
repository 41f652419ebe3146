/**
 * GameState and DraftScorer (components/draft_master_game.py): the per-game
 * state of a Draft Master session, the move scorer with its streak and combo
 * counters, achievements, the final score and the celebration.
 *
 * DraftScorer holds only constant tables and the assistant it never reads,
 * so its tables are module constants and its operations are module-level
 * members acting on a GameState. Reasoning strings are a `Verdict` plus the
 * (name, value) bonus list the text is built from.
 */
module Scoring {
  import opened Common
  import opened Drafting

  /** A clock reading (`datetime.now()`), supplied by the caller. */
  type Timestamp = int

  // scoring_rules
  const OptimalPickPoints := 100
  const GoodPickPoints := 75
  const AcceptablePickPoints := 50
  const SuboptimalPickPoints := 25
  const PoorPickPoints := 0

  /** `int(base_score * 1.5)`: the Combo x3 bonus of a move worth `base` points. */
  function ComboBonus(base: int): int {
    (base as real * 1.5).Floor
  }

  /** `streak_count * 25`: the streak bonus of a streak of length `streak`. */
  function StreakBonus(streak: int): int {
    streak * 25
  }

  /** The bonus of each achievement key of the scorer's table. */
  function AchievementBonus(key: string): Option<int> {
    if key == "first_blood" then Some(50)
    else if key == "combo_master" then Some(150)
    else if key == "synergy_king" then Some(200)
    else if key == "counter_strike" then Some(175)
    else if key == "speedster" then Some(125)
    else if key == "flawless" then Some(500)
    else if key == "comeback_kid" then Some(250)
    else if key == "draft_god" then Some(300)
    else None
  }

  /** The bonus labels the scorer uses: "First Blood", "Combo x3", "Combo Master", "Speed Bonus", "Streak". */
  datatype BonusName = FirstBlood | ComboX3 | ComboMaster | SpeedBonus | Streak

  datatype Bonus = Bonus(name: BonusName, value: int)

  /** The reasoning of a scored move, without its bonus text. */
  datatype Verdict =
    | Unconventional
    | OptimalPick(topReason: Option<Reason>)
    | GoodPick(ranked: nat)
    | AcceptablePick
    | SuboptimalPick

  datatype Extras = Extras(bonuses: seq<Bonus>, streak: int, combo: int, base: int, timeBonus: int)

  datatype MoveRecord = MoveRecord(
    phase: int,
    action: string,
    champion: string,
    score: int,
    verdict: Verdict,
    timeTaken: real,
    extras: Extras)

  class GameState {
    // Set when the game starts and never written again.
    const gameId: string
    const playerName: string
    const difficulty: string
    const historicalMatchId: string
    const tournament: string
    const realTeam1: string
    const realTeam2: string
    const playerTurn: bool
    const powerupsActive: seq<string>
    const startedAt: Timestamp

    // Updated move by move.
    var playerPicks: seq<string>
    var playerBans: seq<string>
    var aiPicks: seq<string>
    var aiBans: seq<string>
    var currentPhase: int
    var score: int
    var movesEvaluated: seq<MoveRecord>
    var comboCount: int
    var streakCount: int
    var achievements: seq<string>
    var perfectMoves: int
    var completedAt: Option<Timestamp>
    var finalWinProbability: real

    /** A fresh game as start_new_game creates it: empty drafts, phase 0, the player to move. */
    constructor(gameId: string, playerName: string, difficulty: string, historicalMatchId: string,
                tournament: string, realTeam1: string, realTeam2: string, startedAt: Timestamp)
      ensures this.gameId == gameId && this.playerName == playerName && this.difficulty == difficulty
      ensures this.historicalMatchId == historicalMatchId && this.tournament == tournament
      ensures this.realTeam1 == realTeam1 && this.realTeam2 == realTeam2 && this.startedAt == startedAt
      ensures playerPicks == [] && playerBans == [] && aiPicks == [] && aiBans == []
      ensures currentPhase == 0 && playerTurn && score == 0 && movesEvaluated == []
      ensures comboCount == 0 && streakCount == 0 && perfectMoves == 0
      ensures powerupsActive == [] && achievements == []
      ensures completedAt == None && finalWinProbability == 0.0
    {
      this.gameId := gameId;
      this.playerName := playerName;
      this.difficulty := difficulty;
      this.historicalMatchId := historicalMatchId;
      this.tournament := tournament;
      this.realTeam1 := realTeam1;
      this.realTeam2 := realTeam2;
      playerPicks, playerBans, aiPicks, aiBans := [], [], [], [];
      currentPhase := 0;
      playerTurn := true;
      score := 0;
      movesEvaluated := [];
      comboCount, streakCount, perfectMoves := 0, 0, 0;
      powerupsActive, achievements := [], [];
      this.startedAt := startedAt;
      completedAt := None;
      finalWinProbability := 0.0;
    }

    /** The counters score_pick moves are never negative. */
    ghost predicate CountersValid()
      reads this
    {
      streakCount >= 0 && perfectMoves >= 0 && comboCount >= 0
    }
  }

  /** Position of the first recommendation for `chosen` at `from` or later, if any. */
  function RankFrom(recs: seq<DraftRecommendation>, chosen: string, from: nat): (r: Option<nat>)
    requires from <= |recs|
    ensures r.Some? ==> from <= r.value < |recs| && recs[r.value].champion == chosen
    ensures r.Some? ==> forall j :: from <= j < r.value ==> recs[j].champion != chosen
    ensures r.None? <==> forall j :: from <= j < |recs| ==> recs[j].champion != chosen
    decreases |recs| - from
  {
    if from == |recs| then None
    else if recs[from].champion == chosen then Some(from)
    else RankFrom(recs, chosen, from + 1)
  }

  /** Position of the first recommendation for `chosen`, if any. */
  function RankOf(recs: seq<DraftRecommendation>, chosen: string): (r: Option<nat>)
    ensures r.Some? ==> r.value < |recs| && recs[r.value].champion == chosen
    ensures r.Some? ==> forall j :: 0 <= j < r.value ==> recs[j].champion != chosen
    ensures r.None? <==> forall j :: 0 <= j < |recs| ==> recs[j].champion != chosen
  {
    RankFrom(recs, chosen, 0)
  }

  datatype Counters = Counters(streak: int, perfect: int, combo: int)

  /** How a move of the given rank moves the streak, perfect-move and combo counters. */
  function NextCounters(rank: Option<nat>, c: Counters): (n: Counters)
    ensures rank.None? ==> n == c.(streak := 0)
    ensures rank == Some(0) ==> n.streak == c.streak + 1 && n.perfect == c.perfect + 1
    ensures rank == Some(0) ==> n.combo == if c.streak + 1 >= 3 then c.combo + 1 else c.combo
    ensures rank.Some? && 1 <= rank.value <= 2 ==> n == c.(streak := if c.streak >= 1 then c.streak - 1 else 0)
    ensures rank.Some? && rank.value >= 3 ==> n == c.(streak := 0)
  {
    match rank
    case None => c.(streak := 0)
    case Some(k) =>
      if k == 0 then
        var streak := c.streak + 1;
        Counters(streak, c.perfect + 1, if streak >= 3 then c.combo + 1 else c.combo)
      else if k <= 2 then c.(streak := if c.streak - 1 > 0 then c.streak - 1 else 0)
      else c.(streak := 0)
  }

  /** 100 / 75 / 50 / 25 by rank band, 0 for a champion not recommended. */
  function BaseScore(rank: Option<nat>): (r: int)
    ensures rank.None? <==> r == PoorPickPoints
    ensures r == OptimalPickPoints <==> rank == Some(0)
    ensures rank.Some? && 1 <= rank.value <= 2 ==> r == GoodPickPoints
    ensures rank.Some? && 3 <= rank.value <= 5 ==> r == AcceptablePickPoints
    ensures rank.Some? && rank.value >= 6 ==> r == SuboptimalPickPoints
  {
    match rank
    case None => PoorPickPoints
    case Some(k) =>
      if k == 0 then OptimalPickPoints
      else if k <= 2 then GoodPickPoints
      else if k <= 5 then AcceptablePickPoints
      else SuboptimalPickPoints
  }

  function VerdictOf(rank: Option<nat>, recs: seq<DraftRecommendation>): Verdict
    requires rank.Some? ==> rank.value < |recs|
  {
    match rank
    case None => Unconventional
    case Some(k) =>
      if k == 0 then OptimalPick(if recs[0].reasoning != [] then Some(recs[0].reasoning[0]) else None)
      else if k <= 2 then GoodPick(k + 1)
      else if k <= 5 then AcceptablePick
      else SuboptimalPick
  }

  /** `int(max(0, 30 - t) * 10)`. */
  function TimeBonus(t: real): (r: int)
    ensures r >= 0
    ensures t >= 30.0 ==> r == 0
    ensures t < 30.0 ==> r as real <= (30.0 - t) * 10.0 < r as real + 1.0
    ensures t >= 0.0 ==> r <= 300
  {
    (MaxReal(0.0, 30.0 - t) * 10.0).Floor
  }

  /** The bonuses only a top-ranked move can earn, given the counters after the move. */
  function OptimalBonuses(rank: Option<nat>, next: Counters): seq<Bonus> {
    if rank != Some(0) then []
    else
      (if next.perfect == 1 then [Bonus(FirstBlood, 50)] else [])
      + (if next.streak >= 3
         then [Bonus(ComboX3, ComboBonus(OptimalPickPoints))]
              + (if next.combo == 1 then [Bonus(ComboMaster, 150)] else [])
         else [])
  }

  /** The whole bonus list of one move, in the order the scorer appends it. */
  function BonusesOf(rank: Option<nat>, next: Counters, timeTaken: real): seq<Bonus> {
    OptimalBonuses(rank, next)
    + (if TimeBonus(timeTaken) > 200 then [Bonus(SpeedBonus, TimeBonus(timeTaken))] else [])
    + (if next.streak > 0 then [Bonus(Streak, StreakBonus(next.streak))] else [])
  }

  /** The sum of the bonus values. */
  function SumBonuses(bs: seq<Bonus>): int {
    SumBonusesTo(bs, |bs|)
  }

  /** The sum of the first `n` bonus values. */
  function SumBonusesTo(bs: seq<Bonus>, n: nat): int
    requires n <= |bs|
  {
    if n == 0 then 0 else SumBonusesTo(bs, n - 1) + bs[n - 1].value
  }

  lemma {:induction false} SumBonusesToPrefix(a: seq<Bonus>, b: seq<Bonus>, n: nat)
    requires n <= |a|
    ensures SumBonusesTo(a + b, n) == SumBonusesTo(a, n)
  {
    if n > 0 {
      SumBonusesToPrefix(a, b, n - 1);
      assert (a + b)[n - 1] == a[n - 1];
    }
  }

  lemma {:induction false} SumBonusesToAppend(a: seq<Bonus>, b: seq<Bonus>, k: nat)
    requires k <= |b|
    ensures SumBonusesTo(a + b, |a| + k) == SumBonuses(a) + SumBonusesTo(b, k)
  {
    if k == 0 {
      SumBonusesToPrefix(a, b, |a|);
    } else {
      SumBonusesToAppend(a, b, k - 1);
      assert (a + b)[|a| + k - 1] == b[k - 1];
    }
  }

  /** The bonus total of a concatenation is the sum of the totals. */
  lemma SumBonusesAppend(a: seq<Bonus>, b: seq<Bonus>)
    ensures SumBonuses(a + b) == SumBonuses(a) + SumBonuses(b)
  {
    SumBonusesToAppend(a, b, |b|);
  }

  /** The total of one move: base points, the time bonus and every bonus of the list. */
  function MoveTotal(rank: Option<nat>, next: Counters, timeTaken: real): (r: int)
    ensures r >= BaseScore(rank) + TimeBonus(timeTaken)
    ensures rank != Some(0) && TimeBonus(timeTaken) <= 200 && next.streak <= 0 ==>
      r == BaseScore(rank) + TimeBonus(timeTaken)
  {
    BonusesNonNegative(rank, next, timeTaken);
    BaseScore(rank) + TimeBonus(timeTaken) + SumBonuses(BonusesOf(rank, next, timeTaken))
  }

  /** Every bonus of a move's list is worth at least 0, so the list adds at least 0. */
  lemma BonusesNonNegative(rank: Option<nat>, next: Counters, t: real)
    ensures SumBonuses(BonusesOf(rank, next, t)) >= 0
  {
    var a := OptimalBonuses(rank, next);
    var sp := if TimeBonus(t) > 200 then [Bonus(SpeedBonus, TimeBonus(t))] else [];
    var st := if next.streak > 0 then [Bonus(Streak, StreakBonus(next.streak))] else [];
    SumBonusesAppend(a + sp, st);
    SumBonusesAppend(a, sp);
    BonusListNonNegative(a, |a|);
    BonusListNonNegative(sp, |sp|);
    BonusListNonNegative(st, |st|);
  }

  /** The scorer's search for the chosen champion among the recommendations. */
  method FindRank(recommendations: seq<DraftRecommendation>, chosen: string) returns (rank: Option<nat>)
    ensures rank == RankOf(recommendations, chosen)
  {
    var i := 0;
    while i < |recommendations| && recommendations[i].champion != chosen
      invariant 0 <= i <= |recommendations|
      invariant forall j :: 0 <= j < i ==> recommendations[j].champion != chosen
    {
      i := i + 1;
    }
    rank := if i < |recommendations| then Some(i) else None;
  }

  /**
   * The rank-dependent half of score_pick: the base points, the verdict, the
   * counter updates and the bonuses only a top-ranked move earns.
   */
  method ScoreRank(rank: Option<nat>, recommendations: seq<DraftRecommendation>, gs: GameState)
    returns (baseScore: int, verdict: Verdict, bonuses: seq<Bonus>)
    requires rank.Some? ==> rank.value < |recommendations|
    modifies gs`streakCount, gs`perfectMoves, gs`comboCount
    ensures Counters(gs.streakCount, gs.perfectMoves, gs.comboCount) ==
      NextCounters(rank, Counters(old(gs.streakCount), old(gs.perfectMoves), old(gs.comboCount)))
    ensures baseScore == BaseScore(rank)
    ensures verdict == VerdictOf(rank, recommendations)
    ensures bonuses == OptimalBonuses(rank, Counters(gs.streakCount, gs.perfectMoves, gs.comboCount))
  {
    bonuses := [];
    if rank.None? {
      baseScore := PoorPickPoints;
      verdict := Unconventional;
      gs.streakCount := 0;
    } else if rank.value == 0 {
      baseScore := OptimalPickPoints;
      verdict := OptimalPick(if recommendations[0].reasoning != [] then Some(recommendations[0].reasoning[0]) else None);
      gs.streakCount := gs.streakCount + 1;
      gs.perfectMoves := gs.perfectMoves + 1;
      if gs.perfectMoves == 1 {
        bonuses := bonuses + [Bonus(FirstBlood, 50)];
      }
      if gs.streakCount >= 3 {
        gs.comboCount := gs.comboCount + 1;
        var comboBonus := ComboBonus(baseScore);
        bonuses := bonuses + [Bonus(ComboX3, comboBonus)];
        if gs.comboCount == 1 {
          bonuses := bonuses + [Bonus(ComboMaster, 150)];
        }
      }
    } else if rank.value <= 2 {
      baseScore := GoodPickPoints;
      verdict := GoodPick(rank.value + 1);
      gs.streakCount := if gs.streakCount - 1 > 0 then gs.streakCount - 1 else 0;
    } else if rank.value <= 5 {
      baseScore := AcceptablePickPoints;
      verdict := AcceptablePick;
      gs.streakCount := 0;
    } else {
      baseScore := SuboptimalPickPoints;
      verdict := SuboptimalPick;
      gs.streakCount := 0;
    }
  }

  /**
   * score_pick: finds the rank of the chosen champion among the
   * recommendations, moves the counters of `gs`, and returns the total,
   * the verdict and the breakdown.
   */
  method ScorePick(chosen: string, recommendations: seq<DraftRecommendation>, timeTaken: real, gs: GameState)
    returns (total: int, verdict: Verdict, extras: Extras)
    modifies gs`streakCount, gs`perfectMoves, gs`comboCount
    ensures Counters(gs.streakCount, gs.perfectMoves, gs.comboCount) ==
      NextCounters(RankOf(recommendations, chosen), Counters(old(gs.streakCount), old(gs.perfectMoves), old(gs.comboCount)))
    ensures total == MoveTotal(RankOf(recommendations, chosen), Counters(gs.streakCount, gs.perfectMoves, gs.comboCount), timeTaken)
    ensures verdict == VerdictOf(RankOf(recommendations, chosen), recommendations)
    ensures extras == Extras(
      BonusesOf(RankOf(recommendations, chosen), Counters(gs.streakCount, gs.perfectMoves, gs.comboCount), timeTaken),
      gs.streakCount, gs.comboCount, BaseScore(RankOf(recommendations, chosen)), TimeBonus(timeTaken))
  {
    var chosenRank := FindRank(recommendations, chosen);
    var baseScore, bonuses;
    baseScore, verdict, bonuses := ScoreRank(chosenRank, recommendations, gs);
    var timeBonus := TimeBonus(timeTaken);
    if timeBonus > 200 {
      bonuses := bonuses + [Bonus(SpeedBonus, timeBonus)];
    }
    if gs.streakCount > 0 {
      bonuses := bonuses + [Bonus(Streak, StreakBonus(gs.streakCount))];
    }
    assert bonuses == BonusesOf(chosenRank, Counters(gs.streakCount, gs.perfectMoves, gs.comboCount), timeTaken);
    total := baseScore + timeBonus + SumBonuses(bonuses);
    extras := Extras(bonuses, gs.streakCount, gs.comboCount, baseScore, timeBonus);
  }

  /** The speed and streak bonuses come after the top-rank bonuses and are the only other entries. */
  lemma BonusesOfSplit(rank: Option<nat>, next: Counters, t: real, b: Bonus)
    requires b.name != SpeedBonus && b.name != Streak
    ensures b in BonusesOf(rank, next, t) <==> b in OptimalBonuses(rank, next)
  {
    var rest := (if TimeBonus(t) > 200 then [Bonus(SpeedBonus, TimeBonus(t))] else [])
      + (if next.streak > 0 then [Bonus(Streak, StreakBonus(next.streak))] else []);
    assert BonusesOf(rank, next, t) == OptimalBonuses(rank, next) + rest;
    assert b !in rest;
  }

  /** Three top-ranked moves in a row from a fresh game earn one Combo x3 and the one-time Combo Master on the third. */
  lemma ThirdOptimalMoveEarnsComboMaster(t: real)
    ensures var c1 := NextCounters(Some(0), Counters(0, 0, 0));
            var c2 := NextCounters(Some(0), c1);
            var c3 := NextCounters(Some(0), c2);
            var c4 := NextCounters(Some(0), c3);
            && Bonus(FirstBlood, 50) in BonusesOf(Some(0), c1, t)
            && Bonus(FirstBlood, 50) !in BonusesOf(Some(0), c2, t)
            && Bonus(ComboX3, 150) !in BonusesOf(Some(0), c2, t)
            && Bonus(ComboX3, 150) in BonusesOf(Some(0), c3, t)
            && Bonus(ComboMaster, 150) in BonusesOf(Some(0), c3, t)
            && Bonus(ComboX3, 150) in BonusesOf(Some(0), c4, t)
            && Bonus(ComboMaster, 150) !in BonusesOf(Some(0), c4, t)
  {
    var c1 := Counters(1, 1, 0);
    var c2 := Counters(2, 2, 0);
    var c3 := Counters(3, 3, 1);
    var c4 := Counters(4, 4, 2);
    assert NextCounters(Some(0), Counters(0, 0, 0)) == c1;
    assert NextCounters(Some(0), c1) == c2;
    assert NextCounters(Some(0), c2) == c3;
    assert NextCounters(Some(0), c3) == c4;
    assert ComboBonus(OptimalPickPoints) == 150;
    assert OptimalBonuses(Some(0), c1) == [Bonus(FirstBlood, 50)];
    assert OptimalBonuses(Some(0), c2) == [];
    assert OptimalBonuses(Some(0), c3) == [Bonus(ComboX3, 150), Bonus(ComboMaster, 150)];
    assert OptimalBonuses(Some(0), c4) == [Bonus(ComboX3, 150)];
    BonusesOfSplit(Some(0), c1, t, Bonus(FirstBlood, 50));
    BonusesOfSplit(Some(0), c2, t, Bonus(FirstBlood, 50));
    BonusesOfSplit(Some(0), c2, t, Bonus(ComboX3, 150));
    BonusesOfSplit(Some(0), c3, t, Bonus(ComboX3, 150));
    BonusesOfSplit(Some(0), c3, t, Bonus(ComboMaster, 150));
    BonusesOfSplit(Some(0), c4, t, Bonus(ComboX3, 150));
    BonusesOfSplit(Some(0), c4, t, Bonus(ComboMaster, 150));
  }

  /**
   * First Blood fires exactly when the move is top-ranked and no earlier
   * move was; Combo Master exactly when the streak reaches 3 with no combo
   * before; Combo x3 on every top-ranked move at a streak of 3 or more. No
   * bonus of this kind fires on any other rank.
   */
  lemma OptimalBonusesExactly(rank: Option<nat>, c: Counters)
    requires c.perfect >= 0 && c.combo >= 0
    ensures var n := NextCounters(rank, c);
      && (Bonus(FirstBlood, 50) in OptimalBonuses(rank, n) <==> rank == Some(0) && c.perfect == 0)
      && (Bonus(ComboX3, 150) in OptimalBonuses(rank, n) <==> rank == Some(0) && c.streak + 1 >= 3)
      && (Bonus(ComboMaster, 150) in OptimalBonuses(rank, n) <==> rank == Some(0) && c.streak + 1 >= 3 && c.combo == 0)
      && (rank != Some(0) ==> OptimalBonuses(rank, n) == [])
  {
    assert ComboBonus(OptimalPickPoints) == 150;
  }

  /** A streak bonus of 25 per streak step is paid after any move that leaves the streak positive. */
  lemma StreakBonusPaid(rank: Option<nat>, c: Counters, t: real)
    ensures var n := NextCounters(rank, c);
      n.streak > 0 <==> Bonus(Streak, n.streak * 25) in BonusesOf(rank, n, t)
  {
  }

  /** When the time bonus exceeds 200 it is paid twice: once as itself and once inside the bonus list. */
  lemma SpeedBonusCountedTwice(rank: Option<nat>, next: Counters, t: real)
    requires TimeBonus(t) > 200
    ensures MoveTotal(rank, next, t) ==
      BaseScore(rank) + 2 * TimeBonus(t) + SumBonuses(OptimalBonuses(rank, next))
        + (if next.streak > 0 then next.streak * 25 else 0)
  {
    var a := OptimalBonuses(rank, next);
    var sp := [Bonus(SpeedBonus, TimeBonus(t))];
    var st := if next.streak > 0 then [Bonus(Streak, StreakBonus(next.streak))] else [];
    SumBonusesAppend(a + sp, st);
    SumBonusesAppend(a, sp);
    assert SumBonusesTo(sp, 0) == 0 && SumBonusesTo(st, 0) == 0;
    assert SumBonuses(sp) == SumBonusesTo(sp, 0) + TimeBonus(t);
    if st != [] {
      assert SumBonuses(st) == SumBonusesTo(st, 0) + StreakBonus(next.streak);
    }
  }

  lemma {:induction false} BonusListNonNegative(bs: seq<Bonus>, n: nat)
    requires n <= |bs|
    requires forall i :: 0 <= i < |bs| ==> bs[i].value >= 0
    ensures SumBonusesTo(bs, n) >= 0
  {
    if n > 0 {
      BonusListNonNegative(bs, n - 1);
    }
  }

  function TimesOf(moves: seq<MoveRecord>): (r: seq<real>)
    ensures |r| == |moves|
    ensures forall i :: 0 <= i < |moves| ==> r[i] == moves[i].timeTaken
  {
    seq(|moves|, i requires 0 <= i < |moves| => moves[i].timeTaken)
  }

  /** `sum(times) / max(1, len(times))`. */
  function AverageTime(times: seq<real>): (r: real)
    ensures times == [] ==> r == 0.0
    ensures times != [] ==> r * |times| as real == Sum(times)
  {
    Sum(times) / (if |times| > 1 then |times| else 1) as real
  }

  /**
   * check_achievements: flawless at 10 perfect moves, speedster after at
   * least 10 moves averaging under 15 seconds, draft_god at a final win
   * probability of 0.9 or more, each only when not unlocked already.
   */
  function NewAchievements(unlocked: seq<string>, perfectMoves: int, times: seq<real>, finalWinProbability: real): seq<string> {
    (if perfectMoves >= 10 && "flawless" !in unlocked then ["flawless"] else [])
    + (if AverageTime(times) < 15.0 && |times| >= 10 && "speedster" !in unlocked then ["speedster"] else [])
    + (if finalWinProbability >= 0.9 && "draft_god" !in unlocked then ["draft_god"] else [])
  }

  /** Each achievement is unlocked exactly when its condition holds and it was not unlocked before; none repeats. */
  lemma NewAchievementsMeaning(unlocked: seq<string>, perfectMoves: int, times: seq<real>, p: real)
    ensures var r := NewAchievements(unlocked, perfectMoves, times, p);
      && ("flawless" in r <==> perfectMoves >= 10 && "flawless" !in unlocked)
      && ("speedster" in r <==> AverageTime(times) < 15.0 && |times| >= 10 && "speedster" !in unlocked)
      && ("draft_god" in r <==> p >= 0.9 && "draft_god" !in unlocked)
      && (forall a :: a in r ==> a !in unlocked)
      && (forall i, j :: 0 <= i < j < |r| ==> r[i] != r[j])
  {
  }

  /** Checking again right after a check unlocks nothing. */
  lemma CheckAchievementsIdempotent(unlocked: seq<string>, perfectMoves: int, times: seq<real>, p: real)
    ensures NewAchievements(unlocked + NewAchievements(unlocked, perfectMoves, times, p), perfectMoves, times, p) == []
  {
    NewAchievementsMeaning(unlocked, perfectMoves, times, p);
  }

  /** The achievement list never holds the same key twice. */
  lemma AchievementsStayDistinct(unlocked: seq<string>, perfectMoves: int, times: seq<real>, p: real)
    requires forall i, j :: 0 <= i < j < |unlocked| ==> unlocked[i] != unlocked[j]
    ensures var all := unlocked + NewAchievements(unlocked, perfectMoves, times, p);
      forall i, j :: 0 <= i < j < |all| ==> all[i] != all[j]
  {
    var added := NewAchievements(unlocked, perfectMoves, times, p);
    NewAchievementsMeaning(unlocked, perfectMoves, times, p);
    var all := unlocked + added;
    forall i, j | 0 <= i < j < |all|
      ensures all[i] != all[j]
    {
      if j >= |unlocked| {
        assert all[j] == added[j - |unlocked|];
        if i >= |unlocked| {
          assert all[i] == added[i - |unlocked|];
        } else {
          assert all[i] in unlocked;
        }
      }
    }
  }

  method CheckAchievements(gs: GameState) returns (newAchievements: seq<string>)
    modifies gs`achievements
    ensures newAchievements == NewAchievements(old(gs.achievements), gs.perfectMoves, TimesOf(gs.movesEvaluated), gs.finalWinProbability)
    ensures gs.achievements == old(gs.achievements) + newAchievements
  {
    newAchievements := [];
    if gs.perfectMoves >= 10 && "flawless" !in gs.achievements {
      newAchievements := newAchievements + ["flawless"];
      gs.achievements := gs.achievements + ["flawless"];
    }
    var times := TimesOf(gs.movesEvaluated);
    var avgTime := Sum(times) / (if |times| > 1 then |times| else 1) as real;
    if avgTime < 15.0 && |gs.movesEvaluated| >= 10 && "speedster" !in gs.achievements {
      newAchievements := newAchievements + ["speedster"];
      gs.achievements := gs.achievements + ["speedster"];
    }
    if gs.finalWinProbability >= 0.9 && "draft_god" !in gs.achievements {
      newAchievements := newAchievements + ["draft_god"];
      gs.achievements := gs.achievements + ["draft_god"];
    }
  }

  /** 800 / 500 / 300 / 100 / 0 by final win probability. */
  function WinProbabilityBonus(p: real): (b: int)
    ensures b == 800 <==> p > 0.75
    ensures b == 500 <==> 0.65 < p <= 0.75
    ensures b == 300 <==> 0.55 < p <= 0.65
    ensures b == 100 <==> 0.5 < p <= 0.55
    ensures b == 0 <==> p <= 0.5
  {
    if p > 0.75 then 800
    else if p > 0.65 then 500
    else if p > 0.55 then 300
    else if p > 0.5 then 100
    else 0
  }

  /** The bonuses of the unlocked achievements the table knows. */
  function AchievementTotal(unlocked: seq<string>): (r: int)
    ensures r >= 0
  {
    if unlocked == [] then 0
    else AchievementTotal(unlocked[..|unlocked| - 1]) + AchievementBonus(unlocked[|unlocked| - 1]).GetOr(0)
  }

  lemma {:induction false} AchievementTotalCounts(unlocked: seq<string>, key: string)
    requires key in unlocked && AchievementBonus(key).Some?
    ensures AchievementTotal(unlocked) >= AchievementBonus(key).value
  {
    var last := unlocked[|unlocked| - 1];
    if last != key {
      assert key in unlocked[..|unlocked| - 1];
      AchievementTotalCounts(unlocked[..|unlocked| - 1], key);
    }
  }

  function SumScores(moves: seq<MoveRecord>): int {
    if moves == [] then 0 else SumScores(moves[..|moves| - 1]) + moves[|moves| - 1].score
  }

  /** Legendary/S+, Master/S, Diamond/A, Platinum/B, Gold/C at 3000, 2000, 1500, 1000. */
  function RatingOf(total: int): (r: (string, string))
    ensures r == ("Legendary", "S+") <==> total >= 3000
    ensures r == ("Master", "S") <==> 2000 <= total < 3000
    ensures r == ("Diamond", "A") <==> 1500 <= total < 2000
    ensures r == ("Platinum", "B") <==> 1000 <= total < 1500
    ensures r == ("Gold", "C") <==> total < 1000
  {
    if total >= 3000 then ("Legendary", "S+")
    else if total >= 2000 then ("Master", "S")
    else if total >= 1500 then ("Diamond", "A")
    else if total >= 1000 then ("Platinum", "B")
    else ("Gold", "C")
  }

  datatype FinalScore = FinalScore(
    baseScore: int,
    winProbabilityBonus: int,
    achievementBonus: int,
    totalScore: int,
    rating: string,
    rank: string,
    movesMade: nat,
    averageMoveScore: real,
    perfectMoves: int,
    combos: int,
    achievements: seq<string>)

  /** `base / moves` when there are moves, else 0. */
  function AverageScore(base: int, moves: nat): (r: real)
    ensures moves == 0 ==> r == 0.0
    ensures base >= 0 ==> r >= 0.0
  {
    if moves > 0 then base as real / moves as real else 0.0
  }

  /** With moves made, the average times the number of moves is the base score. */
  lemma AverageScoreTimesMoves(base: int, moves: nat)
    requires moves > 0
    ensures AverageScore(base, moves) * moves as real == base as real
  {
  }

  /** calculate_final_score. */
  function FinalScoreOf(moves: seq<MoveRecord>, unlocked: seq<string>, finalWinProbability: real,
                        perfectMoves: int, combos: int): (f: FinalScore)
    ensures f.baseScore == SumScores(moves)
    ensures f.totalScore == f.baseScore + WinProbabilityBonus(finalWinProbability) + AchievementTotal(unlocked)
    ensures (f.rating, f.rank) == RatingOf(f.totalScore)
    ensures f.movesMade == |moves|
    ensures f.averageMoveScore == AverageScore(f.baseScore, |moves|)
  {
    var base := SumScores(moves);
    var wp := WinProbabilityBonus(finalWinProbability);
    var ach := AchievementTotal(unlocked);
    var total := base + wp + ach;
    var rr := RatingOf(total);
    FinalScore(base, wp, ach, total, rr.0, rr.1, |moves|,
               AverageScore(base, |moves|),
               perfectMoves, combos, unlocked)
  }

  /** A final win probability of 0.9 earns the top win-probability bonus and, once unlocked, the draft_god bonus. */
  lemma DraftGodRewarded(moves: seq<MoveRecord>, unlocked: seq<string>, p: real, perfectMoves: int, combos: int)
    requires p >= 0.9
    ensures var after := unlocked + NewAchievements(unlocked, perfectMoves, TimesOf(moves), p);
      FinalScoreOf(moves, after, p, perfectMoves, combos).totalScore >= SumScores(moves) + 800 + 300
  {
    var after := unlocked + NewAchievements(unlocked, perfectMoves, TimesOf(moves), p);
    NewAchievementsMeaning(unlocked, perfectMoves, TimesOf(moves), p);
    assert "draft_god" in after;
    AchievementTotalCounts(after, "draft_god");
  }

  datatype Celebration = Celebration(effects: seq<string>, message: string, rank: string, title: string)

  function BandEffects(score: int): seq<string> {
    if score >= 3000 then ["fireworks", "gold_rain", "epic_sound"]
    else if score >= 2000 then ["confetti", "sparkles", "victory_sound"]
    else if score >= 1500 then ["stars", "shimmer"]
    else if score >= 1000 then ["glow"]
    else []
  }

  function BandMessage(score: int): string {
    if score >= 3000 then "LEGENDARY PERFORMANCE! You are a Draft Master!"
    else if score >= 2000 then "OUTSTANDING! Master-level drafting!"
    else if score >= 1500 then "Excellent work! Diamond-tier performance!"
    else if score >= 1000 then "Well played! Solid drafting!"
    else "Good effort! Keep practicing!"
  }

  const FlawlessMessage := "FLAWLESS VICTORY! Perfect draft!"
  const DraftGodMessage := "DRAFT GOD! 90%+ win probability achieved!"

  /**
   * _get_celebration: the score band picks effects and message; a new
   * flawless adds a rainbow burst and its message, a new draft_god adds
   * lightning and its message, which wins when both are new.
   */
  function CelebrationOf(f: FinalScore, newAchievements: seq<string>): (c: Celebration)
    ensures "draft_god" in newAchievements ==> c.message == DraftGodMessage
    ensures "flawless" in newAchievements && "draft_god" !in newAchievements ==> c.message == FlawlessMessage
    ensures "flawless" !in newAchievements && "draft_god" !in newAchievements ==> c.message == BandMessage(f.totalScore)
    ensures c.effects == BandEffects(f.totalScore)
      + (if "flawless" in newAchievements then ["rainbow_burst"] else [])
      + (if "draft_god" in newAchievements then ["lightning"] else [])
    ensures c.rank == f.rank && c.title == f.rating
  {
    var effects := BandEffects(f.totalScore);
    var message := BandMessage(f.totalScore);
    var effects1 := if "flawless" in newAchievements then effects + ["rainbow_burst"] else effects;
    var message1 := if "flawless" in newAchievements then FlawlessMessage else message;
    var effects2 := if "draft_god" in newAchievements then effects1 + ["lightning"] else effects1;
    var message2 := if "draft_god" in newAchievements then DraftGodMessage else message1;
    Celebration(effects2, message2, f.rank, f.rating)
  }

  /** The celebration bands are the rating bands: Legendary gets fireworks, Gold gets no band effect. */
  lemma CelebrationMatchesRating(f: FinalScore)
    requires (f.rating, f.rank) == RatingOf(f.totalScore)
    ensures f.rating == "Legendary" <==> BandEffects(f.totalScore) == ["fireworks", "gold_rain", "epic_sound"]
    ensures f.rating == "Master" <==> BandEffects(f.totalScore) == ["confetti", "sparkles", "victory_sound"]
    ensures f.rating == "Diamond" <==> BandEffects(f.totalScore) == ["stars", "shimmer"]
    ensures f.rating == "Platinum" <==> BandEffects(f.totalScore) == ["glow"]
    ensures f.rating == "Gold" <==> BandEffects(f.totalScore) == []
  {
  }
}
