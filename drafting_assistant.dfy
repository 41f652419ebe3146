/**
 * DraftPredictor and DraftingAssistant (components/drafting_assistant.py):
 * win probability of a draft in progress, ranked pick and ban
 * recommendations, and the per-team composition analysis.
 *
 * The reasoning strings of the source are tagged `Reason` values carrying the
 * number the text would print; the synergy and counter lists carry
 * (champion, value) pairs instead of formatted text.
 */
module Drafting {
  import opened Common
  import opened Ranking
  import opened DataIngestion
  import opened ChampionTally
  import opened Graph

  datatype DraftState = DraftState(
    team1Picks: seq<string>,
    team1Bans: seq<string>,
    team2Picks: seq<string>,
    team2Bans: seq<string>,
    currentPhase: string,
    turn: int)

  datatype Priority = Critical | High | Medium | Low

  datatype Partner = Partner(champion: string, value: real)

  datatype Reason =
    | StrongSynergyWith(partners: seq<Partner>)
    | CountersPicks(opponents: seq<Partner>)
    | StrongMetaPick(power: real)
    | SolidOption
    | HighWinRate(power: real)
    | CommonlyPicked(pickRate: real)
    | CountersOurComposition
    | StandardBan

  datatype DraftRecommendation = DraftRecommendation(
    champion: string,
    winRateImpact: real,
    reasoning: seq<Reason>,
    synergies: seq<Partner>,
    counters: seq<Partner>,
    priority: Priority,
    confidence: real)

  /** The sort key of both recommenders. */
  function Impact(r: DraftRecommendation): real {
    r.winRateImpact
  }

  datatype Factors = Factors(
    team1Power: real,
    team2Power: real,
    team1Synergy: real,
    team2Synergy: real,
    counterAdvantage: real)

  datatype WinProbabilities = WinProbabilities(team1: real, team2: real, factors: Factors)

  function Team1Score(f: Factors): real {
    f.team1Power + f.team1Synergy + f.counterAdvantage
  }

  function Team2Score(f: Factors): real {
    f.team2Power + f.team2Synergy - f.counterAdvantage
  }

  /** Each score's share of the total, or an even split when the total is not positive. */
  function Normalize(score1: real, score2: real): (r: (real, real))
    ensures r.0 + r.1 == 1.0
    ensures score1 + score2 <= 0.0 ==> r == (0.5, 0.5)
    ensures score1 >= 0.0 && score2 >= 0.0 ==> 0.0 <= r.0 <= 1.0 && 0.0 <= r.1 <= 1.0
  {
    var total := score1 + score2;
    if total > 0.0 then
      assert score1 / total + score2 / total == (score1 + score2) / total;
      (score1 / total, score2 / total)
    else (0.5, 0.5)
  }

  /** With a positive total, each probability times the total gives back that team's score. */
  lemma NormalizeShares(score1: real, score2: real)
    requires score1 + score2 > 0.0
    ensures Normalize(score1, score2).0 * (score1 + score2) == score1
    ensures Normalize(score1, score2).1 * (score1 + score2) == score2
  {
  }

  /**
   * Any negative score with a positive total yields a "probability" below 0
   * and the other above 1: the normalisation only stays in [0, 1] when both
   * scores are non-negative.
   */
  lemma NormalizeCanLeaveUnitRange(score1: real, score2: real)
    requires score1 < 0.0 && score1 + score2 > 0.0
    ensures Normalize(score1, score2).0 < 0.0 && Normalize(score1, score2).1 > 1.0
  {
    NormalizeShares(score1, score2);
  }

  /** The tiers of recommend_pick. */
  function PickPriority(total: real): (p: Priority)
    ensures p == Critical <==> total > 0.65
    ensures p == High <==> 0.55 < total <= 0.65
    ensures p == Medium <==> 0.50 < total <= 0.55
    ensures p == Low <==> total <= 0.50
  {
    if total > 0.65 then Critical
    else if total > 0.55 then High
    else if total > 0.50 then Medium
    else Low
  }

  /** The tiers of recommend_ban: never Low. */
  function BanPriority(threat: real): (p: Priority)
    ensures p == Critical <==> threat > 0.6
    ensures p == High <==> 0.55 < threat <= 0.6
    ensures p == Medium <==> threat <= 0.55
    ensures p != Low
  {
    if threat > 0.6 then Critical
    else if threat > 0.55 then High
    else Medium
  }

  function MyPicks(s: DraftState, team: int): seq<string> {
    if team == 1 then s.team1Picks else s.team2Picks
  }

  function OpponentPicksOf(s: DraftState, team: int): seq<string> {
    if team == 1 then s.team2Picks else s.team1Picks
  }

  class DraftPredictor {
    const graph: ChampionGraph

    constructor(championGraph: ChampionGraph)
      ensures graph == championGraph
    {
      graph := championGraph;
    }

    /** Mean champion power of a roster; 0.5 for a roster with no picks. */
    function TeamPower(picks: seq<string>): real
      reads graph
    {
      if picks == [] then 0.5 else Mean(graph.Powers(picks))
    }

    function FactorsOf(s: DraftState): Factors
      reads graph
    {
      Factors(
        TeamPower(s.team1Picks),
        TeamPower(s.team2Picks),
        graph.TeamSynergy(s.team1Picks),
        graph.TeamSynergy(s.team2Picks),
        graph.CounterScore(s.team1Picks, s.team2Picks))
    }

    /**
     * Team 1's score is its power, synergy and counter advantage; team 2's
     * the same with the advantage subtracted; the probabilities are their
     * shares of the total.
     */
    function PredictWinProbability(s: DraftState): (r: WinProbabilities)
      reads graph
      ensures r.factors == FactorsOf(s)
      ensures r.team1 + r.team2 == 1.0
    {
      var f := FactorsOf(s);
      var p := Normalize(Team1Score(f), Team2Score(f));
      WinProbabilities(p.0, p.1, f)
    }

    /**
     * The probabilities are the two scores' shares, sum to 1, split evenly
     * when the scores do not add up to a positive total, and lie in [0, 1]
     * when neither score is negative.
     */
    lemma PredictionIsNormalized(s: DraftState)
      ensures PredictWinProbability(s).factors == FactorsOf(s)
      ensures var r := PredictWinProbability(s);
        && (r.team1, r.team2) == Normalize(Team1Score(r.factors), Team2Score(r.factors))
        && r.team1 + r.team2 == 1.0
        && (Team1Score(r.factors) + Team2Score(r.factors) <= 0.0 ==> r.team1 == 0.5 && r.team2 == 0.5)
        && (Team1Score(r.factors) >= 0.0 && Team2Score(r.factors) >= 0.0 ==>
              0.0 <= r.team1 <= 1.0 && 0.0 <= r.team2 <= 1.0)
    {
    }

    /** With no picks on either side, the prediction is an even split. */
    lemma EmptyDraftIsEven(s: DraftState)
      requires s.team1Picks == [] && s.team2Picks == []
      ensures PredictWinProbability(s).team1 == 0.5 && PredictWinProbability(s).team2 == 0.5
    {
      var f := FactorsOf(s);
      assert f == Factors(0.5, 0.5, 0.0, 0.0, 0.0);
    }

    /** Teammates whose stored synergy with `champion` exceeds 0.05, in roster order. */
    function SynergyPartners(champion: string, mine: seq<string>): seq<Partner>
      reads graph
    {
      if mine == [] then []
      else
        var m := mine[|mine| - 1];
        SynergyPartners(champion, mine[..|mine| - 1])
          + (if graph.Synergy(champion, m) > 0.05 then [Partner(m, graph.Synergy(champion, m))] else [])
    }

    /** Exactly the teammates above the threshold are listed, each with its stored synergy. */
    lemma {:induction false} SynergyPartnersMeaning(champion: string, mine: seq<string>)
      ensures forall p :: p in SynergyPartners(champion, mine) ==>
        p.champion in mine && p.value == graph.Synergy(champion, p.champion) && p.value > 0.05
      ensures forall m :: m in mine && graph.Synergy(champion, m) > 0.05 ==>
        Partner(m, graph.Synergy(champion, m)) in SynergyPartners(champion, mine)
    {
      if mine != [] {
        SynergyPartnersMeaning(champion, mine[..|mine| - 1]);
        assert forall x :: x in mine ==> x in mine[..|mine| - 1] || x == mine[|mine| - 1];
      }
    }

    /** Opponents against whom `champion`'s stored counter exceeds 0.6, in roster order. */
    function CounteredOpponents(champion: string, opponents: seq<string>): seq<Partner>
      reads graph
    {
      if opponents == [] then []
      else
        var o := opponents[|opponents| - 1];
        CounteredOpponents(champion, opponents[..|opponents| - 1])
          + (if graph.Counter(champion, o) > 0.6 then [Partner(o, graph.Counter(champion, o))] else [])
    }

    /** Exactly the opponents above the threshold are listed, each with its stored counter value. */
    lemma {:induction false} CounteredOpponentsMeaning(champion: string, opponents: seq<string>)
      ensures forall p :: p in CounteredOpponents(champion, opponents) ==>
        p.champion in opponents && p.value == graph.Counter(champion, p.champion) && p.value > 0.6
      ensures forall o :: o in opponents && graph.Counter(champion, o) > 0.6 ==>
        Partner(o, graph.Counter(champion, o)) in CounteredOpponents(champion, opponents)
    {
      if opponents != [] {
        CounteredOpponentsMeaning(champion, opponents[..|opponents| - 1]);
        assert forall x :: x in opponents ==> x in opponents[..|opponents| - 1] || x == opponents[|opponents| - 1];
      }
    }

    /** Power, plus 0.3 of the team synergy and 0.4 of the counter score with `champion` added to the roster. */
    function PickScore(s: DraftState, team: int, champion: string): real
      reads graph
    {
      var testPicks := MyPicks(s, team) + [champion];
      graph.ChampionPower(champion)
        + graph.TeamSynergy(testPicks) * 0.3
        + graph.CounterScore(testPicks, OpponentPicksOf(s, team)) * 0.4
    }

    /** The recommendation recommend_pick builds for one candidate. */
    function EvaluatePick(s: DraftState, team: int, champion: string): (r: DraftRecommendation)
      reads graph
      ensures r.champion == champion
    {
      var mine := MyPicks(s, team);
      var opponents := OpponentPicksOf(s, team);
      var power := graph.ChampionPower(champion);
      var total := PickScore(s, team, champion);
      var synergies := SynergyPartners(champion, mine);
      var counters := CounteredOpponents(champion, opponents);
      var reasoning :=
        (if synergies != [] then [StrongSynergyWith(Prefix(synergies, 2))] else [])
        + (if counters != [] then [CountersPicks(Prefix(counters, 2))] else [])
        + (if power > 0.52 then [StrongMetaPick(power)] else []);
      DraftRecommendation(
        champion,
        total - 0.5,
        if reasoning == [] then [SolidOption] else reasoning,
        synergies,
        counters,
        PickPriority(total),
        MinReal(power * 2.0, 1.0))
    }

    /**
     * A pick candidate's impact is its score less 0.5, its priority follows the
     * score, its reasons are never empty and fall back to "solid option" exactly
     * when nothing else applies, and its confidence saturates at 1.0 from a
     * power of 0.5 on.
     */
    lemma EvaluatePickMeaning(s: DraftState, team: int, champion: string)
      ensures var r := EvaluatePick(s, team, champion);
        && r.winRateImpact == PickScore(s, team, champion) - 0.5
        && r.priority == PickPriority(r.winRateImpact + 0.5)
        && r.reasoning != []
        && (r.reasoning == [SolidOption] <==>
            r.synergies == [] && r.counters == [] && graph.ChampionPower(champion) <= 0.52)
        && r.confidence <= 1.0
        && (r.confidence == 1.0 <==> graph.ChampionPower(champion) >= 0.5)
    {
      var power := graph.ChampionPower(champion);
      var synergies := SynergyPartners(champion, MyPicks(s, team));
      var counters := CounteredOpponents(champion, OpponentPicksOf(s, team));
      var reasoning :=
        (if synergies != [] then [StrongSynergyWith(Prefix(synergies, 2))] else [])
        + (if counters != [] then [CountersPicks(Prefix(counters, 2))] else [])
        + (if power > 0.52 then [StrongMetaPick(power)] else []);
      assert reasoning != [] ==> reasoning[0] != SolidOption;
    }

    /** Mean of `counters[champion].get(m, 0.5)` over our picks, less 0.5; 0 with no picks. */
    function ThreatToUs(champion: string, mine: seq<string>): (r: real)
      reads graph
      ensures mine == [] ==> r == 0.0
    {
      if mine == [] then 0.0
      else Mean(seq(|mine|, i requires 0 <= i < |mine| reads graph => graph.Counter(champion, mine[i]))) - 0.5
    }

    lemma ThreatToUsInRange(champion: string, mine: seq<string>)
      requires graph.CountersInUnit()
      ensures -0.5 <= ThreatToUs(champion, mine) <= 0.5
    {
      if mine != [] {
        var threats := seq(|mine|, i requires 0 <= i < |mine| reads graph => graph.Counter(champion, mine[i]));
        MeanBounds(threats, 0.0, 1.0);
      }
    }

    function BanThreat(s: DraftState, team: int, champion: string): real
      reads graph
    {
      graph.ChampionPower(champion) * 0.5
        + ThreatToUs(champion, MyPicks(s, team)) * 0.3
        + graph.PickRate(champion) * 0.2
    }

    /** The recommendation recommend_ban builds for one candidate. */
    function EvaluateBan(s: DraftState, team: int, champion: string): (r: DraftRecommendation)
      reads graph
      ensures r.champion == champion
    {
      var power := graph.ChampionPower(champion);
      var pickRate := graph.PickRate(champion);
      var threatToUs := ThreatToUs(champion, MyPicks(s, team));
      var threat := BanThreat(s, team, champion);
      var reasoning :=
        (if power > 0.53 then [HighWinRate(power)] else [])
        + (if pickRate > 0.3 then [CommonlyPicked(pickRate)] else [])
        + (if threatToUs > 0.05 then [CountersOurComposition] else []);
      DraftRecommendation(
        champion,
        threat,
        if reasoning == [] then [StandardBan] else reasoning,
        [],
        [],
        BanPriority(threat),
        MinReal(pickRate * 3.0, 1.0))
    }

    /**
     * A ban candidate's impact is its threat, its priority follows the threat,
     * and each reason appears exactly when its threshold is passed.
     */
    lemma EvaluateBanMeaning(s: DraftState, team: int, champion: string)
      ensures var r := EvaluateBan(s, team, champion);
        && r.winRateImpact == BanThreat(s, team, champion)
        && r.priority == BanPriority(r.winRateImpact)
        && r.synergies == [] && r.counters == []
        && r.reasoning != []
        && (HighWinRate(graph.ChampionPower(champion)) in r.reasoning <==> graph.ChampionPower(champion) > 0.53)
        && (CommonlyPicked(graph.PickRate(champion)) in r.reasoning <==> graph.PickRate(champion) > 0.3)
        && (CountersOurComposition in r.reasoning <==> ThreatToUs(champion, MyPicks(s, team)) > 0.05)
        && r.confidence <= 1.0
    {
    }

    /** One evaluation per champion of the pool, in pool order. */
    function PickCandidates(s: DraftState, team: int, pool: seq<string>): (r: seq<DraftRecommendation>)
      reads graph
      ensures |r| == |pool|
      ensures forall i :: 0 <= i < |pool| ==> r[i].champion == pool[i]
    {
      seq(|pool|, i requires 0 <= i < |pool| reads graph => EvaluatePick(s, team, pool[i]))
    }

    function BanCandidates(s: DraftState, team: int, pool: seq<string>): (r: seq<DraftRecommendation>)
      reads graph
      ensures |r| == |pool|
      ensures forall i :: 0 <= i < |pool| ==> r[i].champion == pool[i]
    {
      seq(|pool|, i requires 0 <= i < |pool| reads graph => EvaluateBan(s, team, pool[i]))
    }

    /** Evaluating one more champion of the pool extends the list by its evaluation. */
    lemma PickCandidatesStep(s: DraftState, team: int, pool: seq<string>, i: nat)
      requires i < |pool|
      ensures PickCandidates(s, team, pool[..i + 1]) == PickCandidates(s, team, pool[..i]) + [EvaluatePick(s, team, pool[i])]
    {
      var a := PickCandidates(s, team, pool[..i + 1]);
      var b := PickCandidates(s, team, pool[..i]) + [EvaluatePick(s, team, pool[i])];
      assert |a| == |b|;
      forall j | 0 <= j < |a|
        ensures a[j] == b[j]
      {
        if j < i {
          assert pool[..i + 1][j] == pool[..i][j];
        }
      }
    }

    /** The pick candidate list, evaluated champion by champion in pool order. */
    method EvaluatePicks(s: DraftState, team: int, pool: seq<string>) returns (candidates: seq<DraftRecommendation>)
      ensures candidates == PickCandidates(s, team, pool)
    {
      candidates := [];
      for i := 0 to |pool|
        invariant candidates == PickCandidates(s, team, pool[..i])
      {
        PickCandidatesStep(s, team, pool, i);
        candidates := candidates + [EvaluatePick(s, team, pool[i])];
      }
      assert pool[..|pool|] == pool;
    }

    /** The first 30 candidates evaluated, sorted stably by impact, best 10 kept. */
    function RankedPicks(s: DraftState, team: int, available: seq<string>): seq<DraftRecommendation>
      reads graph
    {
      Top(SortDesc(PickCandidates(s, team, Prefix(available, 30)), Impact), 10)
    }

    function RankedBans(s: DraftState, team: int, available: seq<string>): seq<DraftRecommendation>
      reads graph
    {
      Top(SortDesc(BanCandidates(s, team, Prefix(available, 30)), Impact), 10)
    }

    /** Evaluating one more champion of the pool extends the list by its evaluation. */
    lemma BanCandidatesStep(s: DraftState, team: int, pool: seq<string>, i: nat)
      requires i < |pool|
      ensures BanCandidates(s, team, pool[..i + 1]) == BanCandidates(s, team, pool[..i]) + [EvaluateBan(s, team, pool[i])]
    {
      var a := BanCandidates(s, team, pool[..i + 1]);
      var b := BanCandidates(s, team, pool[..i]) + [EvaluateBan(s, team, pool[i])];
      assert |a| == |b|;
      forall j | 0 <= j < |a|
        ensures a[j] == b[j]
      {
        if j < i {
          assert pool[..i + 1][j] == pool[..i][j];
        }
      }
    }

    /** The ban candidate list, evaluated champion by champion in pool order. */
    method EvaluateBans(s: DraftState, team: int, pool: seq<string>) returns (candidates: seq<DraftRecommendation>)
      ensures candidates == BanCandidates(s, team, pool)
    {
      candidates := [];
      for i := 0 to |pool|
        invariant candidates == BanCandidates(s, team, pool[..i])
      {
        BanCandidatesStep(s, team, pool, i);
        candidates := candidates + [EvaluateBan(s, team, pool[i])];
      }
      assert pool[..|pool|] == pool;
    }

    /** What both recommenders promise about a ranked list built from `candidates`. */
    lemma RankedFacts(candidates: seq<DraftRecommendation>, pool: seq<string>)
      requires |candidates| == |pool|
      requires forall i :: 0 <= i < |pool| ==> candidates[i].champion == pool[i]
      ensures |Top(SortDesc(candidates, Impact), 10)| == Min(10, |pool|)
      ensures forall x :: x in Top(SortDesc(candidates, Impact), 10) ==> x.champion in pool
      ensures NonIncreasing(Top(SortDesc(candidates, Impact), 10), Impact)
      ensures forall x :: x in candidates && x !in Top(SortDesc(candidates, Impact), 10) ==>
        forall i :: 0 <= i < |Top(SortDesc(candidates, Impact), 10)| ==> Impact(x) <= Impact(Top(SortDesc(candidates, Impact), 10)[i])
    {
      TopOfSorted(candidates, Impact, 10);
      forall x | x in Top(SortDesc(candidates, Impact), 10)
        ensures x.champion in pool
      {
        var i :| 0 <= i < |candidates| && candidates[i] == x;
      }
      forall x | x in candidates && x !in Top(SortDesc(candidates, Impact), 10)
        ensures forall i :: 0 <= i < |Top(SortDesc(candidates, Impact), 10)| ==> Impact(x) <= Impact(Top(SortDesc(candidates, Impact), 10)[i])
      {
        TopDominates(candidates, Impact, 10, x);
      }
    }

    /**
     * recommend_pick: at most ten recommendations, all among the first 30
     * candidates, best first, and none left out that beats one kept.
     */
    method RecommendPick(s: DraftState, team: int, available: seq<string>) returns (recs: seq<DraftRecommendation>)
      ensures recs == RankedPicks(s, team, available)
      ensures |recs| == Min(10, Min(30, |available|))
      ensures forall r :: r in recs ==> r.champion in Prefix(available, 30)
      ensures NonIncreasing(recs, Impact)
      ensures forall x :: x in PickCandidates(s, team, Prefix(available, 30)) && x !in recs ==>
        forall i :: 0 <= i < |recs| ==> Impact(x) <= Impact(recs[i])
    {
      var pool := Prefix(available, 30);
      recs := EvaluatePicks(s, team, pool);
      ghost var candidates := recs;
      RankedFacts(candidates, pool);
      recs := SortDesc(recs, Impact);
      recs := Top(recs, 10);
    }

    /** recommend_ban: the same bounds, ordered by threat. */
    method RecommendBan(s: DraftState, team: int, available: seq<string>) returns (recs: seq<DraftRecommendation>)
      ensures recs == RankedBans(s, team, available)
      ensures |recs| == Min(10, Min(30, |available|))
      ensures forall r :: r in recs ==> r.champion in Prefix(available, 30)
      ensures NonIncreasing(recs, Impact)
      ensures forall x :: x in BanCandidates(s, team, Prefix(available, 30)) && x !in recs ==>
        forall i :: 0 <= i < |recs| ==> Impact(x) <= Impact(recs[i])
    {
      var pool := Prefix(available, 30);
      recs := EvaluateBans(s, team, pool);
      ghost var candidates := recs;
      RankedFacts(candidates, pool);
      recs := SortDesc(recs, Impact);
      recs := Top(recs, 10);
    }
  }

  datatype Strength = StrongTeamSynergy(synergy: real) | FavorableMatchup(score: real)

  datatype Weakness = PoorTeamSynergy(synergy: real) | UnfavorableMatchup(score: real)

  datatype TeamAnalysis =
    | NoPicksYet
    | Composition(champions: seq<string>, synergyScore: real, counterScore: real,
                  strengths: seq<Strength>, weaknesses: seq<Weakness>)

  datatype DraftAnalysis = DraftAnalysis(
    winProbabilities: WinProbabilities,
    recommendations: seq<DraftRecommendation>,
    team1Analysis: TeamAnalysis,
    team2Analysis: TeamAnalysis,
    phase: string,
    turn: int)

  /** Python's `'ban' in phase`. */
  predicate HasBan(phase: string) {
    |phase| >= 3 && (phase[..3] == "ban" || HasBan(phase[1..]))
  }

  /** "ban" occurs in `phase` at position `i`. */
  predicate BanAt(phase: string, i: int) {
    0 <= i && i + 3 <= |phase| && phase[i..i + 3] == "ban"
  }

  lemma {:induction false} HasBanIffSubstring(phase: string)
    ensures HasBan(phase) <==> exists i :: BanAt(phase, i)
  {
    if |phase| >= 3 {
      HasBanIffSubstring(phase[1..]);
      if exists i :: BanAt(phase, i) {
        var i :| BanAt(phase, i);
        if i > 0 {
          assert phase[1..][i - 1..i + 2] == phase[i..i + 3];
          assert BanAt(phase[1..], i - 1);
        }
      }
      if HasBan(phase[1..]) {
        var i :| BanAt(phase[1..], i);
        assert phase[i + 1..i + 4] == phase[1..][i..i + 3];
        assert BanAt(phase, i + 1);
      }
      if phase[..3] == "ban" {
        assert BanAt(phase, 0);
      }
    }
  }

  /** The champions of `order` neither picked nor banned by either side, in `order`. */
  function Unused(order: seq<string>, s: DraftState): (r: seq<string>)
    ensures forall c :: c in r <==> c in order && c !in s.team1Picks + s.team2Picks && c !in s.team1Bans + s.team2Bans
  {
    if order == [] then []
    else
      var c := order[|order| - 1];
      var rest := Unused(order[..|order| - 1], s);
      assert forall x :: x in order <==> x in order[..|order| - 1] || x == c;
      rest + (if c !in s.team1Picks + s.team2Picks && c !in s.team1Bans + s.team2Bans then [c] else [])
  }

  /** Every champion named in a draft action of the corpus. */
  function ChampionsIn(ms: seq<ParsedMatch>): set<string> {
    if ms == [] then {} else ChampionsIn(ms[..|ms| - 1]) + ActionChampions(ms[|ms| - 1].draft.sequence)
  }

  function ActionChampions(actions: seq<DraftEntry>): set<string> {
    if actions == [] then {}
    else ActionChampions(actions[..|actions| - 1]) + {actions[|actions| - 1].champion}
  }

  /** The champions of a draft's actions are exactly the ones some action names. */
  lemma {:induction false} ActionChampionsMeaning(actions: seq<DraftEntry>, c: string)
    ensures c in ActionChampions(actions) <==> exists j :: 0 <= j < |actions| && actions[j].champion == c
  {
    if actions != [] {
      var last := |actions| - 1;
      ActionChampionsMeaning(actions[..last], c);
      if c in ActionChampions(actions[..last]) {
        var j :| 0 <= j < last && actions[..last][j].champion == c;
        assert actions[..last][j] == actions[j];
      }
      if exists j :: 0 <= j < |actions| && actions[j].champion == c {
        var j :| 0 <= j < |actions| && actions[j].champion == c;
        if j < last {
          assert actions[..last][j] == actions[j];
        }
      }
    }
  }

  /** A champion is in the corpus exactly when some match has an action naming it. */
  lemma ChampionsInMeaning(ms: seq<ParsedMatch>, c: string)
    ensures c in ChampionsIn(ms) <==>
      exists i, j :: 0 <= i < |ms| && 0 <= j < |ms[i].draft.sequence| && ms[i].draft.sequence[j].champion == c
  {
    ChampionsInMatches(ms, c);
    if c in ChampionsIn(ms) {
      var i :| 0 <= i < |ms| && c in ActionChampions(ms[i].draft.sequence);
      ActionChampionsMeaning(ms[i].draft.sequence, c);
      var j :| 0 <= j < |ms[i].draft.sequence| && ms[i].draft.sequence[j].champion == c;
    }
    if exists i, j :: 0 <= i < |ms| && 0 <= j < |ms[i].draft.sequence| && ms[i].draft.sequence[j].champion == c {
      var i, j :| 0 <= i < |ms| && 0 <= j < |ms[i].draft.sequence| && ms[i].draft.sequence[j].champion == c;
      ActionChampionsMeaning(ms[i].draft.sequence, c);
    }
  }

  lemma {:induction false} ChampionsInMatches(ms: seq<ParsedMatch>, c: string)
    ensures c in ChampionsIn(ms) <==> exists i :: 0 <= i < |ms| && c in ActionChampions(ms[i].draft.sequence)
  {
    if ms != [] {
      var last := |ms| - 1;
      ChampionsInMatches(ms[..last], c);
      if c in ChampionsIn(ms[..last]) {
        var i :| 0 <= i < last && c in ActionChampions(ms[..last][i].draft.sequence);
        assert ms[..last][i] == ms[i];
      }
      if exists i :: 0 <= i < |ms| && c in ActionChampions(ms[i].draft.sequence) {
        var i :| 0 <= i < |ms| && c in ActionChampions(ms[i].draft.sequence);
        if i < last {
          assert ms[..last][i] == ms[i];
        }
      }
    }
  }

  /** The loop that fills `all_champions` from every action of every draft. */
  method CollectChampions(ms: seq<ParsedMatch>) returns (champions: set<string>)
    ensures champions == ChampionsIn(ms)
  {
    champions := {};
    for i := 0 to |ms|
      invariant champions == ChampionsIn(ms[..i])
    {
      var actions := ms[i].draft.sequence;
      ghost var before := champions;
      for j := 0 to |actions|
        invariant champions == before + ActionChampions(actions[..j])
      {
        assert actions[..j + 1][..j] == actions[..j];
        champions := champions + {actions[j].champion};
      }
      assert actions[..|actions|] == actions;
      assert ms[..i + 1][..i] == ms[..i];
    }
    assert ms[..|ms|] == ms;
  }

  class DraftingAssistant {
    const matches: seq<ParsedMatch>
    const graph: ChampionGraph
    const predictor: DraftPredictor
    const allChampions: set<string>
    /** The iteration order of `allChampions` (a Python set): every member once. */
    const championOrder: seq<string>

    ghost predicate Valid()
      reads this
    {
      predictor.graph == graph
    }

    /**
     * Builds the graph from the corpus and collects every champion named
     * in a draft action. The set's iteration order is a parameter.
     */
    constructor(parsedMatches: seq<ParsedMatch>, order: seq<string>)
      requires forall c :: c in order <==> c in ChampionsIn(parsedMatches)
      requires forall i, j :: 0 <= i < j < |order| ==> order[i] != order[j]
      ensures Valid() && fresh(graph) && fresh(predictor)
      ensures matches == parsedMatches && championOrder == order
      ensures allChampions == ChampionsIn(parsedMatches)
      ensures graph.synergies == SynergyTable(CorpusTally(parsedMatches), map[], CorpusTally(parsedMatches).pairs.Keys)
      ensures graph.counters == CounterTable(CorpusTally(parsedMatches), CorpusTally(parsedMatches).matchups.Keys)
      ensures graph.winRates == WinRateTable(CorpusTally(parsedMatches), CorpusTally(parsedMatches).games.Keys)
      ensures graph.pickRates == PickRateTable(CorpusTally(parsedMatches), |parsedMatches|, CorpusTally(parsedMatches).games.Keys)
    {
      matches := parsedMatches;
      var g := new ChampionGraph();
      g.BuildFromMatches(parsedMatches);
      ghost var t := CorpusTally(parsedMatches);
      MergeIntoEmpty(SynergyTable(t, map[], t.pairs.Keys));
      MergeIntoEmpty(CounterTable(t, t.matchups.Keys));
      MergeIntoEmpty(WinRateTable(t, t.games.Keys));
      MergeIntoEmpty(PickRateTable(t, |parsedMatches|, t.games.Keys));
      graph := g;
      predictor := new DraftPredictor(g);
      var champions := CollectChampions(parsedMatches);
      allChampions := champions;
      championOrder := order;
    }

    /** Synergy and counter score of a roster against the other side, with their strengths and weaknesses. */
    function AnalyzeTeamComp(team: seq<string>, opponents: seq<string>): (r: TeamAnalysis)
      reads graph
      ensures team == [] <==> r == NoPicksYet
      ensures r.Composition? ==> r.champions == team
      ensures r.Composition? ==> r.synergyScore == graph.TeamSynergy(team) && r.counterScore == graph.CounterScore(team, opponents)
      ensures r.Composition? ==> (StrongTeamSynergy(r.synergyScore) in r.strengths <==> r.synergyScore > 0.05)
      ensures r.Composition? ==> (PoorTeamSynergy(r.synergyScore) in r.weaknesses <==> r.synergyScore < -0.05)
      ensures r.Composition? ==> (FavorableMatchup(r.counterScore) in r.strengths <==> r.counterScore > 0.05)
      ensures r.Composition? ==> (UnfavorableMatchup(r.counterScore) in r.weaknesses <==> r.counterScore < -0.05)
      ensures r.Composition? ==> |r.strengths| + |r.weaknesses| <= 2
    {
      if team == [] then NoPicksYet
      else
        var synergy := graph.TeamSynergy(team);
        var counterScore := graph.CounterScore(team, opponents);
        Composition(
          team, synergy, counterScore,
          (if synergy > 0.05 then [StrongTeamSynergy(synergy)] else [])
            + (if counterScore > 0.05 then [FavorableMatchup(counterScore)] else []),
          (if synergy <= 0.05 && synergy < -0.05 then [PoorTeamSynergy(synergy)] else [])
            + (if counterScore <= 0.05 && counterScore < -0.05 then [UnfavorableMatchup(counterScore)] else []))
    }

    /**
     * analyze_draft: the prediction, ban recommendations exactly when the
     * phase label contains "ban" (pick recommendations otherwise) for the
     * side whose turn it is, drawn from champions no one has picked or
     * banned, and both composition analyses.
     */
    method AnalyzeDraft(s: DraftState) returns (a: DraftAnalysis)
      requires Valid()
      ensures a.winProbabilities == predictor.PredictWinProbability(s)
      ensures HasBan(s.currentPhase) ==> a.recommendations == predictor.RankedBans(s, s.turn, Unused(championOrder, s))
      ensures !HasBan(s.currentPhase) ==> a.recommendations == predictor.RankedPicks(s, s.turn, Unused(championOrder, s))
      ensures forall r :: r in a.recommendations ==>
        r.champion in championOrder && r.champion !in s.team1Picks + s.team2Picks && r.champion !in s.team1Bans + s.team2Bans
      ensures |a.recommendations| <= 10
      ensures a.team1Analysis == AnalyzeTeamComp(s.team1Picks, s.team2Picks)
      ensures a.team2Analysis == AnalyzeTeamComp(s.team2Picks, s.team1Picks)
      ensures a.phase == s.currentPhase && a.turn == s.turn
    {
      var winProbs := predictor.PredictWinProbability(s);
      var isBanPhase := HasBan(s.currentPhase);
      var available := Unused(championOrder, s);
      var recommendations;
      if isBanPhase {
        recommendations := predictor.RecommendBan(s, s.turn, available);
      } else {
        recommendations := predictor.RecommendPick(s, s.turn, available);
      }
      forall r | r in recommendations
        ensures r.champion in available
      {
        assert r.champion in Prefix(available, 30);
      }
      var team1Analysis := AnalyzeTeamComp(s.team1Picks, s.team2Picks);
      var team2Analysis := AnalyzeTeamComp(s.team2Picks, s.team1Picks);
      a := DraftAnalysis(winProbs, recommendations, team1Analysis, team2Analysis, s.currentPhase, s.turn);
    }
  }

  /**
   * On the graph an assistant builds, every synergy is the pair's win rate
   * less the 0.5 default (the win rates were still empty when synergies were
   * computed), stored only for pairs seen at least three times, and lies in
   * [-0.5, 0.5].
   */
  lemma FreshGraphSynergy(ms: seq<ParsedMatch>, synergies: map<Pair, real>, a: string, b: string)
    requires synergies == SynergyTable(CorpusTally(ms), map[], CorpusTally(ms).pairs.Keys)
    ensures (a, b) in synergies <==> Get(CorpusTally(ms).pairs, SortedPair(a, b)) >= 3
    ensures (a, b) in synergies ==> (b, a) in synergies && synergies[(a, b)] == synergies[(b, a)]
    ensures (a, b) in synergies ==> synergies[(a, b)] == PairWinRate(CorpusTally(ms), SortedPair(a, b)) - 0.5
    ensures (a, b) in synergies ==> -0.5 <= synergies[(a, b)] <= 0.5
  {
    var t := CorpusTally(ms);
    TallyWellFormed(CorpusObservations(ms));
    SynergyStoredIffSeenThrice(t, map[], a, b);
    if (a, b) in synergies {
      SynergySymmetric(t, map[], a, b);
      FreshSynergy(t, a, b);
    }
  }

  /** On a built graph, stored counters are win rates, so every counter score lies in [-0.5, 0.5]. */
  lemma BuiltCountersInUnit(ms: seq<ParsedMatch>, g: ChampionGraph, mine: seq<string>, opponents: seq<string>)
    requires g.counters == CounterTable(CorpusTally(ms), CorpusTally(ms).matchups.Keys)
    ensures g.CountersInUnit()
    ensures -0.5 <= g.CounterScore(mine, opponents) <= 0.5
  {
    TallyWellFormed(CorpusObservations(ms));
    forall q | q in g.counters
      ensures 0.0 <= g.counters[q] <= 1.0
    {
      CounterTableFacts(CorpusTally(ms), q);
    }
    g.CounterScoreInRange(mine, opponents);
  }
}
