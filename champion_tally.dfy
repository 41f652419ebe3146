/**
 * The counting half of ChampionGraph.build_from_matches
 * (components/drafting_assistant.py): the six count dictionaries
 * (champion games and wins, teammate-pair games and wins, matchup games and
 * wins), defined as a fold over one observation per (match, team) and
 * filled by loop methods proved against that fold; and the four tables the
 * graph derives from the counts.
 */
module ChampionTally {
  import opened Common
  import opened DataIngestion

  type Pair = (string, string)

  /** A `defaultdict(int)` read. */
  function Get<K>(m: map<K, nat>, k: K): nat {
    if k in m then m[k] else 0
  }

  /** `m[k] += 1` on a `defaultdict(int)`. */
  function Bump<K>(m: map<K, nat>, k: K): map<K, nat> {
    m[k := Get(m, k) + 1]
  }

  /** `m[k] += 1` for every `k` of `ks`, left to right. */
  function BumpAll<K>(m: map<K, nat>, ks: seq<K>): map<K, nat> {
    if ks == [] then m else Bump(BumpAll(m, ks[..|ks| - 1]), ks[|ks| - 1])
  }

  /** Counting a list adds its number of occurrences of every key, and nothing else. */
  lemma {:induction false} BumpAllGet<K>(m: map<K, nat>, ks: seq<K>, k: K)
    ensures Get(BumpAll(m, ks), k) == Get(m, k) + Count(ks, k)
    ensures k in BumpAll(m, ks) <==> k in m || k in ks
  {
    if ks != [] {
      BumpAllGet(m, ks[..|ks| - 1], k);
      assert ks == ks[..|ks| - 1] + [ks[|ks| - 1]];
    }
  }

  lemma {:induction false} BumpAllAppend<K>(m: map<K, nat>, a: seq<K>, b: seq<K>)
    ensures BumpAll(m, a + b) == BumpAll(BumpAll(m, a), b)
  {
    if b == [] {
      assert a + b == a;
    } else {
      assert (a + b)[..|a + b| - 1] == a + b[..|b| - 1];
      BumpAllAppend(m, a, b[..|b| - 1]);
    }
  }

  /** What one team of one match contributes: its picks, the other picks of the match, and its result. */
  datatype Observation = Observation(roster: seq<string>, opponents: seq<string>, won: bool)

  /** `[p['champion'] for p in draft.picks if p['team_id'] != teamId and p['type'] == 'pick']` */
  function OpponentPicks(entries: seq<DraftEntry>, teamId: string): (r: seq<string>)
    ensures forall c :: c in r ==> exists i :: 0 <= i < |entries| && entries[i].champion == c && entries[i].teamId != teamId
  {
    if entries == [] then []
    else
      var e := entries[0];
      var rest := OpponentPicks(entries[1..], teamId);
      assert forall i :: 1 <= i < |entries| ==> entries[i] == entries[1..][i - 1];
      (if e.teamId != teamId && e.kind == "pick" then [e.champion] else []) + rest
  }

  function Observe(d: DraftData, ts: TeamStats): Observation {
    Observation(GetTeamPicks(d, ts.teamId), OpponentPicks(d.picks, ts.teamId), ts.win)
  }

  function MatchObservations(m: ParsedMatch): (r: seq<Observation>)
    ensures |r| == |m.teamStats|
    ensures forall j :: 0 <= j < |r| ==> r[j] == Observe(m.draft, m.teamStats[j])
  {
    seq(|m.teamStats|, j requires 0 <= j < |m.teamStats| => Observe(m.draft, m.teamStats[j]))
  }

  /** One observation per team of every match, in corpus order. */
  function CorpusObservations(ms: seq<ParsedMatch>): seq<Observation> {
    if ms == [] then [] else CorpusObservations(ms[..|ms| - 1]) + MatchObservations(ms[|ms| - 1])
  }

  /** The keys counted for teammate `roster[a]` against every later teammate. */
  function PairRow(roster: seq<string>, a: nat): (r: seq<Pair>)
    requires a < |roster|
    ensures |r| == |roster| - a - 1
    ensures forall j :: 0 <= j < |r| ==> r[j] == SortedPair(roster[a], roster[a + 1 + j])
  {
    seq(|roster| - a - 1, j requires 0 <= j < |roster| - a - 1 => SortedPair(roster[a], roster[a + 1 + j]))
  }

  function PairKeysUpTo(roster: seq<string>, a: nat): seq<Pair>
    requires a <= |roster|
  {
    if a == 0 then [] else PairKeysUpTo(roster, a - 1) + PairRow(roster, a - 1)
  }

  /** The sorted key of every unordered teammate pair `i < j`, in loop order. */
  function PairKeys(roster: seq<string>): seq<Pair> {
    PairKeysUpTo(roster, |roster|)
  }

  function MatchupRow(mine: string, opponents: seq<string>): (r: seq<Pair>)
    ensures |r| == |opponents|
    ensures forall j :: 0 <= j < |r| ==> r[j] == (mine, opponents[j])
  {
    seq(|opponents|, j requires 0 <= j < |opponents| => (mine, opponents[j]))
  }

  function MatchupKeysUpTo(roster: seq<string>, opponents: seq<string>, a: nat): seq<Pair>
    requires a <= |roster|
  {
    if a == 0 then [] else MatchupKeysUpTo(roster, opponents, a - 1) + MatchupRow(roster[a - 1], opponents)
  }

  /** Every (own champion, opposing champion) key, in loop order. */
  function MatchupKeys(roster: seq<string>, opponents: seq<string>): seq<Pair> {
    MatchupKeysUpTo(roster, opponents, |roster|)
  }

  /** The six count dictionaries of build_from_matches. */
  datatype Tally = Tally(
    games: map<string, nat>,
    wins: map<string, nat>,
    pairs: map<Pair, nat>,
    pairWins: map<Pair, nat>,
    matchups: map<Pair, nat>,
    matchupWins: map<Pair, nat>)

  const EmptyTally := Tally(map[], map[], map[], map[], map[], map[])

  /** What one team of one match adds to the counts. */
  function Step(t: Tally, o: Observation): Tally {
    Tally(
      BumpAll(t.games, o.roster),
      if o.won then BumpAll(t.wins, o.roster) else t.wins,
      BumpAll(t.pairs, PairKeys(o.roster)),
      if o.won then BumpAll(t.pairWins, PairKeys(o.roster)) else t.pairWins,
      BumpAll(t.matchups, MatchupKeys(o.roster, o.opponents)),
      if o.won then BumpAll(t.matchupWins, MatchupKeys(o.roster, o.opponents)) else t.matchupWins)
  }

  function TallyOf(obs: seq<Observation>): Tally {
    if obs == [] then EmptyTally else Step(TallyOf(obs[..|obs| - 1]), obs[|obs| - 1])
  }

  /**
   * Per team of a match: each picked champion's games rise by its number of
   * occurrences in the roster, and its wins by the same amount exactly when
   * the team won; likewise for pair and matchup keys.
   */
  lemma StepCounts(t: Tally, o: Observation, c: string, p: Pair)
    ensures Get(Step(t, o).games, c) == Get(t.games, c) + Count(o.roster, c)
    ensures Get(Step(t, o).wins, c) == Get(t.wins, c) + (if o.won then Count(o.roster, c) else 0)
    ensures Get(Step(t, o).pairs, p) == Get(t.pairs, p) + Count(PairKeys(o.roster), p)
    ensures Get(Step(t, o).pairWins, p) == Get(t.pairWins, p) + (if o.won then Count(PairKeys(o.roster), p) else 0)
    ensures Get(Step(t, o).matchups, p) == Get(t.matchups, p) + Count(MatchupKeys(o.roster, o.opponents), p)
    ensures Get(Step(t, o).matchupWins, p) == Get(t.matchupWins, p) + (if o.won then Count(MatchupKeys(o.roster, o.opponents), p) else 0)
  {
    BumpAllGet(t.games, o.roster, c);
    BumpAllGet(t.wins, o.roster, c);
    BumpAllGet(t.pairs, PairKeys(o.roster), p);
    BumpAllGet(t.pairWins, PairKeys(o.roster), p);
    BumpAllGet(t.matchups, MatchupKeys(o.roster, o.opponents), p);
    BumpAllGet(t.matchupWins, MatchupKeys(o.roster, o.opponents), p);
  }

  /** Games of `c` over the corpus: its occurrences in every team's roster. */
  function GamesOf(obs: seq<Observation>, c: string): nat {
    if obs == [] then 0 else GamesOf(obs[..|obs| - 1], c) + Count(obs[|obs| - 1].roster, c)
  }

  /** Wins of `c`: its occurrences in the rosters of the teams that won. */
  function WinsOf(obs: seq<Observation>, c: string): nat {
    if obs == [] then 0
    else WinsOf(obs[..|obs| - 1], c) + (if obs[|obs| - 1].won then Count(obs[|obs| - 1].roster, c) else 0)
  }

  lemma {:induction false} TallyGamesAndWins(obs: seq<Observation>, c: string)
    ensures Get(TallyOf(obs).games, c) == GamesOf(obs, c)
    ensures Get(TallyOf(obs).wins, c) == WinsOf(obs, c)
    ensures WinsOf(obs, c) <= GamesOf(obs, c)
  {
    if obs != [] {
      TallyGamesAndWins(obs[..|obs| - 1], c);
      StepCounts(TallyOf(obs[..|obs| - 1]), obs[|obs| - 1], c, ("", ""));
    }
  }

  /** Every key of the pair counts is a sorted pair. */
  lemma {:induction false} PairKeysSorted(roster: seq<string>, a: nat, p: Pair)
    requires a <= |roster|
    requires p in PairKeysUpTo(roster, a)
    ensures SortedPair(p.0, p.1) == p
  {
    if a > 0 {
      if p in PairKeysUpTo(roster, a - 1) {
        PairKeysSorted(roster, a - 1, p);
      } else {
        var row := PairRow(roster, a - 1);
        var j :| 0 <= j < |row| && row[j] == p;
        SortedPairCanonical(roster[a - 1], roster[a + j]);
      }
    }
  }

  /** Every key is the sorted form of its pair. */
  ghost predicate SortedKeys(keys: set<Pair>) {
    forall p :: p in keys ==> SortedPair(p.0, p.1) == p
  }

  /** Counts are positive for every key, wins never exceed games, and pair keys are sorted. */
  ghost predicate WellFormed(t: Tally) {
    && (forall c :: c in t.games ==> t.games[c] > 0)
    && (forall c :: Get(t.wins, c) <= Get(t.games, c))
    && (forall p :: p in t.pairs ==> t.pairs[p] > 0)
    && SortedKeys(t.pairs.Keys)
    && (forall p :: Get(t.pairWins, p) <= Get(t.pairs, p))
    && (forall p :: p in t.matchups ==> t.matchups[p] > 0)
    && (forall p :: Get(t.matchupWins, p) <= Get(t.matchups, p))
  }

  lemma StepWellFormed(t: Tally, o: Observation)
    requires WellFormed(t)
    ensures WellFormed(Step(t, o))
  {
    var s := Step(t, o);
    forall c
      ensures (c in s.games ==> s.games[c] > 0) && Get(s.wins, c) <= Get(s.games, c)
    {
      StepCounts(t, o, c, ("", ""));
      BumpAllGet(t.games, o.roster, c);
      CountPositive(o.roster, c);
    }
    forall p
      ensures (p in s.pairs ==> s.pairs[p] > 0 && SortedPair(p.0, p.1) == p) && Get(s.pairWins, p) <= Get(s.pairs, p)
    {
      StepCounts(t, o, "", p);
      BumpAllGet(t.pairs, PairKeys(o.roster), p);
      CountPositive(PairKeys(o.roster), p);
      if p !in t.pairs && p in s.pairs {
        PairKeysSorted(o.roster, |o.roster|, p);
      }
    }
    forall p
      ensures (p in s.matchups ==> s.matchups[p] > 0) && Get(s.matchupWins, p) <= Get(s.matchups, p)
    {
      StepCounts(t, o, "", p);
      BumpAllGet(t.matchups, MatchupKeys(o.roster, o.opponents), p);
      CountPositive(MatchupKeys(o.roster, o.opponents), p);
    }
  }

  lemma {:induction false} TallyWellFormed(obs: seq<Observation>)
    ensures WellFormed(TallyOf(obs))
  {
    if obs != [] {
      TallyWellFormed(obs[..|obs| - 1]);
      StepWellFormed(TallyOf(obs[..|obs| - 1]), obs[|obs| - 1]);
    }
  }

  /** The count loop for one roster: games always, wins when the team won. */
  method CountRoster(games: map<string, nat>, wins: map<string, nat>, roster: seq<string>, won: bool)
    returns (games': map<string, nat>, wins': map<string, nat>)
    ensures games' == BumpAll(games, roster)
    ensures wins' == if won then BumpAll(wins, roster) else wins
  {
    games', wins' := games, wins;
    for k := 0 to |roster|
      invariant games' == BumpAll(games, roster[..k])
      invariant wins' == if won then BumpAll(wins, roster[..k]) else wins
    {
      assert roster[..k + 1][..k] == roster[..k];
      var champ := roster[k];
      games' := games'[champ := Get(games', champ) + 1];
      if won {
        wins' := wins'[champ := Get(wins', champ) + 1];
      }
    }
    assert roster[..|roster|] == roster;
  }

  lemma BumpAllSnoc<K>(m: map<K, nat>, ks: seq<K>, k: K)
    ensures BumpAll(m, ks + [k]) == Bump(BumpAll(m, ks), k)
  {
    assert (ks + [k])[..|ks|] == ks;
  }

  /** The teammate loops `for i, c1 in enumerate(roster): for c2 in roster[i+1:]`. */
  method CountPairs(pairs: map<Pair, nat>, pairWins: map<Pair, nat>, roster: seq<string>, won: bool)
    returns (pairs': map<Pair, nat>, pairWins': map<Pair, nat>)
    ensures pairs' == BumpAll(pairs, PairKeys(roster))
    ensures pairWins' == if won then BumpAll(pairWins, PairKeys(roster)) else pairWins
  {
    pairs', pairWins' := pairs, pairWins;
    for i := 0 to |roster|
      invariant pairs' == BumpAll(pairs, PairKeysUpTo(roster, i))
      invariant pairWins' == if won then BumpAll(pairWins, PairKeysUpTo(roster, i)) else pairWins
    {
      BumpAllAppend(pairs, PairKeysUpTo(roster, i), PairRow(roster, i));
      BumpAllAppend(pairWins, PairKeysUpTo(roster, i), PairRow(roster, i));
      pairs', pairWins' := CountPairRow(pairs', pairWins', roster, i, won);
    }
  }

  /** The inner teammate loop for `roster[i]`: every later teammate. */
  method CountPairRow(pairs: map<Pair, nat>, pairWins: map<Pair, nat>, roster: seq<string>, i: nat, won: bool)
    returns (pairs': map<Pair, nat>, pairWins': map<Pair, nat>)
    requires i < |roster|
    ensures pairs' == BumpAll(pairs, PairRow(roster, i))
    ensures pairWins' == if won then BumpAll(pairWins, PairRow(roster, i)) else pairWins
  {
    pairs', pairWins' := pairs, pairWins;
    ghost var row := PairRow(roster, i);
    for j := i + 1 to |roster|
      invariant pairs' == BumpAll(pairs, row[..j - i - 1])
      invariant pairWins' == if won then BumpAll(pairWins, row[..j - i - 1]) else pairWins
    {
      var pair := SortedPair(roster[i], roster[j]);
      assert row[..j - i] == row[..j - i - 1] + [pair];
      BumpAllSnoc(pairs, row[..j - i - 1], pair);
      BumpAllSnoc(pairWins, row[..j - i - 1], pair);
      pairs' := Bump(pairs', pair);
      if won {
        pairWins' := Bump(pairWins', pair);
      }
    }
    assert row[..|roster| - i - 1] == row;
  }

  /** The matchup loops `for mine in roster: for theirs in opponents`. */
  method CountMatchups(matchups: map<Pair, nat>, matchupWins: map<Pair, nat>,
                       roster: seq<string>, opponents: seq<string>, won: bool)
    returns (matchups': map<Pair, nat>, matchupWins': map<Pair, nat>)
    ensures matchups' == BumpAll(matchups, MatchupKeys(roster, opponents))
    ensures matchupWins' == if won then BumpAll(matchupWins, MatchupKeys(roster, opponents)) else matchupWins
  {
    matchups', matchupWins' := matchups, matchupWins;
    ghost var counted: seq<Pair> := [];
    for i := 0 to |roster|
      invariant counted == MatchupKeysUpTo(roster, opponents, i)
      invariant matchups' == BumpAll(matchups, counted)
      invariant matchupWins' == if won then BumpAll(matchupWins, counted) else matchupWins
    {
      ghost var row := MatchupRow(roster[i], opponents);
      ghost var before := counted;
      for j := 0 to |opponents|
        invariant counted == before + row[..j]
        invariant matchups' == BumpAll(matchups, counted)
        invariant matchupWins' == if won then BumpAll(matchupWins, counted) else matchupWins
      {
        var matchup := (roster[i], opponents[j]);
        BumpAllSnoc(matchups, counted, matchup);
        BumpAllSnoc(matchupWins, counted, matchup);
        assert row[..j + 1] == row[..j] + [matchup];
        counted := counted + [matchup];
        matchups' := Bump(matchups', matchup);
        if won {
          matchupWins' := Bump(matchupWins', matchup);
        }
      }
      assert row[..|opponents|] == row;
    }
  }

  lemma ObservationsStep(before: seq<Observation>, mine: seq<Observation>, j: nat)
    requires j < |mine|
    ensures TallyOf(before + mine[..j + 1]) == Step(TallyOf(before + mine[..j]), mine[j])
  {
    TallyOfSnoc(before + mine[..j], mine[j]);
    assert mine[..j + 1] == mine[..j] + [mine[j]];
    assert before + mine[..j + 1] == (before + mine[..j]) + [mine[j]];
  }

  /** The three count loops for one team of one match. */
  method CountTeam(t: Tally, draft: DraftData, stat: TeamStats) returns (t': Tally)
    ensures t' == Step(t, Observe(draft, stat))
  {
    var teamId := stat.teamId;
    var teamPicks := GetTeamPicks(draft, teamId);
    var won := stat.win;
    var opponentChamps := OpponentPicks(draft.picks, teamId);
    var games, wins := CountRoster(t.games, t.wins, teamPicks, won);
    var pairs, pairWins := CountPairs(t.pairs, t.pairWins, teamPicks, won);
    var matchups, matchupWins := CountMatchups(t.matchups, t.matchupWins, teamPicks, opponentChamps, won);
    t' := Tally(games, wins, pairs, pairWins, matchups, matchupWins);
  }

  /** The counting loops of build_from_matches: every team of every match, in order. */
  method CountMatches(matches: seq<ParsedMatch>) returns (t: Tally)
    ensures t == CorpusTally(matches)
  {
    t := EmptyTally;
    for i := 0 to |matches|
      invariant t == TallyOf(CorpusObservations(matches[..i]))
    {
      t := CountMatch(t, CorpusObservations(matches[..i]), matches[i]);
      CorpusObservationsSnoc(matches, i);
    }
    assert matches[..|matches|] == matches;
  }

  /** Counts the teams of one match, in order, on top of the tally of `before`. */
  method CountMatch(t0: Tally, ghost before: seq<Observation>, m: ParsedMatch) returns (t: Tally)
    requires t0 == TallyOf(before)
    ensures t == TallyOf(before + MatchObservations(m))
  {
    t := t0;
    ghost var mine := MatchObservations(m);
    assert before + mine[..0] == before;
    for j := 0 to |m.teamStats|
      invariant t == TallyOf(before + mine[..j])
    {
      ObservationsStep(before, mine, j);
      t := CountTeam(t, m.draft, m.teamStats[j]);
    }
    assert mine[..|m.teamStats|] == mine;
  }

  /** `self.win_rates[c]` on the defaultdict whose default is 0.5. */
  function WinRateOr(winRates: map<string, real>, c: string): real {
    if c in winRates then winRates[c] else 0.5
  }

  /** Both orders of every pair of `keys`. */
  function Directions(keys: set<Pair>): set<Pair> {
    keys + set p | p in keys :: (p.1, p.0)
  }

  function PairWinRate(t: Tally, p: Pair): real
    requires Get(t.pairs, p) > 0
  {
    Get(t.pairWins, p) as real / Get(t.pairs, p) as real
  }

  /**
   * The synergy entries written for the pair keys in `done`: for a pair seen
   * at least three times, its observed win rate minus the mean of the two
   * champions' win rates as they stand in `winRates`, stored both ways round.
   */
  function SynergyTable(t: Tally, winRates: map<string, real>, done: set<Pair>): map<Pair, real> {
    map q | q in Directions(done) && Get(t.pairs, SortedPair(q.0, q.1)) >= 3 ::
      SynergyValue(t, winRates, SortedPair(q.0, q.1))
  }

  /** `win_rate - (win_rates[c1] + win_rates[c2]) / 2` for the pair key `p`. */
  function SynergyValue(t: Tally, winRates: map<string, real>, p: Pair): real
    requires Get(t.pairs, p) > 0
  {
    PairWinRate(t, p) - (WinRateOr(winRates, p.0) + WinRateOr(winRates, p.1)) / 2.0
  }

  /** The counter entries for the matchup keys in `done`: the raw matchup win rate, when seen at least three times. */
  function CounterTable(t: Tally, done: set<Pair>): map<Pair, real> {
    map q | q in done && Get(t.matchups, q) >= 3 :: Get(t.matchupWins, q) as real / Get(t.matchups, q) as real
  }

  /** The win-rate entries for the champions in `done` (`if games > 0`). */
  function WinRateTable(t: Tally, done: set<string>): map<string, real> {
    map c | c in done && Get(t.games, c) > 0 :: Get(t.wins, c) as real / Get(t.games, c) as real
  }

  /** The pick-rate entries: games divided by the number of matches. */
  function PickRateTable(t: Tally, matchCount: nat, done: set<string>): map<string, real>
    requires matchCount > 0 || done == {}
  {
    map c | c in done :: Get(t.games, c) as real / matchCount as real
  }

  /**
   * A synergy is stored exactly for the two orders of a teammate pair seen at
   * least three times.
   */
  lemma SynergyStoredIffSeenThrice(t: Tally, winRates: map<string, real>, a: string, b: string)
    requires WellFormed(t)
    ensures (a, b) in SynergyTable(t, winRates, t.pairs.Keys) <==> Get(t.pairs, SortedPair(a, b)) >= 3
    ensures (a, b) in SynergyTable(t, winRates, t.pairs.Keys) <==> (b, a) in SynergyTable(t, winRates, t.pairs.Keys)
  {
    SortedPairCanonical(a, b);
    var p := SortedPair(a, b);
    if Get(t.pairs, p) >= 3 {
      assert p in t.pairs.Keys;
      if p == (a, b) {
        assert (b, a) == (p.1, p.0);
      } else {
        assert (a, b) == (p.1, p.0);
      }
    }
  }

  /** Synergies are symmetric: both orders carry the same value. */
  lemma SynergySymmetric(t: Tally, winRates: map<string, real>, a: string, b: string)
    requires WellFormed(t)
    requires (a, b) in SynergyTable(t, winRates, t.pairs.Keys)
    ensures (b, a) in SynergyTable(t, winRates, t.pairs.Keys)
    ensures SynergyTable(t, winRates, t.pairs.Keys)[(a, b)] == SynergyTable(t, winRates, t.pairs.Keys)[(b, a)]
  {
    SynergyStoredIffSeenThrice(t, winRates, a, b);
    SortedPairCanonical(a, b);
  }

  /**
   * On a graph whose win rates are still empty (a fresh graph: the synergy
   * pass runs before the win-rate pass), the expected term is the 0.5
   * default, so a synergy is the pair's win rate minus 0.5.
   */
  lemma FreshSynergy(t: Tally, a: string, b: string)
    requires WellFormed(t)
    requires Get(t.pairs, SortedPair(a, b)) >= 3
    ensures (a, b) in SynergyTable(t, map[], t.pairs.Keys)
    ensures SynergyTable(t, map[], t.pairs.Keys)[(a, b)] == PairWinRate(t, SortedPair(a, b)) - 0.5
    ensures -0.5 <= SynergyTable(t, map[], t.pairs.Keys)[(a, b)] <= 0.5
  {
    SynergyStoredIffSeenThrice(t, map[], a, b);
    var p := SortedPair(a, b);
    RatioInUnit(Get(t.pairWins, p), Get(t.pairs, p));
  }

  /** Stored counters lie in [0, 1] and exist only for matchups seen at least three times. */
  lemma CounterTableFacts(t: Tally, q: Pair)
    requires WellFormed(t)
    ensures q in CounterTable(t, t.matchups.Keys) <==> Get(t.matchups, q) >= 3
    ensures q in CounterTable(t, t.matchups.Keys) ==> 0.0 <= CounterTable(t, t.matchups.Keys)[q] <= 1.0
  {
    if Get(t.matchups, q) >= 3 {
      assert q in t.matchups;
      RatioInUnit(Get(t.matchupWins, q), Get(t.matchups, q));
    }
  }

  /** Every computed win rate lies in [0, 1]. */
  lemma WinRateTableInRange(t: Tally, c: string)
    requires WellFormed(t)
    ensures c in WinRateTable(t, t.games.Keys) <==> c in t.games
    ensures c in t.games ==> 0.0 <= WinRateTable(t, t.games.Keys)[c] <= 1.0
  {
    if c in t.games {
      RatioInUnit(Get(t.wins, c), Get(t.games, c));
    }
  }

  /** The counts of a whole corpus of parsed matches. */
  function CorpusTally(ms: seq<ParsedMatch>): Tally {
    TallyOf(CorpusObservations(ms))
  }

  lemma TallyOfSnoc(obs: seq<Observation>, o: Observation)
    ensures TallyOf(obs + [o]) == Step(TallyOf(obs), o)
  {
    assert (obs + [o])[..|obs|] == obs;
  }

  lemma CorpusObservationsSnoc(ms: seq<ParsedMatch>, i: nat)
    requires i < |ms|
    ensures CorpusObservations(ms[..i + 1]) == CorpusObservations(ms[..i]) + MatchObservations(ms[i])
  {
    assert ms[..i + 1][..i] == ms[..i];
  }

  /** A key of the two-way synergy domain leads back to its sorted pair. */
  lemma DirectionsSource(done: set<Pair>, q: Pair)
    requires SortedKeys(done)
    requires q in Directions(done)
    ensures SortedPair(q.0, q.1) in done
  {
    if q !in done {
      var p :| p in done && q == (p.1, p.0);
      SortedPairCanonical(p.0, p.1);
    }
  }

  /** One more pair key: both orders are written when it was seen at least three times, nothing otherwise. */
  lemma SynergyTableAdd(t: Tally, winRates: map<string, real>, done: set<Pair>, p: Pair)
    requires SortedKeys(t.pairs.Keys)
    requires done <= t.pairs.Keys && p in t.pairs && p !in done
    ensures SynergyTable(t, winRates, done + {p}) ==
      if t.pairs[p] >= 3 then SynergyTable(t, winRates, done)[p := SynergyValue(t, winRates, p)][(p.1, p.0) := SynergyValue(t, winRates, p)]
      else SynergyTable(t, winRates, done)
  {
    var before := SynergyTable(t, winRates, done);
    var after := SynergyTable(t, winRates, done + {p});
    if t.pairs[p] >= 3 {
      var expected := before[p := SynergyValue(t, winRates, p)][(p.1, p.0) := SynergyValue(t, winRates, p)];
      forall q
        ensures q in after <==> q in expected
        ensures q in after ==> after[q] == expected[q]
      {
        SynergyEntry(t, winRates, done, p, q);
      }
      assert after == expected;
    } else {
      forall q
        ensures q in after <==> q in before
        ensures q in after ==> after[q] == before[q]
      {
        SynergyEntry(t, winRates, done, p, q);
      }
      assert after == before;
    }
  }

  /** The synergy pass's loop step, on top of whatever the dictionary held before. */
  lemma SynergyPassStep(base: map<Pair, real>, t: Tally, winRates: map<string, real>, done: set<Pair>, p: Pair)
    requires SortedKeys(t.pairs.Keys)
    requires done <= t.pairs.Keys && p in t.pairs && p !in done
    ensures base + SynergyTable(t, winRates, done + {p}) ==
      if t.pairs[p] >= 3 then (base + SynergyTable(t, winRates, done))[p := SynergyValue(t, winRates, p)][(p.1, p.0) := SynergyValue(t, winRates, p)]
      else base + SynergyTable(t, winRates, done)
  {
    SynergyTableAdd(t, winRates, done, p);
    if t.pairs[p] >= 3 {
      var v := SynergyValue(t, winRates, p);
      MergeUpdate(base, SynergyTable(t, winRates, done), p, v);
      MergeUpdate(base, SynergyTable(t, winRates, done)[p := v], (p.1, p.0), v);
    }
  }

  lemma SynergyEntry(t: Tally, winRates: map<string, real>, done: set<Pair>, p: Pair, q: Pair)
    requires SortedKeys(t.pairs.Keys)
    requires done <= t.pairs.Keys && p in t.pairs && p !in done
    ensures q == p || q == (p.1, p.0) ==>
      (q in SynergyTable(t, winRates, done + {p}) <==> t.pairs[p] >= 3)
    ensures (q == p || q == (p.1, p.0)) && t.pairs[p] >= 3 ==>
      SynergyTable(t, winRates, done + {p})[q] == SynergyValue(t, winRates, p)
    ensures q != p && q != (p.1, p.0) ==>
      (q in SynergyTable(t, winRates, done + {p}) <==> q in SynergyTable(t, winRates, done))
    ensures q != p && q != (p.1, p.0) && q in SynergyTable(t, winRates, done) ==>
      SynergyTable(t, winRates, done + {p})[q] == SynergyTable(t, winRates, done)[q]
  {
    SortedPairCanonical(p.0, p.1);
    if q == p || q == (p.1, p.0) {
      assert SortedPair(q.0, q.1) == p;
      assert q in Directions(done + {p});
    } else {
      assert q in Directions(done + {p}) <==> q in Directions(done);
    }
  }

  lemma CounterTableAdd(t: Tally, done: set<Pair>, q: Pair)
    requires q in t.matchups && q !in done
    ensures CounterTable(t, done + {q}) ==
      if t.matchups[q] >= 3 then CounterTable(t, done)[q := Get(t.matchupWins, q) as real / t.matchups[q] as real]
      else CounterTable(t, done)
  {
  }

  lemma WinRateTableAdd(t: Tally, done: set<string>, c: string)
    requires c in t.games && c !in done
    ensures WinRateTable(t, done + {c}) ==
      if t.games[c] > 0 then WinRateTable(t, done)[c := Get(t.wins, c) as real / t.games[c] as real]
      else WinRateTable(t, done)
  {
  }

  lemma PickRateTableAdd(t: Tally, matchCount: nat, done: set<string>, c: string)
    requires matchCount > 0 && c !in done
    ensures PickRateTable(t, matchCount, done + {c}) == PickRateTable(t, matchCount, done)[c := Get(t.games, c) as real / matchCount as real]
  {
  }

  lemma EmptyCorpus(ms: seq<ParsedMatch>)
    requires ms == []
    ensures CorpusTally(ms) == EmptyTally
  {
  }
}
