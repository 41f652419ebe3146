/**
 * ChampionGraph (components/drafting_assistant.py): the champion relationship
 * graph built from historical matches, and its three queries.
 *
 * The nested `defaultdict`s of the source become flat maps keyed by
 * (champion, champion); a missing entry reads as the source's default
 * (synergy 0.0, counter 0.5, win rate 0.5, pick rate 0.0). The `roles`
 * dictionary is never written or read and is not modelled.
 */
module Graph {
  import opened Common
  import opened DataIngestion
  import opened ChampionTally

  class ChampionGraph {
    var synergies: map<Pair, real>
    var counters: map<Pair, real>
    var winRates: map<string, real>
    var pickRates: map<string, real>

    constructor()
      ensures synergies == map[] && counters == map[] && winRates == map[] && pickRates == map[]
    {
      synergies, counters, winRates, pickRates := map[], map[], map[], map[];
    }

    function Synergy(a: string, b: string): real
      reads this
    {
      if (a, b) in synergies then synergies[(a, b)] else 0.0
    }

    function Counter(mine: string, theirs: string): real
      reads this
    {
      if (mine, theirs) in counters then counters[(mine, theirs)] else 0.5
    }

    function WinRate(c: string): real
      reads this
    {
      WinRateOr(winRates, c)
    }

    function PickRate(c: string): real
      reads this
    {
      if c in pickRates then pickRates[c] else 0.0
    }

    /** Every stored counter is a win rate. */
    ghost predicate CountersInUnit()
      reads this
    {
      forall q :: q in counters ==> 0.0 <= counters[q] <= 1.0
    }

    /**
     * The counts are taken one team of one match at a time; then the
     * synergy pass, the counter pass, the win-rate pass and the pick-rate
     * pass each walk the keys of their count dictionary. The synergy pass
     * reads `win_rates` before the win-rate pass has written it.
     */
    method BuildFromMatches(matches: seq<ParsedMatch>)
      modifies this
      ensures synergies == old(synergies) + SynergyTable(CorpusTally(matches), old(winRates), CorpusTally(matches).pairs.Keys)
      ensures counters == old(counters) + CounterTable(CorpusTally(matches), CorpusTally(matches).matchups.Keys)
      ensures winRates == old(winRates) + WinRateTable(CorpusTally(matches), CorpusTally(matches).games.Keys)
      ensures pickRates == old(pickRates) + PickRateTable(CorpusTally(matches), |matches|, CorpusTally(matches).games.Keys)
    {
      var t := CountMatches(matches);
      TallyWellFormed(CorpusObservations(matches));
      StoreSynergies(t);
      StoreCounters(t);
      StoreWinRates(t);
      if |matches| == 0 {
        EmptyCorpus(matches);
      }
      StorePickRates(t, |matches|);
    }

    /** The synergy pass over the teammate-pair counts. */
    method StoreSynergies(t: Tally)
      modifies this`synergies
      requires SortedKeys(t.pairs.Keys)
      ensures synergies == old(synergies) + SynergyTable(t, winRates, t.pairs.Keys)
    {
      var pending := t.pairs.Keys;
      while pending != {}
        invariant pending <= t.pairs.Keys
        invariant synergies == old(synergies) + SynergyTable(t, winRates, t.pairs.Keys - pending)
        decreases |pending|
      {
        var pair :| pair in pending;
        VisitOne(t.pairs.Keys, pending, pair);
        SynergyPassStep(old(synergies), t, winRates, t.pairs.Keys - pending, pair);
        StorePairSynergy(t, pair);
        pending := pending - {pair};
      }
      assert t.pairs.Keys - pending == t.pairs.Keys;
    }

    /** One pair of the synergy pass: written both ways round when seen at least three times. */
    method StorePairSynergy(t: Tally, pair: Pair)
      modifies this`synergies
      requires pair in t.pairs
      ensures synergies == if t.pairs[pair] >= 3
        then old(synergies)[pair := SynergyValue(t, winRates, pair)][(pair.1, pair.0) := SynergyValue(t, winRates, pair)]
        else old(synergies)
    {
      var count := t.pairs[pair];
      if count >= 3 {
        var winRate := Get(t.pairWins, pair) as real / count as real;
        var expected := (WinRate(pair.0) + WinRate(pair.1)) / 2.0;
        var synergy := winRate - expected;
        synergies := synergies[pair := synergy];
        synergies := synergies[(pair.1, pair.0) := synergy];
      }
    }

    /** The counter pass over the matchup counts. */
    method StoreCounters(t: Tally)
      modifies this`counters
      ensures counters == old(counters) + CounterTable(t, t.matchups.Keys)
    {
      var pending := t.matchups.Keys;
      while pending != {}
        invariant pending <= t.matchups.Keys
        invariant counters == old(counters) + CounterTable(t, t.matchups.Keys - pending)
        decreases |pending|
      {
        var matchup :| matchup in pending;
        VisitOne(t.matchups.Keys, pending, matchup);
        CounterTableAdd(t, t.matchups.Keys - pending, matchup);
        var count := t.matchups[matchup];
        if count >= 3 {
          MergeUpdate(old(counters), CounterTable(t, t.matchups.Keys - pending), matchup, Get(t.matchupWins, matchup) as real / count as real);
          counters := counters[matchup := Get(t.matchupWins, matchup) as real / count as real];
        }
        pending := pending - {matchup};
      }
      assert t.matchups.Keys - pending == t.matchups.Keys;
    }

    /** The win-rate pass over the champion game counts. */
    method StoreWinRates(t: Tally)
      modifies this`winRates
      ensures winRates == old(winRates) + WinRateTable(t, t.games.Keys)
    {
      var pending := t.games.Keys;
      while pending != {}
        invariant pending <= t.games.Keys
        invariant winRates == old(winRates) + WinRateTable(t, t.games.Keys - pending)
        decreases |pending|
      {
        var champ :| champ in pending;
        VisitOne(t.games.Keys, pending, champ);
        WinRateTableAdd(t, t.games.Keys - pending, champ);
        var games := t.games[champ];
        if games > 0 {
          MergeUpdate(old(winRates), WinRateTable(t, t.games.Keys - pending), champ, Get(t.wins, champ) as real / games as real);
          winRates := winRates[champ := Get(t.wins, champ) as real / games as real];
        }
        pending := pending - {champ};
      }
      assert t.games.Keys - pending == t.games.Keys;
    }

    /** The pick-rate pass: games divided by the number of matches. */
    method StorePickRates(t: Tally, totalGames: nat)
      modifies this`pickRates
      requires totalGames > 0 || t.games == map[]
      ensures pickRates == old(pickRates) + PickRateTable(t, totalGames, t.games.Keys)
    {
      var pending := t.games.Keys;
      while pending != {}
        invariant pending <= t.games.Keys
        invariant totalGames > 0 || t.games.Keys == {}
        invariant pickRates == old(pickRates) + PickRateTable(t, totalGames, t.games.Keys - pending)
        decreases |pending|
      {
        var champ :| champ in pending;
        VisitOne(t.games.Keys, pending, champ);
        PickRateTableAdd(t, totalGames, t.games.Keys - pending, champ);
        MergeUpdate(old(pickRates), PickRateTable(t, totalGames, t.games.Keys - pending), champ, t.games[champ] as real / totalGames as real);
        pickRates := pickRates[champ := t.games[champ] as real / totalGames as real];
        pending := pending - {champ};
      }
      assert t.games.Keys - pending == t.games.Keys;
    }

    /** Champion power: the win rate plus a popularity bonus of at most 0.1. */
    function ChampionPower(c: string): (r: real)
      reads this
      ensures r <= WinRate(c) + 0.1
      ensures PickRate(c) >= 0.0 ==> WinRate(c) <= r
      ensures PickRate(c) >= 0.5 ==> r == WinRate(c) + 0.1
    {
      WinRate(c) + MinReal(PickRate(c) * 0.2, 0.1)
    }

    /** The power of every champion of a roster. */
    function Powers(cs: seq<string>): (r: seq<real>)
      reads this
      ensures |r| == |cs|
      ensures forall i :: 0 <= i < |cs| ==> r[i] == ChampionPower(cs[i])
    {
      seq(|cs|, i requires 0 <= i < |cs| reads this => ChampionPower(cs[i]))
    }

    /** The synergies of teammate `cs[a]` with every later teammate. */
    function SynergyRow(cs: seq<string>, a: nat): (r: seq<real>)
      reads this
      requires a < |cs|
      ensures |r| == |cs| - a - 1
      ensures forall j :: 0 <= j < |r| ==> r[j] == Synergy(cs[a], cs[a + 1 + j])
    {
      seq(|cs| - a - 1, j requires 0 <= j < |cs| - a - 1 reads this => Synergy(cs[a], cs[a + 1 + j]))
    }

    function SynergiesUpTo(cs: seq<string>, a: nat): (r: seq<real>)
      reads this
      requires a <= |cs|
      ensures 2 * |r| == a * (2 * |cs| - a - 1)
      ensures a >= 2 ==> |r| > 0
    {
      if a == 0 then [] else SynergiesUpTo(cs, a - 1) + SynergyRow(cs, a - 1)
    }

    /** The synergy of every unordered pair `i < j` of `cs`, in loop order. */
    function PairSynergies(cs: seq<string>): (r: seq<real>)
      reads this
      ensures 2 * |r| == |cs| * (|cs| - 1)
    {
      SynergiesUpTo(cs, |cs|)
    }

    /** Mean synergy over all unordered pairs; 0 for one champion or none. */
    function TeamSynergy(cs: seq<string>): (r: real)
      reads this
      ensures |cs| <= 1 ==> r == 0.0
      ensures |cs| > 1 ==> r * (|cs| * (|cs| - 1)) as real == 2.0 * Sum(PairSynergies(cs))
    {
      if |cs| <= 1 then 0.0 else Mean(PairSynergies(cs))
    }

    /** `counters[mine].get(theirs, 0.5) - 0.5` for every cross pair, in loop order. */
    function CounterRow(mine: string, opponents: seq<string>): (r: seq<real>)
      reads this
      ensures |r| == |opponents|
      ensures forall j :: 0 <= j < |r| ==> r[j] == Counter(mine, opponents[j]) - 0.5
    {
      seq(|opponents|, j requires 0 <= j < |opponents| reads this => Counter(mine, opponents[j]) - 0.5)
    }

    function CounterDeviations(mine: seq<string>, opponents: seq<string>): (r: seq<real>)
      reads this
      ensures mine != [] ==> |r| >= |opponents|
    {
      if mine == [] then []
      else CounterDeviations(mine[..|mine| - 1], opponents) + CounterRow(mine[|mine| - 1], opponents)
    }

    /** One deviation per cross pair. */
    lemma {:induction false} CounterDeviationsLength(mine: seq<string>, opponents: seq<string>)
      ensures |CounterDeviations(mine, opponents)| == |mine| * |opponents|
    {
      if mine != [] {
        CounterDeviationsLength(mine[..|mine| - 1], opponents);
      }
    }

    /** Mean of (counter - 0.5) over all cross pairs; 0 if either side is empty. */
    function CounterScore(mine: seq<string>, opponents: seq<string>): (r: real)
      reads this
      ensures mine == [] || opponents == [] ==> r == 0.0
      ensures mine != [] && opponents != [] ==> r * (|mine| * |opponents|) as real == Sum(CounterDeviations(mine, opponents))
    {
      if mine == [] || opponents == [] then 0.0
      else
        CounterDeviationsLength(mine, opponents);
        Mean(CounterDeviations(mine, opponents))
    }

    lemma {:induction false} SynergiesInRange(cs: seq<string>, a: nat, lo: real, hi: real)
      requires a <= |cs|
      requires forall q :: q in synergies ==> lo <= synergies[q] <= hi
      requires lo <= 0.0 <= hi
      ensures forall i :: 0 <= i < |SynergiesUpTo(cs, a)| ==> lo <= SynergiesUpTo(cs, a)[i] <= hi
    {
      if a > 0 {
        SynergiesInRange(cs, a - 1, lo, hi);
        var prev := SynergiesUpTo(cs, a - 1);
        var row := SynergyRow(cs, a - 1);
        forall i | 0 <= i < |prev + row|
          ensures lo <= (prev + row)[i] <= hi
        {
          if i >= |prev| {
            assert (prev + row)[i] == row[i - |prev|];
          }
        }
      }
    }

    /** If every stored synergy lies in [lo, hi] (a range holding the 0.0 default), so does a team's synergy. */
    lemma TeamSynergyInRange(cs: seq<string>, lo: real, hi: real)
      requires forall q :: q in synergies ==> lo <= synergies[q] <= hi
      requires lo <= 0.0 <= hi
      ensures lo <= TeamSynergy(cs) <= hi
    {
      if |cs| > 1 {
        SynergiesInRange(cs, |cs|, lo, hi);
        MeanBounds(PairSynergies(cs), lo, hi);
      }
    }

    /** With no synergy stored, every team's synergy is 0. */
    lemma TeamSynergyWithoutData(cs: seq<string>)
      requires synergies == map[]
      ensures TeamSynergy(cs) == 0.0
    {
      TeamSynergyInRange(cs, 0.0, 0.0);
    }

    lemma {:induction false} DeviationsInRange(mine: seq<string>, opponents: seq<string>, lo: real, hi: real)
      requires forall q :: q in counters ==> lo + 0.5 <= counters[q] <= hi + 0.5
      requires lo <= 0.0 <= hi
      ensures forall i :: 0 <= i < |CounterDeviations(mine, opponents)| ==> lo <= CounterDeviations(mine, opponents)[i] <= hi
    {
      if mine != [] {
        DeviationsInRange(mine[..|mine| - 1], opponents, lo, hi);
        var prev := CounterDeviations(mine[..|mine| - 1], opponents);
        var row := CounterRow(mine[|mine| - 1], opponents);
        forall i | 0 <= i < |prev + row|
          ensures lo <= (prev + row)[i] <= hi
        {
          if i >= |prev| {
            assert (prev + row)[i] == row[i - |prev|];
          }
        }
      }
    }

    /** With stored counters in [0, 1] (unseen matchups read 0.5), the counter score lies in [-0.5, 0.5]. */
    lemma CounterScoreInRange(mine: seq<string>, opponents: seq<string>)
      requires CountersInUnit()
      ensures -0.5 <= CounterScore(mine, opponents) <= 0.5
    {
      if mine != [] && opponents != [] {
        DeviationsInRange(mine, opponents, -0.5, 0.5);
        MeanBounds(CounterDeviations(mine, opponents), -0.5, 0.5);
      }
    }

    /** Matchups never seen at least three times contribute 0 to the counter score. */
    lemma CounterScoreWithoutData(mine: seq<string>, opponents: seq<string>)
      requires counters == map[]
      ensures CounterScore(mine, opponents) == 0.0
    {
      if mine != [] && opponents != [] {
        DeviationsInRange(mine, opponents, 0.0, 0.0);
        MeanBounds(CounterDeviations(mine, opponents), 0.0, 0.0);
      }
    }
  }
}
