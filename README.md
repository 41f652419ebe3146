# Draft Master core, modelled in Dafny

This project models the drafting core of nexus-commander in Dafny. That core is three Python files:

- **`core/data_ingestion.py`** turns a raw match record into a parsed match. A parsed match holds its metadata, its draft (the ordered pick/ban sequence with the bans and picks split out) and one stats row per team.
- **`components/drafting_assistant.py`** holds three parts:
  - the champion relationship graph learned from parsed matches: per-champion win and pick rates, pairwise synergy and pairwise counter rates;
  - the predictor that scores drafts, estimates a win probability and ranks pick or ban recommendations;
  - the assistant facade that analyses a draft state.
- **`components/draft_master_game.py`** is the player-versus-AI draft game. It starts a game against a historical match and lists the available actions with difficulty-dependent hints. It makes a move, which means:
  1. score the player's choice against the recommendations;
  2. let the AI answer;
  3. advance the phase.

  From phase 20 on the game completes. Completion computes:
  - the final win probability;
  - the achievements, final score and celebration;
  - the comparison with the real match.

  Finally the game builds a leaderboard.

Modules, in dependency order:

| Module | File | Contents |
|---|---|---|
| `Common` | `common.dfy` | small arithmetic and sequence helpers, Python's `l[:n]` with a possibly negative `n`, and the canonical pair key `tuple(sorted(...))` |
| `Ranking` | `ranking.dfy` | Python's stable `sorted(..., key, reverse=True)` as an insertion sort, and its top-`n` prefix |
| `DataIngestion` | `data_ingestion.dfy` | raw records and parsing |
| `ChampionTally` | `champion_tally.dfy` | the counting pass over matches (imperative, with loop invariants), the counting specification it meets, and the tables the graph stores |
| `Graph` | `champion_graph.dfy` | the `ChampionGraph` class, whose build methods fill its four maps in place, and its scoring functions |
| `Drafting` | `drafting_assistant.dfy` | the `DraftPredictor` and `DraftingAssistant` classes |
| `Scoring` | `draft_scoring.dfy` | the mutable `GameState` record and the move scorer, achievements, final score and celebration |
| `DraftMaster` | `draft_master.dfy` | the phase table and the `DraftMasterGame` class with its registry of active games |

How the Python constructs are represented:

- Floats are exact reals.
- Python dictionaries the code mutates are `map` fields that methods reassign.
- Human-readable reasoning strings are small tag datatypes (`Reason`, `Verdict`, `BonusName`). Each tag carries the number the string would print.
- Randomness and clocks are parameters:
  - `matchIndex` stands for `random.choice` over the matches;
  - `aiIndex` stands for the AI's random pick in easy and medium mode;
  - `gameId` stands for the timestamp-based id;
  - `now` stands for `datetime.now()`.
- Set iteration order is a parameter: `championOrder` enumerates `all_champions`.
- Dictionary iteration order inside the graph build is arbitrary (`:|`). Each build method is proved to give the same table whatever the order.
- Where the Python code would raise (a `KeyError`, an `IndexError`, an unbound local), the model states a precondition. Each one is listed under "Left out".

## Model

| member | source | states |
|---|---|---|
| Common.SortedPairCanonical | components/drafting_assistant.py:89 | the pair key is the same for both argument orders, is a fixed point of itself, and is one of the two orderings |
| Ranking.SortDescSorts | components/drafting_assistant.py:317 | sorting by a key in reverse yields a permutation (equal multisets) that is non-increasing in the key |
| Ranking.SortDescStable | components/drafting_assistant.py:317 | the sort is stable: the items sharing any one key value keep their original relative order |
| Ranking.TopDominates | components/drafting_assistant.py:317-319 | any candidate cut from the top-n list scores no higher than every candidate kept |
| Ranking.TopOfSorted | components/drafting_assistant.py:317-319 | the top-n list has min(n, len) items, each drawn from the input, in non-increasing key order |
| DataIngestion.ChampionsOfTeamMembers | core/data_ingestion.py:39-45 | a champion is listed for a team exactly when some draft entry of that team names it; the list is no longer than the draft |
| DataIngestion.ChampionsOfTeamAppend | core/data_ingestion.py:39-45 | the team filter keeps order, so filtering a concatenation concatenates the filtered parts |
| DataIngestion.OfKind | core/data_ingestion.py:247-250 | an entry is kept exactly when it is in the sequence and has the requested kind |
| DataIngestion.BansAndPicksFit | core/data_ingestion.py:247-250 | the bans and the picks together are no more than the whole draft sequence |
| DataIngestion.ExtractDraft | core/data_ingestion.py:224-252 | the sequence has one entry per raw action, in order, with the defaults for missing fields; bans and picks are exactly the sequence's entries of that kind |
| DataIngestion.WinnerOf | core/data_ingestion.py:193-208 | the first team wins if flagged as winner; otherwise the second team wins only if flagged; with fewer than two teams, or no win flag on the first team, there is no winner |
| DataIngestion.ExtractMetadata | core/data_ingestion.py:181-222 | the winner is the one WinnerOf determines; with fewer than two teams the team ids are empty and there is no winner |
| DataIngestion.ExtractTeamStats | core/data_ingestion.py:294-322 | one stats row per team in order; a row is marked as won exactly when its team id equals a non-empty winner id, so at most one team id wins |
| DataIngestion.ParseMatch | core/data_ingestion.py:141-179 | parsing fails exactly when the match has no games; otherwise metadata, draft and team stats come from the first game |
| DataIngestion.Kda | core/data_ingestion.py:78-84 | with no deaths the ratio is kills plus assists; otherwise the ratio times deaths is kills plus assists, and it lies between 0 and kills plus assists |
| ChampionTally.BumpAllGet | components/drafting_assistant.py:81-84 | counting a list of keys adds each key's number of occurrences and creates exactly the keys that occur |
| ChampionTally.OpponentPicks | components/drafting_assistant.py:95-97 | every listed opponent pick is a drafted champion of a different team |
| ChampionTally.StepCounts | components/drafting_assistant.py:75-104 | one team observation adds its roster to games, its pairs to pair games and its matchups to matchup games, and to the win counters exactly when the team won |
| ChampionTally.TallyGamesAndWins | components/drafting_assistant.py:81-84 | a champion's tallied games and wins equal its appearances and winning appearances in all observations, so wins never exceed games |
| ChampionTally.PairKeysSorted | components/drafting_assistant.py:87-89 | every pair key produced from a roster is in canonical sorted order |
| ChampionTally.StepWellFormed | components/drafting_assistant.py:75-104 | one counting step keeps wins at most games for every champion, pair and matchup, and keeps all pair keys canonical |
| ChampionTally.TallyWellFormed | components/drafting_assistant.py:72-104 | the tally of any corpus is well formed |
| ChampionTally.CountRoster | components/drafting_assistant.py:81-84 | the loop adds one game per roster champion, and one win each when the team won |
| ChampionTally.CountPairs | components/drafting_assistant.py:87-92 | the nested loop counts every unordered roster pair once, and once as a win when the team won |
| ChampionTally.CountPairRow | components/drafting_assistant.py:88-92 | the inner loop counts the pairs of one roster champion with every later one |
| ChampionTally.CountMatchups | components/drafting_assistant.py:99-104 | the nested loop counts every (own champion, opponent champion) matchup, and as a win when the team won |
| ChampionTally.CountTeam | components/drafting_assistant.py:75-104 | processing one team stats row is exactly one counting step on that team's observation |
| ChampionTally.CountMatches | components/drafting_assistant.py:72-104 | the imperative counting pass over all matches yields the tally specified over the corpus |
| ChampionTally.CountMatch | components/drafting_assistant.py:75-104 | processing one match extends the tally by that match's team observations in order |
| ChampionTally.SynergyStoredIffSeenThrice | components/drafting_assistant.py:107-115 | a synergy is stored for (a, b) exactly when the pair was drafted together at least 3 times, and then in both directions |
| ChampionTally.SynergySymmetric | components/drafting_assistant.py:114-115 | a stored synergy has the same value in both directions |
| ChampionTally.FreshSynergy | components/drafting_assistant.py:107-115 | on a graph with no win rates yet, each stored synergy is the pair win rate minus 0.5 and lies in [-0.5, 0.5] |
| ChampionTally.CounterTableFacts | components/drafting_assistant.py:117-122 | a counter rate is stored exactly for matchups seen at least 3 times, and lies in [0, 1] |
| ChampionTally.WinRateTableInRange | components/drafting_assistant.py:124-127 | every tallied champion gets a win rate, and it lies in [0, 1] |
| ChampionTally.SynergyTableAdd | components/drafting_assistant.py:108-115 | visiting one more pair adds both directions when seen at least 3 times and changes nothing otherwise, whatever order the pairs are visited in |
| ChampionTally.CounterTableAdd | components/drafting_assistant.py:118-122 | visiting one more matchup stores its win ratio when seen at least 3 times and changes nothing otherwise |
| ChampionTally.WinRateTableAdd | components/drafting_assistant.py:125-127 | visiting one more champion stores wins over games when it has games |
| ChampionTally.PickRateTableAdd | components/drafting_assistant.py:130-132 | visiting one more champion stores games over match count |
| Graph.ChampionGraph.constructor | components/drafting_assistant.py:42-56 | a new graph has no synergies, counters, win rates or pick rates |
| Graph.ChampionGraph.BuildFromMatches | components/drafting_assistant.py:58-132 | after the build, each map is its old contents overwritten by the table specified from the corpus tally |
| Graph.ChampionGraph.StoreSynergies | components/drafting_assistant.py:106-115 | the loop over the pair dictionary stores exactly the synergy table, whatever its iteration order |
| Graph.ChampionGraph.StorePairSynergy | components/drafting_assistant.py:108-115 | one pair writes its synergy in both directions when seen at least 3 times, and nothing otherwise |
| Graph.ChampionGraph.StoreCounters | components/drafting_assistant.py:117-122 | the loop stores exactly the counter table |
| Graph.ChampionGraph.StoreWinRates | components/drafting_assistant.py:124-127 | the loop stores exactly the win-rate table |
| Graph.ChampionGraph.StorePickRates | components/drafting_assistant.py:129-132 | the loop stores exactly the pick-rate table; it never divides by zero, since with no matches there is nothing to store |
| Graph.ChampionGraph.ChampionPower | components/drafting_assistant.py:134-138 | power is at most the win rate plus 0.1, at least the win rate for non-negative pick rates, and reaches win rate plus 0.1 at pick rate 0.5 |
| Graph.ChampionGraph.CounterDeviationsLength | components/drafting_assistant.py:164-174 | one counter deviation is averaged per (mine, opponent) pair |
| Graph.ChampionGraph.SynergiesUpTo | components/drafting_assistant.py:148-151 | the pairs (i, j) with i below `a` number a(2n - a - 1)/2 for a roster of n, so there is at least one once two champions are scanned |
| Graph.ChampionGraph.PairSynergies | components/drafting_assistant.py:145-151 | a roster of n champions contributes one synergy per unordered pair, n(n - 1)/2 of them |
| Graph.ChampionGraph.TeamSynergy | components/drafting_assistant.py:140-153 | zero for at most one champion; otherwise the synergy sum over all unordered pairs divided by their number n(n - 1)/2 |
| Graph.ChampionGraph.CounterScore | components/drafting_assistant.py:155-174 | zero when either side is empty; otherwise the sum of every matchup's deviation from 0.5 divided by the number of matchups |
| Graph.ChampionGraph.TeamSynergyInRange | components/drafting_assistant.py:140-153 | team synergy, the mean over unordered pairs, stays within any bounds on the stored synergies (0 for fewer than two picks) |
| Graph.ChampionGraph.TeamSynergyWithoutData | components/drafting_assistant.py:140-153 | with no stored synergies, team synergy is 0 |
| Graph.ChampionGraph.CounterScoreInRange | components/drafting_assistant.py:155-174 | with counter rates in [0, 1], the counter score lies in [-0.5, 0.5] |
| Graph.ChampionGraph.CounterScoreWithoutData | components/drafting_assistant.py:155-174 | with no stored counters, every matchup counts as 0.5 and the counter score is 0 |
| Drafting.Normalize | components/drafting_assistant.py:217-223 | the two probabilities sum to 1; they fall back to 0.5/0.5 when the scores sum to 0 or less; they lie in [0, 1] when both scores are non-negative |
| Drafting.NormalizeShares | components/drafting_assistant.py:218-221 | with a positive total, each probability is that team's share of the total |
| Drafting.DraftPredictor.PredictWinProbability | components/drafting_assistant.py:191-235 | the two probabilities sum to 1, and the reported factors are the draft's synergy, counter and power factors for both teams |
| Drafting.NormalizeCanLeaveUnitRange | components/drafting_assistant.py:217-223 | whenever one team's score is negative and the total positive, that team's probability is below 0 and the other's above 1 |
| Drafting.PickPriority | components/drafting_assistant.py:295-302 | the four priority bands of a pick score partition the reals at 0.50, 0.55 and 0.65 |
| Drafting.BanPriority | components/drafting_assistant.py:358-363 | the three ban priority bands at 0.55 and 0.6; a ban is never low priority |
| Drafting.DraftPredictor.constructor | components/drafting_assistant.py:180-189 | the predictor reads the given graph |
| Drafting.DraftPredictor.PredictionIsNormalized | components/drafting_assistant.py:191-235 | the prediction carries the factors of the state and the normalised team scores, which sum to 1, with the documented fallback and range cases |
| Drafting.DraftPredictor.EmptyDraftIsEven | components/drafting_assistant.py:199-223 | with no picks on either side the prediction is 0.5/0.5 |
| Drafting.DraftPredictor.SynergyPartnersMeaning | components/drafting_assistant.py:273-276 | a partner is listed exactly when it is one of my picks with synergy above 0.05, with that synergy |
| Drafting.DraftPredictor.CounteredOpponentsMeaning | components/drafting_assistant.py:282-285 | an opponent is listed exactly when the candidate's counter rate against it exceeds 0.6 |
| Drafting.DraftPredictor.EvaluatePickMeaning | components/drafting_assistant.py:257-312 | impact is the pick score minus 0.5; priority is banded on the score; the reasons are never empty and fall back to "solid option" exactly when nothing else applies; confidence reaches 1 exactly at power 0.5 or more |
| Drafting.DraftPredictor.EvaluatePick | components/drafting_assistant.py:257-312 | the evaluation is of the champion asked about; its score, priority and reasons are stated by EvaluatePickMeaning |
| Drafting.DraftPredictor.ThreatToUs | components/drafting_assistant.py:338-342 | a candidate threatens an empty team by 0 |
| Drafting.DraftPredictor.ThreatToUsInRange | components/drafting_assistant.py:338-342 | with counter rates in [0, 1] the threat lies in [-0.5, 0.5] |
| Drafting.DraftPredictor.EvaluateBanMeaning | components/drafting_assistant.py:334-373 | impact is the ban threat and priority its band; each reason appears exactly when its threshold is passed; there is always at least one reason |
| Drafting.DraftPredictor.EvaluateBan | components/drafting_assistant.py:334-373 | the evaluation is of the champion asked about; its threat, priority and reasons are stated by EvaluateBanMeaning |
| Drafting.DraftPredictor.PickCandidates | components/drafting_assistant.py:255-314 | one evaluation per pool champion, in pool order |
| Drafting.DraftPredictor.BanCandidates | components/drafting_assistant.py:332-375 | one evaluation per pool champion, in pool order |
| Drafting.DraftPredictor.EvaluatePicks | components/drafting_assistant.py:255-314 | the evaluation loop builds exactly the candidate list |
| Drafting.DraftPredictor.EvaluateBans | components/drafting_assistant.py:332-375 | the evaluation loop builds exactly the candidate list |
| Drafting.DraftPredictor.RankedFacts | components/drafting_assistant.py:316-319 | the top ten have min(10, pool) items from the pool, in non-increasing impact order, and none left out beats one kept |
| Drafting.DraftPredictor.RecommendPick | components/drafting_assistant.py:237-319 | at most ten recommendations among the first 30 available, sorted by impact, none beaten by a candidate left out |
| Drafting.DraftPredictor.RecommendBan | components/drafting_assistant.py:321-380 | at most ten ban recommendations among the first 30 available, sorted by threat, none beaten by a candidate left out |
| Drafting.HasBanIffSubstring | components/drafting_assistant.py:412 | the ban test of the phase label holds exactly when "ban" occurs somewhere in it |
| Drafting.Unused | components/drafting_assistant.py:415-417 | a champion is available exactly when it is known and neither side has picked or banned it |
| Drafting.ActionChampionsMeaning | components/drafting_assistant.py:395-396 | a champion is collected from a draft exactly when some action names it |
| Drafting.ChampionsInMeaning | components/drafting_assistant.py:393-396 | a champion is known exactly when some action of some match names it |
| Drafting.ChampionsInMatches | components/drafting_assistant.py:393-396 | the known champions are the union of the champions of each match |
| Drafting.CollectChampions | components/drafting_assistant.py:393-396 | the collecting loop yields exactly the champions named in the corpus |
| Drafting.DraftingAssistant.constructor | components/drafting_assistant.py:386-396 | the assistant builds a fresh graph whose four maps are exactly the corpus tables, and knows exactly the corpus champions |
| Drafting.DraftingAssistant.AnalyzeTeamComp | components/drafting_assistant.py:442-469 | no picks gives the empty status; otherwise the analysis lists the team, its synergy is the graph's TeamSynergy and its counter score the graph's CounterScore against the opponents, each strength and weakness appears exactly when its threshold of 0.05 is passed, and there are at most two of them |
| Drafting.DraftingAssistant.AnalyzeDraft | components/drafting_assistant.py:398-440 | the analysis holds the prediction; ban or pick recommendations are chosen by whether "ban" is in the phase label; only unused champions are recommended; one composition summary per side |
| Drafting.FreshGraphSynergy | components/drafting_assistant.py:107-115 | on a freshly built graph each synergy exists exactly for pairs seen three times, is symmetric, and is the pair win rate minus 0.5, in [-0.5, 0.5] |
| Drafting.BuiltCountersInUnit | components/drafting_assistant.py:155-174 | with built counters the counter score of any two rosters lies in [-0.5, 0.5] |
| Scoring.GameState.constructor | components/draft_master_game.py:13-57 | a new game state has the given ids, names, match, teams and start time, empty rosters, phase 0, the player's turn, zero score and counters, no power-ups or achievements and no completion time; the id, player name, difficulty, match, tournament, real teams, turn flag, power-ups and start time are constant fields, which no move can change |
| Scoring.RankFrom | components/draft_master_game.py:111-115 | the rank found is the first position from the start index holding the chosen champion, and there is none exactly when no later entry holds it |
| Scoring.RankOf | components/draft_master_game.py:111-115 | the rank is the first index of the chosen champion among the recommendations, or none when it is absent |
| Scoring.NextCounters | components/draft_master_game.py:121-152 | a top pick adds one to the streak and the perfect moves, and one combo when the streak reaches 3; ranks 1-2 take one off the streak; lower or absent ranks reset it |
| Scoring.BaseScore | components/draft_master_game.py:117-152 | a champion outside the recommendations scores 0; rank 0 scores 100 and only it does; ranks 1-2 score 75, ranks 3-5 score 50 and any later rank 25 |
| Scoring.TimeBonus | components/draft_master_game.py:154 | the time bonus is ten points per second under 30, truncated, never negative, at most 300 for a non-negative time |
| Scoring.FindRank | components/draft_master_game.py:111-115 | the search loop returns the first rank of the chosen champion |
| Scoring.ScoreRank | components/draft_master_game.py:117-152 | the game counters advance as NextCounters says; the base score, verdict and optimal-move bonuses follow the rank |
| Scoring.ScorePick | components/draft_master_game.py:103-176 | the counters advance, and the total is base plus every bonus with the speed bonus counted twice |
| Scoring.ThirdOptimalMoveEarnsComboMaster | components/draft_master_game.py:128-140 | over four top picks: first blood only on the first, the x3 combo from the third on, combo master only on the third |
| Scoring.OptimalBonusesExactly | components/draft_master_game.py:131-140 | first blood exactly on the first perfect move, the x3 combo exactly when the streak reaches 3, combo master exactly when that happens with no combo yet, nothing for other ranks |
| Scoring.StreakBonusPaid | components/draft_master_game.py:158-160 | a 25-per-move streak bonus is paid exactly when the new streak is positive |
| Scoring.SpeedBonusCountedTwice | components/draft_master_game.py:154-162 | above 200 points, the speed bonus is added once as the time bonus and again as a bonus entry |
| Scoring.MoveTotal | components/draft_master_game.py:153-164 | the move total is at least the base score plus the time bonus, and equals exactly that when no bonus applies (not a top pick, no doubled speed bonus, no streak) |
| Scoring.BonusesNonNegative | components/draft_master_game.py:128-160 | the bonuses of a move add up to a non-negative amount, so no move scores below its base and time points |
| Scoring.NewAchievementsMeaning | components/draft_master_game.py:178-195 | flawless, speedster and draft god are unlocked exactly at their thresholds and only when not already unlocked; no duplicates |
| Scoring.CheckAchievementsIdempotent | components/draft_master_game.py:178-195 | checking achievements again right after unlocks nothing more |
| Scoring.AchievementsStayDistinct | components/draft_master_game.py:178-195 | the achievement list never holds an achievement twice |
| Scoring.CheckAchievements | components/draft_master_game.py:178-195 | the newly unlocked achievements are appended to the game's list and returned |
| Scoring.WinProbabilityBonus | components/draft_master_game.py:201-209 | the five win-probability bonus bands 800/500/300/100/0 at thresholds 0.75, 0.65, 0.55 and 0.5 |
| Scoring.AchievementTotal | components/draft_master_game.py:211 | the achievement bonus is never negative |
| Scoring.AchievementTotalCounts | components/draft_master_game.py:211 | every unlocked achievement with a reward contributes at least that reward |
| Scoring.RatingOf | components/draft_master_game.py:215-229 | the five rating/rank bands partition the scores at 1000, 1500, 2000 and 3000 |
| Scoring.AverageScore | components/draft_master_game.py:239 | the average is 0 with no moves and non-negative for a non-negative base |
| Scoring.AverageScoreTimesMoves | components/draft_master_game.py:239 | the average times the number of moves is the base score |
| Scoring.AverageTime | components/draft_master_game.py:531 | the average time is 0 with no moves; otherwise it times the number of moves is the sum of the times |
| Scoring.FinalScoreOf | components/draft_master_game.py:197-243 | the total is move points plus win-probability bonus plus achievement bonus, rated by its band |
| Scoring.DraftGodRewarded | components/draft_master_game.py:191-213 | a final win probability of 0.9 or more earns the 800 bonus and the 300-point draft god achievement |
| Scoring.CelebrationOf | components/draft_master_game.py:535-572 | the draft god message overrides flawless, which overrides the band message; effects are the band's plus one per special achievement |
| Scoring.CelebrationMatchesRating | components/draft_master_game.py:535-572 | each rating comes with its own celebration effects |
| DraftMaster.ActionType | components/draft_master_game.py:309-312 | a phase is a ban exactly when it is a ban phase; otherwise it is a pick |
| DraftMaster.DraftOrder | components/draft_master_game.py:308-311 | the ban phases are 0-2, 5-6 and 11-12 |
| DraftMaster.PhaseDescriptionOf | components/draft_master_game.py:599-617 | phases 0 to 13 have a description; every other phase gets the numbered fallback |
| DraftMaster.DescriptionsFollowDraftOrder | components/draft_master_game.py:599-617 | every described phase's text names a ban exactly when the phase is a ban phase |
| DraftMaster.Hints | components/draft_master_game.py:342-354 | easy shows the top 5, medium the top 3, hard the top 1 and pro none, always a prefix of the recommendations |
| DraftMaster.UnhintedMoveScoresTimeOnly | components/draft_master_game.py:342-354 | in pro mode, which has no hints, every move ranks as absent, resets the streak and earns only the time bonus |
| DraftMaster.AiChoice | components/draft_master_game.py:463-472 | the AI picks one of the recommendations, and the first one in hard and pro mode |
| DraftMaster.AiChoiceRanks | components/draft_master_game.py:463-472 | hard and pro choose the highest impact; easy draws from the top 10 and medium from the top 5 |
| DraftMaster.AiAnswer | components/draft_master_game.py:463-483 | the AI's answer is one of the recommended champions, the top one in hard and pro mode, and it carries a reason exactly when the chosen recommendation has reasoning |
| DraftMaster.FindMatchFromIsFirst | components/draft_master_game.py:577-581 | the lookup returns the first match with the id from the start index, or none exactly when no later match has it |
| DraftMaster.FindMatchIsFirst | components/draft_master_game.py:577-581 | the lookup returns the first match with the id, or none exactly when none has it |
| DraftMaster.CompareToRealMatch | components/draft_master_game.py:574-597 | there is no comparison exactly when the match is unknown; otherwise the shared champions are exactly the player picks the real team 1 also picked, similarity is 20 per shared champion, and the result is the first team row's |
| DraftMaster.SimilarityIsPercentage | components/draft_master_game.py:590-594 | with a real roster of at most five picks the similarity is a percentage |
| DraftMaster.MaxStreak | components/draft_master_game.py:530 | the best streak is the largest streak recorded by any move |
| DraftMaster.CompletedOnly | components/draft_master_game.py:621-624 | only completed games reach the leaderboard |
| DraftMaster.CompletedOnlyMembers | components/draft_master_game.py:621-624 | a game is kept exactly when it is completed |
| DraftMaster.LeaderboardFacts | components/draft_master_game.py:619-645 | the leaderboard numbers, in order, a sub-multiset of the completed games; it has min(limit, completed) entries in non-increasing score order, ranked 1, 2, …, each made from a completed game; and every completed game left out scores no more than any entry |
| DraftMaster.SortedPrefixFacts | components/draft_master_game.py:627-633 | the first `limit` games after sorting are min(limit, completed) of the completed games in non-increasing total order |
| DraftMaster.SortedPrefixKeepsBest | components/draft_master_game.py:627-633 | the sorted prefix is a sub-multiset of the games, and each game cut from it scores no more than any game kept |
| DraftMaster.SortedTakeKeepsBest | components/draft_master_game.py:627-633 | taking the first n of a non-increasing list keeps a sub-multiset and leaves out only games scoring no more than each one kept |
| DraftMaster.CutGameDominated | components/draft_master_game.py:627-633 | in a non-increasing list, a game not among the first n scores no more than each of them |
| DraftMaster.RankedEntriesOrdered | components/draft_master_game.py:632-643 | numbering sorted games keeps the scores non-increasing |
| DraftMaster.RankedEntriesFrom | components/draft_master_game.py:632-643 | entry i has rank i + 1 and is made from a completed game |
| DraftMaster.RankedEntries | components/draft_master_game.py:632-643 | one entry per game, entry i made from game i with rank i + 1 |
| DraftMaster.Leaderboard | components/draft_master_game.py:619-645 | entry i has rank i + 1, and a limit of 0 gives an empty leaderboard |
| DraftMaster.DraftMasterGame.constructor | components/draft_master_game.py:250-254 | a new game master has no active games |
| DraftMaster.DraftMasterGame.StartNewGame | components/draft_master_game.py:256-290 | the new state is registered under its id (replacing an older one, keeping its order) and copies the chosen match's id, tournament and team names; it starts at phase 0 with score 0, no moves, empty rosters, the player to move, zero streak, perfect-move and combo counters, no power-ups or achievements, no completion time and a win probability of 0.0 |
| DraftMaster.DraftMasterGame.RecommendationsLength | components/draft_master_game.py:332-339 | the hint source has at most ten recommendations, drawn from the available champions and sorted by impact |
| DraftMaster.DraftMasterGame.Recommend | components/draft_master_game.py:332-339 | a ban phase asks for ban recommendations and a pick phase for pick recommendations |
| DraftMaster.DraftMasterGame.GetAvailableActions | components/draft_master_game.py:292-358 | the action type follows the phase table; at most 50 champions are available, all known ones |
| DraftMaster.DraftMasterGame.AiMakeMove | components/draft_master_game.py:435-483 | the AI's move is AiAnswer over the recommendations made for it as team 2 after the player's move, its choice being defined; it appends that champion to its bans or picks, and it was available |
| DraftMaster.DraftMasterGame.RecordCompletion | components/draft_master_game.py:499-508 | completion stores the final win probability, appends new achievements and stamps the completion time |
| DraftMaster.DraftMasterGame.CompleteGame | components/draft_master_game.py:485-533 | the stored win probability is the predictor's team 1 estimate for the final draft, and the results are CompletionOf the game: its new achievements, final score, celebration, real-match comparison and statistics |
| DraftMaster.DraftMasterGame.CompletionOf | components/draft_master_game.py:485-533 | the summary carries the win probability, the achievements it newly earns (none already held), a total of move points plus win-probability and achievement bonuses, the final drafts, the real-match comparison and the celebration for that score |
| DraftMaster.DraftMasterGame.PlayerMove | components/draft_master_game.py:381-408 | the player's move is scored, logged and added to the score, and the champion is appended to the bans or picks of the phase's action |
| DraftMaster.DraftMasterGame.MakeMove | components/draft_master_game.py:360-433 | an unavailable champion is rejected with the state unchanged; otherwise the move is scored and logged, both sides draft, the phase advances by one and the game completes from phase 20 on, with final results holding the final drafts and win probability and the new achievements appended; before phase 20 the achievements, win probability and completion time are unchanged; in every case the game's id, player name, difficulty, historical match, tournament, real teams, turn flag, power-ups and start time stay the same |
| DraftMaster.DraftMasterGame.ApplyMove | components/draft_master_game.py:381-433 | a valid move is logged and scored, both sides draft a different available champion, the phase advances by one, and completion happens from phase 20 on, stamping the time, with final results holding the final drafts and win probability and the new achievements appended; before phase 20 achievements, win probability and completion time are unchanged |
| DraftMaster.DraftMasterGame.TakeTurns | components/draft_master_game.py:381-411 | the player then the AI each draft one champion of the phase's action, and the AI's is different and was available |
| DraftMaster.DraftMasterGame.FinishTurn | components/draft_master_game.py:413-431 | the phase advances by one; final results exist exactly from phase 20 on, stamp the completion time, hold the final drafts and the stored win probability and append their new achievements; they are CompletionOf over the moves, the counters, the final draft, the match, the achievements held before and the stored win probability, so they hold the final score, the real-match comparison, the celebration and the statistics; before phase 20 achievements, win probability and completion time are unchanged |
| DraftMaster.DraftMasterGame.AiAnswerWasFree | components/draft_master_game.py:449-452 | the AI's answer is not the player's champion and was free before the player moved |
| DraftMaster.DraftMasterGame.GetLeaderboard | components/draft_master_game.py:619-645 | the leaderboard is computed from every registered game in registration order |

## Left out

- Loading match files from disk is not modelled: `load_all_matches`, `create_dataframe` and `load_and_parse_all_data` read files and build data frames. The model starts from parsed records.
- `_extract_player_stats` and `_extract_timeline` are not modelled. Nothing in the drafting core reads per-player stats or timelines.
- The raw match record's catch-all exception handler in `parse_match` is not modelled. The raw record is a typed value with optional fields, so the only failure left is a match without games.
- `MatchMetadata.timestamp` and the stored raw JSON are not kept in a parsed match; nothing in the core reads them.
- Identifiers are strings from the start, so the model does not cover numeric JSON ids. In the source, `core/data_ingestion.py:234` keeps a draft action's drafter id as read, while lines 197, 199 and 302 convert team ids with `str(...)`. With numeric ids the two never compare equal. Then `get_team_picks` finds no picks, the graph build counts no games, wins, pairs or matchups, and the opponent filter at `components/drafting_assistant.py:95-96` keeps every pick. `_compare_to_real_match` then sees no real picks and a similarity of 0. The model describes the behaviour when ids arrive as strings.
- Floats are exact reals, so rounding, and the `:.1%` and `:.2f` formatting in reasoning strings, are not modelled. Reasons are tags that carry the value they would print.
- `DraftPredictor.draft_phases` and `ChampionGraph.roles` are never read in the source and are not modelled.
- The `DraftMove` dataclass is never used and is not modelled.
- The scorer's `time_bonus`, `synergy_bonus`, `counter_bonus` and `perfect_move_bonus` constants are never read and are not modelled.
- The `synergy_king`, `counter_strike` and `comeback_kid` achievements are never awarded. They appear only in the bonus table, so an unlocked list could not contain them.
- The unused `draft_state` argument of `score_pick` is not modelled.
- `simulate_draft_to_completion` is a stub with no behaviour and is not modelled.
- `powerups_active` is never read after initialisation; the model only keeps its empty initial value.
- `random.choice`, timestamp-based game ids and `datetime.now()` are parameters (`matchIndex`, `aiIndex`, `gameId`, `now`), so the model covers every outcome rather than a distribution.
- The iteration order of the `all_champions` set is the `championOrder` parameter. `shared_champions`, a list made from a set in arbitrary order, is a set.
- Scoring.GameState.constructor: `started_at` is a required argument. In the source it is declared without a default after fields with defaults, a dataclass layout Python refuses when the class is defined.
- DraftMaster.DraftMasterGame.StartNewGame: requires `matchIndex < |matches|`; `random.choice` fails on an empty match list.
- DraftMaster.DraftMasterGame.GetAvailableActions: requires the game id to be registered, because the source raises `KeyError`. In hard mode it requires a non-empty recommendation list, because the source indexes `[0]`.
- DraftMaster.DraftMasterGame.MakeMove: requires the game id to be registered (`KeyError` in the source). It also requires an AI difficulty that makes `_ai_make_move` define its choice: an unknown difficulty leaves `chosen` unbound. An index for easy and medium mode must fit the list, because `random.choice` fails on an empty list.
- DraftMaster.DraftMasterGame.CompleteGame: requires at least one move, because the maximum streak and the average time over no moves raise. A found historical match must have a team row, because the source reads `team_stats[0]`.
- DraftMaster.DraftMasterGame.MakeMove: like the source, it does not refuse moves after phase 20. Each later move completes the game again.
- DraftMaster.DraftMasterGame.MakeMove: does not restate which champion the AI answers with, or that the stored win probability is the predictor's estimate. AiMakeMove proves the AI's answer is AiAnswer over its recommendations, and CompleteGame proves the stored win probability. On the completing move, MakeMove states the final drafts, the win probability and the new achievements. The score, comparison, celebration and statistics are stated by FinishTurn, CompleteGame and CompletionOf, not by ApplyMove or MakeMove. Carrying these facts through the three heap states of TakeTurns and FinishTurn puts the proof over its resource bound. The AI's choice reads the predictor's graph, and the completed summary unfolds the whole final score.
- DraftMaster.DraftMasterGame.ApplyMove and DraftMaster.DraftMasterGame.TakeTurns: do not restate the AI's choice either, for the same reason. ApplyMove states the same completion facts as MakeMove, through TurnClosed.
- DraftMaster.DraftMasterGame.AiMakeMove: the recommendations are made for team 2 over a draft state whose team 1 is the AI. As in the source, the predictor therefore treats the player's picks as the AI's own picks.
- Graph.ChampionGraph.ChampionPower: the lower bound (power at least the win rate) is stated for non-negative pick rates, which is all a built graph holds.
- ChampionTally.OpponentPicks: the contract states only that each listed champion was drafted by another team. Its order and multiplicity follow the draft sequence, as the body shows.
- Drafting.DraftPredictor.EvaluatePick and Drafting.DraftPredictor.EvaluateBan: their own contracts state only which champion was evaluated. The meaning of the result is stated by `EvaluatePickMeaning` and `EvaluateBanMeaning`.
- DraftMaster.SimilarityIsPercentage: the percentage bound needs the real team to have at most five picks. The source does not check this.
