# Football match predictions: a verified model

This project models the core of a football-scores web application in Dafny:

- **The match-prediction engine** (`src/lib/prediction.ts`). From two expected-goals (xG) rates it builds a Poisson goal distribution for each side. It forms their independent 10x10 score matrix and reads off:
  - the 1X2 probabilities and fair odds;
  - the over/under lines;
  - both teams to score;
  - the five likeliest scorelines.

  It also holds the form-based xG estimate and the search for value bets against bookmaker odds.
- **The league table** (`src/data/leagues.ts`). This covers the 67 known competitions, their grouping by continent, the featured codes, and the name and flag lookups with their fallbacks.
- **The ESPN feed adapter** (`src/lib/espn-api.ts`). `parseMatch` turns a decoded scoreboard event into a match. The body of `getLeagueStandings` turns standings entries into rows sorted by position.

Files:

- `wrappers.dfy`: `Option`.
- `stable_sort.dfy`: the stable sort of `Array.prototype.sort` with a comparator `(a, b) => key(a) - key(b)`.
  - It has a functional definition (insertion from the back) and the in-place array method proved equal to it.
  - It proves that the result is sorted, is a permutation of the input, and keeps ties in order.
  - A descending comparator `b.x - a.x` is the ascending sort by `-x`.
- `score_matrix.dfy`: the score matrix and sums of its cells over regions (home win, draw, totals at most g, a blank side, ...), in the row-major order of the engine's loops.
- `prediction.dfy`: the engine.
  - Each loop of the source is a method proved equal to a specification function.
  - The promised properties are lemmas about those functions.
- `leagues.dfy`: the table as a sequence of `key: league` lines in source order, and the lookups and groups over it.
- `espn_feed.dfy`: `parseMatch` and the standings mapping and sort, on feed records whose optional fields are `Option`s.

How numbers are modelled:

- JavaScript numbers are `real`.
- `Math.round(x)` is `Floor(x + 0.5)`.
- `Math.exp` is a function parameter `exp`. Statements that need its positivity take it as a precondition.
- The bounds on probabilities need more of `exp`, stated at a rate x by `ExpFacts`. They need e^-x > 0 and e^x · e^-x = 1. They also need e^x to be at least its series up to x^9/9!. All three hold for the exponential at every real x.
- `parseInt(s, 10)` is a function parameter of type `string -> Option<int>`, where `None` stands for `NaN`.

## Model

| member | source | states |
|---|---|---|
| StableSort.SortIsSorted | src/lib/prediction.ts:89 | the sort's result is in non-decreasing order of the key |
| StableSort.SortIsPermutation | src/lib/prediction.ts:89 | the sort's result has exactly the elements of the input, with multiplicity |
| StableSort.SortIsStable | src/lib/espn-api.ts:232 | for every key, the elements with that key appear in the result in their input order |
| StableSort.SortKeepsTieOrder | src/lib/prediction.ts:196 | if equal-key elements are ordered by a rank before sorting, they still are after |
| StableSort.SortInPlace | src/lib/espn-api.ts:232 | sorting an array in place leaves exactly the sorted sequence of its old contents |
| ScoreMatrix.OuterProductSymmetric | src/lib/prediction.ts:33-39 | two sides with the same distribution give a matrix with cell (i,j) equal to cell (j,i) |
| ScoreMatrix.OutcomesPartition | src/lib/prediction.ts:46-52 | home win, draw and away win together sum to the total of all 100 cells |
| ScoreMatrix.SymmetricOutcomes | src/lib/prediction.ts:46-52 | in a symmetric matrix the home-win mass equals the away-win mass |
| ScoreMatrix.MassNoGoals | src/lib/prediction.ts:55 | the mass of scorelines with no goal is cell (0,0) |
| ScoreMatrix.MassAtMostOneGoal | src/lib/prediction.ts:56 | the mass of scorelines with at most one goal is cells (0,0)+(0,1)+(1,0) |
| ScoreMatrix.UnderThresholdsNested | src/lib/prediction.ts:58-72 | with non-negative cells the under-0.5/1.5/2.5/3.5 masses are non-decreasing |
| ScoreMatrix.OverIsMassAbove | src/lib/prediction.ts:55-72 | 1 minus the under-g mass is the mass above g plus whatever the 100 cells miss of 1 |
| ScoreMatrix.BlankSideMass | src/lib/prediction.ts:75-79 | the blank-side mass is row 0 plus column 0 minus the double-counted cell (0,0) |
| ScoreMatrix.BothScoreComplement | src/lib/prediction.ts:75-80 | 1 minus the blank-side mass is the both-score mass plus whatever the cells miss of 1 |
| ScoreMatrix.MassBounds | src/lib/prediction.ts:42-80 | with non-negative cells every region's mass lies between 0 and the total of all cells |
| ScoreMatrix.OuterProductMass | src/lib/prediction.ts:33-39 | the total of the outer-product matrix is the product of the two sides' totals |
| ScoreMatrix.OuterProductMassAtMostOne | src/lib/prediction.ts:33-39 | two sides whose totals lie in [0, 1] give a matrix whose total lies in [0, 1] |
| Prediction.RoundMonotone | src/lib/prediction.ts:92 | `Math.round` never reverses the order of two numbers |
| Prediction.PercentMonotone | src/lib/prediction.ts:99-101 | rounding to a percentage with one decimal keeps order |
| Prediction.ImpliedOddsBounds | src/lib/prediction.ts:104-106 | fair odds are 100 when the probability is at most 0.01, at least 1 for a probability in (0.01, 1], and always within [0, 100] |
| Prediction.PoissonMassRecurrence | src/lib/prediction.ts:4-10 | for a positive rate, P(0) = exp(-λ) and P(k) = P(k-1)·λ/k |
| Prediction.PoissonMassDegenerate | src/lib/prediction.ts:5 | for a rate at most 0, P(0) = 1 and P(k) = 0 for k > 0 |
| Prediction.PoissonMassPositive | src/lib/prediction.ts:6-10 | for a positive rate and a positive exp(-λ), every P(k) is strictly positive |
| Prediction.PoissonMassNonNegative | src/lib/prediction.ts:4-10 | with a positive `exp`, every P(k) is non-negative for any rate |
| Prediction.PoissonPmf | src/lib/prediction.ts:4-10 | the multiplying loop computes exp(-λ)·λ^k/k!, and 1 or 0 for a rate at most 0 |
| Prediction.Distributions | src/lib/prediction.ts:24-30 | the two pushed arrays are the first 10 Poisson masses of each side's rate |
| Prediction.BuildScoreMatrix | src/lib/prediction.ts:33-39 | the nested loops build a 10x10 matrix with cell (i,j) = homeProbs[i]·awayProbs[j] |
| Prediction.MatrixOfRates | src/lib/prediction.ts:22-39 | the matrix built from two rates is the score grid of those rates |
| Prediction.ScoreGridCell | src/lib/prediction.ts:19-39 | cell (i,j) of the score grid is P_home(i)·P_away(j) |
| Prediction.ScoreGridNonNegative | src/lib/prediction.ts:22-39 | with a positive `exp`, every cell of the score grid is non-negative |
| Prediction.ScoreGridSymmetric | src/lib/prediction.ts:22-39 | equal rates give a symmetric score grid |
| Prediction.ExpFactsAtZero | src/lib/prediction.ts:6 | any `exp` with e^0 = 1 meets the facts of the exponential at 0 |
| Prediction.SideTotalAtMostOne | src/lib/prediction.ts:22-30 | one side's ten masses are non-negative and add up to at most 1, and exactly 1 for a rate at most 0 |
| Prediction.ScoreGridMassAtMostOne | src/lib/prediction.ts:22-39 | the score grid's cells are non-negative and add up to at most 1, so the probability the cells miss is never negative |
| Prediction.OutcomeSums | src/lib/prediction.ts:42-52 | the three accumulators are the home-win, draw and away-win masses |
| Prediction.UnderSum | src/lib/prediction.ts:58-72 | the triangular loop accumulates the mass of scorelines with at most g goals |
| Prediction.BlankSideSum | src/lib/prediction.ts:75-79 | `bttsNo` is the mass of scorelines where some side scores nothing |
| Prediction.OverUnderSums | src/lib/prediction.ts:55-72 | the four over lines are the rounded complements of the under-0.5..3.5 masses |
| Prediction.TopScores | src/lib/prediction.ts:83-93 | pushing the 100 cells, sorting by probability descending and taking five gives the top-five lines |
| Prediction.TopFiveOrdered | src/lib/prediction.ts:89-93 | the ranked cells are non-increasing in probability, and there are exactly five top lines with non-increasing rounded probability |
| Prediction.TopFiveMostLikely | src/lib/prediction.ts:89-90 | no cell left out of the first five is likelier than any of them |
| Prediction.TopFiveTiesRowMajor | src/lib/prediction.ts:84-89 | cells of equal probability keep row-major order |
| Prediction.TopFiveLabels | src/lib/prediction.ts:90-93 | each ranked cell carries its own coordinates and probability, and each top line is labelled "i-j" from its cell |
| Prediction.ScoreLabelInjective | src/lib/prediction.ts:91 | distinct scorelines get distinct labels |
| Prediction.Summarize | src/lib/prediction.ts:95-120 | the result record holds the rounded rates, probabilities, odds, over lines, both-teams-score figures and top five of the matrix |
| Prediction.CalculatePrediction | src/lib/prediction.ts:13-121 | the whole computation, with the home advantage added to the home rate only, equals the forecast of the two rates |
| Prediction.SymmetricForecast | src/lib/prediction.ts:99-106 | a symmetric matrix gives equal home-win and away-win percentages and fair odds |
| Prediction.ForecastSymmetric | src/lib/prediction.ts:19-52 | when the adjusted home rate equals the away rate, the home-win and away-win percentages are equal |
| Prediction.OverLinesNested | src/lib/prediction.ts:55-72 | with non-negative cells, over 0.5 ≥ over 1.5 ≥ over 2.5 ≥ over 3.5 |
| Prediction.ForecastOrdered | src/lib/prediction.ts:55-93 | every forecast has nested over lines and exactly five top scores in non-increasing order |
| Prediction.PercentComplement | src/lib/prediction.ts:114-117 | the rounded percentages of p and 1-p add up to 100 or 100.1 |
| Prediction.BothTeamsScoreComplement | src/lib/prediction.ts:75-80 | the reported "yes" and "no" percentages add up to 100 or 100.1 |
| Prediction.PercentRange | src/lib/prediction.ts:99-117 | a probability in [0, 1] becomes a percentage in [0, 100] |
| Prediction.ProbabilitiesInRange | src/lib/prediction.ts:99-101 | on a matrix of non-negative cells adding up to at most 1, the 1X2 percentages lie in [0, 100] |
| Prediction.LinesInRange | src/lib/prediction.ts:108-117 | on such a matrix, the four over lines and both "both teams score" figures lie in [0, 100] |
| Prediction.ForecastInRange | src/lib/prediction.ts:13-121 | when `exp` has the facts of the exponential at both adjusted rates, every reported percentage lies in [0, 100] |
| Prediction.CountChar | src/lib/prediction.ts:132-133 | the count is the number of occurrences of the character in the string, so never more than its length |
| Prediction.CountOnlyChar | src/lib/prediction.ts:132-133 | in a string made only of one character, the count of that character is the length |
| Prediction.Clamp | src/lib/prediction.ts:142 | the clamp lies in [0.5, 3.5], is the identity inside it and the nearer bound outside |
| Prediction.EstimateXg | src/lib/prediction.ts:124-143 | the estimate is in [0.5, 3.5]: the clamped league average plus the form bonus for a non-empty form, plus 0.15 at home |
| Prediction.FormAdjustmentExamples | src/lib/prediction.ts:131-136 | no form or an empty form adds nothing; five wins add 0.75; seven wins add 1.25, because losses are 5 - wins - draws |
| Prediction.Markets | src/lib/prediction.ts:169-173 | there are three markets, in the order home, draw, away |
| Prediction.Appraise | src/lib/prediction.ts:178-192 | an appraised market reports its rounded value and the bookmaker's odds under its own market name |
| Prediction.Pick | src/lib/prediction.ts:175-193 | each market contributes at most one bet |
| Prediction.CandidatesExactly | src/lib/prediction.ts:175-194 | a bet is collected exactly when it is the appraisal of a market with odds above 1 and a value strictly above the threshold |
| Prediction.CandidatesInMarketOrder | src/lib/prediction.ts:169-194 | collected bets are at most one per market and appear in market order |
| Prediction.CollectValueBets | src/lib/prediction.ts:159-194 | the loop with its `continue` collects exactly the candidate bets, in market order |
| Prediction.FindValueBets | src/lib/prediction.ts:146-197 | the result is the candidate bets sorted by value descending |
| Prediction.ValueBetsExactly | src/lib/prediction.ts:169-196 | at most three bets, and a bet is reported exactly when its market has odds above 1 and a value strictly above the threshold |
| Prediction.ValueBetsOrdered | src/lib/prediction.ts:196 | bets are non-increasing in rounded value, with home/draw/away order kept on ties |
| Prediction.NoOddsNoBets | src/lib/prediction.ts:176 | without bookmaker odds there are no bets |
| Prediction.EvenOddsSkipped | src/lib/prediction.ts:176 | odds of 1 are skipped |
| Prediction.HomeValueExample | src/lib/prediction.ts:175-192 | a 60% home win against odds of 2 is one bet with value 20%, edge 10% and Kelly stake 0.1 |
| Prediction.ThresholdIsStrict | src/lib/prediction.ts:183 | a market whose value equals the threshold is not a bet, as the test is strict |
| Prediction.ThresholdExample | src/lib/prediction.ts:169-196 | a 75% home win at odds 2 has value exactly 0.5, so against a threshold of 0.5 there is no bet |
| Leagues.IdOfInjective | src/types/football.ts:57 | the six continent spellings are distinct |
| Leagues.EuropeWellFormed | src/data/leagues.ts:4-30 | every European line is keyed by its own non-empty code and has a non-empty name and flag |
| Leagues.AmericasWellFormed | src/data/leagues.ts:32-42 | likewise for the lines of the Americas |
| Leagues.AsiaOceaniaWellFormed | src/data/leagues.ts:44-54 | likewise for Asia and Oceania |
| Leagues.AfricaWellFormed | src/data/leagues.ts:56-62 | likewise for Africa |
| Leagues.InternationalWellFormed | src/data/leagues.ts:64-73 | likewise for the international competitions |
| Leagues.CupsWellFormed | src/data/leagues.ts:75-81 | likewise for the domestic cups |
| Leagues.TableWellFormed | src/data/leagues.ts:3-82 | every line of the whole table has these properties |
| Leagues.LookupMissing | src/data/leagues.ts:125-131 | a lookup finds nothing exactly when no line has the key |
| Leagues.LookupLast | src/data/leagues.ts:125-131 | a lookup finds the league of the last line with the key |
| Leagues.NameAndFlagIn | src/data/leagues.ts:125-131 | in a well-formed table a known code gets its line's name and flag, and an unknown code gets itself and the football |
| Leagues.KnownCode | src/data/leagues.ts:125-131 | `getLeagueName` and `getLeagueFlag` of a known code are the table's non-empty name and flag |
| Leagues.UnknownCode | src/data/leagues.ts:125-131 | `getLeagueName` of an unknown code is the code, and `getLeagueFlag` is the football |
| Leagues.EmptyCodeUnknown | src/data/leagues.ts:125-127 | the name of the empty code is the empty string |
| Leagues.LeaguesInExactly | src/data/leagues.ts:84-121 | a league is in a continent's filter exactly when some line holds it and it is on that continent |
| Leagues.LeaguesInAppend | src/data/leagues.ts:84-121 | filtering keeps table order |
| Leagues.GroupSizes | src/data/leagues.ts:84-121 | the six filters' sizes add up to the size of the table |
| Leagues.ContinentsAreGroups | src/data/leagues.ts:84-121 | there are six groups, and each has its continent's id and the table filtered to that continent |
| Leagues.ContinentsPartition | src/data/leagues.ts:84-121 | every league is in the group whose id is its continent and in no other, and the group sizes add up to the table's |
| Leagues.TopLeaguesInSections | src/data/leagues.ts:123 | each featured code is the key of a line of its section |
| Leagues.TopLeaguesKnown | src/data/leagues.ts:123 | every featured code is a key of the table |
| EspnFeed.OrElse | src/lib/espn-api.ts:96-99 | JavaScript's `or` of a string and a fallback gives the string when it is present and non-empty, and the fallback when it is missing or empty |
| EspnFeed.At | src/lib/espn-api.ts:72-76 | `xs?.[k]` is present exactly when the array is present and longer than k, and then it is element k |
| EspnFeed.DictionaryLastWins | src/lib/espn-api.ts:81-90 | the statistics dictionary has exactly the statistics' names, and each name holds the last value given for it |
| EspnFeed.CollectStats | src/lib/espn-api.ts:84-90 | the `forEach` loop fills exactly that dictionary, or none without statistics |
| EspnFeed.ParseMatch | src/lib/espn-api.ts:71-136 | `parseMatch` returns the match record of the event, or `None` for `null` |
| EspnFeed.ParseMatchSides | src/lib/espn-api.ts:72-77 | there is a match exactly when the first competition has at least two competitors; the first is home and the second away, each with its own statistics |
| EspnFeed.ParseMatchDefaults | src/lib/espn-api.ts:96-99 | a missing or empty slug gives league "unknown" and name ""; a missing or empty state gives "pre"; a missing or empty score parses "0" |
| EspnFeed.ParseMatchOdds | src/lib/espn-api.ts:130-134 | odds are present exactly when there is a first odds entry, and then its three prices are copied, each possibly missing |
| EspnFeed.ParseMatchEvents | src/lib/espn-api.ts:124-129 | events are present exactly when details are, one per detail in order, and each player is the first involved athlete's name if there is one |
| EspnFeed.FindStatFirst | src/lib/espn-api.ts:208-211 | the statistic found is the first with the name, and none is found when no statistic has it |
| EspnFeed.Position | src/lib/espn-api.ts:214 | a position is never 0 |
| EspnFeed.RowOfEntry | src/lib/espn-api.ts:206-229 | a row's position is the parsed rank unless it is NaN or 0, and then the entry's index plus one. Each of its eight counts is the parsed value of its own statistic. The team id and name fall back to "", the logo is the first logo's address, and the form is the team's form |
| EspnFeed.LeagueStandings | src/lib/espn-api.ts:204-232 | the push loop and the in-place sort return the entries' rows sorted by position |
| EspnFeed.StandingsSorted | src/lib/espn-api.ts:232 | the standings are a permutation of the rows, non-decreasing in position, with rows of equal position in feed order |

## Left out

- Network I/O is not modelled:
  - `fetch`;
  - `getAllMatches`, `getLiveMatches`, `getLeagueMatches` and `getMatchesByContinent`;
  - building URLs from dates;
  - the `async`/`try`-`catch` wrapper of `getLeagueStandings`.

  Only the pure record mapping and the sort are modelled.
- The React hooks and the UI components are not modelled: they are rendering, timers and state setters.
- Floating point: numbers are exact reals, so rounding errors of IEEE doubles, `NaN` odds and infinities are not modelled. A comparison right at a boundary can go the other way in doubles. For example, a 52.5% home win at odds 2 has value 0.050000000000000044 in doubles, which passes the default 0.05 threshold. For that reason Prediction.ThresholdExample uses values that doubles represent exactly.
  - Percentage sums are stated as "100 or 100.1", as exact reals round.
  - `Math.exp` is a parameter, so no value of it is computed.
- `parseInt` is a parameter, so no digit parsing is modelled. Where a fact depends on what `parseInt("0")` is, the model states it in terms of that call.
- `s.match(/W/g)` is modelled as counting the character, which is what the pattern finds.
- Leagues.Lookup: JavaScript's prototype keys (`getLeagueName("constructor")`) are not modelled; a lookup sees only the table's own lines.
- Leagues.Lookup: the table as written repeats no key, but the model does not prove that. It states each lookup for the last line with the key, which is how an object literal resolves repeated keys. Leagues.LeaguesIn filters the table's lines, whereas `Object.values` visits each distinct key once, so with a repeated key the two would differ.
- The league strings are those of the table decoded as UTF-8. The source text available shows them with a wrong character encoding.
- The continent filter compares the continent as an enumeration rather than a string. This is equivalent to comparing strings because Leagues.IdOfInjective proves the six spellings distinct.
- EspnFeed.RowOfEntry: `entries.indexOf(entry)` is taken to be the loop index, as the entries are distinct decoded objects.
- A match's `status` string is kept as given, since the cast to the three states checks nothing at run time.
- Losses in `estimateXg` are `5 - wins - draws`, not `length - wins - draws`. So a form longer than five results can give a negative loss count (see Prediction.FormAdjustmentExamples). The model follows the code.
