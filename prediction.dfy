/**
 * The match-prediction engine: per-side Poisson goal distributions, their
 * independent 10x10 score matrix and the statistics read off it (1X2,
 * over/under, both teams to score, the five likeliest scorelines), the
 * form-based xG estimate, and the comparison with bookmaker odds.
 *
 * Numbers are modelled as `real`. `Math.exp` is the parameter `exp`, which
 * the statements that need it assume positive, as `Math.exp` is.
 */
module Prediction {
  import opened Wrappers
  import opened StableSort
  import opened ScoreMatrix

  /** The default arguments of `estimateXg` and `findValueBets`. */
  const DefaultLeagueAverage: real := 1.3
  const DefaultMinValue: real := 0.05

  ghost predicate PositiveEverywhere(exp: real -> real) {
    forall x :: exp(x) > 0.0
  }

  // ---------------------------------------------------------------------------
  // Rounding

  /** `Math.round`: the nearest integer, halves rounded towards +infinity. */
  function Round(x: real): int {
    (x + 0.5).Floor
  }

  lemma RoundMonotone(x: real, y: real)
    requires x <= y
    ensures Round(x) <= Round(y)
  {
  }

  /** A fraction as a percentage with one decimal: `Math.round(p * 1000) / 10`. */
  function Percent(p: real): real {
    Round(p * 1000.0) as real / 10.0
  }

  /** Two decimals: `Math.round(x * 100) / 100`. */
  function Hundredths(x: real): real {
    Round(x * 100.0) as real / 100.0
  }

  /** Rounding to a percentage keeps the order of its arguments. */
  lemma PercentMonotone(p: real, q: real)
    requires p <= q
    ensures Percent(p) <= Percent(q)
  {
    RoundMonotone(p * 1000.0, q * 1000.0);
  }

  /** Fair decimal odds of a probability, `100` when it is at most 1%. */
  function ImpliedOdds(p: real): real {
    if p > 0.01 then Round(100.0 / p) as real / 100.0 else 100.0
  }

  /** The implied odds never exceed the fallback 100, never go below 1 for a
      probability of at most 1, and are the fallback exactly at or below 1%. */
  lemma ImpliedOddsBounds(p: real)
    ensures 0.0 <= ImpliedOdds(p) <= 100.0
    ensures p <= 0.01 ==> ImpliedOdds(p) == 100.0
    ensures 0.01 < p <= 1.0 ==> ImpliedOdds(p) >= 1.0
  {
    if p > 0.01 {
      var q := 100.0 / p;
      assert q * p == 100.0;
      assert q < 10000.0;
      assert q > 0.0;
      RoundMonotone(q, 10000.0);
      RoundMonotone(0.0, q);
      if p <= 1.0 {
        assert q * p <= q * 1.0;
        RoundMonotone(100.0, q);
      }
    }
  }

  // ---------------------------------------------------------------------------
  // Poisson distribution

  function Power(x: real, n: nat): real {
    if n == 0 then 1.0 else Power(x, n - 1) * x
  }

  function Factorial(n: nat): (f: real)
    ensures f >= 1.0
  {
    if n == 0 then 1.0 else Factorial(n - 1) * n as real
  }

  /** P(k) = e^-rate * rate^k / k!, and the point mass at 0 when the rate
      is not positive. */
  function PoissonMass(k: nat, rate: real, exp: real -> real): real {
    if rate <= 0.0 then (if k == 0 then 1.0 else 0.0)
    else exp(-rate) * Power(rate, k) / Factorial(k)
  }

  lemma MassStep(e: real, p: real, f: real, rate: real, i: real)
    requires f > 0.0 && i > 0.0
    ensures e * p / f * (rate / i) == e * (p * rate) / (f * i)
  {
  }

  /** The iterative form of the mass: P(k) = P(k-1) * rate / k, starting
      from P(0) = e^-rate. */
  lemma PoissonMassRecurrence(k: nat, rate: real, exp: real -> real)
    requires rate > 0.0 && k > 0
    ensures PoissonMass(0, rate, exp) == exp(-rate)
    ensures PoissonMass(k, rate, exp) == PoissonMass(k - 1, rate, exp) * (rate / k as real)
  {
    MassStep(exp(-rate), Power(rate, k - 1), Factorial(k - 1), rate, k as real);
  }

  /** With a non-positive rate all the mass is at 0 goals. */
  lemma PoissonMassDegenerate(k: nat, rate: real, exp: real -> real)
    requires rate <= 0.0
    ensures PoissonMass(k, rate, exp) == if k == 0 then 1.0 else 0.0
  {
  }

  lemma {:induction false} PowerPositive(x: real, n: nat)
    requires x > 0.0
    ensures Power(x, n) > 0.0
  {
    if n > 0 {
      PowerPositive(x, n - 1);
    }
  }

  /** With a positive rate every goal count has positive probability. */
  lemma PoissonMassPositive(k: nat, rate: real, exp: real -> real)
    requires rate > 0.0 && exp(-rate) > 0.0
    ensures PoissonMass(k, rate, exp) > 0.0
  {
    PowerPositive(rate, k);
    var num := exp(-rate) * Power(rate, k);
    assert num > 0.0;
  }

  lemma PoissonMassNonNegative(k: nat, rate: real, exp: real -> real)
    requires PositiveEverywhere(exp)
    ensures PoissonMass(k, rate, exp) >= 0.0
  {
    if rate > 0.0 {
      assert exp(-rate) > 0.0;
      PoissonMassPositive(k, rate, exp);
    }
  }

  /** `poissonPmf`: starts from e^-rate and multiplies by rate / i for
      i = 1..k. */
  method PoissonPmf(k: nat, rate: real, exp: real -> real) returns (result: real)
    ensures result == PoissonMass(k, rate, exp)
  {
    if rate <= 0.0 {
      return if k == 0 then 1.0 else 0.0;
    }
    result := exp(-rate);
    var i := 1;
    while i <= k
      invariant 1 <= i <= k + 1
      invariant result == PoissonMass(i - 1, rate, exp)
    {
      PoissonMassRecurrence(i, rate, exp);
      result := result * (rate / i as real);
      i := i + 1;
    }
  }

  /** The distribution of one side over 0..9 goals. */
  function Masses(rate: real, exp: real -> real): (probs: seq<real>)
    ensures |probs| == MaxGoals
  {
    seq(MaxGoals, k requires 0 <= k < MaxGoals => PoissonMass(k, rate, exp))
  }

  /** The score matrix for the two (already adjusted) rates. */
  function ScoreGrid(homeRate: real, awayRate: real, exp: real -> real): (m: Grid)
    ensures IsGrid(m)
  {
    OuterProduct(Masses(homeRate, exp), Masses(awayRate, exp))
  }

  /** Cell (i, j) is P_home(i) * P_away(j). */
  lemma ScoreGridCell(homeRate: real, awayRate: real, exp: real -> real, i: nat, j: nat)
    requires i < MaxGoals && j < MaxGoals
    ensures ScoreGrid(homeRate, awayRate, exp)[i][j]
         == PoissonMass(i, homeRate, exp) * PoissonMass(j, awayRate, exp)
  {
  }

  lemma ScoreGridNonNegative(homeRate: real, awayRate: real, exp: real -> real)
    requires PositiveEverywhere(exp)
    ensures NonNegative(ScoreGrid(homeRate, awayRate, exp))
  {
    var m := ScoreGrid(homeRate, awayRate, exp);
    forall i, j | 0 <= i < MaxGoals && 0 <= j < MaxGoals
      ensures m[i][j] >= 0.0
    {
      PoissonMassNonNegative(i, homeRate, exp);
      PoissonMassNonNegative(j, awayRate, exp);
    }
  }

  lemma ScoreGridSymmetric(rate: real, exp: real -> real)
    ensures Symmetric(ScoreGrid(rate, rate, exp))
  {
    OuterProductSymmetric(Masses(rate, exp));
  }

  /** The first ten terms of the exponential series, x^k / k! for k < 10. */
  function SeriesTerms(x: real): (terms: seq<real>)
    ensures |terms| == MaxGoals
  {
    seq(MaxGoals, k requires 0 <= k < MaxGoals => Power(x, k) / Factorial(k))
  }

  /** Facts of the exponential at `x` that bound the goal distributions:
      e^-x is positive, e^x * e^-x is 1, and e^x is at least its series up
      to x^9 / 9! (true for every real x, the remainder being e^t * x^10 / 10!
      for some t). */
  ghost predicate ExpFacts(exp: real -> real, x: real) {
    exp(-x) > 0.0 && exp(x) * exp(-x) == 1.0 && Total(SeriesTerms(x)) <= exp(x)
  }

  lemma ScaleQuotient(e: real, p: real, f: real)
    requires f > 0.0
    ensures e * p / f == e * (p / f)
  {
  }

  /** The facts are met at 0 by any `exp` with e^0 = 1, as `Math.exp` has. */
  lemma ExpFactsAtZero(exp: real -> real)
    requires exp(0.0) == 1.0
    ensures ExpFacts(exp, 0.0)
  {
    var terms := SeriesTerms(0.0);
    assert terms[0] == 1.0;
    forall k | 1 <= k < MaxGoals
      ensures terms[k] == 0.0
    {
      PowerOfZero(k);
    }
    TotalOfPointMass(terms);
  }

  lemma PowerOfZero(n: nat)
    requires n > 0
    ensures Power(0.0, n) == 0.0
  {
  }

  /** For a positive rate, each mass is e^-rate times its series term. */
  lemma MassesAreScaledSeries(rate: real, exp: real -> real)
    requires rate > 0.0
    ensures forall k :: 0 <= k < MaxGoals ==> Masses(rate, exp)[k] == exp(-rate) * SeriesTerms(rate)[k]
  {
    forall k | 0 <= k < MaxGoals
      ensures Masses(rate, exp)[k] == exp(-rate) * SeriesTerms(rate)[k]
    {
      ScaleQuotient(exp(-rate), Power(rate, k), Factorial(k));
    }
  }

  lemma ScaledBelowOne(e: real, s: real, x: real)
    requires e > 0.0 && s <= x && x * e == 1.0
    ensures e * s <= 1.0
  {
    assert e * s <= e * x;
  }

  /** Every mass is non-negative when e^-rate is positive. */
  lemma MassesNonNegative(rate: real, exp: real -> real)
    requires exp(-rate) > 0.0
    ensures forall k :: 0 <= k < MaxGoals ==> Masses(rate, exp)[k] >= 0.0
  {
    forall k | 0 <= k < MaxGoals
      ensures Masses(rate, exp)[k] >= 0.0
    {
      if rate > 0.0 {
        PoissonMassPositive(k, rate, exp);
      }
    }
  }

  /** For a positive rate the ten masses add up to e^-rate times the series,
      which the facts of the exponential bound by 1. */
  lemma PositiveRateSideTotal(rate: real, exp: real -> real)
    requires rate > 0.0 && ExpFacts(exp, rate)
    ensures Total(Masses(rate, exp)) <= 1.0
  {
    MassesAreScaledSeries(rate, exp);
    TotalScaled(Masses(rate, exp), SeriesTerms(rate), exp(-rate));
    ScaledBelowOne(exp(-rate), Total(SeriesTerms(rate)), exp(rate));
  }

  /** The ten masses of one side are non-negative and add up to at most 1
      (exactly 1 for a non-positive rate): the probability of ten or more
      goals is what they leave out. */
  lemma SideTotalAtMostOne(rate: real, exp: real -> real)
    requires ExpFacts(exp, rate)
    ensures forall k :: 0 <= k < MaxGoals ==> Masses(rate, exp)[k] >= 0.0
    ensures 0.0 <= Total(Masses(rate, exp)) <= 1.0
    ensures rate <= 0.0 ==> Total(Masses(rate, exp)) == 1.0
  {
    var probs := Masses(rate, exp);
    MassesNonNegative(rate, exp);
    TotalNonNegative(probs);
    if rate > 0.0 {
      PositiveRateSideTotal(rate, exp);
    } else {
      assert probs[0] == 1.0;
      TotalOfPointMass(probs);
    }
  }

  /** The score matrix has non-negative cells adding up to at most 1, so
      the probability the cells leave out is never negative. */
  lemma ScoreGridMassAtMostOne(homeRate: real, awayRate: real, exp: real -> real)
    requires ExpFacts(exp, homeRate) && ExpFacts(exp, awayRate)
    ensures NonNegative(ScoreGrid(homeRate, awayRate, exp))
    ensures 0.0 <= Mass(ScoreGrid(homeRate, awayRate, exp), Everywhere) <= 1.0
  {
    SideTotalAtMostOne(homeRate, exp);
    SideTotalAtMostOne(awayRate, exp);
    OuterProductNonNegative(Masses(homeRate, exp), Masses(awayRate, exp));
    OuterProductMassAtMostOne(Masses(homeRate, exp), Masses(awayRate, exp));
  }

  // ---------------------------------------------------------------------------
  // The loops of calculatePrediction

  /** The two per-side distributions, filled side by side for 0..9 goals. */
  method Distributions(homeRate: real, awayRate: real, exp: real -> real)
    returns (homeProbs: seq<real>, awayProbs: seq<real>)
    ensures homeProbs == Masses(homeRate, exp) && awayProbs == Masses(awayRate, exp)
  {
    homeProbs, awayProbs := [], [];
    for i := 0 to MaxGoals
      invariant |homeProbs| == i && |awayProbs| == i
      invariant forall k :: 0 <= k < i ==> homeProbs[k] == PoissonMass(k, homeRate, exp)
      invariant forall k :: 0 <= k < i ==> awayProbs[k] == PoissonMass(k, awayRate, exp)
    {
      var h := PoissonPmf(i, homeRate, exp);
      var a := PoissonPmf(i, awayRate, exp);
      homeProbs := homeProbs + [h];
      awayProbs := awayProbs + [a];
    }
  }

  /** The score matrix, row by row. */
  method BuildScoreMatrix(homeProbs: seq<real>, awayProbs: seq<real>) returns (m: Grid)
    requires |homeProbs| == MaxGoals && |awayProbs| == MaxGoals
    ensures IsGrid(m)
    ensures m == OuterProduct(homeProbs, awayProbs)
  {
    m := [];
    for i := 0 to MaxGoals
      invariant |m| == i
      invariant forall r :: 0 <= r < i ==> m[r] == OuterProduct(homeProbs, awayProbs)[r]
    {
      var row: seq<real> := [];
      for j := 0 to MaxGoals
        invariant |row| == j
        invariant forall c :: 0 <= c < j ==> row[c] == homeProbs[i] * awayProbs[c]
      {
        row := row + [homeProbs[i] * awayProbs[j]];
      }
      ghost var want := OuterProduct(homeProbs, awayProbs)[i];
      assert |want| == MaxGoals;
      assert forall c :: 0 <= c < MaxGoals ==> want[c] == homeProbs[i] * awayProbs[c];
      assert row == want;
      m := m + [row];
    }
  }

  /** The first two steps of `calculatePrediction`: the distributions of the
      two rates, then their score matrix. */
  method MatrixOfRates(homeRate: real, awayRate: real, exp: real -> real) returns (m: Grid)
    ensures m == ScoreGrid(homeRate, awayRate, exp)
  {
    var homeProbs, awayProbs := Distributions(homeRate, awayRate, exp);
    m := BuildScoreMatrix(homeProbs, awayProbs);
  }

  /** Home win, draw and away win, accumulated over the whole matrix. */
  method OutcomeSums(m: Grid) returns (homeWin: real, draw: real, awayWin: real)
    requires IsGrid(m)
    ensures homeWin == Mass(m, HomeWin) && draw == Mass(m, Draw) && awayWin == Mass(m, AwayWin)
  {
    homeWin, draw, awayWin := 0.0, 0.0, 0.0;
    BlockSumEmpty(m, HomeWin, MaxGoals);
    BlockSumEmpty(m, Draw, MaxGoals);
    BlockSumEmpty(m, AwayWin, MaxGoals);
    for i := 0 to MaxGoals
      invariant homeWin == BlockSum(m, HomeWin, i, MaxGoals)
      invariant draw == BlockSum(m, Draw, i, MaxGoals)
      invariant awayWin == BlockSum(m, AwayWin, i, MaxGoals)
    {
      RowSumEmpty(m, HomeWin, i);
      RowSumEmpty(m, Draw, i);
      RowSumEmpty(m, AwayWin, i);
      for j := 0 to MaxGoals
        invariant homeWin == BlockSum(m, HomeWin, i, MaxGoals) + RowSum(m, HomeWin, i, j)
        invariant draw == BlockSum(m, Draw, i, MaxGoals) + RowSum(m, Draw, i, j)
        invariant awayWin == BlockSum(m, AwayWin, i, MaxGoals) + RowSum(m, AwayWin, i, j)
      {
        RowSumStep(m, HomeWin, i, j + 1);
        RowSumStep(m, Draw, i, j + 1);
        RowSumStep(m, AwayWin, i, j + 1);
        if i > j {
          homeWin := homeWin + m[i][j];
        } else if i == j {
          draw := draw + m[i][j];
        } else {
          awayWin := awayWin + m[i][j];
        }
      }
      BlockSumStep(m, HomeWin, i + 1, MaxGoals);
      BlockSumStep(m, Draw, i + 1, MaxGoals);
      BlockSumStep(m, AwayWin, i + 1, MaxGoals);
    }
  }

  /** The "under" sum for `goals` + 0.5: the cells with i + j <= goals, taken
      from the top-left (goals + 1) x (goals + 1) block only. */
  method UnderSum(m: Grid, goals: nat) returns (under: real)
    requires IsGrid(m) && goals < MaxGoals
    ensures under == Mass(m, TotalAtMost(goals))
  {
    var bound := goals + 1;
    under := 0.0;
    BlockSumEmpty(m, TotalAtMost(goals), bound);
    for i := 0 to bound
      invariant under == BlockSum(m, TotalAtMost(goals), i, bound)
    {
      RowSumEmpty(m, TotalAtMost(goals), i);
      for j := 0 to bound
        invariant under == BlockSum(m, TotalAtMost(goals), i, bound) + RowSum(m, TotalAtMost(goals), i, j)
      {
        RowSumStep(m, TotalAtMost(goals), i, j + 1);
        if i + j <= goals {
          under := under + m[i][j];
        }
      }
      BlockSumStep(m, TotalAtMost(goals), i + 1, bound);
    }
    BlockSumInside(m, TotalAtMost(goals), bound, bound);
  }

  /** "Both teams score: no", as row 0 plus column 0 minus the 0-0 cell. */
  method BlankSideSum(m: Grid) returns (bttsNo: real)
    requires IsGrid(m)
    ensures bttsNo == Mass(m, BlankSide)
  {
    bttsNo := 0.0;
    RowSumEmpty(m, Everywhere, 0);
    for i := 0 to MaxGoals
      invariant bttsNo == RowSum(m, Everywhere, 0, i) + ColumnSum(m, 0, i)
    {
      RowSumStep(m, Everywhere, 0, i + 1);
      bttsNo := bttsNo + (m[0][i] + m[i][0]);
    }
    bttsNo := bttsNo - m[0][0];
    BlankSideMass(m);
  }

  // ---------------------------------------------------------------------------
  // The five likeliest scorelines

  datatype ScoreCell = ScoreCell(home: nat, away: nat, prob: real)

  datatype ScoreLine = ScoreLine(score: string, prob: real)

  /** The 100 cells in row-major order, as `allScores` is filled. */
  function Cells(m: Grid): (cells: seq<ScoreCell>)
    requires IsGrid(m)
    ensures |cells| == MaxGoals * MaxGoals
  {
    seq(MaxGoals * MaxGoals, t requires 0 <= t < MaxGoals * MaxGoals =>
      ScoreCell(t / MaxGoals, t % MaxGoals, m[t / MaxGoals][t % MaxGoals]))
  }

  /** The sort key of `(a, b) => b.prob - a.prob`: more likely comes first. */
  function Unlikeliness(c: ScoreCell): real {
    -c.prob
  }

  /** Position of a cell in row-major order. */
  function RowMajorIndex(c: ScoreCell): int {
    c.home * MaxGoals + c.away
  }

  /** All cells, likeliest first. */
  function RankedCells(m: Grid): (ranked: seq<ScoreCell>)
    requires IsGrid(m)
    ensures |ranked| == MaxGoals * MaxGoals
  {
    Sort(Cells(m), Unlikeliness)
  }

  const Digits: string := "0123456789"

  /** Decimal notation of a natural number, as a template literal prints it. */
  function NatToString(n: nat): string
    decreases n
  {
    if n < 10 then [Digits[n]] else NatToString(n / 10) + [Digits[n % 10]]
  }

  /** The label `${home}-${away}`. */
  function ScoreLabel(home: nat, away: nat): string {
    NatToString(home) + "-" + NatToString(away)
  }

  function ScoreLineOf(c: ScoreCell): ScoreLine {
    ScoreLine(ScoreLabel(c.home, c.away), Percent(c.prob))
  }

  /** `allScores.slice(0, 5)`, labelled and rounded. */
  function TopFive(m: Grid): seq<ScoreLine>
    requires IsGrid(m)
  {
    var ranked := RankedCells(m);
    seq(5, k requires 0 <= k < 5 => ScoreLineOf(ranked[k]))
  }

  lemma CellIndex(i: nat, j: nat)
    requires i < MaxGoals && j < MaxGoals
    ensures (i * MaxGoals + j) / MaxGoals == i && (i * MaxGoals + j) % MaxGoals == j
  {
  }

  /** `allScores`: pushes every cell in row-major order, sorts it in place
      (likeliest first, stable) and keeps the first five. */
  method TopScores(m: Grid) returns (top: seq<ScoreLine>)
    requires IsGrid(m)
    ensures top == TopFive(m)
  {
    var allScores := new ScoreCell[MaxGoals * MaxGoals];
    for i := 0 to MaxGoals
      invariant forall t :: 0 <= t < i * MaxGoals ==> allScores[t] == Cells(m)[t]
    {
      for j := 0 to MaxGoals
        invariant forall t :: 0 <= t < i * MaxGoals + j ==> allScores[t] == Cells(m)[t]
      {
        CellIndex(i, j);
        allScores[i * MaxGoals + j] := ScoreCell(i, j, m[i][j]);
      }
    }
    assert allScores[..] == Cells(m);
    SortInPlace(allScores, Unlikeliness);
    top := [];
    for k := 0 to 5
      invariant |top| == k
      invariant forall t :: 0 <= t < k ==> top[t] == ScoreLineOf(RankedCells(m)[t])
    {
      top := top + [ScoreLineOf(allScores[k])];
    }
  }

  /** The ranked cells are in non-increasing probability, so the five kept
      are likeliest first and their rounded percentages do not increase. */
  lemma TopFiveOrdered(m: Grid)
    requires IsGrid(m)
    ensures forall a, b :: 0 <= a < b < |RankedCells(m)| ==> RankedCells(m)[a].prob >= RankedCells(m)[b].prob
    ensures |TopFive(m)| == 5
    ensures forall k :: 0 <= k < 4 ==> TopFive(m)[k].prob >= TopFive(m)[k + 1].prob
  {
    var ranked := RankedCells(m);
    SortIsSorted(Cells(m), Unlikeliness);
    assert forall a, b :: 0 <= a < b < |ranked| ==> Unlikeliness(ranked[a]) <= Unlikeliness(ranked[b]);
    forall k | 0 <= k < 4
      ensures TopFive(m)[k].prob >= TopFive(m)[k + 1].prob
    {
      assert Unlikeliness(ranked[k]) <= Unlikeliness(ranked[k + 1]);
      PercentMonotone(ranked[k + 1].prob, ranked[k].prob);
    }
  }

  /** No cell of the matrix left out of the top five is likelier than any of
      the five. */
  lemma TopFiveMostLikely(m: Grid)
    requires IsGrid(m)
    ensures forall k, c :: 0 <= k < 5 && c in Cells(m) && c !in RankedCells(m)[..5] ==> RankedCells(m)[k].prob >= c.prob
  {
    var ranked := RankedCells(m);
    SortIsSorted(Cells(m), Unlikeliness);
    SortIsPermutation(Cells(m), Unlikeliness);
    forall k, c | 0 <= k < 5 && c in Cells(m) && c !in ranked[..5]
      ensures ranked[k].prob >= c.prob
    {
      forall t | 0 <= t < 5
        ensures ranked[t] != c
      {
        assert ranked[t] == ranked[..5][t];
      }
      assert c in multiset(ranked);
      var t :| 0 <= t < |ranked| && ranked[t] == c;
      assert Unlikeliness(ranked[k]) <= Unlikeliness(ranked[t]);
    }
  }

  /** Equally likely cells keep their row-major order (the sort is stable). */
  lemma TopFiveTiesRowMajor(m: Grid)
    requires IsGrid(m)
    ensures forall a, b :: 0 <= a < b < |RankedCells(m)| && RankedCells(m)[a].prob == RankedCells(m)[b].prob
              ==> RowMajorIndex(RankedCells(m)[a]) < RowMajorIndex(RankedCells(m)[b])
  {
    var cells := Cells(m);
    forall t | 0 <= t < |cells|
      ensures RowMajorIndex(cells[t]) == t
    {
    }
    assert TiesInOrder(cells, Unlikeliness, RowMajorIndex);
    SortKeepsTieOrder(cells, Unlikeliness, RowMajorIndex);
  }

  /** Every ranked cell is a cell of the matrix, and each kept scoreline is
      labelled "i-j" from its own cell, i and j being single digits. */
  lemma TopFiveLabels(m: Grid)
    requires IsGrid(m)
    ensures forall k :: 0 <= k < |RankedCells(m)| ==>
              var c := RankedCells(m)[k];
              c.home < MaxGoals && c.away < MaxGoals && c.prob == m[c.home][c.away]
    ensures forall k :: 0 <= k < 5 ==>
              var c := RankedCells(m)[k];
              TopFive(m)[k].score == [Digits[c.home], '-', Digits[c.away]]
  {
    var ranked := RankedCells(m);
    SortIsPermutation(Cells(m), Unlikeliness);
    forall k | 0 <= k < |ranked|
      ensures ranked[k].home < MaxGoals && ranked[k].away < MaxGoals
      ensures ranked[k].prob == m[ranked[k].home][ranked[k].away]
    {
      assert ranked[k] in multiset(Cells(m));
    }
  }

  /** Distinct cells get distinct labels. */
  lemma ScoreLabelInjective(h1: nat, a1: nat, h2: nat, a2: nat)
    requires h1 < MaxGoals && a1 < MaxGoals && h2 < MaxGoals && a2 < MaxGoals
    requires ScoreLabel(h1, a1) == ScoreLabel(h2, a2)
    ensures h1 == h2 && a1 == a2
  {
    assert ScoreLabel(h1, a1)[0] == Digits[h1] && ScoreLabel(h2, a2)[0] == Digits[h2];
    assert ScoreLabel(h1, a1)[2] == Digits[a1] && ScoreLabel(h2, a2)[2] == Digits[a2];
  }

  // ---------------------------------------------------------------------------
  // calculatePrediction

  datatype Outcomes = Outcomes(homeWin: real, draw: real, awayWin: real)
  datatype MarketOdds = MarketOdds(home: real, draw: real, away: real)
  datatype OverUnder = OverUnder(over05: real, over15: real, over25: real, over35: real)
  datatype Btts = Btts(yes: real, no: real)

  datatype PredictionResult = PredictionResult(
    homeXg: real,
    awayXg: real,
    probabilities: Outcomes,
    impliedOdds: MarketOdds,
    overUnder: OverUnder,
    btts: Btts,
    topScores: seq<ScoreLine>,
    expectedGoals: real)

  /** 1X2 probabilities: the masses of the three outcomes, as one-decimal
      percentages. */
  function Probabilities(m: Grid): Outcomes
    requires IsGrid(m)
  {
    Outcomes(Percent(Mass(m, HomeWin)), Percent(Mass(m, Draw)), Percent(Mass(m, AwayWin)))
  }

  /** Fair odds of the three outcomes. */
  function FairOdds(m: Grid): MarketOdds
    requires IsGrid(m)
  {
    MarketOdds(ImpliedOdds(Mass(m, HomeWin)), ImpliedOdds(Mass(m, Draw)), ImpliedOdds(Mass(m, AwayWin)))
  }

  /** "Over g.5" is the complement of the mass with at most g goals. */
  function OverLines(m: Grid): OverUnder
    requires IsGrid(m)
  {
    OverUnder(
      Percent(1.0 - Mass(m, TotalAtMost(0))), Percent(1.0 - Mass(m, TotalAtMost(1))),
      Percent(1.0 - Mass(m, TotalAtMost(2))), Percent(1.0 - Mass(m, TotalAtMost(3))))
  }

  /** "Both teams score: no" is the mass where a side is blank; "yes" is its
      complement. */
  function BothTeamsScore(m: Grid): Btts
    requires IsGrid(m)
  {
    Btts(Percent(1.0 - Mass(m, BlankSide)), Percent(Mass(m, BlankSide)))
  }

  /** The report read off a score matrix: rates and expected goals to two
      decimals, everything else from the matrix. */
  function Report(homeRate: real, awayRate: real, m: Grid): PredictionResult
    requires IsGrid(m)
  {
    PredictionResult(
      Hundredths(homeRate), Hundredths(awayRate),
      Probabilities(m), FairOdds(m), OverLines(m), BothTeamsScore(m), TopFive(m),
      Hundredths(homeRate + awayRate))
  }

  /** What `calculatePrediction` reports: the report of the score matrix of
      the adjusted rates, the home advantage going to the home side only. */
  function Forecast(homeXg: real, awayXg: real, homeAdvantage: real, exp: real -> real): PredictionResult {
    var homeRate := homeXg + homeAdvantage;
    Report(homeRate, awayXg, ScoreGrid(homeRate, awayXg, exp))
  }

  /** The over/under lines of `calculatePrediction`: 0.5 and 1.5 from the
      cells themselves, 2.5 and 3.5 from the under loops. */
  method OverUnderSums(m: Grid) returns (ou: OverUnder)
    requires IsGrid(m)
    ensures ou == OverLines(m)
  {
    var over05 := 1.0 - m[0][0];
    var over15 := 1.0 - (m[0][0] + m[0][1] + m[1][0]);
    MassNoGoals(m);
    MassAtMostOneGoal(m);
    var under25 := UnderSum(m, 2);
    var over25 := 1.0 - under25;
    var under35 := UnderSum(m, 3);
    var over35 := 1.0 - under35;
    ou := OverUnder(Percent(over05), Percent(over15), Percent(over25), Percent(over35));
  }

  /** `Forecast` is the report of any matrix equal to the score matrix of
      the adjusted rates. */
  lemma ForecastIsReport(homeXg: real, awayXg: real, homeAdvantage: real, exp: real -> real,
                         homeRate: real, awayRate: real, m: Grid)
    requires homeRate == homeXg + homeAdvantage && awayRate == awayXg
    requires m == ScoreGrid(homeRate, awayRate, exp)
    ensures IsGrid(m) && Forecast(homeXg, awayXg, homeAdvantage, exp) == Report(homeRate, awayRate, m)
  {
  }

  /** The sums over the score matrix and the record built from them. */
  method Summarize(adjHomeXg: real, adjAwayXg: real, scoreMatrix: Grid) returns (r: PredictionResult)
    requires IsGrid(scoreMatrix)
    ensures r == Report(adjHomeXg, adjAwayXg, scoreMatrix)
  {
    var homeWin, draw, awayWin := OutcomeSums(scoreMatrix);
    var overUnder := OverUnderSums(scoreMatrix);
    var bttsNo := BlankSideSum(scoreMatrix);
    var bttsYes := 1.0 - bttsNo;
    var topScores := TopScores(scoreMatrix);
    r := PredictionResult(
      Hundredths(adjHomeXg),
      Hundredths(adjAwayXg),
      Outcomes(Percent(homeWin), Percent(draw), Percent(awayWin)),
      MarketOdds(ImpliedOdds(homeWin), ImpliedOdds(draw), ImpliedOdds(awayWin)),
      overUnder,
      Btts(Percent(bttsYes), Percent(bttsNo)),
      topScores,
      Hundredths(adjHomeXg + adjAwayXg));
  }

  /** `calculatePrediction`: the distributions, the matrix and the sums over
      it, computed by the loops of the source. */
  method CalculatePrediction(homeXg: real, awayXg: real, homeAdvantage: real, exp: real -> real)
    returns (r: PredictionResult)
    ensures r == Forecast(homeXg, awayXg, homeAdvantage, exp)
  {
    var adjHomeXg := homeXg + homeAdvantage;
    var adjAwayXg := awayXg;
    var scoreMatrix := MatrixOfRates(adjHomeXg, adjAwayXg, exp);
    ForecastIsReport(homeXg, awayXg, homeAdvantage, exp, adjHomeXg, adjAwayXg, scoreMatrix);
    r := Summarize(adjHomeXg, adjAwayXg, scoreMatrix);
  }

  /** A symmetric matrix (equal adjusted rates) gives equal home-win and
      away-win probabilities and fair odds. */
  lemma SymmetricForecast(m: Grid)
    requires IsGrid(m) && Symmetric(m)
    ensures Probabilities(m).homeWin == Probabilities(m).awayWin
    ensures FairOdds(m).home == FairOdds(m).away
  {
    SymmetricOutcomes(m);
  }

  /** With non-negative cells the over lines are nested:
      over 0.5 >= over 1.5 >= over 2.5 >= over 3.5. */
  lemma OverLinesNested(m: Grid)
    requires IsGrid(m) && NonNegative(m)
    ensures OverLines(m).over05 >= OverLines(m).over15 >= OverLines(m).over25 >= OverLines(m).over35
  {
    UnderThresholdsNested(m);
    PercentMonotone(1.0 - Mass(m, TotalAtMost(1)), 1.0 - Mass(m, TotalAtMost(0)));
    PercentMonotone(1.0 - Mass(m, TotalAtMost(2)), 1.0 - Mass(m, TotalAtMost(1)));
    PercentMonotone(1.0 - Mass(m, TotalAtMost(3)), 1.0 - Mass(m, TotalAtMost(2)));
  }

  /** A probability and its complement, each as a one-decimal percentage,
      add up to 100% or, when both round up, 100.1%. */
  lemma PercentComplement(p: real)
    ensures Percent(1.0 - p) + Percent(p) == 100.0 || Percent(1.0 - p) + Percent(p) == 100.1
  {
    var a := Round(p * 1000.0);
    var b := Round((1.0 - p) * 1000.0);
    assert a + b == 1000 || a + b == 1001;
  }

  /** The two sides of "both teams score" add up to 100% up to rounding. */
  lemma BothTeamsScoreComplement(m: Grid)
    requires IsGrid(m)
    ensures BothTeamsScore(m).yes + BothTeamsScore(m).no == 100.0
         || BothTeamsScore(m).yes + BothTeamsScore(m).no == 100.1
  {
    PercentComplement(Mass(m, BlankSide));
  }

  /** The whole report for equal adjusted rates: home and away are
      interchangeable. */
  lemma ForecastSymmetric(homeXg: real, awayXg: real, homeAdvantage: real, exp: real -> real)
    requires homeXg + homeAdvantage == awayXg
    ensures Forecast(homeXg, awayXg, homeAdvantage, exp).probabilities.homeWin
         == Forecast(homeXg, awayXg, homeAdvantage, exp).probabilities.awayWin
  {
    ScoreGridSymmetric(awayXg, exp);
    SymmetricForecast(ScoreGrid(awayXg, awayXg, exp));
  }

  /** For a positive `exp`, the reported over lines are nested and the five
      scorelines come likeliest first. */
  lemma ForecastOrdered(homeXg: real, awayXg: real, homeAdvantage: real, exp: real -> real)
    requires PositiveEverywhere(exp)
    ensures var f := Forecast(homeXg, awayXg, homeAdvantage, exp);
            && f.overUnder.over05 >= f.overUnder.over15 >= f.overUnder.over25 >= f.overUnder.over35
            && |f.topScores| == 5
            && forall k :: 0 <= k < 4 ==> f.topScores[k].prob >= f.topScores[k + 1].prob
  {
    var m := ScoreGrid(homeXg + homeAdvantage, awayXg, exp);
    ScoreGridNonNegative(homeXg + homeAdvantage, awayXg, exp);
    OverLinesNested(m);
    TopFiveOrdered(m);
  }

  predicate IsPercentage(x: real) {
    0.0 <= x <= 100.0
  }

  /** A probability becomes a percentage between 0 and 100. */
  lemma PercentRange(p: real)
    requires 0.0 <= p <= 1.0
    ensures IsPercentage(Percent(p))
  {
    RoundMonotone(0.0, p * 1000.0);
    RoundMonotone(p * 1000.0, 1000.0);
  }

  /** On a matrix of non-negative cells adding up to at most 1, the 1X2
      probabilities are percentages. */
  lemma ProbabilitiesInRange(m: Grid)
    requires IsGrid(m) && NonNegative(m) && Mass(m, Everywhere) <= 1.0
    ensures IsPercentage(Probabilities(m).homeWin)
    ensures IsPercentage(Probabilities(m).draw)
    ensures IsPercentage(Probabilities(m).awayWin)
  {
    MassBounds(m, HomeWin);
    MassBounds(m, Draw);
    MassBounds(m, AwayWin);
    PercentRange(Mass(m, HomeWin));
    PercentRange(Mass(m, Draw));
    PercentRange(Mass(m, AwayWin));
  }

  /** On such a matrix, the over lines and both sides of "both teams score"
      are percentages. */
  lemma LinesInRange(m: Grid)
    requires IsGrid(m) && NonNegative(m) && Mass(m, Everywhere) <= 1.0
    ensures IsPercentage(OverLines(m).over05) && IsPercentage(OverLines(m).over15)
    ensures IsPercentage(OverLines(m).over25) && IsPercentage(OverLines(m).over35)
    ensures IsPercentage(BothTeamsScore(m).yes) && IsPercentage(BothTeamsScore(m).no)
  {
    MassBounds(m, TotalAtMost(0));
    MassBounds(m, TotalAtMost(1));
    MassBounds(m, TotalAtMost(2));
    MassBounds(m, TotalAtMost(3));
    MassBounds(m, BlankSide);
    PercentRange(1.0 - Mass(m, TotalAtMost(0)));
    PercentRange(1.0 - Mass(m, TotalAtMost(1)));
    PercentRange(1.0 - Mass(m, TotalAtMost(2)));
    PercentRange(1.0 - Mass(m, TotalAtMost(3)));
    PercentRange(1.0 - Mass(m, BlankSide));
    PercentRange(Mass(m, BlankSide));
  }

  /** When `exp` has the facts of the exponential at the two adjusted rates,
      every probability `calculatePrediction` reports is a percentage between
      0 and 100. */
  lemma ForecastInRange(homeXg: real, awayXg: real, homeAdvantage: real, exp: real -> real)
    requires ExpFacts(exp, homeXg + homeAdvantage) && ExpFacts(exp, awayXg)
    ensures var f := Forecast(homeXg, awayXg, homeAdvantage, exp);
            && IsPercentage(f.probabilities.homeWin)
            && IsPercentage(f.probabilities.draw)
            && IsPercentage(f.probabilities.awayWin)
            && IsPercentage(f.overUnder.over05) && IsPercentage(f.overUnder.over15)
            && IsPercentage(f.overUnder.over25) && IsPercentage(f.overUnder.over35)
            && IsPercentage(f.btts.yes) && IsPercentage(f.btts.no)
  {
    var m := ScoreGrid(homeXg + homeAdvantage, awayXg, exp);
    ScoreGridMassAtMostOne(homeXg + homeAdvantage, awayXg, exp);
    ProbabilitiesInRange(m);
    LinesInRange(m);
  }

  // ---------------------------------------------------------------------------
  // estimateXg

  /** Occurrences of `c` in `s` (what `s.match(/c/g)` finds). */
  function CountChar(s: string, c: char): (n: nat)
    ensures n == multiset(s)[c]
    ensures n <= |s|
  {
    if s == [] then 0
    else
      assert s == s[..|s| - 1] + [s[|s| - 1]];
      CountChar(s[..|s| - 1], c) + (if s[|s| - 1] == c then 1 else 0)
  }

  /** `Math.max(0.5, Math.min(3.5, x))`. */
  function Clamp(x: real): (y: real)
    ensures 0.5 <= y <= 3.5
    ensures 0.5 <= x <= 3.5 ==> y == x
    ensures x < 0.5 ==> y == 0.5
    ensures x > 3.5 ==> y == 3.5
  {
    var upper := if 3.5 < x then 3.5 else x;
    if 0.5 > upper then 0.5 else upper
  }

  /** The form adjustment in closed form: each win is worth 0.25, each draw
      0.15, from a base of -0.5, whatever the length of the form string. */
  function FormAdjustment(recentForm: Option<string>): real {
    if recentForm.Some? && recentForm.value != "" then
      0.25 * CountChar(recentForm.value, 'W') as real + 0.15 * CountChar(recentForm.value, 'D') as real - 0.5
    else 0.0
  }

  /** `estimateXg`: the league average, plus the form bonus (wins 0.15, draws
      0.05, minus 0.1 for each of the `5 - wins - draws` remaining games), plus
      0.15 at home, clamped to [0.5, 3.5]. */
  method EstimateXg(recentForm: Option<string>, isHome: bool, leagueAvg: real) returns (xg: real)
    ensures 0.5 <= xg <= 3.5
    ensures xg == Clamp(leagueAvg + FormAdjustment(recentForm) + (if isHome then 0.15 else 0.0))
  {
    xg := leagueAvg;
    if recentForm.Some? && recentForm.value != "" {
      var wins := CountChar(recentForm.value, 'W');
      var draws := CountChar(recentForm.value, 'D');
      var formBonus := (wins as real * 0.15) + (draws as real * 0.05) - ((5 - wins as int - draws as int) as real * 0.1);
      xg := xg + formBonus;
    }
    if isHome {
      xg := xg + 0.15;
    }
    var capped := if 3.5 < xg then 3.5 else xg;
    xg := if 0.5 > capped then 0.5 else capped;
  }

  /** No form (absent or empty) gives no adjustment; five wins give +0.75;
      seven wins give +1.25, as the remaining-games count 5 - 7 is negative. */
  lemma FormAdjustmentExamples()
    ensures FormAdjustment(None) == 0.0 && FormAdjustment(Some("")) == 0.0
    ensures FormAdjustment(Some("WWWWW")) == 0.75
    ensures FormAdjustment(Some("WWWWWWW")) == 1.25
    ensures Clamp(DefaultLeagueAverage + FormAdjustment(None)) == DefaultLeagueAverage
    ensures Clamp(DefaultLeagueAverage + FormAdjustment(Some("WWWWW")) + 0.15) == 2.2
  {
    CountOnlyChar("WWWWW", 'W');
    CountOnlyChar("WWWWWWW", 'W');
    assert 'D' !in "WWWWW" && 'D' !in "WWWWWWW";
  }

  /** In a string made of `c` alone, `c` occurs once per character. */
  lemma {:induction false} CountOnlyChar(s: string, c: char)
    requires forall k :: 0 <= k < |s| ==> s[k] == c
    ensures CountChar(s, c) == |s|
    decreases |s|
  {
    if s != [] {
      CountOnlyChar(s[..|s| - 1], c);
    }
  }

  // ---------------------------------------------------------------------------
  // findValueBets

  datatype BookmakerOdds = BookmakerOdds(home: Option<real>, draw: Option<real>, away: Option<real>)

  datatype MarketKey = HomeKey | DrawKey | AwayKey

  datatype Market = Market(key: MarketKey, prob: real, odds: Option<real>)

  datatype ValueBet = ValueBet(
    market: string,
    ourProb: real,
    bookieOdds: real,
    bookieImplied: real,
    value: real,
    edge: real,
    kelly: real)

  /** The three markets, in the order home, draw, away, each with the
      engine's probability as a fraction. */
  function Markets(prediction: PredictionResult, odds: BookmakerOdds): (markets: seq<Market>)
    ensures |markets| == 3
    ensures forall i :: 0 <= i < 3 ==> KeyRank(markets[i].key) == i
  {
    [ Market(HomeKey, prediction.probabilities.homeWin / 100.0, odds.home),
      Market(DrawKey, prediction.probabilities.draw / 100.0, odds.draw),
      Market(AwayKey, prediction.probabilities.awayWin / 100.0, odds.away) ]
  }

  function KeyRank(key: MarketKey): int {
    match key
    case HomeKey => 0
    case DrawKey => 1
    case AwayKey => 2
  }

  function MarketName(key: MarketKey): string {
    if key == HomeKey then "Ev Sahibi" else if key == AwayKey then "Deplasman" else "Beraberlik"
  }

  /** The market of a bet, read back from its name: 0 home, 1 draw, 2 away. */
  function MarketRank(b: ValueBet): int {
    if b.market == "Ev Sahibi" then 0 else if b.market == "Beraberlik" then 1 else 2
  }

  /** Odds are usable when present and above 1; absent, zero and <= 1 are
      skipped. */
  predicate Priced(mk: Market) {
    mk.odds.Some? && mk.odds.value > 1.0
  }

  /** Expected profit per unit staked at the offered odds. */
  function Value(mk: Market): real
    requires Priced(mk)
  {
    mk.prob * mk.odds.value - 1.0
  }

  predicate IsValue(mk: Market, minValue: real) {
    Priced(mk) && Value(mk) > minValue
  }

  /** The reported bet: percentages with one decimal, Kelly fraction with two. */
  function Appraise(mk: Market): (b: ValueBet)
    requires Priced(mk)
    ensures b.value == Percent(Value(mk)) && b.bookieOdds == mk.odds.value
    ensures MarketRank(b) == KeyRank(mk.key)
  {
    var odds := mk.odds.value;
    var impliedProb := 1.0 / odds;
    var edge := mk.prob - impliedProb;
    ValueBet(MarketName(mk.key), Percent(mk.prob), odds, Percent(impliedProb),
      Percent(Value(mk)), Percent(edge), Hundredths(edge / (odds - 1.0)))
  }

  /** What one market contributes: its appraisal when it is a value bet. */
  function Pick(mk: Market, minValue: real): (bets: seq<ValueBet>)
    ensures |bets| <= 1
  {
    if IsValue(mk, minValue) then [Appraise(mk)] else []
  }

  /** The results `pick` gives for each element of `xs`, concatenated in the
      order of `xs`: the shape of a loop that pushes what it finds. */
  function Gather<A, B>(xs: seq<A>, pick: A -> seq<B>): seq<B> {
    if xs == [] then [] else Gather(xs[..|xs| - 1], pick) + pick(xs[|xs| - 1])
  }

  lemma GatherStep<A, B>(xs: seq<A>, i: nat, pick: A -> seq<B>)
    requires i < |xs|
    ensures Gather(xs[..i + 1], pick) == Gather(xs[..i], pick) + pick(xs[i])
  {
    assert xs[..i + 1][..i] == xs[..i];
  }

  /** Something is gathered exactly when some element picks it. */
  lemma {:induction false} GatherMembers<A, B>(xs: seq<A>, pick: A -> seq<B>)
    ensures forall b :: b in Gather(xs, pick) <==> exists i :: 0 <= i < |xs| && b in pick(xs[i])
    decreases |xs|
  {
    if xs != [] {
      var n := |xs| - 1;
      GatherMembers(xs[..n], pick);
      forall b
        ensures b in Gather(xs, pick) <==> exists i :: 0 <= i < |xs| && b in pick(xs[i])
      {
        if exists i :: 0 <= i < |xs| && b in pick(xs[i]) {
          var i :| 0 <= i < |xs| && b in pick(xs[i]);
          if i < n {
            assert xs[..n][i] == xs[i];
          }
        }
        if b in Gather(xs[..n], pick) {
          var i :| 0 <= i < n && b in pick(xs[..n][i]);
          assert xs[..n][i] == xs[i];
        }
      }
    }
  }

  /** When element `i` picks at most one result, of rank `i`, the gathered
      results come in strictly increasing rank. */
  lemma {:induction false} GatherInOrder<A, B>(xs: seq<A>, pick: A -> seq<B>, rank: B -> int)
    requires forall i :: 0 <= i < |xs| ==> |pick(xs[i])| <= 1
    requires forall i, b :: 0 <= i < |xs| && b in pick(xs[i]) ==> rank(b) == i
    ensures var g := Gather(xs, pick);
            && |g| <= |xs|
            && (forall k :: 0 <= k < |g| ==> 0 <= rank(g[k]) < |xs|)
            && forall k, l :: 0 <= k < l < |g| ==> rank(g[k]) < rank(g[l])
    decreases |xs|
  {
    if xs != [] {
      var n := |xs| - 1;
      var init := xs[..n];
      forall i | 0 <= i < n
        ensures init[i] == xs[i]
      {
      }
      GatherInOrder(init, pick, rank);
      var p := Gather(init, pick);
      var q := pick(xs[n]);
      var g := p + q;
      forall k | 0 <= k < |g|
        ensures 0 <= rank(g[k]) <= n
        ensures k < |p| ==> rank(g[k]) < n
      {
        if k < |p| {
          assert g[k] == p[k];
        } else {
          assert g[k] in q;
        }
      }
    }
  }

  /** The value bets among `markets`, in market order. */
  function Candidates(markets: seq<Market>, minValue: real): seq<ValueBet> {
    Gather(markets, mk => Pick(mk, minValue))
  }

  lemma CandidatesOfThree(markets: seq<Market>, minValue: real)
    requires |markets| == 3
    ensures Candidates(markets, minValue)
         == Pick(markets[0], minValue) + Pick(markets[1], minValue) + Pick(markets[2], minValue)
  {
    var pick := mk => Pick(mk, minValue);
    assert Candidates(markets, minValue) == Gather(markets, pick);
    GatherStep(markets, 0, pick);
    GatherStep(markets, 1, pick);
    GatherStep(markets, 2, pick);
    assert markets[..0] == [] && markets[..3] == markets;
  }

  /** A bet is a candidate exactly when it is the appraisal of a market whose
      usable odds give a value strictly above the threshold. */
  lemma CandidatesExactly(markets: seq<Market>, minValue: real)
    ensures forall b :: b in Candidates(markets, minValue) <==>
              exists i :: 0 <= i < |markets| && IsValue(markets[i], minValue) && b == Appraise(markets[i])
  {
    var pick := mk => Pick(mk, minValue);
    assert Candidates(markets, minValue) == Gather(markets, pick);
    GatherMembers(markets, pick);
  }

  /** A picked bet names the market it was picked from. */
  lemma PickRank(mk: Market, minValue: real)
    ensures forall b :: b in Pick(mk, minValue) ==> MarketRank(b) == KeyRank(mk.key)
  {
  }

  /** Candidates from markets listed in rank order come out in that order. */
  lemma CandidatesInMarketOrder(markets: seq<Market>, minValue: real)
    requires forall i :: 0 <= i < |markets| ==> KeyRank(markets[i].key) == i
    ensures var c := Candidates(markets, minValue);
            && |c| <= |markets|
            && (forall i :: 0 <= i < |c| ==> 0 <= MarketRank(c[i]) < |markets|)
            && forall i, j :: 0 <= i < j < |c| ==> MarketRank(c[i]) < MarketRank(c[j])
  {
    var pick := mk => Pick(mk, minValue);
    assert Candidates(markets, minValue) == Gather(markets, pick);
    forall i, b | 0 <= i < |markets| && b in pick(markets[i])
      ensures MarketRank(b) == i
    {
      PickRank(markets[i], minValue);
    }
    GatherInOrder(markets, pick, MarketRank);
  }

  /** The pushing loop of `findValueBets`. */
  method CollectValueBets(markets: seq<Market>, minValue: real) returns (valueBets: seq<ValueBet>)
    ensures valueBets == Candidates(markets, minValue)
  {
    ghost var pick := mk => Pick(mk, minValue);
    valueBets := [];
    for i := 0 to |markets|
      invariant valueBets == Gather(markets[..i], pick)
    {
      var mk := markets[i];
      GatherStep(markets, i, pick);
      if mk.odds.None? || mk.odds.value <= 1.0 {
        continue;
      }
      if Value(mk) > minValue {
        valueBets := valueBets + [Appraise(mk)];
      }
    }
    assert markets[..|markets|] == markets;
    assert Candidates(markets, minValue) == Gather(markets, pick);
  }

  /** The sort key of `(a, b) => b.value - a.value`: larger value first. */
  function Unvalue(b: ValueBet): real {
    -b.value
  }

  /** `findValueBets`: the value bets of the three markets, sorted in place,
      largest rounded value first. */
  method FindValueBets(prediction: PredictionResult, bookmakerOdds: BookmakerOdds, minValue: real)
    returns (bets: seq<ValueBet>)
    ensures bets == Sort(Candidates(Markets(prediction, bookmakerOdds), minValue), Unvalue)
  {
    var valueBets := CollectValueBets(Markets(prediction, bookmakerOdds), minValue);
    var sorted := new ValueBet[|valueBets|](k requires 0 <= k < |valueBets| => valueBets[k]);
    assert sorted[..] == valueBets;
    SortInPlace(sorted, Unvalue);
    bets := sorted[..];
  }

  /** The bets `findValueBets` reports: at most three, every one the
      appraisal of a market with usable odds and a value strictly above the
      threshold, and every such market present. */
  lemma ValueBetsExactly(prediction: PredictionResult, odds: BookmakerOdds, minValue: real)
    ensures var markets := Markets(prediction, odds);
            var bets := Sort(Candidates(markets, minValue), Unvalue);
            && |bets| <= 3
            && forall b :: b in bets <==>
                 exists i :: 0 <= i < 3 && IsValue(markets[i], minValue) && b == Appraise(markets[i])
  {
    var markets := Markets(prediction, odds);
    var candidates := Candidates(markets, minValue);
    var bets := Sort(candidates, Unvalue);
    CandidatesExactly(markets, minValue);
    CandidatesInMarketOrder(markets, minValue);
    SortIsPermutation(candidates, Unvalue);
    forall b
      ensures b in bets <==> b in candidates
    {
      assert b in bets <==> b in multiset(bets);
      assert b in candidates <==> b in multiset(candidates);
    }
  }

  /** The order of `findValueBets`: largest value first, and equally valued
      bets in the market order home, draw, away. */
  lemma ValueBetsOrdered(prediction: PredictionResult, odds: BookmakerOdds, minValue: real)
    ensures var bets := Sort(Candidates(Markets(prediction, odds), minValue), Unvalue);
            && (forall i, j :: 0 <= i < j < |bets| ==> bets[i].value >= bets[j].value)
            && TiesInOrder(bets, Unvalue, MarketRank)
  {
    var markets := Markets(prediction, odds);
    var candidates := Candidates(markets, minValue);
    var bets := Sort(candidates, Unvalue);
    SortIsSorted(candidates, Unvalue);
    assert forall i, j :: 0 <= i < j < |bets| ==> Unvalue(bets[i]) <= Unvalue(bets[j]);
    CandidatesInMarketOrder(markets, minValue);
    SortKeepsTieOrder(candidates, Unvalue, MarketRank);
  }

  /** Without bookmaker odds there is no value bet. */
  lemma NoOddsNoBets(prediction: PredictionResult, minValue: real)
    ensures Sort(Candidates(Markets(prediction, BookmakerOdds(None, None, None)), minValue), Unvalue) == []
  {
    CandidatesOfThree(Markets(prediction, BookmakerOdds(None, None, None)), minValue);
  }

  /** Odds of exactly 1 are skipped, however likely the outcome. */
  lemma EvenOddsSkipped(prediction: PredictionResult, minValue: real)
    ensures Sort(Candidates(Markets(prediction, BookmakerOdds(Some(1.0), Some(1.0), Some(1.0))), minValue), Unvalue) == []
  {
    CandidatesOfThree(Markets(prediction, BookmakerOdds(Some(1.0), Some(1.0), Some(1.0))), minValue);
  }

  /** A 60% home win against home odds of 2.0: value 20%, edge 10%, Kelly
      fraction 0.1. */
  lemma HomeValueExample(prediction: PredictionResult)
    requires prediction.probabilities.homeWin == 60.0
    ensures Sort(Candidates(Markets(prediction, BookmakerOdds(Some(2.0), None, None)), DefaultMinValue), Unvalue)
         == [ValueBet("Ev Sahibi", 60.0, 2.0, 50.0, 20.0, 10.0, 0.1)]
  {
    var markets := Markets(prediction, BookmakerOdds(Some(2.0), None, None));
    CandidatesOfThree(markets, DefaultMinValue);
    assert Round(0.6 * 1000.0) == 600;
    assert Round(0.5 * 1000.0) == 500;
    assert Round((0.6 * 2.0 - 1.0) * 1000.0) == 200;
    assert Round((0.6 - 0.5) * 1000.0) == 100;
    assert Round((0.6 - 0.5) / (2.0 - 1.0) * 100.0) == 10;
    assert Candidates(markets, DefaultMinValue) == [ValueBet("Ev Sahibi", 60.0, 2.0, 50.0, 20.0, 10.0, 0.1)];
  }

  /** The value test is strict: a market whose value equals the threshold
      is not a value bet. */
  lemma ThresholdIsStrict(mk: Market, minValue: real)
    requires Priced(mk) && Value(mk) == minValue
    ensures Pick(mk, minValue) == []
  {
  }

  /** A 75% home win at odds 2.0 has value 0.75 * 2 - 1 = 0.5 exactly (in
      binary floating point too), so against a threshold of 0.5 it is not
      a value bet. */
  lemma ThresholdExample(prediction: PredictionResult)
    requires prediction.probabilities.homeWin == 75.0
    ensures Sort(Candidates(Markets(prediction, BookmakerOdds(Some(2.0), None, None)), 0.5), Unvalue) == []
  {
    var markets := Markets(prediction, BookmakerOdds(Some(2.0), None, None));
    CandidatesOfThree(markets, 0.5);
    ThresholdIsStrict(markets[0], 0.5);
  }
}
