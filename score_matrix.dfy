/**
 * The 10x10 score-probability matrix of the prediction engine: cell (i, j)
 * is the probability that the home side scores i goals and the away side j.
 * Statistics are sums of the cells of a region, taken in row-major order as
 * the engine's nested loops take them.
 */
module ScoreMatrix {

  /** Goal counts 0..9 are modelled on each side. */
  const MaxGoals: nat := 10

  type Grid = seq<seq<real>>

  predicate IsGrid(m: Grid) {
    |m| == MaxGoals && forall i :: 0 <= i < MaxGoals ==> |m[i]| == MaxGoals
  }

  predicate NonNegative(m: Grid)
    requires IsGrid(m)
  {
    forall i, j :: 0 <= i < MaxGoals && 0 <= j < MaxGoals ==> m[i][j] >= 0.0
  }

  predicate Symmetric(m: Grid)
    requires IsGrid(m)
  {
    forall i, j :: 0 <= i < MaxGoals && 0 <= j < MaxGoals ==> m[i][j] == m[j][i]
  }

  /** The independent joint distribution of two per-side distributions. */
  function OuterProduct(homeProbs: seq<real>, awayProbs: seq<real>): (m: Grid)
    requires |homeProbs| == MaxGoals && |awayProbs| == MaxGoals
    ensures IsGrid(m)
  {
    seq(MaxGoals, i requires 0 <= i < MaxGoals =>
      seq(MaxGoals, j requires 0 <= j < MaxGoals => homeProbs[i] * awayProbs[j]))
  }

  /** Two sides with the same distribution give a symmetric matrix. */
  lemma OuterProductSymmetric(probs: seq<real>)
    requires |probs| == MaxGoals
    ensures Symmetric(OuterProduct(probs, probs))
  {
    var m := OuterProduct(probs, probs);
    forall i, j | 0 <= i < MaxGoals && 0 <= j < MaxGoals
      ensures m[i][j] == m[j][i]
    {
      var a, b := probs[i], probs[j];
      assert m[i][j] == a * b && m[j][i] == b * a;
    }
  }

  /** Sets of scorelines (home goals i, away goals j). */
  datatype Region =
    | HomeWin                  // i > j
    | Draw                     // i == j
    | AwayWin                  // i < j
    | HomeOrDraw               // i >= j, the "1X" double chance
    | TotalAtMost(goals: nat)  // i + j <= goals
    | TotalAbove(goals: nat)   // i + j > goals
    | BlankSide                // at least one side scores nothing
    | BothScore                // both sides score
    | Everywhere
  {
    predicate Contains(i: nat, j: nat) {
      match this
      case HomeWin => i > j
      case Draw => i == j
      case AwayWin => i < j
      case HomeOrDraw => i >= j
      case TotalAtMost(g) => i + j <= g
      case TotalAbove(g) => i + j > g
      case BlankSide => i == 0 || j == 0
      case BothScore => i > 0 && j > 0
      case Everywhere => true
    }
  }

  /** `c` is the disjoint union of `a` and `b`. */
  ghost predicate SplitsInto(c: Region, a: Region, b: Region) {
    forall i: nat, j: nat ::
      (c.Contains(i, j) <==> a.Contains(i, j) || b.Contains(i, j)) && !(a.Contains(i, j) && b.Contains(i, j))
  }

  ghost predicate Within(a: Region, b: Region) {
    forall i: nat, j: nat :: a.Contains(i, j) ==> b.Contains(i, j)
  }

  /** `b` is `a` with the roles of home and away exchanged. */
  ghost predicate Transposed(a: Region, b: Region) {
    forall i: nat, j: nat :: a.Contains(i, j) <==> b.Contains(j, i)
  }

  /** Every scoreline of `r` lies in the top-left `rows` x `cols` block. */
  ghost predicate Inside(r: Region, rows: nat, cols: nat) {
    forall i: nat, j: nat :: r.Contains(i, j) ==> i < rows && j < cols
  }

  function Term(m: Grid, r: Region, i: nat, j: nat): real
    requires IsGrid(m) && i < MaxGoals && j < MaxGoals
  {
    if r.Contains(i, j) then m[i][j] else 0.0
  }

  /** Sum of the entries of `row` (row `i` of the matrix, or a prefix of it)
      that lie in region `r`. The sums recurse over sequences rather than
      over goal counts, so that the verifier does not evaluate them cell by
      cell wherever the bounds are constants. */
  function SumRow(r: Region, i: nat, row: seq<real>): real
    decreases |row|
  {
    if row == [] then 0.0
    else SumRow(r, i, row[..|row| - 1]) + (if r.Contains(i, |row| - 1) then row[|row| - 1] else 0.0)
  }

  /** Row-major sum over the first `cols` entries of each row of `block`. */
  function SumRows(r: Region, block: seq<seq<real>>, cols: nat): real
    requires forall k :: 0 <= k < |block| ==> cols <= |block[k]|
    decreases |block|
  {
    if block == [] then 0.0
    else SumRows(r, block[..|block| - 1], cols) + SumRow(r, |block| - 1, block[|block| - 1][..cols])
  }

  /** Sum of the cells of row `i` in region `r` among the first `cols` columns. */
  function RowSum(m: Grid, r: Region, i: nat, cols: nat): real
    requires IsGrid(m) && i < MaxGoals && cols <= MaxGoals
  {
    SumRow(r, i, m[i][..cols])
  }

  /** Row-major sum of the cells of region `r` in the top-left block. */
  function BlockSum(m: Grid, r: Region, rows: nat, cols: nat): real
    requires IsGrid(m) && rows <= MaxGoals && cols <= MaxGoals
  {
    SumRows(r, m[..rows], cols)
  }

  lemma RowSumEmpty(m: Grid, r: Region, i: nat)
    requires IsGrid(m) && i < MaxGoals
    ensures RowSum(m, r, i, 0) == 0.0
  {
    assert m[i][..0] == [];
  }

  /** A row sum grows by one cell at a time. */
  lemma RowSumStep(m: Grid, r: Region, i: nat, cols: nat)
    requires IsGrid(m) && i < MaxGoals && 0 < cols <= MaxGoals
    ensures RowSum(m, r, i, cols) == RowSum(m, r, i, cols - 1) + Term(m, r, i, cols - 1)
  {
    assert m[i][..cols][..cols - 1] == m[i][..cols - 1];
  }

  lemma BlockSumEmpty(m: Grid, r: Region, cols: nat)
    requires IsGrid(m) && cols <= MaxGoals
    ensures BlockSum(m, r, 0, cols) == 0.0
  {
    assert m[..0] == [];
  }

  /** A block sum grows by one row at a time. */
  lemma BlockSumStep(m: Grid, r: Region, rows: nat, cols: nat)
    requires IsGrid(m) && 0 < rows <= MaxGoals && cols <= MaxGoals
    ensures BlockSum(m, r, rows, cols) == BlockSum(m, r, rows - 1, cols) + RowSum(m, r, rows - 1, cols)
  {
    assert m[..rows][..rows - 1] == m[..rows - 1];
  }

  /** The probability the matrix gives to region `r`. */
  function Mass(m: Grid, r: Region): real
    requires IsGrid(m)
  {
    BlockSum(m, r, MaxGoals, MaxGoals)
  }

  /** Sum of the first `rows` cells of column `j`. */
  function ColumnSum(m: Grid, j: nat, rows: nat): real
    requires IsGrid(m) && j < MaxGoals && rows <= MaxGoals
  {
    if rows == 0 then 0.0 else ColumnSum(m, j, rows - 1) + m[rows - 1][j]
  }

  // ---------------------------------------------------------------------------
  // Additivity

  lemma {:induction false} RowSumSplit(m: Grid, c: Region, a: Region, b: Region, i: nat, cols: nat)
    requires IsGrid(m) && i < MaxGoals && cols <= MaxGoals
    requires SplitsInto(c, a, b)
    ensures RowSum(m, a, i, cols) + RowSum(m, b, i, cols) == RowSum(m, c, i, cols)
  {
    if cols == 0 {
      RowSumEmpty(m, a, i); RowSumEmpty(m, b, i); RowSumEmpty(m, c, i);
    } else {
      RowSumSplit(m, c, a, b, i, cols - 1);
      RowSumStep(m, a, i, cols); RowSumStep(m, b, i, cols); RowSumStep(m, c, i, cols);
      assert c.Contains(i, cols - 1) <==> a.Contains(i, cols - 1) || b.Contains(i, cols - 1);
      assert !(a.Contains(i, cols - 1) && b.Contains(i, cols - 1));
    }
  }

  lemma {:induction false} BlockSumSplit(m: Grid, c: Region, a: Region, b: Region, rows: nat, cols: nat)
    requires IsGrid(m) && rows <= MaxGoals && cols <= MaxGoals
    requires SplitsInto(c, a, b)
    ensures BlockSum(m, a, rows, cols) + BlockSum(m, b, rows, cols) == BlockSum(m, c, rows, cols)
  {
    if rows == 0 {
      BlockSumEmpty(m, a, cols); BlockSumEmpty(m, b, cols); BlockSumEmpty(m, c, cols);
    } else {
      BlockSumSplit(m, c, a, b, rows - 1, cols);
      RowSumSplit(m, c, a, b, rows - 1, cols);
      BlockSumStep(m, a, rows, cols); BlockSumStep(m, b, rows, cols); BlockSumStep(m, c, rows, cols);
    }
  }

  /** The mass of a disjoint union is the sum of the masses of its parts. */
  lemma MassSplit(m: Grid, c: Region, a: Region, b: Region)
    requires IsGrid(m)
    requires SplitsInto(c, a, b)
    ensures Mass(m, a) + Mass(m, b) == Mass(m, c)
  {
    BlockSumSplit(m, c, a, b, MaxGoals, MaxGoals);
  }

  // ---------------------------------------------------------------------------
  // Monotonicity

  lemma {:induction false} RowSumMonotone(m: Grid, a: Region, b: Region, i: nat, cols: nat)
    requires IsGrid(m) && NonNegative(m) && i < MaxGoals && cols <= MaxGoals
    requires Within(a, b)
    ensures RowSum(m, a, i, cols) <= RowSum(m, b, i, cols)
  {
    if cols == 0 {
      RowSumEmpty(m, a, i); RowSumEmpty(m, b, i);
    } else {
      RowSumMonotone(m, a, b, i, cols - 1);
      RowSumStep(m, a, i, cols); RowSumStep(m, b, i, cols);
      assert a.Contains(i, cols - 1) ==> b.Contains(i, cols - 1);
      assert m[i][cols - 1] >= 0.0;
    }
  }

  lemma {:induction false} BlockSumMonotone(m: Grid, a: Region, b: Region, rows: nat, cols: nat)
    requires IsGrid(m) && NonNegative(m) && rows <= MaxGoals && cols <= MaxGoals
    requires Within(a, b)
    ensures BlockSum(m, a, rows, cols) <= BlockSum(m, b, rows, cols)
  {
    if rows == 0 {
      BlockSumEmpty(m, a, cols); BlockSumEmpty(m, b, cols);
    } else {
      BlockSumMonotone(m, a, b, rows - 1, cols);
      RowSumMonotone(m, a, b, rows - 1, cols);
      BlockSumStep(m, a, rows, cols); BlockSumStep(m, b, rows, cols);
    }
  }

  /** On a matrix of non-negative cells, a larger region has a larger mass. */
  lemma MassMonotone(m: Grid, a: Region, b: Region)
    requires IsGrid(m) && NonNegative(m)
    requires Within(a, b)
    ensures Mass(m, a) <= Mass(m, b)
  {
    BlockSumMonotone(m, a, b, MaxGoals, MaxGoals);
  }

  /** The cells of a non-negative matrix add up to a non-negative mass. */
  lemma {:induction false} RowSumNonNegative(m: Grid, r: Region, i: nat, cols: nat)
    requires IsGrid(m) && NonNegative(m) && i < MaxGoals && cols <= MaxGoals
    ensures RowSum(m, r, i, cols) >= 0.0
  {
    if cols == 0 {
      RowSumEmpty(m, r, i);
    } else {
      RowSumNonNegative(m, r, i, cols - 1);
      RowSumStep(m, r, i, cols);
      assert m[i][cols - 1] >= 0.0;
    }
  }

  lemma {:induction false} BlockSumNonNegative(m: Grid, r: Region, rows: nat, cols: nat)
    requires IsGrid(m) && NonNegative(m) && rows <= MaxGoals && cols <= MaxGoals
    ensures BlockSum(m, r, rows, cols) >= 0.0
  {
    if rows == 0 {
      BlockSumEmpty(m, r, cols);
    } else {
      BlockSumNonNegative(m, r, rows - 1, cols);
      RowSumNonNegative(m, r, rows - 1, cols);
      BlockSumStep(m, r, rows, cols);
    }
  }

  /** On a matrix of non-negative cells, every region has a probability
      between 0 and the total of all the cells. */
  lemma MassBounds(m: Grid, r: Region)
    requires IsGrid(m) && NonNegative(m)
    ensures 0.0 <= Mass(m, r) <= Mass(m, Everywhere)
  {
    BlockSumNonNegative(m, r, MaxGoals, MaxGoals);
    MassMonotone(m, r, Everywhere);
  }

  // ---------------------------------------------------------------------------
  // Total probability

  /** The sum of a sequence of probabilities. */
  function Total(probs: seq<real>): real {
    if probs == [] then 0.0 else Total(probs[..|probs| - 1]) + probs[|probs| - 1]
  }

  lemma {:induction false} TotalNonNegative(probs: seq<real>)
    requires forall k :: 0 <= k < |probs| ==> probs[k] >= 0.0
    ensures Total(probs) >= 0.0
    decreases |probs|
  {
    if probs != [] {
      TotalNonNegative(probs[..|probs| - 1]);
    }
  }

  /** All the probability on the first entry: the total is 1. */
  lemma TotalOfPointMass(probs: seq<real>)
    requires |probs| > 0 && probs[0] == 1.0
    requires forall k :: 1 <= k < |probs| ==> probs[k] == 0.0
    ensures Total(probs) == 1.0
  {
    PrefixOfPointMass(probs, |probs|);
    assert probs[..|probs|] == probs;
  }

  lemma {:induction false} PrefixOfPointMass(probs: seq<real>, n: nat)
    requires 0 < n <= |probs| && probs[0] == 1.0
    requires forall k :: 1 <= k < |probs| ==> probs[k] == 0.0
    ensures Total(probs[..n]) == 1.0
  {
    assert probs[..n][..n - 1] == probs[..n - 1];
    if n == 1 {
      assert probs[..0] == [];
    } else {
      PrefixOfPointMass(probs, n - 1);
    }
  }

  /** Scaling every probability scales the total. */
  lemma {:induction false} TotalScaled(probs: seq<real>, terms: seq<real>, e: real)
    requires |probs| == |terms|
    requires forall k :: 0 <= k < |probs| ==> probs[k] == e * terms[k]
    ensures Total(probs) == e * Total(terms)
    decreases |probs|
  {
    if probs == [] {
      assert terms == [];
    } else {
      var n := |probs| - 1;
      TotalScaled(probs[..n], terms[..n], e);
      var t, x := Total(terms[..n]), terms[n];
      assert Total(probs) == e * t + e * x;
      assert e * t + e * x == e * (t + x);
    }
  }

  /** Row `i` of an outer product sums to the home probability of `i` times
      the away distribution's total. */
  lemma {:induction false} RowSumOfProduct(homeProbs: seq<real>, awayProbs: seq<real>, i: nat, cols: nat)
    requires |homeProbs| == MaxGoals && |awayProbs| == MaxGoals && i < MaxGoals && cols <= MaxGoals
    ensures RowSum(OuterProduct(homeProbs, awayProbs), Everywhere, i, cols) == homeProbs[i] * Total(awayProbs[..cols])
  {
    var m := OuterProduct(homeProbs, awayProbs);
    if cols == 0 {
      RowSumEmpty(m, Everywhere, i);
      assert awayProbs[..0] == [];
    } else {
      RowSumOfProduct(homeProbs, awayProbs, i, cols - 1);
      RowSumStep(m, Everywhere, i, cols);
      assert awayProbs[..cols][..cols - 1] == awayProbs[..cols - 1];
      var h, t, a := homeProbs[i], Total(awayProbs[..cols - 1]), awayProbs[cols - 1];
      assert h * t + h * a == h * (t + a);
    }
  }

  lemma {:induction false} BlockSumOfProduct(homeProbs: seq<real>, awayProbs: seq<real>, rows: nat)
    requires |homeProbs| == MaxGoals && |awayProbs| == MaxGoals && rows <= MaxGoals
    ensures BlockSum(OuterProduct(homeProbs, awayProbs), Everywhere, rows, MaxGoals)
         == Total(homeProbs[..rows]) * Total(awayProbs)
  {
    var m := OuterProduct(homeProbs, awayProbs);
    if rows == 0 {
      BlockSumEmpty(m, Everywhere, MaxGoals);
      assert homeProbs[..0] == [];
    } else {
      BlockSumOfProduct(homeProbs, awayProbs, rows - 1);
      BlockSumStep(m, Everywhere, rows, MaxGoals);
      RowSumOfProduct(homeProbs, awayProbs, rows - 1, MaxGoals);
      assert awayProbs[..MaxGoals] == awayProbs;
      assert homeProbs[..rows][..rows - 1] == homeProbs[..rows - 1];
      var t, h, a := Total(homeProbs[..rows - 1]), homeProbs[rows - 1], Total(awayProbs);
      assert t * a + h * a == (t + h) * a;
    }
  }

  /** The independent joint distribution has the product of the two sides'
      totals as its total. */
  lemma OuterProductMass(homeProbs: seq<real>, awayProbs: seq<real>)
    requires |homeProbs| == MaxGoals && |awayProbs| == MaxGoals
    ensures Mass(OuterProduct(homeProbs, awayProbs), Everywhere) == Total(homeProbs) * Total(awayProbs)
  {
    BlockSumOfProduct(homeProbs, awayProbs, MaxGoals);
    assert homeProbs[..MaxGoals] == homeProbs;
  }

  /** Two distributions of non-negative probabilities give a matrix of
      non-negative cells. */
  lemma OuterProductNonNegative(homeProbs: seq<real>, awayProbs: seq<real>)
    requires |homeProbs| == MaxGoals && |awayProbs| == MaxGoals
    requires forall k :: 0 <= k < MaxGoals ==> homeProbs[k] >= 0.0 && awayProbs[k] >= 0.0
    ensures NonNegative(OuterProduct(homeProbs, awayProbs))
  {
    var m := OuterProduct(homeProbs, awayProbs);
    forall i, j | 0 <= i < MaxGoals && 0 <= j < MaxGoals
      ensures m[i][j] >= 0.0
    {
      ProductNonNegative(homeProbs[i], awayProbs[j]);
    }
  }

  /** Two distributions whose totals are at most 1 give a matrix whose total
      is at most 1. */
  lemma OuterProductMassAtMostOne(homeProbs: seq<real>, awayProbs: seq<real>)
    requires |homeProbs| == MaxGoals && |awayProbs| == MaxGoals
    requires 0.0 <= Total(homeProbs) <= 1.0 && 0.0 <= Total(awayProbs) <= 1.0
    ensures 0.0 <= Mass(OuterProduct(homeProbs, awayProbs), Everywhere) <= 1.0
  {
    OuterProductMass(homeProbs, awayProbs);
    ProductAtMostOne(Total(homeProbs), Total(awayProbs));
  }

  lemma ProductNonNegative(x: real, y: real)
    requires x >= 0.0 && y >= 0.0
    ensures x * y >= 0.0
  {
  }

  lemma ProductAtMostOne(x: real, y: real)
    requires 0.0 <= x <= 1.0 && 0.0 <= y <= 1.0
    ensures 0.0 <= x * y <= 1.0
  {
    ProductNonNegative(x, y);
    ProductNonNegative(x, 1.0 - y);
    assert x * (1.0 - y) == x - x * y;
  }

  // ---------------------------------------------------------------------------
  // Regions that fit in a smaller block

  lemma {:induction false} RowSumPastRegion(m: Grid, r: Region, i: nat, cols: nat, from: nat)
    requires IsGrid(m) && i < MaxGoals && from <= cols <= MaxGoals
    requires forall j: nat :: from <= j ==> !r.Contains(i, j)
    ensures RowSum(m, r, i, cols) == RowSum(m, r, i, from)
    decreases cols
  {
    if cols > from {
      RowSumPastRegion(m, r, i, cols - 1, from);
      RowSumStep(m, r, i, cols);
    }
  }

  lemma {:induction false} BlockSumExtendRows(m: Grid, r: Region, rows: nat, cols: nat, from: nat)
    requires IsGrid(m) && from <= rows <= MaxGoals && cols <= MaxGoals
    requires Inside(r, from, cols)
    ensures BlockSum(m, r, rows, cols) == BlockSum(m, r, from, cols)
    decreases rows
  {
    if rows > from {
      BlockSumExtendRows(m, r, rows - 1, cols, from);
      RowSumPastRegion(m, r, rows - 1, cols, 0);
      RowSumEmpty(m, r, rows - 1);
      BlockSumStep(m, r, rows, cols);
    }
  }

  lemma {:induction false} BlockSumExtendCols(m: Grid, r: Region, rows: nat, cols: nat, bound: nat)
    requires IsGrid(m) && rows <= bound <= MaxGoals && cols <= MaxGoals
    requires Inside(r, bound, cols)
    ensures BlockSum(m, r, rows, cols) == BlockSum(m, r, rows, MaxGoals)
    decreases rows
  {
    if rows == 0 {
      BlockSumEmpty(m, r, cols); BlockSumEmpty(m, r, MaxGoals);
    } else {
      BlockSumExtendCols(m, r, rows - 1, cols, bound);
      RowSumPastRegion(m, r, rows - 1, MaxGoals, cols);
      BlockSumStep(m, r, rows, cols); BlockSumStep(m, r, rows, MaxGoals);
    }
  }

  /** A region inside the top-left `rows` x `cols` block has the same sum over
      that block as over the whole matrix. */
  lemma BlockSumInside(m: Grid, r: Region, rows: nat, cols: nat)
    requires IsGrid(m) && rows <= MaxGoals && cols <= MaxGoals
    requires Inside(r, rows, cols)
    ensures BlockSum(m, r, rows, cols) == Mass(m, r)
  {
    BlockSumExtendCols(m, r, rows, cols, rows);
    assert Inside(r, rows, MaxGoals);
    BlockSumExtendRows(m, r, MaxGoals, MaxGoals, rows);
  }

  /** "No goals at all" is the single cell 0-0. */
  lemma MassNoGoals(m: Grid)
    requires IsGrid(m)
    ensures Mass(m, TotalAtMost(0)) == m[0][0]
  {
    BlockSumInside(m, TotalAtMost(0), 1, 1);
    BlockSumStep(m, TotalAtMost(0), 1, 1);
    BlockSumEmpty(m, TotalAtMost(0), 1);
    RowSumStep(m, TotalAtMost(0), 0, 1);
    RowSumEmpty(m, TotalAtMost(0), 0);
  }

  /** "At most one goal" is the cells 0-0, 0-1 and 1-0. */
  lemma MassAtMostOneGoal(m: Grid)
    requires IsGrid(m)
    ensures Mass(m, TotalAtMost(1)) == m[0][0] + m[0][1] + m[1][0]
  {
    var r := TotalAtMost(1);
    BlockSumInside(m, r, 2, 2);
    BlockSumStep(m, r, 2, 2);
    BlockSumStep(m, r, 1, 2);
    BlockSumEmpty(m, r, 2);
    RowSumStep(m, r, 0, 2); RowSumStep(m, r, 0, 1); RowSumEmpty(m, r, 0);
    RowSumStep(m, r, 1, 2); RowSumStep(m, r, 1, 1); RowSumEmpty(m, r, 1);
  }

  // ---------------------------------------------------------------------------
  // Row 0 and column 0

  lemma {:induction false} RowSumWholeRow(m: Grid, r: Region, i: nat, cols: nat)
    requires IsGrid(m) && i < MaxGoals && cols <= MaxGoals
    requires forall j: nat :: r.Contains(i, j)
    ensures RowSum(m, r, i, cols) == RowSum(m, Everywhere, i, cols)
  {
    if cols == 0 {
      RowSumEmpty(m, r, i); RowSumEmpty(m, Everywhere, i);
    } else {
      RowSumWholeRow(m, r, i, cols - 1);
      RowSumStep(m, r, i, cols); RowSumStep(m, Everywhere, i, cols);
    }
  }

  lemma {:induction false} RowSumFirstColumn(m: Grid, r: Region, i: nat, cols: nat)
    requires IsGrid(m) && i < MaxGoals && 0 < cols <= MaxGoals
    requires forall j: nat :: r.Contains(i, j) <==> j == 0
    ensures RowSum(m, r, i, cols) == m[i][0]
  {
    RowSumStep(m, r, i, cols);
    if cols > 1 {
      RowSumFirstColumn(m, r, i, cols - 1);
    } else {
      RowSumEmpty(m, r, i);
    }
  }

  lemma {:induction false} BlankSideBlock(m: Grid, rows: nat)
    requires IsGrid(m) && 0 < rows <= MaxGoals
    ensures BlockSum(m, BlankSide, rows, MaxGoals)
         == RowSum(m, Everywhere, 0, MaxGoals) + ColumnSum(m, 0, rows) - m[0][0]
  {
    BlockSumStep(m, BlankSide, rows, MaxGoals);
    if rows == 1 {
      RowSumWholeRow(m, BlankSide, 0, MaxGoals);
      BlockSumEmpty(m, BlankSide, MaxGoals);
    } else {
      BlankSideBlock(m, rows - 1);
      RowSumFirstColumn(m, BlankSide, rows - 1, MaxGoals);
    }
  }

  /** The cells where some side scores nothing are row 0 together with
      column 0, with the 0-0 cell counted once. */
  lemma BlankSideMass(m: Grid)
    requires IsGrid(m)
    ensures Mass(m, BlankSide)
         == RowSum(m, Everywhere, 0, MaxGoals) + ColumnSum(m, 0, MaxGoals) - m[0][0]
  {
    BlankSideBlock(m, MaxGoals);
  }

  // ---------------------------------------------------------------------------
  // Exchanging home and away

  function ColumnTermSum(m: Grid, r: Region, j: nat, rows: nat): real
    requires IsGrid(m) && j < MaxGoals && rows <= MaxGoals
  {
    if rows == 0 then 0.0 else ColumnTermSum(m, r, j, rows - 1) + Term(m, r, rows - 1, j)
  }

  /** Column-major sum of the cells of region `r` in the top-left block. */
  function ColumnMajorSum(m: Grid, r: Region, rows: nat, cols: nat): real
    requires IsGrid(m) && rows <= MaxGoals && cols <= MaxGoals
  {
    if cols == 0 then 0.0 else ColumnMajorSum(m, r, rows, cols - 1) + ColumnTermSum(m, r, cols - 1, rows)
  }

  lemma {:induction false} ColumnMajorAddRow(m: Grid, r: Region, rows: nat, cols: nat)
    requires IsGrid(m) && rows < MaxGoals && cols <= MaxGoals
    ensures ColumnMajorSum(m, r, rows + 1, cols) == ColumnMajorSum(m, r, rows, cols) + RowSum(m, r, rows, cols)
  {
    if cols == 0 {
      RowSumEmpty(m, r, rows);
    } else {
      ColumnMajorAddRow(m, r, rows, cols - 1);
      RowSumStep(m, r, rows, cols);
    }
  }

  /** Summing row by row or column by column gives the same total. */
  lemma {:induction false} RowMajorIsColumnMajor(m: Grid, r: Region, rows: nat, cols: nat)
    requires IsGrid(m) && rows <= MaxGoals && cols <= MaxGoals
    ensures BlockSum(m, r, rows, cols) == ColumnMajorSum(m, r, rows, cols)
  {
    if rows == 0 {
      ColumnMajorOfNoRows(m, r, cols);
      BlockSumEmpty(m, r, cols);
    } else {
      RowMajorIsColumnMajor(m, r, rows - 1, cols);
      ColumnMajorAddRow(m, r, rows - 1, cols);
      BlockSumStep(m, r, rows, cols);
    }
  }

  lemma {:induction false} ColumnMajorOfNoRows(m: Grid, r: Region, cols: nat)
    requires IsGrid(m) && cols <= MaxGoals
    ensures ColumnMajorSum(m, r, 0, cols) == 0.0
  {
    if cols > 0 {
      ColumnMajorOfNoRows(m, r, cols - 1);
    }
  }

  lemma {:induction false} ColumnIsTransposedRow(m: Grid, a: Region, b: Region, j: nat, rows: nat)
    requires IsGrid(m) && Symmetric(m) && Transposed(a, b)
    requires j < MaxGoals && rows <= MaxGoals
    ensures ColumnTermSum(m, a, j, rows) == RowSum(m, b, j, rows)
  {
    if rows == 0 {
      RowSumEmpty(m, b, j);
    } else {
      ColumnIsTransposedRow(m, a, b, j, rows - 1);
      RowSumStep(m, b, j, rows);
      assert a.Contains(rows - 1, j) <==> b.Contains(j, rows - 1);
    }
  }

  lemma {:induction false} ColumnMajorIsTransposedRowMajor(m: Grid, a: Region, b: Region, cols: nat)
    requires IsGrid(m) && Symmetric(m) && Transposed(a, b) && cols <= MaxGoals
    ensures ColumnMajorSum(m, a, MaxGoals, cols) == BlockSum(m, b, cols, MaxGoals)
  {
    if cols == 0 {
      BlockSumEmpty(m, b, MaxGoals);
    } else {
      ColumnMajorIsTransposedRowMajor(m, a, b, cols - 1);
      ColumnIsTransposedRow(m, a, b, cols - 1, MaxGoals);
      BlockSumStep(m, b, cols, MaxGoals);
    }
  }

  /** On a symmetric matrix, a region and its transpose have the same mass. */
  lemma MassTranspose(m: Grid, a: Region, b: Region)
    requires IsGrid(m) && Symmetric(m) && Transposed(a, b)
    ensures Mass(m, a) == Mass(m, b)
  {
    RowMajorIsColumnMajor(m, a, MaxGoals, MaxGoals);
    ColumnMajorIsTransposedRowMajor(m, a, b, MaxGoals);
  }

  // ---------------------------------------------------------------------------
  // The statistics the engine reports

  /** Home win, draw and away win partition the matrix. */
  lemma OutcomesPartition(m: Grid)
    requires IsGrid(m)
    ensures Mass(m, HomeWin) + Mass(m, Draw) + Mass(m, AwayWin) == Mass(m, Everywhere)
  {
    MassSplit(m, HomeOrDraw, HomeWin, Draw);
    MassSplit(m, Everywhere, HomeOrDraw, AwayWin);
  }

  /** With a symmetric matrix (equal rates on both sides) a home win is exactly
      as likely as an away win. */
  lemma SymmetricOutcomes(m: Grid)
    requires IsGrid(m) && Symmetric(m)
    ensures Mass(m, HomeWin) == Mass(m, AwayWin)
  {
    MassTranspose(m, HomeWin, AwayWin);
  }

  /** The "at most g goals" regions are nested, so their masses grow with g. */
  lemma UnderThresholdsNested(m: Grid)
    requires IsGrid(m) && NonNegative(m)
    ensures Mass(m, TotalAtMost(0)) <= Mass(m, TotalAtMost(1))
    ensures Mass(m, TotalAtMost(1)) <= Mass(m, TotalAtMost(2))
    ensures Mass(m, TotalAtMost(2)) <= Mass(m, TotalAtMost(3))
  {
    MassMonotone(m, TotalAtMost(0), TotalAtMost(1));
    MassMonotone(m, TotalAtMost(1), TotalAtMost(2));
    MassMonotone(m, TotalAtMost(2), TotalAtMost(3));
  }

  /** "Over g.5" computed as one minus "at most g" is the mass of "more than g"
      plus the probability the matrix leaves out (scores beyond 9 goals). */
  lemma OverIsMassAbove(m: Grid, g: nat)
    requires IsGrid(m)
    ensures 1.0 - Mass(m, TotalAtMost(g)) == Mass(m, TotalAbove(g)) + (1.0 - Mass(m, Everywhere))
  {
    MassSplit(m, Everywhere, TotalAtMost(g), TotalAbove(g));
  }

  /** "Both teams score" computed as one minus "some side blank" is the mass of
      the cells where both sides score plus the probability left out. */
  lemma BothScoreComplement(m: Grid)
    requires IsGrid(m)
    ensures 1.0 - Mass(m, BlankSide) == Mass(m, BothScore) + (1.0 - Mass(m, Everywhere))
  {
    MassSplit(m, Everywhere, BlankSide, BothScore);
  }
}
