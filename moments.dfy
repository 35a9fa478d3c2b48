/**
 * What the total sum of squares means. The finaliser computes it in one pass
 * from the column moment sums, as `Σ_i (colSumSq[i] − colSum[i]² / n) / n`.
 * This module defines the spread of each column around its mean directly, in
 * two passes, and proves that on a builder which scored the rows of a frame the
 * one-pass formula gives exactly that spread per row.
 */
module Moments {
  import opened Numbers
  import opened Accumulator
  import opened Report

  /** Every row is `ncol` wide and has a value in every column after imputation. */
  predicate Resolved(rows: seq<Row>, mean: Option<seq<Num>>, ncol: nat) {
    (mean.Some? ==> |mean.value| == ncol) &&
    forall j :: 0 <= j < |rows| ==> |rows[j].values| == ncol && Resolvable(rows[j].values, mean)
  }

  /** The imputed values of column `i`, one per row. */
  function ColumnValues(rows: seq<Row>, mean: Option<seq<Num>>, ncol: nat, i: int): (xs: seq<real>)
    requires Resolved(rows, mean, ncol) && 0 <= i < ncol
    ensures |xs| == |rows|
  {
    seq(|rows|, j requires 0 <= j < |rows| => Impute(rows[j].values, mean)[i].v)
  }

  function SquaresOf(xs: seq<real>): (ys: seq<real>)
    ensures |ys| == |xs|
  {
    seq(|xs|, j requires 0 <= j < |xs| => xs[j] * xs[j])
  }

  function SquaredDistances(xs: seq<real>, c: real): (ys: seq<real>)
    ensures |ys| == |xs|
  {
    seq(|xs|, j requires 0 <= j < |xs| => (xs[j] - c) * (xs[j] - c))
  }

  /** The sum of squared distances of the values from the point `c`. */
  function SpreadAround(xs: seq<real>, c: real): real {
    RSum(SquaredDistances(xs, c))
  }

  lemma {:induction false} SquaresOfPrefix(xs: seq<real>, n: int)
    requires 0 <= n <= |xs|
    ensures SquaresOf(xs)[..n] == SquaresOf(xs[..n])
  {
    assert forall j :: 0 <= j < n ==> SquaresOf(xs)[..n][j] == xs[j] * xs[j] == SquaresOf(xs[..n])[j];
  }

  lemma {:induction false} SquaredDistancesPrefix(xs: seq<real>, c: real, n: int)
    requires 0 <= n <= |xs|
    ensures SquaredDistances(xs, c)[..n] == SquaredDistances(xs[..n], c)
  {
    assert forall j :: 0 <= j < n ==>
      SquaredDistances(xs, c)[..n][j] == (xs[j] - c) * (xs[j] - c) == SquaredDistances(xs[..n], c)[j];
  }

  /** The sum of squared distances of the values from their mean. */
  function Spread(xs: seq<real>): real
    requires |xs| > 0
  {
    SpreadAround(xs, RSum(xs) / |xs| as real)
  }

  /** The spread of every column around its own mean, added over the columns. */
  function TotalSpread(rows: seq<Row>, mean: Option<seq<Num>>, ncol: nat): real
    requires Resolved(rows, mean, ncol) && |rows| > 0
  {
    RSum(seq(ncol, i requires 0 <= i < ncol => Spread(ColumnValues(rows, mean, ncol, i))))
  }

  // ---------------------------------------------------------------------------
  // The column sums of a builder

  /** Scoring one more row adds its imputed values, and their squares, to the
   *  column sums, whether or not the row is rejected. */
  lemma ScoreLastColumns(s: Stats, centers: seq<seq<real>>, mean: Option<seq<Num>>, rows: seq<Row>)
    requires Shaped(s, |s.colSum|, |s.size|) && rows != []
    requires forall j :: 0 <= j < |rows| ==> Fits(|s.colSum|, |s.size|, centers, mean, rows[j])
    requires Fits(|s.colSum|, |s.size|, centers, mean, rows[|rows| - 1])
    ensures var p, d := Score(s, centers, mean, rows[..|rows| - 1]), Impute(rows[|rows| - 1].values, mean);
            Score(s, centers, mean, rows).colSum == Plus(p.colSum, d) &&
            Score(s, centers, mean, rows).colSumSq == Plus(p.colSumSq, Squares(d))
  {
  }

  /** Column `i` alone: scoring one more row adds its imputed value to the
   *  column's sum. */
  lemma ScoreLastColumnSum(s: Stats, centers: seq<seq<real>>, mean: Option<seq<Num>>, rows: seq<Row>, i: int, a: real, x: real)
    requires Shaped(s, |s.colSum|, |s.size|) && rows != [] && 0 <= i < |s.colSum|
    requires forall j :: 0 <= j < |rows| ==> Fits(|s.colSum|, |s.size|, centers, mean, rows[j])
    requires Score(s, centers, mean, rows[..|rows| - 1]).colSum[i] == Fin(a)
    requires Fits(|s.colSum|, |s.size|, centers, mean, rows[|rows| - 1])
    requires Impute(rows[|rows| - 1].values, mean)[i] == Fin(x)
    ensures Score(s, centers, mean, rows).colSum[i] == Fin(a + x)
  {
    ScoreLastColumns(s, centers, mean, rows);
  }

  /** Column `i` alone: scoring one more row adds the square of its imputed
   *  value to the column's sum of squares. */
  lemma ScoreLastColumnSumSq(s: Stats, centers: seq<seq<real>>, mean: Option<seq<Num>>, rows: seq<Row>, i: int, a: real, y: real)
    requires Shaped(s, |s.colSum|, |s.size|) && rows != [] && 0 <= i < |s.colSum|
    requires forall j :: 0 <= j < |rows| ==> Fits(|s.colSum|, |s.size|, centers, mean, rows[j])
    requires Score(s, centers, mean, rows[..|rows| - 1]).colSumSq[i] == Fin(a)
    requires Fits(|s.colSum|, |s.size|, centers, mean, rows[|rows| - 1])
    requires Squares(Impute(rows[|rows| - 1].values, mean))[i] == Fin(y)
    ensures Score(s, centers, mean, rows).colSumSq[i] == Fin(a + y)
  {
    ScoreLastColumns(s, centers, mean, rows);
  }

  /** Scoring rows whose column `i` holds the values `xs` adds them to that
   *  column's sum, whether or not a row is rejected. */
  lemma {:induction false} ScoreColumnSum(s: Stats, centers: seq<seq<real>>, mean: Option<seq<Num>>, rows: seq<Row>, i: int, xs: seq<real>)
    requires Shaped(s, |s.colSum|, |s.size|)
    requires 0 <= i < |s.colSum| && s.colSum[i].Fin? && |xs| == |rows|
    requires forall j :: 0 <= j < |rows| ==>
               Fits(|s.colSum|, |s.size|, centers, mean, rows[j]) && Impute(rows[j].values, mean)[i] == Fin(xs[j])
    ensures Score(s, centers, mean, rows).colSum[i] == Fin(s.colSum[i].v + RSum(xs))
  {
    if rows != [] {
      var n := |rows| - 1;
      ScoreColumnSum(s, centers, mean, rows[..n], i, xs[..n]);
      ScoreLastColumnSum(s, centers, mean, rows, i, s.colSum[i].v + RSum(xs[..n]), xs[n]);
      assert RSum(xs) == RSum(xs[..n]) + xs[n];
    }
  }

  /** Scoring rows whose column `i` squares to the values `ys` adds them to that
   *  column's sum of squares. */
  lemma {:induction false} ScoreColumnSumSq(s: Stats, centers: seq<seq<real>>, mean: Option<seq<Num>>, rows: seq<Row>, i: int, ys: seq<real>)
    requires Shaped(s, |s.colSum|, |s.size|)
    requires 0 <= i < |s.colSum| && s.colSumSq[i].Fin? && |ys| == |rows|
    requires forall j :: 0 <= j < |rows| ==>
               Fits(|s.colSum|, |s.size|, centers, mean, rows[j]) && Squares(Impute(rows[j].values, mean))[i] == Fin(ys[j])
    ensures Score(s, centers, mean, rows).colSumSq[i] == Fin(s.colSumSq[i].v + RSum(ys))
  {
    if rows != [] {
      var n := |rows| - 1;
      ScoreColumnSumSq(s, centers, mean, rows[..n], i, ys[..n]);
      ScoreLastColumnSumSq(s, centers, mean, rows, i, s.colSumSq[i].v + RSum(ys[..n]), ys[n]);
      assert RSum(ys) == RSum(ys[..n]) + ys[n];
    }
  }

  /** Column `i` of the imputed rows holds the values `ColumnValues`, and its
   *  squares are their squares. */
  lemma ColumnEntries(rows: seq<Row>, mean: Option<seq<Num>>, ncol: nat, i: int)
    requires Resolved(rows, mean, ncol) && 0 <= i < ncol
    ensures forall j :: 0 <= j < |rows| ==>
              Impute(rows[j].values, mean)[i] == Fin(ColumnValues(rows, mean, ncol, i)[j])
    ensures forall j :: 0 <= j < |rows| ==>
              Squares(Impute(rows[j].values, mean))[i] == Fin(SquaresOf(ColumnValues(rows, mean, ncol, i))[j])
  {
    var xs := ColumnValues(rows, mean, ncol, i);
    forall j | 0 <= j < |rows|
      ensures Squares(Impute(rows[j].values, mean))[i] == Fin(SquaresOf(xs)[j])
    {
      SquareOfEntry(Impute(rows[j].values, mean), i, xs[j]);
    }
  }

  lemma SquareOfEntry(d: seq<Num>, i: int, x: real)
    requires 0 <= i < |d| && d[i] == Fin(x)
    ensures Squares(d)[i] == Fin(x * x)
  {
  }

  // ---------------------------------------------------------------------------
  // The one-pass formula for the spread

  /** Spread around any point `c`: `Σx² − 2cΣx + n·c²`. */
  lemma {:induction false} SpreadAroundExpands(xs: seq<real>, c: real)
    ensures SpreadAround(xs, c) == RSum(SquaresOf(xs)) - 2.0 * c * RSum(xs) + |xs| as real * c * c
  {
    if xs != [] {
      var n := |xs| - 1;
      var x := xs[n];
      SquaredDistancesPrefix(xs, c, n);
      SquaresOfPrefix(xs, n);
      SpreadAroundExpands(xs[..n], c);
      assert (x - c) * (x - c) == x * x - 2.0 * c * x + c * c;
    }
  }

  /** The spread of `n` values computed in one pass from their sum `s` and
   *  their sum of squares `q`. */
  function MomentSpread(q: real, s: real, n: nat): real
    requires n > 0
  {
    q - s * s / n as real
  }

  /** Spread around the mean is `Σx² − (Σx)² / n`, the finaliser's per-column term. */
  lemma {:induction false} SpreadIsOnePass(xs: seq<real>)
    requires |xs| > 0
    ensures Spread(xs) == MomentSpread(RSum(SquaresOf(xs)), RSum(xs), |xs|)
  {
    var c := RSum(xs) / |xs| as real;
    SpreadAroundExpands(xs, c);
    OnePassAlgebra(SpreadAround(xs, c), RSum(SquaresOf(xs)), RSum(xs), |xs| as real, c);
  }

  /** With `c = s / n`: `q − 2·c·s + n·c² = q − s² / n`. */
  lemma OnePassAlgebra(spread: real, q: real, s: real, n: real, c: real)
    requires n > 0.0 && c == s / n
    requires spread == q - 2.0 * c * s + n * c * c
    ensures spread == q - s * s / n
  {
    assert n * c == s;
    assert n * c * c == s * c;
    assert c * s == s * s / n;
  }

  // ---------------------------------------------------------------------------
  // The total sum of squares

  /** The finaliser's term for column `i`, on a builder that scored the rows of
   *  a frame, is that column's spread around its mean. */
  lemma {:induction false} DeviationIsSpread(ncol: nat, k: nat, centers: seq<seq<real>>, mean: Option<seq<Num>>, rows: seq<Row>, i: int)
    requires Resolved(rows, mean, ncol) && |rows| > 0 && 0 <= i < ncol
    requires forall j :: 0 <= j < |rows| ==> Fits(ncol, k, centers, mean, rows[j])
    ensures var s := Score(Zero(ncol, k), centers, mean, rows);
            Deviations(s.colSum, s.colSumSq, |rows|)[i] == Fin(Spread(ColumnValues(rows, mean, ncol, i)))
  {
    var z := Zero(ncol, k);
    var s := Score(z, centers, mean, rows);
    var xs := ColumnValues(rows, mean, ncol, i);
    ColumnEntries(rows, mean, ncol, i);
    ScoreColumnSum(z, centers, mean, rows, i, xs);
    ScoreColumnSumSq(z, centers, mean, rows, i, SquaresOf(xs));
    assert z.colSum[i] == Fin(0.0) && z.colSumSq[i] == Fin(0.0);
    assert s.colSum[i] == Fin(RSum(xs)) && s.colSumSq[i] == Fin(RSum(SquaresOf(xs)));
    OnePassColumn(s.colSum[i], s.colSumSq[i], xs);
    assert Deviations(s.colSum, s.colSumSq, |rows|)[i] == Sub(s.colSumSq[i], Div(Mul(s.colSum[i], s.colSum[i]), |xs|));
  }

  /** The finaliser's term for a column whose moment sums are those of the
   *  values `xs` is their spread around their mean. */
  lemma {:induction false} OnePassColumn(colSum: Num, colSumSq: Num, xs: seq<real>)
    requires |xs| > 0
    requires colSum == Fin(RSum(xs)) && colSumSq == Fin(RSum(SquaresOf(xs)))
    ensures Sub(colSumSq, Div(Mul(colSum, colSum), |xs|)) == Fin(Spread(xs))
  {
    SpreadIsOnePass(xs);
    OnePassTerm(colSum, colSumSq, RSum(xs), RSum(SquaresOf(xs)), |xs|);
  }

  /** The finaliser's per-column term on finite moment sums `s` and `q` over `n` rows. */
  lemma OnePassTerm(colSum: Num, colSumSq: Num, s: real, q: real, n: nat)
    requires n > 0 && colSum == Fin(s) && colSumSq == Fin(q)
    ensures Sub(colSumSq, Div(Mul(colSum, colSum), n)) == Fin(MomentSpread(q, s, n))
  {
    assert Mul(colSum, colSum) == Fin(s * s);
  }

  /** On a builder that scored the `n > 1`-cluster model's rows of a frame of
   *  `|rows|` rows, every one resolvable, the average total sum of squares is
   *  the spread of every column around its mean, per row. */
  lemma {:induction false} AvgSsIsSpreadPerRow(ncol: nat, k: nat, centers: seq<seq<real>>, mean: Option<seq<Num>>, rows: seq<Row>, kk: int)
    requires forall j :: 0 <= j < |rows| ==> Fits(ncol, k, centers, mean, rows[j]) && Resolvable(rows[j].values, mean)
    requires |rows| > 0 && kk != 1
    ensures Resolved(rows, mean, ncol)
    ensures Finalize(Score(Zero(ncol, k), centers, mean, rows), kk, |rows|).avgSs ==
            Fin(TotalSpread(rows, mean, ncol) / |rows| as real)
  {
    var z := Zero(ncol, k);
    var n := |rows|;
    assert mean.Some? ==> |mean.value| == ncol by {
      assert Fits(ncol, k, centers, mean, rows[0]);
    }
    assert Resolved(rows, mean, ncol);
    var s := Score(z, centers, mean, rows);
    var devs := Deviations(s.colSum, s.colSumSq, n);
    var spreads := seq(ncol, i requires 0 <= i < ncol => Spread(ColumnValues(rows, mean, ncol, i)));
    forall i | 0 <= i < ncol
      ensures devs[i] == Fin(spreads[i])
    {
      DeviationIsSpread(ncol, k, centers, mean, rows, i);
    }
    SumOfFins(devs, spreads);
  }
}
