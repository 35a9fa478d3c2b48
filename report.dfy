/**
 * The clustering metrics report: what the finaliser derives from a merged
 * builder (within-cluster MSE per cluster, average within, total and between
 * sums of squares), and the centroid statistics table built from it.
 */
module Report {
  import opened Numbers
  import opened Accumulator

  /** A clustering metrics report. Sizes and MSEs are absent until the finaliser sets them. */
  datatype Metrics = Metrics(
    size: Option<seq<nat>>,
    withinMse: Option<seq<Num>>,
    avgSs: Num,
    avgWithinSs: Num,
    avgBetweenSs: Num)

  /** One row of the centroid statistics table: 1-based centroid index, size, within-cluster MSE. */
  datatype CentroidRow = CentroidRow(centroid: int, size: nat, withinSs: Num)

  /** A report as first constructed: no per-cluster arrays and NaN averages. */
  function NewMetrics(): (m: Metrics)
    ensures m.size.None? && m.withinMse.None?
    ensures m.avgSs.NaN? && m.avgWithinSs.NaN? && m.avgBetweenSs.NaN?
  {
    Metrics(None, None, NaN, NaN, NaN)
  }

  /** Column i's sum of squared deviations from its mean, from the moment sums over `n` rows. */
  function Deviations(colSum: seq<Num>, colSumSq: seq<Num>, n: nat): (r: seq<Num>)
    requires |colSum| == |colSumSq|
    ensures |r| == |colSum|
    ensures forall i :: 0 <= i < |r| ==> (r[i].NaN? <==> colSum[i].NaN? || colSumSq[i].NaN? || n == 0)
  {
    seq(|colSum|, i requires 0 <= i < |colSum| =>
      Sub(colSumSq[i], Div(Mul(colSum[i], colSum[i]), n)))
  }

  /** The report the finaliser makes from builder state `s`, for a model with
   *  `k` clusters scored on a frame of `numRows` rows. */
  function Finalize(s: Stats, k: int, numRows: nat): (m: Metrics)
    requires Shaped(s, |s.colSum|, |s.size|)
    ensures m.size == Some(s.size) && m.withinMse.Some? && |m.withinMse.value| == |s.size|
    ensures m.avgWithinSs.NaN? <==> s.sumSqe.NaN? || s.count == 0
    ensures m.avgBetweenSs.NaN? <==> m.avgSs.NaN? || m.avgWithinSs.NaN?
  {
    var avgWithin := Div(s.sumSqe, s.count);
    var mse := seq(|s.size|, c requires 0 <= c < |s.size| => Div(s.withinSumSqe[c], s.size[c]));
    var avgSs := if k == 1 then avgWithin else Div(Sum(Deviations(s.colSum, s.colSumSq, numRows)), numRows);
    Metrics(Some(s.size), Some(mse), avgSs, avgWithin, Sub(avgSs, avgWithin))
  }

  /** The centroid statistics table: nothing while sizes or MSEs are unset,
   *  otherwise one row `(k + 1, size[k], withinMse[k])` per cluster. */
  method CreateCentroidStatsTable(m: Metrics) returns (table: Option<seq<CentroidRow>>)
    requires m.size.Some? && m.withinMse.Some? ==> |m.withinMse.value| == |m.size.value|
    ensures table.None? <==> m.size.None? || m.withinMse.None?
    ensures table.Some? ==> |table.value| == |m.size.value|
    ensures table.Some? ==> forall c :: 0 <= c < |table.value| ==>
              table.value[c] == CentroidRow(c + 1, m.size.value[c], m.withinMse.value[c])
  {
    if m.size.None? || m.withinMse.None? {
      return None;
    }
    var size, mse := m.size.value, m.withinMse.value;
    var rows: seq<CentroidRow> := [];
    var c := 0;
    while c < |size|
      invariant 0 <= c <= |size| && |rows| == c
      invariant forall j :: 0 <= j < c ==> rows[j] == CentroidRow(j + 1, size[j], mse[j])
    {
      rows := rows + [CentroidRow(c + 1, size[c], mse[c])];
      c := c + 1;
    }
    table := Some(rows);
  }

  // ---------------------------------------------------------------------------
  // What the finaliser's outputs mean

  /** With a single cluster the total sum of squares is the within-cluster one,
   *  so the between-cluster part is zero (or NaN when the within part is). */
  lemma SingleClusterIdentity(s: Stats, numRows: nat)
    requires Shaped(s, |s.colSum|, |s.size|)
    ensures Finalize(s, 1, numRows).avgSs == Finalize(s, 1, numRows).avgWithinSs
    ensures Finalize(s, 1, numRows).avgBetweenSs ==
            if Finalize(s, 1, numRows).avgWithinSs.Fin? then Fin(0.0) else NaN
  {
  }

  /** On a clean builder, a cluster's MSE is NaN exactly when the cluster is empty;
   *  otherwise it is the cluster's squared error over its size, and non-negative. */
  lemma WithinMseOfCleanBuilder(s: Stats, k: int, numRows: nat, c: int)
    requires Shaped(s, |s.colSum|, |s.size|) && Clean(s)
    requires 0 <= c < |s.size|
    ensures Finalize(s, k, numRows).withinMse.value[c].NaN? <==> s.size[c] == 0
    ensures s.size[c] > 0 ==>
              Finalize(s, k, numRows).withinMse.value[c] == Fin(s.withinSumSqe[c].v / s.size[c] as real) &&
              Finalize(s, k, numRows).withinMse.value[c].v >= 0.0
  {
  }

  /** On a clean builder the average within-cluster sum of squares is NaN exactly
   *  when no row was scored, and otherwise the squared-error total per row. */
  lemma AvgWithinOfCleanBuilder(s: Stats, k: int, numRows: nat)
    requires Shaped(s, |s.colSum|, |s.size|) && Clean(s)
    ensures Finalize(s, k, numRows).avgWithinSs.NaN? <==> s.count == 0
    ensures s.count > 0 ==>
              Finalize(s, k, numRows).avgWithinSs == Fin(s.sumSqe.v / s.count as real) &&
              Finalize(s, k, numRows).avgWithinSs.v >= 0.0
    ensures s.count == 0 ==> s.sumSqe == Fin(0.0)
  {
    SumNonnegative(s.withinSumSqe);
    if s.count == 0 {
      SumNatZero(s.size);
      SumOfZeros(s.withinSumSqe);
    }
  }

  /** The two-cluster state of the next lemma is clean. */
  lemma TwoClusterStateIsClean(s: Stats, m: nat, e: real)
    requires m > 0 && e > 0.0
    requires s == Stats([m, 0], [Fin(e), Fin(0.0)], [Fin(0.0)], [Fin(0.0)], Fin(e), m)
    ensures Clean(s)
  {
    assert Consistent(s) by {
      SumOfPair(Fin(e), Fin(0.0));
      SumNatOfPair(m, 0);
    }
    assert ClustersClean(s);
    assert ColumnsFinite(s);
  }

  /** The between-cluster sum of squares is not clamped at zero: a clean state
   *  whose `m` rows all lie at total squared distance `e` from their centroid, in
   *  a column with no spread, reports `-e / m`. */
  lemma BetweenSsIsNotClamped(s: Stats, m: nat, e: real)
    requires m > 0 && e > 0.0
    requires s == Stats([m, 0], [Fin(e), Fin(0.0)], [Fin(0.0)], [Fin(0.0)], Fin(e), m)
    ensures Clean(s)
    ensures Finalize(s, 2, m).avgBetweenSs == Fin(-e / m as real)
    ensures Finalize(s, 2, m).avgBetweenSs.v < 0.0
  {
    TwoClusterStateIsClean(s, m, e);
    var devs := Deviations(s.colSum, s.colSumSq, m);
    assert Sum(devs) == Fin(0.0) by {
      assert devs == [Fin(0.0)];
      assert devs[..0] == [];
    }
    assert Finalize(s, 2, m).avgSs == Fin(0.0);
  }

  /** `m` one-column rows at the origin, all assigned to cluster 0. */
  function OriginRows(m: nat): (rows: seq<Row>)
    ensures |rows| == m
  {
    seq(m, _ => Row([Fin(0.0)], 0))
  }

  /** Centroid 0 at 1, centroid 1 at the origin. */
  const UnitCenters: seq<seq<real>> := [[1.0], [0.0]]

  /** The state after `m` rows at the origin were scored against `UnitCenters`. */
  function OriginState(m: nat): Stats {
    Stats([m, 0], [Fin(m as real), Fin(0.0)], [Fin(0.0)], [Fin(0.0)], Fin(m as real), m)
  }

  /** Scoring one more row at the origin adds 1 to the squared error of cluster 0. */
  lemma StepAtOrigin(m: nat, centers: seq<seq<real>>, r: Row)
    requires centers == UnitCenters && r == Row([Fin(0.0)], 0)
    ensures Fits(1, 2, centers, None, r)
    ensures Step(OriginState(m), centers, None, r) == OriginState(m + 1)
  {
    AccumulatedAtOrigin(m, centers, r);
    UpdateOfNatPair(m, 0, m + 1);
  }

  /** The column loop for a row at the origin assigned to the centroid at 1. */
  lemma AccumulatedAtOrigin(m: nat, centers: seq<seq<real>>, r: Row)
    requires centers == UnitCenters && r == Row([Fin(0.0)], 0)
    ensures Fits(1, 2, centers, None, r)
    ensures Accumulated(OriginState(m), centers, None, r) ==
            OriginState(m).(sumSqe := Fin(m as real + 1.0), withinSumSqe := [Fin(m as real + 1.0), Fin(0.0)])
  {
    var s, c, x := OriginState(m), centers[0][0], r.values[0];
    assert centers[0] == [c] && r.values == [x];
    ImputeWithoutMean(r.values);
    AccumulateOneColumn(s, c, x, 0);
    UpdateOfPair(Fin(m as real), Fin(0.0), Fin(m as real + 1.0));
  }

  /** Without a mean, imputation leaves a row as it is. */
  lemma ImputeWithoutMean(values: seq<Num>)
    ensures Impute(values, None) == values
  {
  }

  /** The column loop over a single column, written out. */
  lemma AccumulateOneColumn(s: Stats, c: real, x: Num, clus: int)
    requires |s.colSum| == |s.colSumSq| == 1 && 0 <= clus < |s.withinSumSqe|
    ensures var e := Add(Fin(0.0), Mul(Sub(Fin(c), x), Sub(Fin(c), x)));
            Accumulate(s, [c], [x], clus) ==
              s.(sumSqe := Add(s.sumSqe, e),
                 withinSumSqe := s.withinSumSqe[clus := Add(s.withinSumSqe[clus], e)],
                 colSum := [Add(s.colSum[0], x)],
                 colSumSq := [Add(s.colSumSq[0], Mul(x, x))])
  {
    var errs := SqErrs([c], [x]);
    var e := Mul(Sub(Fin(c), x), Sub(Fin(c), x));
    assert errs == [e];
    assert errs[..0] == [];
    assert Sum(errs) == Add(Fin(0.0), e);
    assert Plus(s.colSum, [x]) == [Add(s.colSum[0], x)];
    assert Squares([x]) == [Mul(x, x)];
    assert Plus(s.colSumSq, [Mul(x, x)]) == [Add(s.colSumSq[0], Mul(x, x))];
  }

  lemma UpdateOfNatPair(a: nat, b: nat, x: nat)
    ensures [a, b][0 := x] == [x, b]
  {
  }

  lemma UpdateOfPair(a: Num, b: Num, x: Num)
    ensures [a, b][0 := x] == [x, b]
  {
  }

  /** A fresh builder for one column and two clusters reaches `OriginState(m)`
   *  by scoring `m` rows at the origin against `UnitCenters`. */
  lemma {:induction false} OriginRowsScore(m: nat)
    ensures forall j :: 0 <= j < m ==> Fits(1, 2, UnitCenters, None, OriginRows(m)[j])
    ensures Score(Zero(1, 2), UnitCenters, None, OriginRows(m)) == OriginState(m)
  {
    if m == 0 {
      assert Zero(1, 2) == OriginState(0);
    } else {
      OriginRowsScore(m - 1);
      assert OriginRows(m)[..m - 1] == OriginRows(m - 1);
      StepAtOrigin(m - 1, UnitCenters, Row([Fin(0.0)], 0));
    }
  }

  /** The unclamped, negative between-cluster average comes from scoring rows:
   *  `m` rows at the origin, assigned to the centroid at 1, report `-1`. */
  lemma BetweenSsOfScoredRows(m: nat)
    requires m > 0
    ensures forall j :: 0 <= j < m ==> Fits(1, 2, UnitCenters, None, OriginRows(m)[j])
    ensures Finalize(Score(Zero(1, 2), UnitCenters, None, OriginRows(m)), 2, m).avgBetweenSs == Fin(-1.0)
  {
    OriginRowsScore(m);
    OriginStateBetweenSs(m);
  }

  /** `OriginState(m)` reports a between-cluster average of `-1`. */
  lemma OriginStateBetweenSs(m: nat)
    requires m > 0
    ensures Finalize(OriginState(m), 2, m).avgBetweenSs == Fin(-1.0)
  {
    BetweenSsIsNotClamped(OriginState(m), m, m as real);
    NegatedOverSelf(m as real);
  }

  lemma NegatedOverSelf(r: real)
    requires r > 0.0
    ensures -r / r == -1.0
  {
    assert -r == -1.0 * r;
  }
}
