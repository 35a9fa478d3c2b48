/**
 * The clustering metric builder: per-partition statistics kept in arrays and
 * updated in place by `PerRow` and `Reduce`, and turned into a report by
 * `MakeModelMetrics`. Every method is proved against the value-level
 * functions of module Accumulator and module Report.
 */
module Builder {
  import opened Numbers
  import opened Accumulator
  import opened Report

  /** `a[i] += b[i]` for every index of `a` (array addition of counts). */
  method AddCounts(a: array<nat>, b: array<nat>)
    requires a.Length == b.Length && a != b
    modifies a
    ensures a[..] == PlusNat(old(a[..]), b[..])
  {
    var i := 0;
    while i < a.Length
      invariant 0 <= i <= a.Length
      invariant forall j :: 0 <= j < i ==> a[j] == old(a[j]) + b[j]
      invariant forall j :: i <= j < a.Length ==> a[j] == old(a[j])
    {
      a[i] := a[i] + b[i];
      i := i + 1;
    }
  }

  /** `a[i] += b[i]` for every index of `a` (array addition of doubles). */
  method AddDoubles(a: array<Num>, b: array<Num>)
    requires a.Length == b.Length && a != b
    modifies a
    ensures a[..] == Plus(old(a[..]), b[..])
  {
    var i := 0;
    while i < a.Length
      invariant 0 <= i <= a.Length
      invariant forall j :: 0 <= j < i ==> a[j] == Add(old(a[j]), b[j])
      invariant forall j :: i <= j < a.Length ==> a[j] == old(a[j])
    {
      a[i] := Add(a[i], b[i]);
      i := i + 1;
    }
  }

  class MetricBuilderClustering {
    /** Number of rows assigned to each cluster. */
    var size: array<nat>
    /** Squared error of each cluster's rows against its centroid. */
    var withinSumSqe: array<Num>
    /** Sum of each feature column over all rows. */
    var colSum: array<Num>
    /** Sum of the squares of each feature column over all rows. */
    var colSumSq: array<Num>
    /** Squared error over all rows. */
    var sumSqe: Num
    /** Number of rows scored. */
    var count: nat

    ghost function Repr(): set<object>
      reads this
    {
      {size as object, withinSumSqe as object, colSum as object, colSumSq as object}
    }

    /** The builder's statistics as a value. */
    ghost function Abs(): Stats
      reads this, size, withinSumSqe, colSum, colSumSq
    {
      Stats(size[..], withinSumSqe[..], colSum[..], colSumSq[..], sumSqe, count)
    }

    /** The arrays are distinct and the bookkeeping invariants hold. */
    ghost predicate Valid()
      reads this, size, withinSumSqe, colSum, colSumSq
    {
      withinSumSqe != colSum && withinSumSqe != colSumSq && colSum != colSumSq &&
      Shaped(Abs(), colSum.Length, size.Length) && Consistent(Abs())
    }

    /** A builder for `ncol` feature columns and `nclust` clusters, all zero. */
    constructor (ncol: nat, nclust: nat)
      ensures Valid() && fresh(Repr())
      ensures Abs() == Zero(ncol, nclust)
    {
      size := new nat[nclust](_ => 0);
      withinSumSqe := new Num[nclust](_ => Fin(0.0));
      colSum := new Num[ncol](_ => Fin(0.0));
      colSumSq := new Num[ncol](_ => Fin(0.0));
      sumSqe := Fin(0.0);
      count := 0;
      new;
      assert size[..] == NatZeros(nclust);
      assert withinSumSqe[..] == Zeros(nclust);
      assert colSum[..] == Zeros(ncol) && colSumSq[..] == Zeros(ncol);
      ZeroIsClean(ncol, nclust);
    }

    /** The column loop of `PerRow`: for each column, resolve the value (a
     *  missing one takes the mean when a mean vector is given), add its squared
     *  distance from the centroid to the total and to the cluster, and add the
     *  value and its square to the column sums. */
    method AccumulateRow(center: seq<real>, dataRow: seq<Num>, clus: int, mean: Option<seq<Num>>)
      requires 0 <= clus < withinSumSqe.Length
      requires |center| == |dataRow| == colSum.Length == colSumSq.Length
      requires mean.Some? ==> |mean.value| == |dataRow|
      requires withinSumSqe != colSum && withinSumSqe != colSumSq && colSum != colSumSq
      modifies this`sumSqe, withinSumSqe, colSum, colSumSq
      ensures Abs() == Accumulate(old(Abs()), center, Impute(dataRow, mean), clus)
    {
      ghost var s0 := Abs();
      ghost var d := Impute(dataRow, mean);
      var i := 0;
      while i < |dataRow|
        invariant 0 <= i <= |dataRow|
        invariant Abs() == Columns(s0, center, d, clus, i)
      {
        var x := if dataRow[i].NaN? && mean.Some? then mean.value[i] else dataRow[i];
        var err := Sub(Fin(center[i]), x);
        assert x == d[i];
        ghost var next := Column(Abs(), center, d, clus, i);
        sumSqe := Add(sumSqe, Mul(err, err));
        withinSumSqe[clus] := Add(withinSumSqe[clus], Mul(err, err));
        colSum[i] := Add(colSum[i], x);
        colSumSq[i] := Add(colSumSq[i], Mul(x, x));
        assert withinSumSqe[..] == next.withinSumSqe;
        assert colSum[..] == next.colSum && colSumSq[..] == next.colSumSq;
        i := i + 1;
      }
      ColumnsIsAccumulate(s0, center, d, clus);
    }

    /** Scores one row assigned to cluster `clus` against the centroid matrix
     *  `centers`, imputing missing values from `mean` when it is given. The
     *  row is rejected, after its sums are added but before any count moves,
     *  when the squared-error total has become NaN. */
    method PerRow(centers: seq<seq<real>>, dataRow: seq<Num>, clus: int, mean: Option<seq<Num>>)
      returns (outcome: RowOutcome)
      requires Valid()
      requires Fits(colSum.Length, size.Length, centers, mean, Row(dataRow, clus))
      modifies this, size, withinSumSqe, colSum, colSumSq
      ensures Valid() && Repr() == old(Repr())
      ensures Abs() == Step(old(Abs()), centers, mean, Row(dataRow, clus))
      ensures outcome == InvalidSumOfSquares <==> sumSqe.NaN?
      ensures outcome == InvalidSumOfSquares ==> size[..] == old(size[..]) && count == old(count)
      ensures outcome == Scored ==> size[clus] == old(size[clus]) + 1 && count == old(count) + 1
      ensures forall c :: 0 <= c < size.Length && c != clus ==>
                size[c] == old(size[c]) && withinSumSqe[c] == old(withinSumSqe[c])
    {
      ghost var s0 := Abs();
      ghost var t := Step(s0, centers, mean, Row(dataRow, clus));
      AccumulateRow(centers[clus], dataRow, clus, mean);
      ghost var a := Abs();
      assert a == Accumulated(s0, centers, mean, Row(dataRow, clus));
      StepKeepsConsistent(s0, centers, mean, Row(dataRow, clus));
      if sumSqe.NaN? {
        assert a == t;
        return InvalidSumOfSquares;
      }
      size[clus] := size[clus] + 1;
      count := count + 1;
      assert Abs() == a.(size := a.size[clus := a.size[clus] + 1], count := a.count + 1);
      outcome := Scored;
    }

    /** Adds the statistics of `other` into this builder, elementwise. */
    method Reduce(other: MetricBuilderClustering)
      requires Valid() && other.Valid()
      requires Repr() !! other.Repr()
      requires other.size.Length == size.Length && other.colSum.Length == colSum.Length
      modifies this, size, withinSumSqe, colSum, colSumSq
      ensures Valid() && Repr() == old(Repr())
      ensures Abs() == Merge(old(Abs()), old(other.Abs()))
    {
      ghost var a, b := Abs(), other.Abs();
      sumSqe := Add(sumSqe, other.sumSqe);
      count := count + other.count;
      AddCounts(size, other.size);
      AddDoubles(withinSumSqe, other.withinSumSqe);
      AddDoubles(colSum, other.colSum);
      AddDoubles(colSumSq, other.colSumSq);
      MergeKeepsConsistent(a, b);
    }

    /** The report for a model with `k` clusters scored on a frame of `numRows` rows. */
    method MakeModelMetrics(k: int, numRows: nat) returns (mm: Metrics)
      requires Valid()
      ensures mm == Finalize(Abs(), k, numRows)
    {
      var avgWithin := Div(sumSqe, count);
      var withinMse := new Num[size.Length];
      var c := 0;
      while c < withinMse.Length
        invariant 0 <= c <= withinMse.Length
        invariant forall j :: 0 <= j < c ==> withinMse[j] == Div(withinSumSqe[j], size[j])
      {
        withinMse[c] := Div(withinSumSqe[c], size[c]);
        c := c + 1;
      }
      var avgSs: Num;
      if k == 1 {
        avgSs := avgWithin;
      } else {
        ghost var devs := Deviations(colSum[..], colSumSq[..], numRows);
        avgSs := Fin(0.0);
        var i := 0;
        while i < colSum.Length
          invariant 0 <= i <= colSum.Length
          invariant avgSs == Sum(devs[..i])
        {
          assert devs[..i + 1][..i] == devs[..i];
          avgSs := Add(avgSs, Sub(colSumSq[i], Div(Mul(colSum[i], colSum[i]), numRows)));
          i := i + 1;
        }
        assert devs[..i] == devs;
        avgSs := Div(avgSs, numRows);
      }
      assert withinMse[..] == Finalize(Abs(), k, numRows).withinMse.value;
      mm := Metrics(Some(size[..]), Some(withinMse[..]), avgSs, avgWithin, Sub(avgSs, avgWithin));
    }
  }
}
