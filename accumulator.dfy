/**
 * The partial statistics that one clustering metric builder accumulates, as
 * values: the effect of scoring one row (`Step`), of merging two builders
 * (`Merge`), of scoring a stream of rows (`Score`), and the invariants these
 * keep. The builder class proves its in-place updates against these functions.
 */
module Accumulator {
  import opened Numbers

  /** The state of a builder: per-cluster sizes and squared errors, per-column
   *  moment sums, and the scalar squared-error total and row count. */
  datatype Stats = Stats(
    size: seq<nat>,
    withinSumSqe: seq<Num>,
    colSum: seq<Num>,
    colSumSq: seq<Num>,
    sumSqe: Num,
    count: nat)

  /** One scored row: its feature values (NaN where missing) and its assigned cluster. */
  datatype Row = Row(values: seq<Num>, clus: int)

  /** How a row update ends: scored, or rejected because the squared-error total is NaN. */
  datatype RowOutcome = Scored | InvalidSumOfSquares

  /** `k` clusters and `ncol` feature columns. */
  predicate Shaped(s: Stats, ncol: nat, k: nat) {
    |s.size| == k && |s.withinSumSqe| == k && |s.colSum| == ncol && |s.colSumSq| == ncol
  }

  /** The centroid matrix: `k` centroids of `ncol` coordinates each. */
  predicate IsMatrix(centers: seq<seq<real>>, k: nat, ncol: nat) {
    |centers| == k && forall c :: 0 <= c < k ==> |centers[c]| == ncol
  }

  /** What scoring a row demands: an assigned cluster in range, a row as wide as
   *  the centroids, and a mean vector (when given) of the same width. */
  predicate Fits(ncol: nat, k: nat, centers: seq<seq<real>>, mean: Option<seq<Num>>, r: Row) {
    IsMatrix(centers, k, ncol) && 0 <= r.clus < k && |r.values| == ncol &&
    (mean.Some? ==> |mean.value| == ncol)
  }

  /** The two bookkeeping invariants: the squared-error total is the sum of the
   *  per-cluster squared errors, and the row count is the sum of the sizes. */
  predicate Consistent(s: Stats) {
    |s.size| == |s.withinSumSqe| && |s.colSum| == |s.colSumSq| &&
    s.sumSqe == Sum(s.withinSumSqe) && s.count == SumNat(s.size)
  }

  /** Every cluster's squared error is finite and non-negative, and zero when the cluster is empty. */
  predicate ClustersClean(s: Stats) {
    |s.size| == |s.withinSumSqe| &&
    forall c :: 0 <= c < |s.withinSumSqe| ==>
      s.withinSumSqe[c].Fin? && s.withinSumSqe[c].v >= 0.0 && (s.size[c] == 0 ==> s.withinSumSqe[c].v == 0.0)
  }

  /** Every column sum and sum of squares is finite. */
  predicate ColumnsFinite(s: Stats) {
    |s.colSum| == |s.colSumSq| &&
    forall i :: 0 <= i < |s.colSum| ==> s.colSum[i].Fin? && s.colSumSq[i].Fin?
  }

  /** A builder no NaN has reached: consistent, every sum finite, every squared
   *  error non-negative, and an empty cluster has zero squared error. */
  predicate Clean(s: Stats) {
    Consistent(s) && ClustersClean(s) && ColumnsFinite(s)
  }

  /** A freshly constructed builder: everything zero. */
  function Zero(ncol: nat, k: nat): (z: Stats)
    ensures Shaped(z, ncol, k) && z.sumSqe == Fin(0.0) && z.count == 0
  {
    Stats(NatZeros(k), Zeros(k), Zeros(ncol), Zeros(ncol), Fin(0.0), 0)
  }

  /** The value used for column `i`: a missing entry takes the mean when a mean vector is given. */
  function Impute(values: seq<Num>, mean: Option<seq<Num>>): (r: seq<Num>)
    requires mean.Some? ==> |mean.value| == |values|
    ensures |r| == |values|
  {
    seq(|values|, i requires 0 <= i < |values| =>
      if values[i].NaN? && mean.Some? then mean.value[i] else values[i])
  }

  /** Imputation keeps every present value, fills a missing one from the mean
   *  when there is one, and leaves an entry missing exactly when the value is
   *  missing and the mean is absent or missing too. */
  lemma ImputeFillsMissing(values: seq<Num>, mean: Option<seq<Num>>, i: int)
    requires mean.Some? ==> |mean.value| == |values|
    requires 0 <= i < |values|
    ensures values[i].Fin? ==> Impute(values, mean)[i] == values[i]
    ensures values[i].NaN? && mean.Some? ==> Impute(values, mean)[i] == mean.value[i]
    ensures Impute(values, mean)[i].NaN? <==> values[i].NaN? && (mean.None? || mean.value[i].NaN?)
  {
  }

  /** A row every column of which has a value after imputation. */
  predicate Resolvable(values: seq<Num>, mean: Option<seq<Num>>)
    requires mean.Some? ==> |mean.value| == |values|
  {
    forall i :: 0 <= i < |values| ==> Impute(values, mean)[i].Fin?
  }

  /** Squared distance of each coordinate from the centroid. */
  function SqErrs(center: seq<real>, d: seq<Num>): seq<Num>
    requires |center| == |d|
  {
    seq(|d|, i requires 0 <= i < |d| => var err := Sub(Fin(center[i]), d[i]); Mul(err, err))
  }

  function Squares(d: seq<Num>): seq<Num> {
    seq(|d|, i requires 0 <= i < |d| => Mul(d[i], d[i]))
  }

  /** The column loop of a row update: the row's squared error goes to the total
   *  and to its cluster; each value and its square go to the column sums. */
  function Accumulate(s: Stats, center: seq<real>, d: seq<Num>, clus: int): (t: Stats)
    requires 0 <= clus < |s.withinSumSqe|
    requires |center| == |d| == |s.colSum| == |s.colSumSq|
    ensures |t.withinSumSqe| == |s.withinSumSqe| && |t.colSum| == |t.colSumSq| == |s.colSum|
    ensures t.size == s.size && t.count == s.count
  {
    var e := Sum(SqErrs(center, d));
    s.(sumSqe := Add(s.sumSqe, e),
       withinSumSqe := s.withinSumSqe[clus := Add(s.withinSumSqe[clus], e)],
       colSum := Plus(s.colSum, d),
       colSumSq := Plus(s.colSumSq, Squares(d)))
  }

  /** Column `i` of a row update, alone: its squared error goes to the total
   *  and to cluster `clus`; its value and the value's square go to column `i`'s sums. */
  function Column(s: Stats, center: seq<real>, d: seq<Num>, clus: int, i: int): (t: Stats)
    requires 0 <= clus < |s.withinSumSqe|
    requires |center| == |d| == |s.colSum| == |s.colSumSq|
    requires 0 <= i < |d|
    ensures Shaped(t, |s.colSum|, |s.size|) == Shaped(s, |s.colSum|, |s.size|)
  {
    var err := Sub(Fin(center[i]), d[i]);
    s.(sumSqe := Add(s.sumSqe, Mul(err, err)),
       withinSumSqe := s.withinSumSqe[clus := Add(s.withinSumSqe[clus], Mul(err, err))],
       colSum := s.colSum[i := Add(s.colSum[i], d[i])],
       colSumSq := s.colSumSq[i := Add(s.colSumSq[i], Mul(d[i], d[i]))])
  }

  /** The first `n` columns of a row update, one after the other. */
  function Columns(s: Stats, center: seq<real>, d: seq<Num>, clus: int, n: int): (t: Stats)
    requires 0 <= clus < |s.withinSumSqe|
    requires |center| == |d| == |s.colSum| == |s.colSumSq|
    requires 0 <= n <= |d|
    ensures |t.withinSumSqe| == |s.withinSumSqe| && |t.colSum| == |t.colSumSq| == |s.colSum|
    ensures t.size == s.size && t.count == s.count
  {
    if n == 0 then s else Column(Columns(s, center, d, clus, n - 1), center, d, clus, n - 1)
  }

  /** After `n` columns the squared-error total has grown by the squared errors of those columns. */
  lemma {:induction false} ColumnsTotal(s: Stats, center: seq<real>, d: seq<Num>, clus: int, n: int)
    requires 0 <= clus < |s.withinSumSqe|
    requires |center| == |d| == |s.colSum| == |s.colSumSq|
    requires 0 <= n <= |d|
    ensures Columns(s, center, d, clus, n).sumSqe == Add(s.sumSqe, Sum(SqErrs(center, d)[..n]))
  {
    var errs := SqErrs(center, d);
    if n == 0 {
      assert errs[..0] == [];
    } else {
      var m := n - 1;
      var e := Sum(errs[..m]);
      ColumnsTotal(s, center, d, clus, m);
      SumPrefixStep(errs, m);
      assert errs[m] == Mul(Sub(Fin(center[m]), d[m]), Sub(Fin(center[m]), d[m]));
      assert Columns(s, center, d, clus, n).sumSqe == Add(Add(s.sumSqe, e), errs[m]);
    }
  }

  /** After `n` columns the cluster's squared error has grown by the squared
   *  errors of those columns, and no other cluster's has moved. */
  lemma {:induction false} ColumnsWithin(s: Stats, center: seq<real>, d: seq<Num>, clus: int, n: int)
    requires 0 <= clus < |s.withinSumSqe|
    requires |center| == |d| == |s.colSum| == |s.colSumSq|
    requires 0 <= n <= |d|
    ensures Columns(s, center, d, clus, n).withinSumSqe ==
            s.withinSumSqe[clus := Add(s.withinSumSqe[clus], Sum(SqErrs(center, d)[..n]))]
  {
    var errs := SqErrs(center, d);
    if n == 0 {
      assert errs[..0] == [];
    } else {
      var m := n - 1;
      var e := Sum(errs[..m]);
      ColumnsWithin(s, center, d, clus, m);
      SumPrefixStep(errs, m);
      assert errs[m] == Mul(Sub(Fin(center[m]), d[m]), Sub(Fin(center[m]), d[m]));
      assert Columns(s, center, d, clus, n).withinSumSqe ==
             s.withinSumSqe[clus := Add(Add(s.withinSumSqe[clus], e), errs[m])];
    }
  }

  /** After `n` columns exactly the first `n` column sums have moved, each by its value. */
  lemma {:induction false} ColumnsSums(s: Stats, center: seq<real>, d: seq<Num>, clus: int, n: int)
    requires 0 <= clus < |s.withinSumSqe|
    requires |center| == |d| == |s.colSum| == |s.colSumSq|
    requires 0 <= n <= |d|
    ensures Columns(s, center, d, clus, n).colSum == Plus(s.colSum[..n], d[..n]) + s.colSum[n..]
  {
    if n == 0 {
      assert Plus(s.colSum[..0], d[..0]) + s.colSum[0..] == s.colSum;
    } else {
      var p := Columns(s, center, d, clus, n - 1);
      ColumnsSums(s, center, d, clus, n - 1);
      assert Columns(s, center, d, clus, n).colSum == p.colSum[n - 1 := Add(p.colSum[n - 1], d[n - 1])];
      PlusPrefixStep(s.colSum, d, n - 1);
    }
  }

  /** After `n` columns exactly the first `n` column sums of squares have moved,
   *  each by its value's square. */
  lemma {:induction false} ColumnsSquares(s: Stats, center: seq<real>, d: seq<Num>, clus: int, n: int)
    requires 0 <= clus < |s.withinSumSqe|
    requires |center| == |d| == |s.colSum| == |s.colSumSq|
    requires 0 <= n <= |d|
    ensures Columns(s, center, d, clus, n).colSumSq == Plus(s.colSumSq[..n], Squares(d)[..n]) + s.colSumSq[n..]
  {
    if n == 0 {
      assert Plus(s.colSumSq[..0], Squares(d)[..0]) + s.colSumSq[0..] == s.colSumSq;
    } else {
      ColumnsSquares(s, center, d, clus, n - 1);
      assert Squares(d)[n - 1] == Mul(d[n - 1], d[n - 1]);
      PlusPrefixStep(s.colSumSq, Squares(d), n - 1);
    }
  }

  /** Running the column loop to the end is the closed-form row update. */
  lemma ColumnsIsAccumulate(s: Stats, center: seq<real>, d: seq<Num>, clus: int)
    requires 0 <= clus < |s.withinSumSqe|
    requires |center| == |d| == |s.colSum| == |s.colSumSq|
    ensures Columns(s, center, d, clus, |d|) == Accumulate(s, center, d, clus)
  {
    var n := |d|;
    ColumnsTotal(s, center, d, clus, n);
    ColumnsWithin(s, center, d, clus, n);
    ColumnsSums(s, center, d, clus, n);
    ColumnsSquares(s, center, d, clus, n);
    assert SqErrs(center, d)[..n] == SqErrs(center, d);
    assert Plus(s.colSum[..n], d[..n]) + s.colSum[n..] == Plus(s.colSum, d);
    assert Plus(s.colSumSq[..n], Squares(d)[..n]) + s.colSumSq[n..] == Plus(s.colSumSq, Squares(d));
  }

  /** The sums after the column loop of scoring row `r`. */
  function Accumulated(s: Stats, centers: seq<seq<real>>, mean: Option<seq<Num>>, r: Row): Stats
    requires Shaped(s, |s.colSum|, |s.size|) && Fits(|s.colSum|, |s.size|, centers, mean, r)
  {
    Accumulate(s, centers[r.clus], Impute(r.values, mean), r.clus)
  }

  /** Scoring row `r` is rejected when the squared-error total is NaN after the column loop. */
  predicate Rejects(s: Stats, centers: seq<seq<real>>, mean: Option<seq<Num>>, r: Row)
    requires Shaped(s, |s.colSum|, |s.size|) && Fits(|s.colSum|, |s.size|, centers, mean, r)
  {
    Accumulated(s, centers, mean, r).sumSqe.NaN?
  }

  /** The state after scoring row `r`: the column loop's sums, and, unless the
   *  row is rejected, one more row in the assigned cluster and in the count. */
  function Step(s: Stats, centers: seq<seq<real>>, mean: Option<seq<Num>>, r: Row): (t: Stats)
    requires Shaped(s, |s.colSum|, |s.size|) && Fits(|s.colSum|, |s.size|, centers, mean, r)
    ensures Shaped(t, |s.colSum|, |s.size|)
    ensures t.sumSqe.NaN? ==> t.size == s.size && t.count == s.count
    ensures t.sumSqe.Fin? ==> t.size == s.size[r.clus := s.size[r.clus] + 1] && t.count == s.count + 1
  {
    var a := Accumulated(s, centers, mean, r);
    if a.sumSqe.NaN? then a
    else a.(size := a.size[r.clus := a.size[r.clus] + 1], count := a.count + 1)
  }

  /** Merging two builders: elementwise addition of every statistic. */
  function Merge(a: Stats, b: Stats): (m: Stats)
    requires Shaped(a, |a.colSum|, |a.size|) && Shaped(b, |a.colSum|, |a.size|)
    ensures Shaped(m, |a.colSum|, |a.size|)
    ensures m.count == a.count + b.count
    ensures m.sumSqe.NaN? <==> a.sumSqe.NaN? || b.sumSqe.NaN?
  {
    Stats(PlusNat(a.size, b.size), Plus(a.withinSumSqe, b.withinSumSqe),
          Plus(a.colSum, b.colSum), Plus(a.colSumSq, b.colSumSq),
          Add(a.sumSqe, b.sumSqe), a.count + b.count)
  }

  /** Scoring a stream of rows, one after the other, from state `s`. */
  function Score(s: Stats, centers: seq<seq<real>>, mean: Option<seq<Num>>, rows: seq<Row>): (t: Stats)
    requires Shaped(s, |s.colSum|, |s.size|)
    requires forall j :: 0 <= j < |rows| ==> Fits(|s.colSum|, |s.size|, centers, mean, rows[j])
    ensures Shaped(t, |s.colSum|, |s.size|)
  {
    if rows == [] then s
    else Step(Score(s, centers, mean, rows[..|rows| - 1]), centers, mean, rows[|rows| - 1])
  }

  // ---------------------------------------------------------------------------
  // Construction and the invariants

  /** A fresh builder keeps the bookkeeping invariants. */
  lemma ZeroIsConsistent(ncol: nat, k: nat)
    ensures Consistent(Zero(ncol, k))
  {
    var z := Zero(ncol, k);
    assert z.sumSqe == Sum(z.withinSumSqe) by {
      assert forall c :: 0 <= c < k ==> z.withinSumSqe[c] == Fin(0.0);
      SumOfZeros(z.withinSumSqe);
    }
    assert z.count == SumNat(z.size) by {
      assert forall c :: 0 <= c < k ==> z.size[c] == 0;
      SumNatZero(z.size);
    }
  }

  lemma ZeroIsClean(ncol: nat, k: nat)
    ensures Shaped(Zero(ncol, k), ncol, k) && Clean(Zero(ncol, k))
  {
    var z := Zero(ncol, k);
    ZeroIsConsistent(ncol, k);
    assert ClustersClean(z) by {
      assert forall c :: 0 <= c < k ==> z.size[c] == 0 && z.withinSumSqe[c] == Fin(0.0);
    }
    assert ColumnsFinite(z) by {
      assert forall i :: 0 <= i < ncol ==> z.colSum[i] == Fin(0.0) && z.colSumSq[i] == Fin(0.0);
    }
  }

  /** A row is rejected exactly when the total was already NaN or some column
   *  stays missing after imputation. */
  lemma RejectsIffMissing(s: Stats, centers: seq<seq<real>>, mean: Option<seq<Num>>, r: Row)
    requires Shaped(s, |s.colSum|, |s.size|) && Fits(|s.colSum|, |s.size|, centers, mean, r)
    ensures Rejects(s, centers, mean, r) <==> s.sumSqe.NaN? || !Resolvable(r.values, mean)
  {
    var d := Impute(r.values, mean);
    var errs := SqErrs(centers[r.clus], d);
    assert forall i :: 0 <= i < |d| ==> (errs[i].NaN? <==> d[i].NaN?);
  }

  /** Scoring a row keeps the two bookkeeping invariants, whether or not it is rejected. */
  lemma StepKeepsConsistent(s: Stats, centers: seq<seq<real>>, mean: Option<seq<Num>>, r: Row)
    requires Shaped(s, |s.colSum|, |s.size|) && Fits(|s.colSum|, |s.size|, centers, mean, r)
    requires Consistent(s)
    ensures Consistent(Step(s, centers, mean, r))
  {
    var a := Accumulated(s, centers, mean, r);
    var e := Sum(SqErrs(centers[r.clus], Impute(r.values, mean)));
    assert a.sumSqe == Sum(a.withinSumSqe) by {
      SumAddAt(s.withinSumSqe, r.clus, e);
    }
    assert a.size == s.size && a.count == s.count;
    if a.sumSqe.Fin? {
      SumNatIncrementAt(s.size, r.clus);
    }
  }

  /** A resolvable row's squared error is finite and non-negative. */
  lemma SqErrsNonnegative(center: seq<real>, d: seq<Num>)
    requires |center| == |d|
    requires forall i :: 0 <= i < |d| ==> d[i].Fin?
    ensures Sum(SqErrs(center, d)).Fin? && Sum(SqErrs(center, d)).v >= 0.0
  {
    var errs := SqErrs(center, d);
    forall i | 0 <= i < |errs| ensures errs[i].Fin? && errs[i].v >= 0.0 {
      var x := center[i] - d[i].v;
      assert errs[i] == Fin(x * x);
    }
    SumNonnegative(errs);
  }

  /** Scoring a resolvable row keeps every cluster's squared error finite,
   *  non-negative and zero on an empty cluster. */
  lemma StepKeepsClustersClean(s: Stats, centers: seq<seq<real>>, mean: Option<seq<Num>>, r: Row)
    requires Shaped(s, |s.colSum|, |s.size|) && Fits(|s.colSum|, |s.size|, centers, mean, r)
    requires ClustersClean(s) && s.sumSqe.Fin? && Resolvable(r.values, mean)
    ensures ClustersClean(Step(s, centers, mean, r))
  {
    var e := Sum(SqErrs(centers[r.clus], Impute(r.values, mean)));
    SqErrsNonnegative(centers[r.clus], Impute(r.values, mean));
    var t := Step(s, centers, mean, r);
    assert t.size == s.size[r.clus := s.size[r.clus] + 1];
    assert t.withinSumSqe == s.withinSumSqe[r.clus := Add(s.withinSumSqe[r.clus], e)];
  }

  /** Scoring a resolvable row keeps every column sum finite. */
  lemma StepKeepsColumnsFinite(s: Stats, centers: seq<seq<real>>, mean: Option<seq<Num>>, r: Row)
    requires Shaped(s, |s.colSum|, |s.size|) && Fits(|s.colSum|, |s.size|, centers, mean, r)
    requires ColumnsFinite(s) && Resolvable(r.values, mean)
    ensures ColumnsFinite(Step(s, centers, mean, r))
  {
    var d := Impute(r.values, mean);
    var t := Step(s, centers, mean, r);
    assert t.colSum == Plus(s.colSum, d) && t.colSumSq == Plus(s.colSumSq, Squares(d));
  }

  /** A clean builder scoring a resolvable row accepts it and stays clean. */
  lemma StepKeepsClean(s: Stats, centers: seq<seq<real>>, mean: Option<seq<Num>>, r: Row)
    requires Shaped(s, |s.colSum|, |s.size|) && Fits(|s.colSum|, |s.size|, centers, mean, r)
    requires Clean(s) && Resolvable(r.values, mean)
    ensures !Rejects(s, centers, mean, r) && Clean(Step(s, centers, mean, r))
  {
    RejectsIffMissing(s, centers, mean, r);
    StepKeepsConsistent(s, centers, mean, r);
    StepKeepsClustersClean(s, centers, mean, r);
    StepKeepsColumnsFinite(s, centers, mean, r);
  }

  /** Merging keeps the two bookkeeping invariants. */
  lemma MergeKeepsConsistent(a: Stats, b: Stats)
    requires Shaped(a, |a.colSum|, |a.size|) && Shaped(b, |a.colSum|, |a.size|)
    requires Consistent(a) && Consistent(b)
    ensures Consistent(Merge(a, b))
  {
    SumPlus(a.withinSumSqe, b.withinSumSqe);
    SumNatPlus(a.size, b.size);
  }

  lemma MergeKeepsClustersClean(a: Stats, b: Stats)
    requires Shaped(a, |a.colSum|, |a.size|) && Shaped(b, |a.colSum|, |a.size|)
    requires ClustersClean(a) && ClustersClean(b)
    ensures ClustersClean(Merge(a, b))
  {
  }

  lemma MergeKeepsColumnsFinite(a: Stats, b: Stats)
    requires Shaped(a, |a.colSum|, |a.size|) && Shaped(b, |a.colSum|, |a.size|)
    requires ColumnsFinite(a) && ColumnsFinite(b)
    ensures ColumnsFinite(Merge(a, b))
  {
  }

  /** Merging two clean builders gives a clean builder. */
  lemma MergeKeepsClean(a: Stats, b: Stats)
    requires Shaped(a, |a.colSum|, |a.size|) && Shaped(b, |a.colSum|, |a.size|)
    requires Clean(a) && Clean(b)
    ensures Clean(Merge(a, b))
  {
    MergeKeepsConsistent(a, b);
    MergeKeepsClustersClean(a, b);
    MergeKeepsColumnsFinite(a, b);
  }

  // ---------------------------------------------------------------------------
  // Algebra of merging

  lemma MergeCommutes(a: Stats, b: Stats)
    requires Shaped(a, |a.colSum|, |a.size|) && Shaped(b, |a.colSum|, |a.size|)
    ensures Merge(a, b) == Merge(b, a)
  {
    assert PlusNat(a.size, b.size) == PlusNat(b.size, a.size);
    assert Plus(a.withinSumSqe, b.withinSumSqe) == Plus(b.withinSumSqe, a.withinSumSqe);
    assert Plus(a.colSum, b.colSum) == Plus(b.colSum, a.colSum);
    assert Plus(a.colSumSq, b.colSumSq) == Plus(b.colSumSq, a.colSumSq);
  }

  lemma MergeAssociates(a: Stats, b: Stats, c: Stats)
    requires Shaped(a, |a.colSum|, |a.size|) && Shaped(b, |a.colSum|, |a.size|) && Shaped(c, |a.colSum|, |a.size|)
    ensures Merge(Merge(a, b), c) == Merge(a, Merge(b, c))
  {
    assert PlusNat(PlusNat(a.size, b.size), c.size) == PlusNat(a.size, PlusNat(b.size, c.size));
    assert Plus(Plus(a.withinSumSqe, b.withinSumSqe), c.withinSumSqe) == Plus(a.withinSumSqe, Plus(b.withinSumSqe, c.withinSumSqe));
    assert Plus(Plus(a.colSum, b.colSum), c.colSum) == Plus(a.colSum, Plus(b.colSum, c.colSum));
    assert Plus(Plus(a.colSumSq, b.colSumSq), c.colSumSq) == Plus(a.colSumSq, Plus(b.colSumSq, c.colSumSq));
  }

  /** A fresh builder is the unit of merging. */
  lemma MergeZero(a: Stats)
    requires Shaped(a, |a.colSum|, |a.size|)
    ensures Merge(a, Zero(|a.colSum|, |a.size|)) == a
  {
    assert PlusNat(a.size, NatZeros(|a.size|)) == a.size;
    assert Plus(a.withinSumSqe, Zeros(|a.size|)) == a.withinSumSqe;
    assert Plus(a.colSum, Zeros(|a.colSum|)) == a.colSum;
    assert Plus(a.colSumSq, Zeros(|a.colSum|)) == a.colSumSq;
  }

  lemma StepIsMergeOfRowColumns(s: Stats, centers: seq<seq<real>>, mean: Option<seq<Num>>, r: Row)
    requires Shaped(s, |s.colSum|, |s.size|) && Fits(|s.colSum|, |s.size|, centers, mean, r)
    ensures var u := Step(Zero(|s.colSum|, |s.size|), centers, mean, r);
            Step(s, centers, mean, r).colSum == Plus(s.colSum, u.colSum) &&
            Step(s, centers, mean, r).colSumSq == Plus(s.colSumSq, u.colSumSq)
  {
    var z := Zero(|s.colSum|, |s.size|);
    var d := Impute(r.values, mean);
    assert Plus(z.colSum, d) == d;
    assert Plus(z.colSumSq, Squares(d)) == Squares(d);
  }

  lemma StepIsMergeOfRowErrors(s: Stats, centers: seq<seq<real>>, mean: Option<seq<Num>>, r: Row)
    requires Shaped(s, |s.colSum|, |s.size|) && Fits(|s.colSum|, |s.size|, centers, mean, r)
    ensures var u := Step(Zero(|s.colSum|, |s.size|), centers, mean, r);
            Step(s, centers, mean, r).withinSumSqe == Plus(s.withinSumSqe, u.withinSumSqe) &&
            Step(s, centers, mean, r).sumSqe == Add(s.sumSqe, u.sumSqe)
  {
    var z := Zero(|s.colSum|, |s.size|);
    var e := Sum(SqErrs(centers[r.clus], Impute(r.values, mean)));
    var u := Step(z, centers, mean, r);
    assert u.withinSumSqe == Zeros(|s.size|)[r.clus := e];
    assert u.sumSqe == e;
  }

  lemma StepIsMergeOfRowSizes(s: Stats, centers: seq<seq<real>>, mean: Option<seq<Num>>, r: Row)
    requires Shaped(s, |s.colSum|, |s.size|) && Fits(|s.colSum|, |s.size|, centers, mean, r)
    requires s.sumSqe.Fin?
    ensures var u := Step(Zero(|s.colSum|, |s.size|), centers, mean, r);
            Step(s, centers, mean, r).size == PlusNat(s.size, u.size) &&
            Step(s, centers, mean, r).count == s.count + u.count
  {
    var z := Zero(|s.colSum|, |s.size|);
    var e := Sum(SqErrs(centers[r.clus], Impute(r.values, mean)));
    assert Add(s.sumSqe, e).NaN? <==> Add(z.sumSqe, e).NaN?;
    assert PlusNat(s.size, NatZeros(|s.size|)) == s.size;
  }

  /** While the total is finite, scoring a row equals merging in a fresh builder
   *  that scored only that row. */
  lemma StepIsMergeOfRow(s: Stats, centers: seq<seq<real>>, mean: Option<seq<Num>>, r: Row)
    requires Shaped(s, |s.colSum|, |s.size|) && Fits(|s.colSum|, |s.size|, centers, mean, r)
    requires s.sumSqe.Fin?
    ensures Step(s, centers, mean, r) == Merge(s, Step(Zero(|s.colSum|, |s.size|), centers, mean, r))
  {
    StepIsMergeOfRowColumns(s, centers, mean, r);
    StepIsMergeOfRowErrors(s, centers, mean, r);
    StepIsMergeOfRowSizes(s, centers, mean, r);
  }

  // ---------------------------------------------------------------------------
  // Scoring streams of rows

  lemma {:induction false} ScoreAppend(s: Stats, centers: seq<seq<real>>, mean: Option<seq<Num>>, xs: seq<Row>, ys: seq<Row>)
    requires Shaped(s, |s.colSum|, |s.size|)
    requires forall j :: 0 <= j < |xs| ==> Fits(|s.colSum|, |s.size|, centers, mean, xs[j])
    requires forall j :: 0 <= j < |ys| ==> Fits(|s.colSum|, |s.size|, centers, mean, ys[j])
    ensures Score(s, centers, mean, xs + ys) == Score(Score(s, centers, mean, xs), centers, mean, ys)
  {
    if ys == [] {
      assert xs + ys == xs;
    } else {
      var n := |ys| - 1;
      assert (xs + ys)[..|xs + ys| - 1] == xs + ys[..n];
      assert (xs + ys)[|xs + ys| - 1] == ys[n];
      ScoreAppend(s, centers, mean, xs, ys[..n]);
      var p := Score(s, centers, mean, xs + ys[..n]);
      assert Score(s, centers, mean, xs + ys) == Step(p, centers, mean, ys[n]);
    }
  }

  /** A clean builder scoring resolvable rows accepts each and stays clean. */
  lemma {:induction false} ScoreKeepsClean(s: Stats, centers: seq<seq<real>>, mean: Option<seq<Num>>, rows: seq<Row>)
    requires Shaped(s, |s.colSum|, |s.size|)
    requires forall j :: 0 <= j < |rows| ==>
               Fits(|s.colSum|, |s.size|, centers, mean, rows[j]) && Resolvable(rows[j].values, mean)
    requires Clean(s)
    ensures Clean(Score(s, centers, mean, rows))
  {
    if rows != [] {
      var n := |rows| - 1;
      ScoreKeepsClean(s, centers, mean, rows[..n]);
      StepKeepsClean(Score(s, centers, mean, rows[..n]), centers, mean, rows[n]);
    }
  }

  /** While the total stays finite, scoring rows onto `s` equals merging `s`
   *  with a fresh builder that scored the same rows. */
  lemma {:induction false} ScoreIsMerge(s: Stats, centers: seq<seq<real>>, mean: Option<seq<Num>>, rows: seq<Row>)
    requires Shaped(s, |s.colSum|, |s.size|)
    requires forall j :: 0 <= j < |rows| ==>
               Fits(|s.colSum|, |s.size|, centers, mean, rows[j]) && Resolvable(rows[j].values, mean)
    requires s.sumSqe.Fin?
    ensures Score(s, centers, mean, rows) == Merge(s, Score(Zero(|s.colSum|, |s.size|), centers, mean, rows))
  {
    var z := Zero(|s.colSum|, |s.size|);
    if rows == [] {
      MergeZero(s);
    } else {
      var n := |rows| - 1;
      var init, last := rows[..n], rows[n];
      var p := Score(s, centers, mean, init);
      var q := Score(z, centers, mean, init);
      ScoreIsMerge(s, centers, mean, init);
      ZeroIsClean(|s.colSum|, |s.size|);
      ScoreKeepsClean(z, centers, mean, init);
      assert p.sumSqe == Add(s.sumSqe, q.sumSqe);
      StepIsMergeOfRow(p, centers, mean, last);
      StepIsMergeOfRow(q, centers, mean, last);
      MergeAssociates(s, q, Step(z, centers, mean, last));
    }
  }

  /** Additivity: scoring the rows of two partitions separately and merging the
   *  results gives the statistics of scoring all rows in one builder. */
  lemma ScoreSplits(ncol: nat, k: nat, centers: seq<seq<real>>, mean: Option<seq<Num>>, xs: seq<Row>, ys: seq<Row>)
    requires forall j :: 0 <= j < |xs| ==> Fits(ncol, k, centers, mean, xs[j]) && Resolvable(xs[j].values, mean)
    requires forall j :: 0 <= j < |ys| ==> Fits(ncol, k, centers, mean, ys[j]) && Resolvable(ys[j].values, mean)
    ensures Score(Zero(ncol, k), centers, mean, xs + ys)
         == Merge(Score(Zero(ncol, k), centers, mean, xs), Score(Zero(ncol, k), centers, mean, ys))
  {
    var z := Zero(ncol, k);
    ZeroIsClean(ncol, k);
    ScoreAppend(z, centers, mean, xs, ys);
    ScoreKeepsClean(z, centers, mean, xs);
    ScoreIsMerge(Score(z, centers, mean, xs), centers, mean, ys);
  }
}
