# Clustering metrics of H2O, modelled in Dafny

H2O scores a clustering model (k-means) over a frame. The frame is split into
partitions. Each partition feeds its rows to a `MetricBuilderClustering`, and
the builders of all partitions are merged pairwise with `reduce`. The merged
builder then makes a `ModelMetricsClustering` report.

A builder keeps six statistics:

- the row count of every cluster (`_size`);
- the squared error of every cluster against its centroid (`_within_sumsqe`);
- the sum of every feature column (`_colSum`);
- the sum of squares of every feature column (`_colSumSq`);
- the total squared error (`_sumsqe`);
- the number of scored rows (`_count`).

The report holds the cluster sizes, the within-cluster MSE of every cluster,
and three averages per row: the total sum of squares (`avg_ss`), the
within-cluster one (`avg_within_ss`) and their difference (`avg_between_ss`).
A small table lists one row per centroid.

The model has five modules:

- `Numbers` gives a Java `double` as `Num = NaN | Fin(real)`. NaN marks a
  missing value and absorbs every arithmetic step. It also has the
  left-to-right sums that the loops compute.
- `Accumulator` holds the builder state as a value (`Stats`). It defines
  scoring one row (`Step`), merging two builders (`Merge`) and scoring a stream
  of rows (`Score`). It proves the invariants these keep and the algebra of
  merging.
- `Report` holds the report (`Metrics`) and what the finaliser computes from
  a merged state (`Finalize`). It contains the centroid table method and the
  meaning of each output.
- `Builder` is the builder as a class with arrays. The constructor allocates
  them; `PerRow` and `Reduce` update them in place. `MakeModelMetrics` has no
  `modifies` clause: it only reads the builder and fills a fresh array of
  per-cluster MSEs. All four are proved against `Accumulator` and `Report`.
- `Moments` proves what `avg_ss` measures. The finaliser computes it in one
  pass from the column moment sums. On a builder that scored the rows of a
  frame, this equals the spread of every column around its own mean, per row.

Three behaviours of the code that the model keeps as written:

- The builder constructor accepts zero columns or zero clusters.
- With no scored rows, `avg_within_ss` is `0/0`, which is NaN. No error is
  raised.
- `avg_ss` divides by the frame's row count `f.numRows()`, not by the
  builder's `_count` (lines 140-141). The two differ when rows were rejected
  or when the builder scored only part of the frame.

## Model

| member | source | states |
|---|---|---|
| Builder.MetricBuilderClustering.constructor | h2o-core/src/main/java/hex/ModelMetricsClustering.java:68-79 | fresh arrays of `nclust` cluster entries and `ncol` column entries; every statistic is zero (`Abs() == Zero(ncol, nclust)`); the bookkeeping invariants hold |
| Builder.MetricBuilderClustering.AccumulateRow | h2o-core/src/main/java/hex/ModelMetricsClustering.java:94-103 | the column loop leaves the state equal to `Accumulate` of the old state on the imputed row; proved through the invariant `Abs() == Columns(s0, …, i)` |
| Builder.MetricBuilderClustering.PerRow | h2o-core/src/main/java/hex/ModelMetricsClustering.java:83-109 | new state is `Step(old state, row)`; the row is rejected exactly when the total squared error is NaN; a rejected row leaves sizes and count unchanged; an accepted row adds exactly 1 to `size[clus]` and to `count`; no other cluster's size or squared error changes; the invariants are kept |
| Builder.MetricBuilderClustering.Reduce | h2o-core/src/main/java/hex/ModelMetricsClustering.java:112-120 | new state is `Merge(old state, other)`, elementwise addition of every statistic; the invariants are kept |
| Builder.AddCounts | h2o-core/src/main/java/hex/ModelMetricsClustering.java:115 | `a[i]` becomes `old(a[i]) + b[i]` for every index |
| Builder.AddDoubles | h2o-core/src/main/java/hex/ModelMetricsClustering.java:116-119 | `a[i]` becomes `Add(old(a[i]), b[i])` for every index |
| Builder.MetricBuilderClustering.MakeModelMetrics | h2o-core/src/main/java/hex/ModelMetricsClustering.java:123-143 | the report equals `Finalize(state, k, numRows)`: the sizes, `within_sumsqe[c] / size[c]` per cluster, `sumsqe / count`, the one-pass total and the between difference |
| Report.NewMetrics | h2o-core/src/main/java/hex/ModelMetricsClustering.java:22-27 | a new report has no size or MSE arrays and all three averages NaN |
| Report.CreateCentroidStatsTable | h2o-core/src/main/java/hex/ModelMetricsClustering.java:32-60 | no table exactly when sizes or MSEs are unset; otherwise one row per cluster `c`, holding `(c + 1, size[c], withinMse[c])` |
| Report.Deviations | h2o-core/src/main/java/hex/ModelMetricsClustering.java:140 | one term per column; a term is NaN exactly when the column's sum or sum of squares is NaN, or the frame has no rows |
| Report.Finalize | h2o-core/src/main/java/hex/ModelMetricsClustering.java:128-143 | the report carries the sizes and one MSE per cluster; `avg_within_ss` is NaN exactly when the total is NaN or no row was scored; `avg_between_ss` is NaN exactly when `avg_ss` or `avg_within_ss` is |
| Report.SingleClusterIdentity | h2o-core/src/main/java/hex/ModelMetricsClustering.java:135-143 | with `k == 1` the total equals the within average, and the between average is 0, or NaN when the within average is NaN |
| Report.WithinMseOfCleanBuilder | h2o-core/src/main/java/hex/ModelMetricsClustering.java:130-132 | on a clean state a cluster's MSE is NaN exactly when the cluster is empty; otherwise it is its squared error over its size, and non-negative |
| Report.AvgWithinOfCleanBuilder | h2o-core/src/main/java/hex/ModelMetricsClustering.java:129 | on a clean state the within average is NaN exactly when no row was scored (then the total is 0); otherwise it is `sumsqe / count`, and non-negative |
| Report.BetweenSsIsNotClamped | h2o-core/src/main/java/hex/ModelMetricsClustering.java:143 | the between average is not clamped: a clean state reports exactly `-e / m < 0` |
| Report.OriginRowsScore | h2o-core/src/main/java/hex/ModelMetricsClustering.java:83-109 | a fresh one-column, two-cluster builder that scores `m` rows at the origin, all assigned to the centroid at 1, reaches the state used by the next row |
| Report.BetweenSsOfScoredRows | h2o-core/src/main/java/hex/ModelMetricsClustering.java:128-143 | the negative between average is reachable: after scoring those `m > 0` rows, the report's `avg_between_ss` is exactly `-1` |
| Accumulator.Zero | h2o-core/src/main/java/hex/ModelMetricsClustering.java:68-79 | the fresh state has `ncol` column and `k` cluster entries, a zero total and a zero count |
| Accumulator.ImputeFillsMissing | h2o-core/src/main/java/hex/ModelMetricsClustering.java:96 | a present value is kept; a missing one is taken from the mean when there is one; an entry stays missing exactly when the value is missing and the mean is absent or missing |
| Accumulator.Accumulate | h2o-core/src/main/java/hex/ModelMetricsClustering.java:94-103 | the column loop keeps every array's length and leaves the sizes and the count unchanged |
| Accumulator.Step | h2o-core/src/main/java/hex/ModelMetricsClustering.java:94-107 | scoring a row keeps the shape; a rejected row (NaN total) leaves sizes and count unchanged; an accepted row adds one to its cluster's size and to the count |
| Accumulator.Merge | h2o-core/src/main/java/hex/ModelMetricsClustering.java:112-120 | merging keeps the shape, adds the counts, and gives a NaN total exactly when either total is NaN |
| Accumulator.ZeroIsClean | h2o-core/src/main/java/hex/ModelMetricsClustering.java:68-79 | the zero state has the requested shape and satisfies every invariant |
| Accumulator.ColumnsIsAccumulate | h2o-core/src/main/java/hex/ModelMetricsClustering.java:94-103 | running the column loop over every column adds the row's squared error to the total and to cluster `clus` only, the values to `colSum` and their squares to `colSumSq` |
| Accumulator.RejectsIffMissing | h2o-core/src/main/java/hex/ModelMetricsClustering.java:96-105 | a row is rejected exactly when the total was already NaN, or some column is still missing after imputation from `mean` |
| Accumulator.StepKeepsConsistent | h2o-core/src/main/java/hex/ModelMetricsClustering.java:97-107 | scoring a row keeps `sumsqe == Σ within_sumsqe` and `count == Σ size`, whether or not the row is rejected |
| Accumulator.StepKeepsClean | h2o-core/src/main/java/hex/ModelMetricsClustering.java:94-107 | a clean state scoring a resolvable row accepts it and stays clean |
| Accumulator.MergeKeepsConsistent | h2o-core/src/main/java/hex/ModelMetricsClustering.java:112-120 | merging keeps `sumsqe == Σ within_sumsqe` and `count == Σ size` |
| Accumulator.MergeKeepsClean | h2o-core/src/main/java/hex/ModelMetricsClustering.java:112-120 | merging two clean states gives a clean state |
| Accumulator.MergeCommutes | h2o-core/src/main/java/hex/ModelMetricsClustering.java:112-120 | `Merge(a, b) == Merge(b, a)` |
| Accumulator.MergeAssociates | h2o-core/src/main/java/hex/ModelMetricsClustering.java:112-120 | `Merge(Merge(a, b), c) == Merge(a, Merge(b, c))` |
| Accumulator.MergeZero | h2o-core/src/main/java/hex/ModelMetricsClustering.java:68-79 | a fresh builder is the unit of merging |
| Accumulator.StepIsMergeOfRow | h2o-core/src/main/java/hex/ModelMetricsClustering.java:83-120 | while the total is finite, scoring a row equals merging with a fresh builder that scored only that row |
| Accumulator.ScoreAppend | h2o-core/src/main/java/hex/ModelMetricsClustering.java:83-109 | scoring `xs + ys` is scoring `xs`, then `ys` |
| Accumulator.ScoreKeepsClean | h2o-core/src/main/java/hex/ModelMetricsClustering.java:83-109 | a clean state scoring resolvable rows stays clean |
| Accumulator.ScoreIsMerge | h2o-core/src/main/java/hex/ModelMetricsClustering.java:112-120 | while the total is finite, scoring rows onto a state equals merging it with a fresh builder that scored the same rows |
| Accumulator.ScoreSplits | h2o-core/src/main/java/hex/ModelMetricsClustering.java:112-120 | scoring two partitions in separate builders and merging them gives the same state as scoring all rows in one builder |
| Numbers.Sum | h2o-core/src/main/java/hex/ModelMetricsClustering.java:138-140 | a running `+=` sum is NaN exactly when some term is NaN |
| Moments.ScoreColumnSum | h2o-core/src/main/java/hex/ModelMetricsClustering.java:101 | after scoring rows, `colSum[i]` is its start value plus the sum of the column's imputed values |
| Moments.ScoreColumnSumSq | h2o-core/src/main/java/hex/ModelMetricsClustering.java:102 | after scoring rows, `colSumSq[i]` is its start value plus the sum of the squares of those values |
| Moments.SpreadIsOnePass | h2o-core/src/main/java/hex/ModelMetricsClustering.java:140 | `Σ (x − mean)² == Σ x² − (Σ x)² / n` for any non-empty column |
| Moments.OnePassTerm | h2o-core/src/main/java/hex/ModelMetricsClustering.java:140 | on finite moment sums `s` and `q`, the finaliser's column term is `q − s² / n` |
| Moments.DeviationIsSpread | h2o-core/src/main/java/hex/ModelMetricsClustering.java:139-140 | on a fresh builder that scored the frame's resolvable rows, column `i`'s term is that column's spread around its mean |
| Moments.AvgSsIsSpreadPerRow | h2o-core/src/main/java/hex/ModelMetricsClustering.java:137-142 | for `k != 1` and a builder that scored every resolvable row of an `n`-row frame, `avg_ss` is the total spread of every column around its mean, divided by `n` |

## Left out

- Floating point: the model computes with exact reals. It leaves out IEEE rounding, the non-associativity of `+=`, and the widening of the `float` input row to `double`.
- Infinity: a division by a zero count gives NaN in the model. In Java a non-zero numerator over zero gives ±Infinity. On a clean state every numerator over a zero count is itself zero, so `within_mse` and `avg_within_ss` match Java exactly there.
- Infinity in a row: an infinite feature value, or a square that overflows to Infinity, cannot be written as a `Num`. Java accepts such a row, because the total becomes +Infinity rather than NaN (lines 97-105); the model has no such row.
- Report.Deviations: with `numRows == 0` the model gives NaN where Java can give -Infinity.
- Java `long` overflow of `_size` and `_count` is not modelled: counts are unbounded naturals.
- The `_work` scratch array that the constructor allocates is not used by this class and is not modelled.
- The table's header, type and format strings, and the `TwoDimTable` object, are not modelled; the table is modelled as its rows.
- `m.addMetrics(mm)` registration, the superclass constructors, and the reading of `_k` and the centroids from the model are not modelled. `k`, `numRows` and the centroid matrix are parameters.
- Builder.MetricBuilderClustering.MakeModelMetrics: returns the sizes as a value; the aliasing of the builder's `_size` array into the report is not modelled.
- `super.reduce` is not part of this model. Reduce adds `_sumsqe` and `_count` itself, on the assumption that the superclass does exactly that.
- Builder.MetricBuilderClustering.Reduce: requires the two builders to own distinct arrays; reducing a builder with itself is not modelled.
- The cast `(int) preds[0]` is not modelled: PerRow takes the cluster as an integer in range, as the source's assertions demand.
- Builder.MetricBuilderClustering.PerRow: requires the mean vector, when given, to be as wide as the row. It also requires the builder to be as wide as the centroids. Through `Fits` it requires `|centers| == size.Length`, one centroid row per cluster, where Java needs only `clus` below the number of centroid rows (lines 88-91).
- Builder.MetricBuilderClustering.constructor: its `nat` parameters exclude negative sizes; Java throws `NegativeArraySizeException` for them (lines 69-71).
- The distributed scheduling that runs `perRow` and `reduce` across partitions and threads is not modelled. The model covers sequences of row updates and merges.
- A rejected row is modelled as an outcome value rather than an exception. The state it leaves is the state at the throw: the sums are updated and the counters are not.
- Report.BetweenSsIsNotClamped: shows that the between average can be negative. That it is non-negative for well-separated clusters depends on the centroids being the cluster means, and is not modelled.
