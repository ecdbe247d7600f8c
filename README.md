# k-means by Lloyd's algorithm, in Dafny

This project models the `KMeans` estimator of `machinelearning/kmeans.py`.
`fit` runs Lloyd's algorithm on a feature matrix of m rows and n columns:
- It takes the rows at `n_clusters` distinct indices as the starting centroids. The rows themselves may be equal.
- It then repeats two steps while some label still changes: label every row with its nearest centroid, then move every centroid to the mean of its rows.
- At the end it records the residual (`inertia_`).

The project is split into six modules:

- `Geometry`: points as sequences of exact reals, the squared Euclidean distance, numpy's first-minimum `argmin`, and the nearest-centroid search.
- `Clustering`: what one pass computes, as functions. These are the assignment (`Assign`), cluster sizes and sums, the mean (`Mean`), the update (`Update`) and the residual (`Residual`).
- `Descent`: the k-means objective (the sum of squared distances) never increases. The assignment step cannot increase it, and neither can the update step, because a cluster's mean minimises its total squared distance.
- `Lloyd`: the run of the algorithm as a function of the number of passes (`Iterate`) and as a trace of states (`IsRun`). It also proves what a run that stops guarantees: its last state is a fixed point (`Settled`).
- `Engine`: the class `KMeans`, whose array fields the methods overwrite as the Python attributes are overwritten:
  - `labels` stands for `labels_`, `oldLabel` for `old_label`, `centroids` for `centroids`, and `inertia` for `inertia_`.
  - A `null` field stands for an attribute not set yet, or for the `None` of `old_label`.
  - The imperative methods are proved against the `Clustering` functions.
  - `Fit`'s loop is proved to follow the run defined in `Lloyd`.
- `Example`: four points in the plane, two near the origin and two near (10, 0). The proofs show that `Fit` converges on them after two passes with a residual of 1.

## Model

| member | source | states |
|---|---|---|
| Geometry.SqDist | machinelearning/kmeans.py:26 | the square of `np.linalg.norm(p - q)`, never negative |
| Geometry.SqDistZero | machinelearning/kmeans.py:26 | the distance between two points is zero exactly when they are equal |
| Geometry.ArgMin | machinelearning/kmeans.py:26 | `np.argmin`: the index of a minimum that is strictly below every earlier entry, i.e. the first minimum |
| Geometry.ArgMinUnique | machinelearning/kmeans.py:26 | the first minimum is unique: any index with that property is the one argmin returns |
| Geometry.MonotoneKeepsArgMin | machinelearning/kmeans.py:26 | applying a function that is strictly increasing on the non-negative reals, such as the square root that `np.linalg.norm` takes of the squared distance, to non-negative distances does not change the argmin; this justifies using squared distances |
| Geometry.Distances | machinelearning/kmeans.py:26 | the list comprehension: one non-negative distance per centroid, the one to centroid j at position j |
| Geometry.Nearest | machinelearning/kmeans.py:26 | the chosen centroid index is in range, no farther than any centroid, and strictly nearer than every centroid with a lower index |
| Clustering.Rows | machinelearning/kmeans.py:18 | `X[idx, :]`: row j of the result is row `idx[j]` of X |
| Clustering.IsSample | machinelearning/kmeans.py:18 | a draw of `np.random.choice(range(m), k, replace=False)`: k distinct row indices, which is possible only when 0 <= k <= m |
| Clustering.DistinctBelow | machinelearning/kmeans.py:18 | pairwise-distinct integers in 0..m-1 number at most m, which is why sampling without replacement needs k <= m |
| Clustering.Assign | machinelearning/kmeans.py:25-26 | one label per row, each in 0..k-1, naming a nearest centroid with ties to the lowest index |
| Clustering.SizeZero | machinelearning/kmeans.py:33 | a cluster has size 0 exactly when no row carries its label |
| Clustering.Mean | machinelearning/kmeans.py:33 | `X[labels_ == j, :].mean(axis=0)`: n coordinates, each equal to the sum of the cluster's coordinates divided by its size |
| Clustering.Update | machinelearning/kmeans.py:31-33 | a k x n table whose row j is the mean of the rows labelled j |
| Clustering.Residual | machinelearning/kmeans.py:41-44 | the residual is never negative |
| Clustering.ResidualZero | machinelearning/kmeans.py:41-44 | the residual is zero exactly when every row coincides with its assigned centroid |
| Descent.MeanMinimisesClusterCost | machinelearning/kmeans.py:33 | the mean of a non-empty cluster is at least as good a centre, by total squared distance, as any other point |
| Descent.UpdateDoesNotIncrease | machinelearning/kmeans.py:31-33 | for a fixed labelling with no empty cluster, moving every centroid to its mean does not increase the squared residual |
| Descent.AssignDoesNotIncrease | machinelearning/kmeans.py:25-26 | for fixed centroids, relabelling by nearest centroid does not increase the squared residual over any other labelling |
| Descent.LloydStepDoesNotIncrease | machinelearning/kmeans.py:72-73 | one assign-then-update pass does not increase the squared residual |
| Lloyd.ZeroLabels | machinelearning/kmeans.py:17 | `np.zeros(m, dtype=int)`: m labels, all 0 |
| Lloyd.Pass | machinelearning/kmeans.py:72-73 | a successful pass yields m labels in range and a k x n centroid table |
| Lloyd.Iterate | machinelearning/kmeans.py:69-73 | the state after t passes has m labels and a k x n table, with labels in range after at least one pass |
| Lloyd.RunExtend | machinelearning/kmeans.py:72-73 | a run followed by one more successful pass is a run |
| Lloyd.RunIsIterate | machinelearning/kmeans.py:69-73 | the last state of a run with t passes is the state after t passes |
| Lloyd.RunStates | machinelearning/kmeans.py:69-73 | every state of a run is the state after as many passes as precede it |
| Lloyd.RunThenFail | machinelearning/kmeans.py:72-73 | a pass that meets an empty cluster after a run makes the next iteration undefined |
| Lloyd.RelabelledStep | machinelearning/kmeans.py:70 | a pass that changed the labels extends the record of passes that all changed some label |
| Lloyd.SettledIsFixedPoint | machinelearning/kmeans.py:70-73 | a state is settled (labels nearest, centroids means, no empty cluster) exactly when a pass leaves it unchanged |
| Lloyd.SettledStays | machinelearning/kmeans.py:70-73 | once the iteration reaches a settled state, every later pass stays there |
| Lloyd.RunAfterSettled | machinelearning/kmeans.py:70-73 | when the first pass lands on a settled state, every later state of the run is that state |
| Lloyd.StableRunIsFixedPoint | machinelearning/kmeans.py:35-36 | when the last pass did not change the labels (the loop's exit condition), the last state is settled: labels nearest, centroids means |
| Lloyd.IterateDoesNotIncrease | machinelearning/kmeans.py:70-73 | the squared residual after pass t+1 is at most that after pass t |
| Engine.KMeans.constructor | machinelearning/kmeans.py:11-12 | stores `n_clusters`; no other attribute is set yet |
| Engine.KMeans.InitializeCentroids | machinelearning/kmeans.py:14-18 | labels are m zeros and old labels absent; the centroids are the sampled rows exactly when 1 <= k <= m; otherwise it fails and leaves the centroids as they were |
| Engine.KMeans.AssignDataToCentroids | machinelearning/kmeans.py:20-26 | old labels are the previous labels; the new labels are the nearest-centroid labelling; centroids and shape unchanged |
| Engine.KMeans.UpdateCentroids | machinelearning/kmeans.py:28-33 | fresh k x n table; every non-empty cluster's row is its mean; labels unchanged; succeeds exactly when no cluster is empty, and then the table is the full update |
| Engine.KMeans.EqualAt | machinelearning/kmeans.py:36 | `np.equal` at one row: false when there are no old labels (`None` equals no label), else whether the old and new label agree |
| Engine.KMeans.HasConverged | machinelearning/kmeans.py:35-36 | true exactly when old labels are absent (and there is at least one row) or differ from the labels somewhere |
| Engine.KMeans.SumResiduals | machinelearning/kmeans.py:38-44 | the residual is non-negative and zero exactly when every row sits on its centroid |
| Engine.KMeans.GetLabels | machinelearning/kmeans.py:80-82 | returns the label array itself |
| Engine.KMeans.Step | machinelearning/kmeans.py:71-73 | one loop body: old labels are the previous labels; either the run extends by the new state or the last state is stuck on an empty cluster |
| Engine.KMeans.StopIsConverged | machinelearning/kmeans.py:70 | a loop that stops on the exit condition ends converged at a settled state |
| Engine.KMeans.BudgetIsNotConverged | machinelearning/kmeans.py:70 | a loop that uses up its budget while labels still change ends not converged |
| Engine.KMeans.Loop | machinelearning/kmeans.py:69-73 | the loop goes through a run; every pass but the last changed some label; on convergence it ran at least one pass, old labels equal labels and the state is settled, and the pass count equals the loop count; `inertia_` is untouched |
| Engine.KMeans.RecordInertia | machinelearning/kmeans.py:77 | `inertia_` becomes the residual; nothing else changes |
| Engine.KMeans.Fit | machinelearning/kmeans.py:60-78 | m and n come from the shape of X; it fails exactly when k < 1 or k > m (with no rows it always fails), and then the labels are m zeros, old labels absent and centroids as they were; otherwise the outcome of the loop holds from the sampled rows; on convergence inertia is the residual, and otherwise it is as it was |
| Example.FourPoints | machinelearning/kmeans.py:60-78 | on the four points, the first pass splits them into the two pairs with their middles as centroids, which is settled, with residual 1 |
| Example.ConvergesOnSecondPass | machinelearning/kmeans.py:69-73 | when the first pass settles on labels other than all zeros, a fit with a budget of at least two converges after exactly two passes at that state |
| Example.FitNoRows | machinelearning/kmeans.py:14-18 | fitting zero clusters to a matrix with no rows fails at initialisation, with empty labels and old labels absent |
| Example.FitFourPoints | machinelearning/kmeans.py:60-78 | fitting two clusters to the four points converges after two passes with the pairs as clusters, their middles as centroids and inertia 1 |

## Left out

- Plotting (`plot_centroids`, `plot_residuals`, `example`, machinelearning/kmeans.py:46-58 and 95-106): matplotlib calls with no logic.
- `sample_set` (machinelearning/kmeans.py:86-92): random demo data.
- The two `print` statements (machinelearning/kmeans.py:75 and 78): output only. The printed count is one more than the number of passes.
- The randomness of `np.random.choice`: the drawn indices are the `sample` parameter. Callers must give k distinct row indices whenever the sample size is admissible.
- float64 arithmetic: coordinates are exact reals, with no rounding, NaN or overflow.
- Clustering.Residual: sums squared distances, where the source sums `np.linalg.norm` distances, so the value differs. On the four-point example the source's sum is 2.0 and the model's is 1.0. Non-negativity and the zero case hold for both.
- Engine.KMeans.SumResiduals: the same squared-distance residual as `Clustering.Residual`.
- Descent.UpdateDoesNotIncrease, Descent.LloydStepDoesNotIncrease and Lloyd.IterateDoesNotIncrease are about the sum of squared distances, the k-means objective. They do not carry over to the source's `inertia_`, a sum of unsquared norms, which the update step can increase. Example: the 1-D cluster {0, 0, 10} with centroid 0 has a norm sum of 10, and at its mean 10/3 the sum is 40/3.
- Engine.KMeans.Fit: the source loop has no bound and may not terminate. The model stops after `maxIter` passes and returns `NotConverged`. Termination is not proved.
- Engine.KMeans.Fit: a pass that leaves a cluster empty stops the fit with `EmptyCluster`, and `inertia_` is then not recorded. The source stops after such a pass only when the pass relabelled nothing. That happens exactly when it is the first pass, k >= 2, and every row gets label 0, which means all sampled rows are equal. This is always so when n = 0, and it happens with duplicate rows when n >= 1. The labels then equal the initial zeros (machinelearning/kmeans.py:17, 23, 36), so the source ends converged after one pass. The empty clusters' rows are NaN when n >= 1 and empty when n = 0, and `inertia_` is finite. Example: X = [[1.0], [1.0]], two clusters, seeds 0 and 1: the source stops with centroids [[1.0], [NaN]] and `inertia_` 0.0. In every other case, first pass or later, the emptying pass changes some label, and the source goes on with NaN centroids. Example: X = [[0.0], [0.0], [5.0]], three clusters, seeds 0, 1, 2: the first pass gives labels [0, 0, 2]. In both examples the model returns `EmptyCluster(1)`.
- Engine.KMeans.UpdateCentroids: an empty cluster's row stays at zeros where numpy would put NaNs, and the step reports failure.
- Engine.KMeans.InitializeCentroids: the exception at machinelearning/kmeans.py:18 becomes a `false` result and `InvalidConfig`. That is the `ValueError` of `np.random.choice` for k > m or k < 0, or, with no rows, the error of drawing from or indexing with an empty float array. k = 0 with rows is rejected here too; the source would fail later, in `argmin` of an empty list (machinelearning/kmeans.py:26).
- Engine.KMeans.GetLabels: before the first fit it returns `null`, where Python raises `AttributeError`.
- Aliasing of `old_label` and `labels_` is modelled (the old array becomes `oldLabel`). numpy's broadcasting and dtype rules are not modelled.
