/** The `KMeans` estimator: Lloyd's algorithm as a class whose fields the
    fitting steps overwrite. A field that is `null` stands for an attribute
    the Python object does not have yet (before the first fit), or for the
    `None` of `old_label` before the first pass. */
module Engine {
  import opened Geometry
  import opened Clustering
  import opened Lloyd

  /** How `fit` ends. `InvalidConfig` is the error raised while drawing the
      initial centroids (or, for k = 0 with rows, later in `argmin`);
      `EmptyCluster` is a pass that left a
      cluster without points, where numpy would produce a NaN mean;
      `NotConverged` is the iteration budget running out. */
  datatype FitResult =
    | Converged(iterations: nat)
    | InvalidConfig
    | EmptyCluster(iterations: nat)
    | NotConverged(iterations: nat)

  /** A number of clusters for which drawing the initial centroids succeeds
      and the centroids label every point: at least one, and at most `m`
      since rows are drawn without replacement. With no rows the draw
      fails whatever `k` is: `np.random.choice` refuses to draw from the
      empty `range(0)`, or returns an empty float array that cannot index
      `X`. */
  predicate ValidConfig(k: int, m: nat) {
    1 <= k <= m
  }

  class KMeans {
    /** `n_clusters`, the k of k-means. */
    const nClusters: int
    /** The number of rows (`m`) and columns (`n`) of the fitted matrix. */
    var m: nat
    var n: nat
    /** `labels_`: the cluster of every row. */
    var labels: array?<int>
    /** `old_label`: the labels before the last assignment step. */
    var oldLabel: array?<int>
    /** `centroids`: one row of n coordinates per cluster. */
    var centroids: array?<Point>
    /** `inertia_`, set once a fit has converged. */
    var inertia: Option<real>

    /** The state between two steps of a fit. */
    ghost predicate Valid()
      reads this`labels, this`centroids, this`oldLabel, this`m, this`n, labels, centroids
    {
      && labels != null && centroids != null
      && ValidConfig(nClusters, m)
      && labels.Length == m
      && (oldLabel != null ==> oldLabel.Length == m)
      && Fits(centroids[..], nClusters, n)
      && InRange(labels[..], nClusters)
    }

    constructor (nClusters: int)
      ensures this.nClusters == nClusters
      ensures labels == null && oldLabel == null && centroids == null && inertia == None
    {
      this.nClusters := nClusters;
      m, n := 0, 0;
      labels, oldLabel, centroids := null, null, null;
      inertia := None;
    }

    /** Resets the labels to 0, forgets the previous ones, and takes as
        centroids the rows of `X` at the indices `sample`, which stand for
        the draw of `np.random.choice`. That draw fails (and the centroids
        stay as they were) when the sample size is impossible. */
    method InitializeCentroids(X: seq<Point>, sample: seq<int>) returns (ok: bool)
      requires |X| == m && Rect(X, n)
      requires ValidConfig(nClusters, m) ==> IsSample(sample, nClusters, m)
      modifies this
      ensures m == old(m) && n == old(n) && inertia == old(inertia)
      ensures labels != null && fresh(labels) && labels[..] == ZeroLabels(m)
      ensures oldLabel == null
      ensures ok <==> ValidConfig(nClusters, m)
      ensures ok ==> fresh(centroids) && centroids[..] == Rows(X, sample) && Valid()
      ensures !ok ==> centroids == old(centroids)
    {
      oldLabel, labels := null, new int[m](_ => 0);
      if !ValidConfig(nClusters, m) {
        return false;
      }
      centroids := new Point[nClusters](j requires 0 <= j < |sample| && 0 <= sample[j] < |X| => X[sample[j]]);
      assert labels[..] == ZeroLabels(m);
      return true;
    }

    /** The assignment step: keeps the current labels as the old ones and
        labels every row with the index of its nearest centroid. */
    method AssignDataToCentroids(X: seq<Point>)
      requires Valid() && |X| == m && Rect(X, n)
      modifies this
      ensures m == old(m) && n == old(n) && centroids == old(centroids) && inertia == old(inertia)
      ensures centroids[..] == old(centroids[..])
      ensures Valid()
      ensures oldLabel == old(labels) && fresh(labels) && oldLabel[..] == old(labels[..])
      ensures labels[..] == Assign(X, centroids[..], n)
    {
      ghost var target := Assign(X, centroids[..], n);
      var next := new int[m](_ => 0);
      oldLabel, labels := labels, next;
      for i := 0 to m
        invariant labels == next && oldLabel == old(labels)
        invariant m == old(m) && n == old(n) && centroids == old(centroids) && inertia == old(inertia)
        invariant labels[..i] == target[..i]
      {
        labels[i] := Nearest(X[i], centroids[..]);
      }
      assert labels[..] == target[..m];
    }

    /** The update step: a fresh k x n table whose row `j` is the mean of
        the rows labelled `j`. A cluster without rows keeps a row of zeros
        where numpy would put NaNs, and the step then reports failure. */
    method UpdateCentroids(X: seq<Point>) returns (ok: bool)
      requires Valid() && |X| == m && Rect(X, n)
      modifies this
      ensures m == old(m) && n == old(n) && inertia == old(inertia)
      ensures labels == old(labels) && oldLabel == old(oldLabel)
      ensures labels[..] == old(labels[..]) && (oldLabel != null ==> oldLabel[..] == old(oldLabel[..]))
      ensures Valid()
      ensures fresh(centroids)
      ensures ok <==> NoEmptyCluster(labels[..], nClusters)
      ensures forall j :: 0 <= j < nClusters && Size(labels[..], j) > 0 ==>
        centroids[j] == Mean(X, labels[..], j, n)
      ensures ok ==> centroids[..] == Update(X, labels[..], nClusters, n)
    {
      var L, width := labels[..], n;
      var table := new Point[nClusters](_ => Zeros(width));
      centroids := table;
      ok := true;
      for j := 0 to nClusters
        invariant centroids == table && labels == old(labels) && oldLabel == old(oldLabel)
        invariant m == old(m) && n == width && inertia == old(inertia)
        invariant Fits(table[..], nClusters, n)
        invariant ok <==> NoEmptyCluster(L, j)
        invariant forall i :: 0 <= i < j && Size(L, i) > 0 ==> table[i] == Mean(X, L, i, n)
      {
        if Size(L, j) > 0 {
          centroids[j] := Mean(X, L, j, n);
        } else {
          ok := false;
        }
      }
      if ok {
        assert centroids[..] == Update(X, L, nClusters, n);
      }
    }

    /** `np.equal(old_label, labels_)` at row `i`: false when there is no
        previous labelling, since `None` equals no label. */
    predicate EqualAt(i: int): (b: bool)
      requires labels != null && (oldLabel != null ==> oldLabel.Length == labels.Length)
      requires 0 <= i < labels.Length
      reads this`labels, this`oldLabel, labels, oldLabel
      ensures oldLabel == null ==> !b
      ensures oldLabel != null ==> (b <==> oldLabel[..][i] == labels[..][i])
    {
      oldLabel != null && oldLabel[i] == labels[i]
    }

    /** The loop condition of `fit`, named `_has_converged` in the source:
        true while some row has no previous label or a different one. */
    predicate HasConverged(): (b: bool)
      requires labels != null && (oldLabel != null ==> oldLabel.Length == labels.Length)
      reads this`labels, this`oldLabel, labels, oldLabel
      ensures oldLabel == null ==> (b <==> labels.Length > 0)
      ensures oldLabel != null ==> (b <==> oldLabel[..] != labels[..])
    {
      assert labels.Length > 0 && oldLabel == null ==> !EqualAt(0);
      assert oldLabel != null ==> forall i :: 0 <= i < labels.Length ==> (EqualAt(i) <==> oldLabel[..][i] == labels[..][i]);
      !(forall i :: 0 <= i < labels.Length ==> EqualAt(i))
    }

    /** The residual of the current labelling, `_sum_residuals`. */
    function SumResiduals(X: seq<Point>): (r: real)
      requires Valid() && |X| == m && Rect(X, n)
      reads this`labels, this`centroids, this`oldLabel, this`m, this`n, labels, centroids
      ensures r >= 0.0
      ensures r == 0.0 <==> forall i :: 0 <= i < m ==> X[i] == centroids[labels[i]]
    {
      ResidualZero(X, labels[..], centroids[..], n);
      Residual(X, labels[..], centroids[..], n)
    }

    /** `get_labels`: the label array itself, not a copy. */
    function GetLabels(): (L: array?<int>)
      reads this`labels
      ensures L == labels
    {
      labels
    }

    /** One pass of the loop in `fit`: the assignment step, then the update
        step. A pass that leaves no cluster empty extends the run by the
        state it produces; otherwise the run is stuck at its last state. */
    method Step(X: seq<Point>, ghost C0: seq<Point>, ghost trace: seq<State>) returns (ok: bool)
      requires Valid() && |X| == m && Rect(X, n) && Fits(C0, nClusters, n)
      requires IsRun(X, C0, nClusters, n, trace)
      requires trace[|trace| - 1] == State(labels[..], centroids[..])
      modifies this
      ensures m == old(m) && n == old(n) && inertia == old(inertia) && Valid()
      ensures oldLabel != null && oldLabel[..] == old(labels[..])
      ensures ok ==> IsRun(X, C0, nClusters, n, trace + [State(labels[..], centroids[..])])
      ensures !ok ==> Stuck(X, nClusters, n, trace[|trace| - 1], labels[..])
    {
      AssignDataToCentroids(X);
      ghost var L := labels[..];
      ok := UpdateCentroids(X);
      if ok {
        RunExtend(X, C0, nClusters, n, trace, L, centroids[..]);
      }
    }

    /** What the loop of `fit` establishes about the run `trace` it went
        through from `C0`, given how it ended: every pass but the last
        changed some label; a converged run ends in a fixed point with
        `_has_converged` false, a run that met an empty cluster is stuck, and
        a run that used up its `maxIter` passes still has `_has_converged`
        true. A converged run made at least one pass. `oldLabel` holds the
        labels before the last pass, or is absent when no pass ran. */
    ghost predicate Outcome(X: seq<Point>, C0: seq<Point>, maxIter: nat, r: FitResult, trace: seq<State>)
      requires Valid() && |X| == m && Rect(X, n) && Fits(C0, nClusters, n)
      reads this`labels, this`centroids, this`oldLabel, this`m, this`n, labels, centroids, oldLabel
    {
      && IsRun(X, C0, nClusters, n, trace)
      && match r
        case InvalidConfig => false
        case Converged(t) =>
          && |trace| == t + 1 && 0 < t <= maxIter
          && trace[t] == State(labels[..], centroids[..])
          && oldLabel != null && oldLabel[..] == trace[t - 1].labels
          && Relabelled(trace, t) && !HasConverged() && Settled(X, nClusters, n, trace[t])
        case EmptyCluster(t) =>
          && |trace| == t && 0 < t <= maxIter
          && oldLabel != null && oldLabel[..] == trace[t - 1].labels
          && Relabelled(trace, t) && Stuck(X, nClusters, n, trace[t - 1], labels[..])
        case NotConverged(t) =>
          && |trace| == t + 1 && t == maxIter
          && trace[t] == State(labels[..], centroids[..])
          && (t == 0 ==> oldLabel == null)
          && (t > 0 ==> oldLabel != null && oldLabel[..] == trace[t - 1].labels)
          && Relabelled(trace, t + 1) && HasConverged()
    }

    /** The loop of `fit` stops on `_has_converged` being false: the run it
        went through is converged. */
    lemma StopIsConverged(X: seq<Point>, C0: seq<Point>, maxIter: nat, t: nat, trace: seq<State>)
      requires Valid() && |X| == m && Rect(X, n) && Fits(C0, nClusters, n)
      requires IsRun(X, C0, nClusters, n, trace) && |trace| == t + 1 && t <= maxIter
      requires trace[t] == State(labels[..], centroids[..])
      requires t == 0 ==> oldLabel == null
      requires t > 0 ==> oldLabel != null && oldLabel[..] == trace[t - 1].labels
      requires Relabelled(trace, t) && !HasConverged()
      ensures Outcome(X, C0, maxIter, Converged(t), trace)
    {
      // with at least one row, `_has_converged` is true while no pass has run
      assert labels.Length > 0 && oldLabel != null && t > 0;
      StableRunIsFixedPoint(X, C0, nClusters, n, trace);
    }

    /** The loop of `fit` meets its budget with `_has_converged` still true:
        the run it went through did not converge. */
    lemma BudgetIsNotConverged(X: seq<Point>, C0: seq<Point>, t: nat, trace: seq<State>)
      requires Valid() && |X| == m && Rect(X, n) && Fits(C0, nClusters, n)
      requires IsRun(X, C0, nClusters, n, trace) && |trace| == t + 1
      requires trace[t] == State(labels[..], centroids[..])
      requires t == 0 ==> oldLabel == null
      requires t > 0 ==> oldLabel != null && oldLabel[..] == trace[t - 1].labels
      requires Relabelled(trace, t) && HasConverged()
      ensures Outcome(X, C0, t, NotConverged(t), trace)
    {
      RelabelledStep(trace, t, trace[t]);
    }

    /** The loop of `fit`, from the state initialisation leaves: passes
        repeat while `_has_converged` holds. The loop in the source has no
        bound: here it gives up after `maxIter` passes. The ghost `trace` is
        the sequence of states the loop went through. */
    method Loop(X: seq<Point>, ghost C0: seq<Point>, maxIter: nat) returns (r: FitResult, ghost trace: seq<State>)
      requires Valid() && |X| == m && Rect(X, n) && Fits(C0, nClusters, n)
      requires oldLabel == null && labels[..] == ZeroLabels(m) && centroids[..] == C0
      modifies this
      ensures m == old(m) && n == old(n) && inertia == old(inertia) && Valid()
      ensures Outcome(X, C0, maxIter, r, trace)
    {
      trace := [State(labels[..], centroids[..])];
      var iter := 0;
      while HasConverged()
        invariant Valid() && m == old(m) && n == old(n) && inertia == old(inertia) && iter <= maxIter
        invariant IsRun(X, C0, nClusters, n, trace) && |trace| == iter + 1
        invariant trace[iter] == State(labels[..], centroids[..])
        invariant iter == 0 ==> oldLabel == null
        invariant iter > 0 ==> oldLabel != null && oldLabel[..] == trace[iter - 1].labels
        invariant Relabelled(trace, iter)
        decreases maxIter - iter
      {
        if iter == maxIter {
          BudgetIsNotConverged(X, C0, iter, trace);
          return NotConverged(iter), trace;
        }
        assert iter > 0 ==> trace[iter - 1].labels != trace[iter].labels;
        iter := iter + 1;
        var ok := Step(X, C0, trace);
        RelabelledStep(trace, iter - 1, State(labels[..], centroids[..]));
        if !ok {
          return EmptyCluster(iter), trace;
        }
        trace := trace + [State(labels[..], centroids[..])];
      }
      StopIsConverged(X, C0, maxIter, iter, trace);
      return Converged(iter), trace;
    }

    /** `self.inertia_ = self._sum_residuals(X)`: only `inertia` changes. */
    method RecordInertia(X: seq<Point>)
      requires Valid() && |X| == m && Rect(X, n)
      modifies this`inertia
      ensures inertia == Some(SumResiduals(X))
    {
      inertia := Some(SumResiduals(X));
    }

    /** `fit`: reads the shape of `X`, initialises, runs the loop and, once
        it has converged, records the residual. */
    method Fit(X: seq<Point>, width: nat, sample: seq<int>, maxIter: nat) returns (r: FitResult, ghost trace: seq<State>)
      requires Rect(X, width)
      requires ValidConfig(nClusters, |X|) ==> IsSample(sample, nClusters, |X|)
      modifies this
      ensures m == |X| && n == width
      ensures r.InvalidConfig? <==> !ValidConfig(nClusters, |X|)
      ensures r.InvalidConfig? ==> labels != null && labels[..] == ZeroLabels(|X|) && oldLabel == null && centroids == old(centroids)
      ensures !r.InvalidConfig? ==> Valid() && Outcome(X, Rows(X, sample), maxIter, r, trace)
      ensures r.Converged? ==> Valid() && inertia == Some(SumResiduals(X))
      ensures !r.Converged? ==> inertia == old(inertia)
    {
      m, n := |X|, width;
      var ok := InitializeCentroids(X, sample);
      if !ok {
        return InvalidConfig, [];
      }
      r, trace := Loop(X, Rows(X, sample), maxIter);
      if r.Converged? {
        RecordInertia(X);
      }
    }
  }
}
