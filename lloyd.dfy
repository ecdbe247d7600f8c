/** The run of Lloyd's algorithm as a function of the data, the initial
    centroids and the number of passes, and what a run that stops
    guarantees. */
module Lloyd {
  import opened Geometry
  import opened Clustering
  import opened Descent

  datatype Option<T> = None | Some(value: T)

  /** The labels and the centroids between two passes. */
  datatype State = State(labels: seq<int>, centroids: seq<Point>)

  /** `m` labels, all 0: the labelling before the first pass. */
  function ZeroLabels(m: nat): (L: seq<int>)
    ensures |L| == m && forall i :: 0 <= i < m ==> L[i] == 0
  {
    seq(m, i => 0)
  }

  /** One pass of assign-then-update from the centroids `C`; `None` when
      the assignment leaves a cluster without points, so that its mean is
      undefined. */
  function Pass(X: seq<Point>, C: seq<Point>, k: nat, n: nat): (r: Option<State>)
    requires Rect(X, n) && Fits(C, k, n) && (k > 0 || |X| == 0)
    ensures r.Some? ==> |r.value.labels| == |X| && Fits(r.value.centroids, k, n) && InRange(r.value.labels, k)
  {
    var L := Assign(X, C, n);
    if NoEmptyCluster(L, k) then Some(State(L, Update(X, L, k, n))) else None
  }

  /** The state after `t` passes, starting from all-zero labels and the
      centroids `C0`; `None` when some pass failed. */
  function Iterate(X: seq<Point>, C0: seq<Point>, k: nat, n: nat, t: nat): (r: Option<State>)
    requires Rect(X, n) && Fits(C0, k, n) && (k > 0 || |X| == 0)
    ensures r.Some? ==> |r.value.labels| == |X| && Fits(r.value.centroids, k, n)
    ensures r.Some? && t > 0 ==> InRange(r.value.labels, k)
  {
    if t == 0 then Some(State(ZeroLabels(|X|), C0))
    else
      match Iterate(X, C0, k, n, t - 1)
      case None => None
      case Some(s) => Pass(X, s.centroids, k, n)
  }

  /** `trace` lists the states of a run: the initial one, then the result
      of one successful pass after another. */
  ghost predicate IsRun(X: seq<Point>, C0: seq<Point>, k: nat, n: nat, trace: seq<State>)
    requires Rect(X, n) && Fits(C0, k, n) && (k > 0 || |X| == 0)
    decreases |trace|
  {
    && |trace| > 0
    && if |trace| == 1 then trace[0] == State(ZeroLabels(|X|), C0)
       else
         && IsRun(X, C0, k, n, trace[..|trace| - 1])
         && Fits(trace[|trace| - 2].centroids, k, n)
         && Pass(X, trace[|trace| - 2].centroids, k, n) == Some(trace[|trace| - 1])
  }

  /** A run followed by one more successful pass is a run. */
  lemma RunExtend(X: seq<Point>, C0: seq<Point>, k: nat, n: nat, trace: seq<State>, L: seq<int>, C: seq<Point>)
    requires Rect(X, n) && Fits(C0, k, n) && (k > 0 || |X| == 0)
    requires IsRun(X, C0, k, n, trace) && Fits(trace[|trace| - 1].centroids, k, n)
    requires L == Assign(X, trace[|trace| - 1].centroids, n) && NoEmptyCluster(L, k) && C == Update(X, L, k, n)
    ensures IsRun(X, C0, k, n, trace + [State(L, C)])
  {
    assert (trace + [State(L, C)])[..|trace|] == trace;
  }

  /** A run's last state is the state after as many passes as the run has
      steps. */
  lemma {:induction false} RunIsIterate(X: seq<Point>, C0: seq<Point>, k: nat, n: nat, trace: seq<State>)
    requires Rect(X, n) && Fits(C0, k, n) && (k > 0 || |X| == 0)
    requires IsRun(X, C0, k, n, trace)
    ensures Iterate(X, C0, k, n, |trace| - 1) == Some(trace[|trace| - 1])
  {
    if |trace| > 1 {
      RunIsIterate(X, C0, k, n, trace[..|trace| - 1]);
    }
  }

  /** Every state of a run is the state after as many passes as precede it. */
  lemma {:induction false} RunStates(X: seq<Point>, C0: seq<Point>, k: nat, n: nat, trace: seq<State>)
    requires Rect(X, n) && Fits(C0, k, n) && (k > 0 || |X| == 0)
    requires IsRun(X, C0, k, n, trace)
    ensures forall i :: 0 <= i < |trace| ==> Iterate(X, C0, k, n, i) == Some(trace[i])
  {
    RunIsIterate(X, C0, k, n, trace);
    if |trace| > 1 {
      RunStates(X, C0, k, n, trace[..|trace| - 1]);
    }
  }

  /** Each of the first `t` states of `trace` after the initial one has
      labels other than the state before it: the passes that produced them
      all changed some label. */
  ghost predicate Relabelled(trace: seq<State>, t: nat)
    requires t <= |trace|
  {
    forall i :: 0 < i < t ==> trace[i - 1].labels != trace[i].labels
  }

  /** A state whose labels differ from the previous ones extends the
      relabelled prefix by one, in `trace` and in any extension of it. */
  lemma RelabelledStep(trace: seq<State>, t: nat, s: State)
    requires t < |trace| && Relabelled(trace, t)
    requires t > 0 ==> trace[t - 1].labels != trace[t].labels
    ensures Relabelled(trace, t + 1) && Relabelled(trace + [s], t + 1)
  {
  }

  /** A pass that fails after a run makes the iteration fail one step later. */
  lemma RunThenFail(X: seq<Point>, C0: seq<Point>, k: nat, n: nat, trace: seq<State>)
    requires Rect(X, n) && Fits(C0, k, n) && (k > 0 || |X| == 0)
    requires IsRun(X, C0, k, n, trace)
    requires Fits(trace[|trace| - 1].centroids, k, n)
    requires !NoEmptyCluster(Assign(X, trace[|trace| - 1].centroids, n), k)
    ensures Iterate(X, C0, k, n, |trace| - 1) == Some(trace[|trace| - 1])
    ensures Iterate(X, C0, k, n, |trace|) == None
  {
    RunIsIterate(X, C0, k, n, trace);
  }

  /** A state that a pass leaves as it is: every point is labelled with its
      nearest centroid and every centroid is the mean of its cluster. */
  ghost predicate Settled(X: seq<Point>, k: nat, n: nat, s: State)
    requires Rect(X, n)
  {
    && Fits(s.centroids, k, n) && |s.labels| == |X| && (k > 0 || |X| == 0)
    && Assign(X, s.centroids, n) == s.labels && NoEmptyCluster(s.labels, k)
    && Update(X, s.labels, k, n) == s.centroids
  }

  /** A state from which the next pass stops: the labelling `L` it computes
      leaves some cluster empty. */
  ghost predicate Stuck(X: seq<Point>, k: nat, n: nat, s: State, L: seq<int>)
    requires Rect(X, n)
  {
    && Fits(s.centroids, k, n) && (k > 0 || |X| == 0)
    && L == Assign(X, s.centroids, n)
    && !NoEmptyCluster(L, k)
  }

  /** Settled states are exactly the fixed points of a pass. */
  lemma SettledIsFixedPoint(X: seq<Point>, k: nat, n: nat, s: State)
    requires Rect(X, n) && Fits(s.centroids, k, n) && (k > 0 || |X| == 0)
    ensures Settled(X, k, n, s) <==> Pass(X, s.centroids, k, n) == Some(s)
  {
  }

  /** Once the iteration reaches a settled state, every later pass leaves
      it there. */
  lemma {:induction false} SettledStays(X: seq<Point>, C0: seq<Point>, k: nat, n: nat, s: State, t: nat, j: nat)
    requires Rect(X, n) && Fits(C0, k, n) && (k > 0 || |X| == 0)
    requires Iterate(X, C0, k, n, t) == Some(s) && Settled(X, k, n, s)
    ensures Iterate(X, C0, k, n, t + j) == Some(s)
  {
    if j > 0 {
      SettledStays(X, C0, k, n, s, t, j - 1);
    }
  }

  /** A run from centroids that the first pass already settles: after the
      initial state it stays at the settled one. */
  lemma {:induction false} RunAfterSettled(X: seq<Point>, C0: seq<Point>, k: nat, n: nat, trace: seq<State>, s: State)
    requires Rect(X, n) && Fits(C0, k, n) && (k > 0 || |X| == 0)
    requires IsRun(X, C0, k, n, trace)
    requires Pass(X, C0, k, n) == Some(s) && Settled(X, k, n, s)
    ensures trace[0] == State(ZeroLabels(|X|), C0)
    ensures forall i :: 0 < i < |trace| ==> trace[i] == s
  {
    var t := |trace| - 1;
    if t > 0 {
      var before := trace[..t];
      RunAfterSettled(X, C0, k, n, before, s);
      assert trace[t - 1] == before[t - 1];
      if t > 1 {
        SettledIsFixedPoint(X, k, n, s);
      }
    }
  }

  /** A run whose last pass left the labels as they were ends in a fixed
      point of the algorithm: every point is labelled with its nearest
      centroid and every centroid is the mean of its cluster. */
  lemma StableRunIsFixedPoint(X: seq<Point>, C0: seq<Point>, k: nat, n: nat, trace: seq<State>)
    requires Rect(X, n) && Fits(C0, k, n) && (k > 0 || |X| == 0)
    requires IsRun(X, C0, k, n, trace) && |trace| > 1
    requires trace[|trace| - 2].labels == trace[|trace| - 1].labels
    ensures Settled(X, k, n, trace[|trace| - 1])
  {
    var t := |trace| - 1;
    var prev, s := trace[t - 1], trace[t];
    if t > 1 {
      // the previous centroids were already the means of these labels
      var before := trace[..t];
      assert before[..t - 1] == trace[..t - 1];
      assert IsRun(X, C0, k, n, before);
      assert Pass(X, trace[t - 2].centroids, k, n) == Some(prev);
      assert prev.centroids == Update(X, prev.labels, k, n);
    } else if |X| > 0 {
      // after the first pass every label is still 0, so no cluster but the
      // first has a point, and with no empty cluster there is only one
      assert prev.labels == ZeroLabels(|X|);
      assert NoEmptyCluster(s.labels, k);
      if k > 1 {
        SizeZero(s.labels, 1);
        assert false;
      }
      assert Assign(X, s.centroids, n) == s.labels;
    }
  }

  /** No pass increases the residual. */
  lemma IterateDoesNotIncrease(X: seq<Point>, C0: seq<Point>, k: nat, n: nat, t: nat)
    requires Rect(X, n) && Fits(C0, k, n) && (k > 0 || |X| == 0) && t > 0
    requires Iterate(X, C0, k, n, t).Some? && Iterate(X, C0, k, n, t + 1).Some?
    ensures var s, s' := Iterate(X, C0, k, n, t).value, Iterate(X, C0, k, n, t + 1).value;
      Residual(X, s'.labels, s'.centroids, n) <= Residual(X, s.labels, s.centroids, n)
  {
    var s := Iterate(X, C0, k, n, t).value;
    if k > 0 {
      LloydStepDoesNotIncrease(X, s.labels, s.centroids, k, n);
    }
  }
}
