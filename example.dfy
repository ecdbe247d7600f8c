/** Lloyd's algorithm on four points in the plane, two near the origin and
    two near (10, 0), seeded with the first point of each pair. */
module Example {
  import opened Geometry
  import opened Clustering
  import opened Lloyd
  import opened Engine

  const Points: seq<Point> := [[0.0, 0.0], [0.0, 1.0], [10.0, 0.0], [10.0, 1.0]]
  /** The rows at indices 0 and 2. */
  const Seeds: seq<Point> := [[0.0, 0.0], [10.0, 0.0]]
  /** The two pairs. */
  const Split: seq<int> := [0, 0, 1, 1]
  /** The means of the two pairs. */
  const Halves: seq<Point> := [[0.0, 0.5], [10.0, 0.5]]

  /** Both coordinate tables are as wide as the points. */
  lemma Shapes()
    ensures Rect(Points, 2) && Fits(Seeds, 2, 2) && Fits(Halves, 2, 2)
  {
  }

  /** A point that is strictly nearer to centroid `j` than to any other is
      labelled `j`. */
  lemma AssignStrictlyNearest(X: seq<Point>, C: seq<Point>, n: nat, i: int, j: int)
    requires |C| > 0 && Rect(X, n) && Rect(C, n) && 0 <= i < |X| && 0 <= j < |C|
    requires forall c :: 0 <= c < |C| && c != j ==> SqDist(X[i], C[j]) < SqDist(X[i], C[c])
    ensures Assign(X, C, n)[i] == j
  {
  }

  /** With two centroids, a point labelled by which of the two is nearer. */
  lemma AssignPair(X: seq<Point>, C: seq<Point>, L: seq<int>)
    requires Rect(X, 2) && Fits(C, 2, 2) && |L| == |X|
    requires forall i :: 0 <= i < |X| ==> L[i] in {0, 1}
    requires forall i :: 0 <= i < |X| ==> SqDist(X[i], C[L[i]]) < SqDist(X[i], C[1 - L[i]])
    ensures Assign(X, C, 2) == L
  {
    forall i | 0 <= i < |X|
      ensures Assign(X, C, 2)[i] == L[i]
    {
      AssignStrictlyNearest(X, C, 2, i, L[i]);
    }
  }

  lemma SeedsSplitPoints()
    ensures Assign(Points, Seeds, 2) == Split
  {
    Shapes();
    assert SqDist(Points[0], Seeds[0]) == 0.0 && SqDist(Points[0], Seeds[1]) == 100.0;
    assert SqDist(Points[1], Seeds[0]) == 1.0 && SqDist(Points[1], Seeds[1]) == 101.0;
    assert SqDist(Points[2], Seeds[0]) == 100.0 && SqDist(Points[2], Seeds[1]) == 0.0;
    assert SqDist(Points[3], Seeds[0]) == 101.0 && SqDist(Points[3], Seeds[1]) == 1.0;
    AssignPair(Points, Seeds, Split);
  }

  lemma HalvesSplitPoints()
    ensures Assign(Points, Halves, 2) == Split
  {
    Shapes();
    assert SqDist(Points[0], Halves[0]) == 0.25 && SqDist(Points[0], Halves[1]) == 100.25;
    assert SqDist(Points[1], Halves[0]) == 0.25 && SqDist(Points[1], Halves[1]) == 100.25;
    assert SqDist(Points[2], Halves[0]) == 100.25 && SqDist(Points[2], Halves[1]) == 0.25;
    assert SqDist(Points[3], Halves[0]) == 100.25 && SqDist(Points[3], Halves[1]) == 0.25;
    AssignPair(Points, Halves, Split);
  }

  lemma SplitSizes()
    ensures Size(Split, 0) == 2 && Size(Split, 1) == 2
  {
    var S1, S2, S3 := Split[..1], Split[..2], Split[..3];
    assert Split[..3] == S3 && S3[..2] == S2 && S2[..1] == S1 && S1[..0] == [];
    assert Size(S1, 0) == 1 && Size(S1, 1) == 0;
    assert Size(S2, 0) == 2 && Size(S2, 1) == 0;
    assert Size(S3, 0) == 2 && Size(S3, 1) == 1;
  }

  lemma SplitSums()
    ensures SumRows(Points, Split, 0, 2) == [0.0, 1.0]
    ensures SumRows(Points, Split, 1, 2) == [20.0, 1.0]
  {
    var S1, S2, S3 := Split[..1], Split[..2], Split[..3];
    var P1, P2, P3 := Points[..1], Points[..2], Points[..3];
    assert Split[..3] == S3 && S3[..2] == S2 && S2[..1] == S1 && S1[..0] == [];
    assert Points[..3] == P3 && P3[..2] == P2 && P2[..1] == P1 && P1[..0] == [];
    assert SumRows(P1, S1, 0, 2) == Add(Zeros(2), Points[0]) == [0.0, 0.0];
    assert SumRows(P2, S2, 0, 2) == Add([0.0, 0.0], Points[1]) == [0.0, 1.0];
    assert SumRows(P3, S3, 0, 2) == [0.0, 1.0];
    assert SumRows(P1, S1, 1, 2) == Zeros(2) == [0.0, 0.0];
    assert SumRows(P2, S2, 1, 2) == [0.0, 0.0];
    assert SumRows(P3, S3, 1, 2) == Add([0.0, 0.0], Points[2]) == [10.0, 0.0];
    assert SumRows(Points, Split, 1, 2) == Add([10.0, 0.0], Points[3]);
  }

  lemma SplitMeans()
    ensures NoEmptyCluster(Split, 2) && Update(Points, Split, 2, 2) == Halves
  {
    Shapes();
    SplitSizes();
    SplitSums();
    var C := Update(Points, Split, 2, 2);
    assert C[0] == [0.0, 0.5];
    assert C[1] == [10.0, 0.5];
  }

  lemma HalvesResidual()
    ensures Residual(Points, Split, Halves, 2) == 1.0
  {
    Shapes();
    var S1, S2, S3 := Split[..1], Split[..2], Split[..3];
    var P1, P2, P3 := Points[..1], Points[..2], Points[..3];
    assert Split[..3] == S3 && S3[..2] == S2 && S2[..1] == S1 && S1[..0] == [];
    assert Points[..3] == P3 && P3[..2] == P2 && P2[..1] == P1 && P1[..0] == [];
    assert SqDist(Points[0], Halves[0]) == 0.25 && SqDist(Points[1], Halves[0]) == 0.25;
    assert SqDist(Points[2], Halves[1]) == 0.25 && SqDist(Points[3], Halves[1]) == 0.25;
    assert Residual(P1, S1, Halves, 2) == 0.25;
    assert Residual(P2, S2, Halves, 2) == 0.5;
    assert Residual(P3, S3, Halves, 2) == 0.75;
  }

  /** From these seeds the first pass splits the points into the two pairs
      and moves each centroid to the middle of its pair; the second pass
      relabels nothing, so `fit` stops after two passes with a residual of
      1 (four squared distances of 1/4). */
  lemma FourPoints()
    ensures Rows(Points, [0, 2]) == Seeds
    ensures Pass(Points, Seeds, 2, 2) == Some(State(Split, Halves))
    ensures Iterate(Points, Seeds, 2, 2, 1) == Some(State(Split, Halves))
    ensures Iterate(Points, Seeds, 2, 2, 2) == Some(State(Split, Halves))
    ensures Settled(Points, 2, 2, State(Split, Halves))
    ensures Residual(Points, Split, Halves, 2) == 1.0
  {
    Shapes();
    SeedsSplitPoints();
    SplitMeans();
    HalvesSplitPoints();
    HalvesResidual();
    assert Iterate(Points, Seeds, 2, 2, 1) == Pass(Points, Seeds, 2, 2);
    assert Iterate(Points, Seeds, 2, 2, 2) == Pass(Points, Halves, 2, 2);
  }

  /** When the first pass settles on labels other than the initial zeros,
      `fit` with a budget of at least two passes converges after exactly
      two: the first pass changes the labels, the second does not. */
  lemma ConvergesOnSecondPass(km: KMeans, X: seq<Point>, C0: seq<Point>, maxIter: nat, r: FitResult, trace: seq<State>, s: State)
    requires km.Valid() && |X| == km.m && Rect(X, km.n) && Fits(C0, km.nClusters, km.n)
    requires km.Outcome(X, C0, maxIter, r, trace)
    requires Pass(X, C0, km.nClusters, km.n) == Some(s) && Settled(X, km.nClusters, km.n, s)
    requires s.labels != ZeroLabels(|X|) && maxIter >= 2
    ensures r == Converged(2) && km.labels[..] == s.labels && km.centroids[..] == s.centroids
  {
    RunAfterSettled(X, C0, km.nClusters, km.n, trace, s);
    // no pass could have stopped on an empty cluster, nor could the second
    // one have relabelled
    if |trace| > 2 {
      assert trace[1].labels == trace[2].labels;
    }
  }

  /** `KMeans(n_clusters=2).fit` on the four points, with the first and the
      third drawn as seeds and a budget of ten passes: it converges after
      two passes, with the two pairs as clusters, their middles as
      centroids and a residual of 1. */
  method FitFourPoints() returns (r: FitResult, labels: seq<int>, centroids: seq<Point>, inertia: Option<real>)
    ensures r == Converged(2)
    ensures labels == Split && centroids == Halves && inertia == Some(1.0)
  {
    var km := new KMeans(2);
    ghost var trace;
    r, trace := km.Fit(Points, 2, [0, 2], 10);
    FourPoints();
    assert Split != ZeroLabels(4) by {
      assert Split[2] != ZeroLabels(4)[2];
    }
    ConvergesOnSecondPass(km, Points, Seeds, 10, r, trace, State(Split, Halves));
    labels, centroids, inertia := km.labels[..], km.centroids[..], km.inertia;
  }

  /** `KMeans(n_clusters=0).fit` on a matrix with no rows: no initial
      centroids can be drawn, so the fit fails at initialisation, with the
      (empty) labels reset and `old_label` `None`. */
  method FitNoRows() returns (r: FitResult, labels: seq<int>, oldLabelAbsent: bool)
    ensures r == InvalidConfig && labels == [] && oldLabelAbsent
  {
    var km := new KMeans(0);
    ghost var trace;
    r, trace := km.Fit([], 3, [], 5);
    labels, oldLabelAbsent := km.labels[..], km.oldLabel == null;
  }
}
