/** What one pass of Lloyd's algorithm computes, as functions of the feature
    matrix `X` (m rows of n coordinates), a label table `L` and a centroid
    table `C` (k rows of n coordinates). The imperative steps of the
    `KMeans` class are proved against these definitions. */
module Clustering {
  import opened Geometry

  /** Every label names one of the first `k` clusters. */
  predicate InRange(L: seq<int>, k: int) {
    forall i :: 0 <= i < |L| ==> 0 <= L[i] < k
  }

  /** `C` is a table of `k` centroids, each with `n` coordinates. */
  predicate Fits(C: seq<Point>, k: int, n: nat) {
    |C| == k && Rect(C, n)
  }

  /** The rows of `X` at the given indices, in that order: `X[idx, :]`. */
  function Rows(X: seq<Point>, idx: seq<int>): (R: seq<Point>)
    requires forall j :: 0 <= j < |idx| ==> 0 <= idx[j] < |X|
    ensures |R| == |idx|
    ensures forall j :: 0 <= j < |idx| ==> R[j] == X[idx[j]]
  {
    seq(|idx|, j requires 0 <= j < |idx| => X[idx[j]])
  }

  /** `idx` could be drawn by `np.random.choice(range(m), k, replace=False)`:
      `k` pairwise-distinct indices of rows of an m-row matrix.
      Drawing without replacement needs `k <= m`: numpy refuses larger samples. */
  predicate IsSample(idx: seq<int>, k: int, m: nat): (b: bool)
    ensures b ==> 0 <= k <= m
  {
    var drawn :=
      && |idx| == k
      && (forall j :: 0 <= j < |idx| ==> 0 <= idx[j] < m)
      && (forall a, b :: 0 <= a < b < |idx| ==> idx[a] != idx[b]);
    if drawn then DistinctBelow(idx, m); true else false
  }

  /** Pairwise-distinct integers in 0 .. m-1 number at most m. */
  lemma {:induction false} DistinctBelow(idx: seq<int>, m: nat)
    requires forall j :: 0 <= j < |idx| ==> 0 <= idx[j] < m
    requires forall a, b :: 0 <= a < b < |idx| ==> idx[a] != idx[b]
    ensures |idx| <= m
    decreases |idx|
  {
    if |idx| > 0 {
      // drop the last value and close the gap it leaves in 0 .. m-1
      var last := idx[|idx| - 1];
      var rest := seq(|idx| - 1, j requires 0 <= j < |idx| - 1 => if idx[j] > last then idx[j] - 1 else idx[j]);
      DistinctBelow(rest, m - 1);
    }
  }

  /** The assignment step: every point gets the index of its nearest
      centroid, the lowest index among equally near ones. */
  function Assign(X: seq<Point>, C: seq<Point>, n: nat): (L: seq<int>)
    requires (|X| == 0 || |C| > 0) && Rect(X, n) && Rect(C, n)
    ensures |L| == |X| && InRange(L, |C|)
    ensures forall i, j :: 0 <= i < |X| && 0 <= j < |C| ==> SqDist(X[i], C[L[i]]) <= SqDist(X[i], C[j])
    ensures forall i, j :: 0 <= i < |X| && 0 <= j < L[i] ==> SqDist(X[i], C[L[i]]) < SqDist(X[i], C[j])
  {
    seq(|X|, i requires 0 <= i < |X| => Nearest(X[i], C))
  }

  /** The number of points labelled `j`. */
  function Size(L: seq<int>, j: int): (s: nat)
    ensures s <= |L|
  {
    if |L| == 0 then 0 else Size(L[..|L| - 1], j) + (if L[|L| - 1] == j then 1 else 0)
  }

  /** A cluster is empty exactly when no point carries its label. */
  lemma {:induction false} SizeZero(L: seq<int>, j: int)
    ensures Size(L, j) == 0 <==> forall i :: 0 <= i < |L| ==> L[i] != j
  {
    if |L| > 0 {
      SizeZero(L[..|L| - 1], j);
      assert forall i :: 0 <= i < |L| - 1 ==> L[..|L| - 1][i] == L[i];
    }
  }

  /** No cluster among the first `k` is empty, which is what makes every
      mean of the update step defined. */
  predicate NoEmptyCluster(L: seq<int>, k: int) {
    forall j :: 0 <= j < k ==> Size(L, j) > 0
  }

  /** The origin of the n-dimensional space. */
  function Zeros(n: nat): (z: Point)
    ensures |z| == n && forall c :: 0 <= c < n ==> z[c] == 0.0
  {
    seq(n, c => 0.0)
  }

  /** Coordinate-wise sum of two points. */
  function Add(p: Point, q: Point): (r: Point)
    requires |p| == |q|
    ensures |r| == |p| && forall c :: 0 <= c < |p| ==> r[c] == p[c] + q[c]
  {
    seq(|p|, c requires 0 <= c < |p| => p[c] + q[c])
  }

  /** The coordinate-wise sum of the rows of `X` labelled `j`. */
  function SumRows(X: seq<Point>, L: seq<int>, j: int, n: nat): (s: Point)
    requires |L| == |X| && Rect(X, n)
    ensures |s| == n
  {
    if |X| == 0 then Zeros(n)
    else
      var s := SumRows(X[..|X| - 1], L[..|X| - 1], j, n);
      if L[|X| - 1] == j then Add(s, X[|X| - 1]) else s
  }

  /** `X[L == j, :].mean(axis=0)`: the centroid of cluster `j`, the point
      whose coordinates times the cluster's size are the sums of its rows. */
  function Mean(X: seq<Point>, L: seq<int>, j: int, n: nat): (mu: Point)
    requires |L| == |X| && Rect(X, n) && Size(L, j) > 0
    ensures |mu| == n
    ensures forall c :: 0 <= c < n ==> (Size(L, j) as real) * mu[c] == SumRows(X, L, j, n)[c]
  {
    var s := SumRows(X, L, j, n);
    var size := Size(L, j) as real;
    seq(n, c requires 0 <= c < n => s[c] / size)
  }

  /** The update step: the table of the `k` cluster means. */
  function Update(X: seq<Point>, L: seq<int>, k: nat, n: nat): (C: seq<Point>)
    requires |L| == |X| && Rect(X, n) && NoEmptyCluster(L, k)
    ensures Fits(C, k, n)
    ensures forall j :: 0 <= j < k ==> C[j] == Mean(X, L, j, n)
  {
    seq(k, j requires 0 <= j < k => Mean(X, L, j, n))
  }

  /** The residual (inertia): the total distance from every point to the
      centroid it is labelled with, distance being the squared Euclidean one. */
  function Residual(X: seq<Point>, L: seq<int>, C: seq<Point>, n: nat): (r: real)
    requires |L| == |X| && Rect(X, n) && Rect(C, n) && InRange(L, |C|)
    ensures r >= 0.0
  {
    if |X| == 0 then 0.0
    else Residual(X[..|X| - 1], L[..|X| - 1], C, n) + SqDist(X[|X| - 1], C[L[|X| - 1]])
  }

  /** The residual vanishes exactly when every point sits on its centroid. */
  lemma {:induction false} ResidualZero(X: seq<Point>, L: seq<int>, C: seq<Point>, n: nat)
    requires |L| == |X| && Rect(X, n) && Rect(C, n) && InRange(L, |C|)
    ensures Residual(X, L, C, n) == 0.0 <==> forall i :: 0 <= i < |X| ==> X[i] == C[L[i]]
  {
    if |X| > 0 {
      var last := |X| - 1;
      ResidualZero(X[..last], L[..last], C, n);
      SqDistZero(X[last], C[L[last]]);
      assert forall i :: 0 <= i < last ==> X[..last][i] == X[i] && L[..last][i] == L[i];
    }
  }
}
