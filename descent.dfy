/** Lloyd's algorithm never increases the residual: the assignment step
    cannot, because every point moves to a centroid at least as near, and
    the update step cannot, because the mean of a cluster is the point that
    minimises the cluster's total squared distance. */
module Descent {
  import opened Geometry
  import opened Clustering

  /** Coordinate-wise difference of two points, p - q. */
  function Diff(p: Point, q: Point): (r: Point)
    requires |p| == |q|
    ensures |r| == |p| && forall c :: 0 <= c < |p| ==> r[c] == p[c] - q[c]
  {
    seq(|p|, c requires 0 <= c < |p| => p[c] - q[c])
  }

  /** The inner product of two vectors. */
  function Dot(u: Point, w: Point): real
    requires |u| == |w|
  {
    if |u| == 0 then 0.0 else u[0] * w[0] + Dot(u[1..], w[1..])
  }

  /** The squared distance is the inner product of the difference with itself. */
  lemma {:induction false} SqDistIsDot(p: Point, q: Point)
    requires |p| == |q|
    ensures SqDist(p, q) == Dot(Diff(p, q), Diff(p, q))
  {
    if |p| > 0 {
      SqDistIsDot(p[1..], q[1..]);
      assert Diff(p, q)[1..] == Diff(p[1..], q[1..]);
    }
  }

  /** The inner product is symmetric. */
  lemma {:induction false} DotSym(u: Point, w: Point)
    requires |u| == |w|
    ensures Dot(u, w) == Dot(w, u)
  {
    if |u| > 0 {
      DotSym(u[1..], w[1..]);
    }
  }

  /** Measuring from `y` through an intermediate point `z`:
      |x - y|^2 = |x - z|^2 + 2 (x - z).(z - y) + |z - y|^2. */
  lemma SqDistSplit(x: Point, y: Point, z: Point)
    requires |x| == |y| == |z|
    ensures SqDist(x, y) == SqDist(x, z) + 2.0 * Dot(Diff(x, z), Diff(z, y)) + SqDist(z, y)
  {
    var u, v := Diff(x, z), Diff(z, y);
    var s := Add(u, v);
    assert Diff(x, y) == s;
    SqDistIsDot(x, y);
    SqDistIsDot(x, z);
    SqDistIsDot(z, y);
    DotAdd(u, v, s);
    DotSym(u, s);
    DotAdd(u, v, u);
    DotSym(v, s);
    DotAdd(u, v, v);
    DotSym(v, u);
  }

  /** The inner product is additive in its first argument. */
  lemma {:induction false} DotAdd(u: Point, v: Point, w: Point)
    requires |u| == |v| == |w|
    ensures Dot(Add(u, v), w) == Dot(u, w) + Dot(v, w)
  {
    if |u| > 0 {
      DotAdd(u[1..], v[1..], w[1..]);
      var s := Add(u, v);
      assert s[1..] == Add(u[1..], v[1..]);
      DistributeTerm(s[0], u[0], v[0], w[0]);
    }
  }

  lemma DistributeTerm(s: real, a: real, b: real, w: real)
    requires s == a + b
    ensures s * w == a * w + b * w
  {
  }

  /** The inner product with the origin vanishes. */
  lemma {:induction false} DotZero(u: Point, w: Point)
    requires |u| == |w| && forall c :: 0 <= c < |u| ==> u[c] == 0.0
    ensures Dot(u, w) == 0.0
  {
    if |u| > 0 {
      DotZero(u[1..], w[1..]);
      ZeroProduct(u[0], w[0]);
    }
  }

  lemma ZeroProduct(a: real, b: real)
    requires a == 0.0
    ensures a * b == 0.0
  {
  }

  /** The total squared distance from the points labelled `j` to `y`. */
  function ClusterCost(X: seq<Point>, L: seq<int>, j: int, y: Point, n: nat): real
    requires |L| == |X| && Rect(X, n) && |y| == n
  {
    if |X| == 0 then 0.0
    else
      ClusterCost(X[..|X| - 1], L[..|X| - 1], j, y, n)
      + (if L[|X| - 1] == j then SqDist(X[|X| - 1], y) else 0.0)
  }

  /** The sum of the offsets X[i] - z over the points labelled `j`. */
  function Deviation(X: seq<Point>, L: seq<int>, j: int, z: Point, n: nat): (d: Point)
    requires |L| == |X| && Rect(X, n) && |z| == n
    ensures |d| == n
  {
    if |X| == 0 then Zeros(n)
    else
      var d := Deviation(X[..|X| - 1], L[..|X| - 1], j, z, n);
      if L[|X| - 1] == j then Add(d, Diff(X[|X| - 1], z)) else d
  }

  /** The sum of (X[i] - z).w over the points labelled `j`. */
  function ClusterCross(X: seq<Point>, L: seq<int>, j: int, z: Point, w: Point, n: nat): real
    requires |L| == |X| && Rect(X, n) && |z| == n && |w| == n
  {
    if |X| == 0 then 0.0
    else
      ClusterCross(X[..|X| - 1], L[..|X| - 1], j, z, w, n)
      + (if L[|X| - 1] == j then Dot(Diff(X[|X| - 1], z), w) else 0.0)
  }

  /** `d` added to itself `k` times. */
  function Times(k: nat, d: real): (r: real)
    ensures d >= 0.0 ==> r >= 0.0
  {
    if k == 0 then 0.0 else Times(k - 1, d) + d
  }

  /** Repeated addition is multiplication. */
  lemma {:induction false} TimesIsProduct(k: nat, d: real)
    ensures Times(k, d) == (k as real) * d
  {
    if k > 0 {
      TimesIsProduct(k - 1, d);
      var r := (k - 1) as real;
      assert (r + 1.0) * d == r * d + d;
    }
  }

  /** The cost of a cluster measured from `y`, split at `z`. */
  lemma {:induction false} ClusterCostSplit(X: seq<Point>, L: seq<int>, j: int, y: Point, z: Point, n: nat)
    requires |L| == |X| && Rect(X, n) && |y| == n && |z| == n
    ensures ClusterCost(X, L, j, y, n)
         == ClusterCost(X, L, j, z, n) + 2.0 * ClusterCross(X, L, j, z, Diff(z, y), n)
            + Times(Size(L, j), SqDist(z, y))
  {
    if |X| > 0 {
      var last := |X| - 1;
      var X', L' := X[..last], L[..last];
      ClusterCostSplit(X', L', j, y, z, n);
      assert L' == L[..|L| - 1];
      if L[last] == j {
        SqDistSplit(X[last], y, z);
      }
    }
  }

  /** The cross terms of a cluster add up to the inner product of its
      total deviation from `z`. */
  lemma {:induction false} ClusterCrossDeviation(X: seq<Point>, L: seq<int>, j: int, z: Point, w: Point, n: nat)
    requires |L| == |X| && Rect(X, n) && |z| == n && |w| == n
    ensures ClusterCross(X, L, j, z, w, n) == Dot(Deviation(X, L, j, z, n), w)
  {
    if |X| == 0 {
      DotZero(Zeros(n), w);
    } else {
      var last := |X| - 1;
      ClusterCrossDeviation(X[..last], L[..last], j, z, w, n);
      if L[last] == j {
        DotAdd(Deviation(X[..last], L[..last], j, z, n), Diff(X[last], z), w);
      }
    }
  }

  /** The total deviation from `z` is the row sum minus `z` counted once
      per member of the cluster. */
  lemma {:induction false} DeviationBySum(X: seq<Point>, L: seq<int>, j: int, z: Point, n: nat)
    requires |L| == |X| && Rect(X, n) && |z| == n
    ensures forall c :: 0 <= c < n ==>
      Deviation(X, L, j, z, n)[c] == SumRows(X, L, j, n)[c] - Times(Size(L, j), z[c])
  {
    if |X| > 0 {
      var last := |X| - 1;
      DeviationBySum(X[..last], L[..last], j, z, n);
      assert L[..last] == L[..|L| - 1];
    }
  }

  /** The mean of a non-empty cluster is at least as good a centre for it
      as any other point: the cost from `y` is the cost from the mean plus
      as many times the squared distance from the mean to `y` as the
      cluster has points. */
  lemma MeanMinimisesClusterCost(X: seq<Point>, L: seq<int>, j: int, y: Point, n: nat)
    requires |L| == |X| && Rect(X, n) && |y| == n && Size(L, j) > 0
    ensures ClusterCost(X, L, j, Mean(X, L, j, n), n) <= ClusterCost(X, L, j, y, n)
  {
    var mu := Mean(X, L, j, n);
    var sum := SumRows(X, L, j, n);
    var dev := Deviation(X, L, j, mu, n);
    DeviationBySum(X, L, j, mu, n);
    forall c | 0 <= c < n
      ensures dev[c] == 0.0
    {
      TimesIsProduct(Size(L, j), mu[c]);
    }
    ClusterCostSplit(X, L, j, y, mu, n);
    ClusterCrossDeviation(X, L, j, mu, Diff(mu, y), n);
    DotZero(dev, Diff(mu, y));
  }

  /** The sum of the costs of clusters 0 .. t-1, cluster j measured from C[j]. */
  function CostByCluster(X: seq<Point>, L: seq<int>, C: seq<Point>, t: nat, n: nat): real
    requires |L| == |X| && Rect(X, n) && Rect(C, n) && t <= |C|
  {
    if t == 0 then 0.0 else CostByCluster(X, L, C, t - 1, n) + ClusterCost(X, L, t - 1, C[t - 1], n)
  }

  /** Removing the last point removes its distance from the cluster it is in. */
  lemma {:induction false} CostByClusterStep(X: seq<Point>, L: seq<int>, C: seq<Point>, t: nat, n: nat)
    requires |L| == |X| && |X| > 0 && Rect(X, n) && Rect(C, n) && t <= |C|
    requires 0 <= L[|X| - 1] < |C|
    ensures CostByCluster(X, L, C, t, n)
         == CostByCluster(X[..|X| - 1], L[..|X| - 1], C, t, n)
            + (if L[|X| - 1] < t then SqDist(X[|X| - 1], C[L[|X| - 1]]) else 0.0)
  {
    if t > 0 {
      CostByClusterStep(X, L, C, t - 1, n);
    }
  }

  /** The residual, regrouped cluster by cluster. */
  lemma {:induction false} ResidualByCluster(X: seq<Point>, L: seq<int>, C: seq<Point>, n: nat)
    requires |L| == |X| && Rect(X, n) && Rect(C, n) && InRange(L, |C|)
    ensures Residual(X, L, C, n) == CostByCluster(X, L, C, |C|, n)
  {
    if |X| == 0 {
      ResidualOfNoPoints(L, C, |C|, n);
    } else {
      var last := |X| - 1;
      ResidualByCluster(X[..last], L[..last], C, n);
      CostByClusterStep(X, L, C, |C|, n);
    }
  }

  lemma {:induction false} ResidualOfNoPoints(L: seq<int>, C: seq<Point>, t: nat, n: nat)
    requires |L| == 0 && Rect(C, n) && t <= |C|
    ensures CostByCluster([], L, C, t, n) == 0.0
  {
    if t > 0 {
      ResidualOfNoPoints(L, C, t - 1, n);
    }
  }

  /** Cluster by cluster no costlier means no costlier in total. */
  lemma {:induction false} CostByClusterMono(X: seq<Point>, L: seq<int>, C: seq<Point>, D: seq<Point>, t: nat, n: nat)
    requires |L| == |X| && Rect(X, n) && Rect(C, n) && Rect(D, n) && t <= |C| && t <= |D|
    requires forall j :: 0 <= j < t ==> ClusterCost(X, L, j, C[j], n) <= ClusterCost(X, L, j, D[j], n)
    ensures CostByCluster(X, L, C, t, n) <= CostByCluster(X, L, D, t, n)
  {
    if t > 0 {
      CostByClusterMono(X, L, C, D, t - 1, n);
    }
  }

  /** The update step does not increase the residual: for a fixed labelling
      the cluster means are the best possible centroids. */
  lemma UpdateDoesNotIncrease(X: seq<Point>, L: seq<int>, C: seq<Point>, k: nat, n: nat)
    requires |L| == |X| && Rect(X, n) && Fits(C, k, n) && InRange(L, k) && NoEmptyCluster(L, k)
    ensures Residual(X, L, Update(X, L, k, n), n) <= Residual(X, L, C, n)
  {
    var means := Update(X, L, k, n);
    forall j | 0 <= j < k
      ensures ClusterCost(X, L, j, means[j], n) <= ClusterCost(X, L, j, C[j], n)
    {
      MeanMinimisesClusterCost(X, L, j, C[j], n);
    }
    CostByClusterMono(X, L, means, C, k, n);
    ResidualByCluster(X, L, means, n);
    ResidualByCluster(X, L, C, n);
  }

  /** The assignment step does not increase the residual: for fixed
      centroids the nearest-centroid labelling is the best possible one. */
  lemma {:induction false} AssignDoesNotIncrease(X: seq<Point>, L: seq<int>, C: seq<Point>, n: nat)
    requires |L| == |X| && |C| > 0 && Rect(X, n) && Rect(C, n) && InRange(L, |C|)
    ensures Residual(X, Assign(X, C, n), C, n) <= Residual(X, L, C, n)
  {
    if |X| > 0 {
      var last := |X| - 1;
      AssignDoesNotIncrease(X[..last], L[..last], C, n);
      assert Assign(X, C, n)[..last] == Assign(X[..last], C, n);
    }
  }

  /** One pass of Lloyd's algorithm (assign, then update) does not increase
      the residual. */
  lemma LloydStepDoesNotIncrease(X: seq<Point>, L: seq<int>, C: seq<Point>, k: nat, n: nat)
    requires |L| == |X| && k > 0 && Rect(X, n) && Fits(C, k, n) && InRange(L, k)
    requires NoEmptyCluster(Assign(X, C, n), k)
    ensures Residual(X, Assign(X, C, n), Update(X, Assign(X, C, n), k, n), n) <= Residual(X, L, C, n)
  {
    var next := Assign(X, C, n);
    UpdateDoesNotIncrease(X, next, C, k, n);
    AssignDoesNotIncrease(X, L, C, n);
  }
}
