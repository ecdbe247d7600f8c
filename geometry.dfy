/** Points of the feature space, the distance between them and numpy's
    argmin, which together make the nearest-centroid search of the
    assignment step. Coordinates are exact reals in place of float64. */
module Geometry {

  /** A row of the feature matrix, or a centroid: its coordinates. */
  type Point = seq<real>

  /** Every row of `X` has `n` coordinates, so `X` is an |X| x n matrix. */
  predicate Rect(X: seq<Point>, n: nat) {
    forall i :: 0 <= i < |X| ==> |X[i]| == n
  }

  /** The squared Euclidean distance, the square of `np.linalg.norm(p - q)`. */
  function SqDist(p: Point, q: Point): (d: real)
    requires |p| == |q|
    ensures d >= 0.0
  {
    if |p| == 0 then 0.0 else Square(p[0] - q[0]) + SqDist(p[1..], q[1..])
  }

  /** A point is at distance zero from exactly itself. */
  lemma {:induction false} SqDistZero(p: Point, q: Point)
    requires |p| == |q|
    ensures SqDist(p, q) == 0.0 <==> p == q
  {
    if |p| > 0 {
      SqDistZero(p[1..], q[1..]);
      if p[0] != q[0] {
        SquarePositive(p[0] - q[0]);
      } else {
        assert p == q <==> p[1..] == q[1..] by {
          assert p == [p[0]] + p[1..] && q == [q[0]] + q[1..];
        }
      }
    }
  }

  /** The square of a coordinate difference. */
  function Square(x: real): (y: real)
    ensures y >= 0.0
  {
    x * x
  }

  lemma SquarePositive(x: real)
    requires x != 0.0
    ensures Square(x) > 0.0
  {
    if x > 0.0 {
      calc { Square(x); == x * x; > { assert x * x > 0.0 * x; } 0.0; }
    } else {
      var y := -x;
      calc { Square(x); == y * y; > { assert y * y > 0.0 * y; } 0.0; }
    }
  }

  /** `r` is the index of the first minimum of `ds`. */
  predicate IsFirstMin(ds: seq<real>, r: nat) {
    && r < |ds|
    && (forall i :: 0 <= i < |ds| ==> ds[r] <= ds[i])
    && (forall i :: 0 <= i < r ==> ds[r] < ds[i])
  }

  /** numpy's `argmin` on a non-empty list: the smallest value wins and,
      among equal values, the one seen first. */
  function ArgMin(ds: seq<real>): (r: nat)
    requires |ds| > 0
    ensures IsFirstMin(ds, r)
  {
    if |ds| == 1 then 0
    else
      var best := ArgMin(ds[..|ds| - 1]);
      if ds[|ds| - 1] < ds[best] then |ds| - 1 else best
  }

  /** The first minimum is unique, so IsFirstMin characterises ArgMin. */
  lemma ArgMinUnique(ds: seq<real>, r: nat)
    requires IsFirstMin(ds, r)
    ensures ArgMin(ds) == r
  {
  }

  /** Applying a strictly increasing function (the square root that turns a
      squared distance into `np.linalg.norm`) to every value does not move
      the first minimum. */
  lemma MonotoneKeepsArgMin(ds: seq<real>, f: real -> real)
    requires |ds| > 0 && forall i :: 0 <= i < |ds| ==> ds[i] >= 0.0
    requires forall a, b :: 0.0 <= a < b ==> f(a) < f(b)
    ensures ArgMin(seq(|ds|, i requires 0 <= i < |ds| => f(ds[i]))) == ArgMin(ds)
  {
    var fs := seq(|ds|, i requires 0 <= i < |ds| => f(ds[i]));
    var r := ArgMin(ds);
    forall i | 0 <= i < |ds|
      ensures fs[r] <= fs[i]
    {
      if ds[r] < ds[i] {
        assert f(ds[r]) < f(ds[i]);
      } else {
        assert ds[r] == ds[i];
      }
    }
    forall i | 0 <= i < r
      ensures fs[r] < fs[i]
    {
      assert ds[r] < ds[i];
      assert f(ds[r]) < f(ds[i]);
    }
    ArgMinUnique(fs, r);
  }

  /** The distances from `p` to every centroid, in centroid order. */
  function Distances(p: Point, cs: seq<Point>): (ds: seq<real>)
    requires Rect(cs, |p|)
    ensures |ds| == |cs|
    ensures forall j :: 0 <= j < |cs| ==> ds[j] == SqDist(p, cs[j]) >= 0.0
  {
    seq(|cs|, j requires 0 <= j < |cs| => SqDist(p, cs[j]))
  }

  /** The index of the centroid nearest to `p`, ties going to the lowest index. */
  function Nearest(p: Point, cs: seq<Point>): (j: nat)
    requires |cs| > 0 && Rect(cs, |p|)
    ensures j < |cs|
    ensures forall i :: 0 <= i < |cs| ==> SqDist(p, cs[j]) <= SqDist(p, cs[i])
    ensures forall i :: 0 <= i < j ==> SqDist(p, cs[j]) < SqDist(p, cs[i])
  {
    var ds := Distances(p, cs);
    var j := ArgMin(ds);
    j
  }
}
