/**
 * Pixel points, real vectors, Euclidean distance and weighted sums of
 * positions: the plane geometry shared by the gesture classifiers, the
 * pointer tracker and the mouse controller.
 */
module Geometry {
  import opened Wrappers
  import opened RealMath

  /** A pixel position, as produced by truncating normalised landmark coordinates. */
  datatype Point = Point(x: int, y: int)

  /** A pair of reals: a velocity or a cursor delta. */
  datatype Vec = Vec(x: real, y: real)

  datatype Axis = X | Y

  function Coord(p: Point, axis: Axis): int
  {
    match axis
    case X => p.x
    case Y => p.y
  }

  function SquaredDistance(a: Point, b: Point): (d: int)
    ensures 0 <= d
    ensures d == 0 <==> a == b
  {
    var dx, dy := a.x - b.x, a.y - b.y;
    assert dx != 0 ==> 0 < dx * dx;
    assert dy != 0 ==> 0 < dy * dy;
    dx * dx + dy * dy
  }

  /** `sqrt((a.x - b.x)**2 + (a.y - b.y)**2)`. */
  function Distance(num: Numerics, a: Point, b: Point): (d: real)
    requires Sound(num)
    ensures 0.0 <= d && d * d == SquaredDistance(a, b) as real
    ensures d == 0.0 <==> a == b
  {
    SqrtZero(num);
    num.sqrt(SquaredDistance(a, b) as real)
  }

  /** A distance test against a limit is a test on the squared distance. */
  lemma DistanceBelowIff(num: Numerics, a: Point, b: Point, limit: real)
    requires Sound(num) && 0.0 < limit
    ensures Distance(num, a, b) < limit <==> (SquaredDistance(a, b) as real) < limit * limit
  {
    SqrtLessIff(num, SquaredDistance(a, b) as real, limit);
  }

  /** Scaling both points by a factor k scales their distance by k. */
  lemma DistanceScale(num: Numerics, a: Point, b: Point, k: int)
    requires Sound(num) && 0 <= k
    ensures Distance(num, Scale(a, k), Scale(b, k)) == k as real * Distance(num, a, b)
  {
    var kr := k as real;
    var x := SquaredDistance(a, b) as real;
    var y := SquaredDistance(Scale(a, k), Scale(b, k)) as real;
    SquaredDistanceScale(a, b, k);
    assert y == kr * kr * x;
    SqrtScale(num, kr, x);
    assert num.sqrt(y) == kr * num.sqrt(x);
  }

  lemma SquaredDistanceScale(a: Point, b: Point, k: int)
    ensures SquaredDistance(Scale(a, k), Scale(b, k)) as real
         == (k as real) * (k as real) * (SquaredDistance(a, b) as real)
  {
    var dx, dy := a.x - b.x, a.y - b.y;
    var sa, sb := Scale(a, k), Scale(b, k);
    ScaledDifference(k, a.x, b.x);
    ScaledDifference(k, a.y, b.y);
    assert sa.x - sb.x == k * dx && sa.y - sb.y == k * dy;
    SquareOfProduct(k, dx);
    SquareOfProduct(k, dy);
    var kk, qx, qy := k * k, dx * dx, dy * dy;
    assert SquaredDistance(sa, sb) == kk * qx + kk * qy;
    assert kk * qx + kk * qy == kk * (qx + qy);
    assert SquaredDistance(a, b) == qx + qy;
    var q := qx + qy;
    assert (kk * q) as real == kk as real * q as real;
    assert kk as real == k as real * k as real;
  }

  lemma ScaledDifference(k: int, u: int, v: int)
    ensures k * u - k * v == k * (u - v)
  {
  }

  lemma SquareOfProduct(k: int, d: int)
    ensures (k * d) * (k * d) == k * k * (d * d)
  {
  }

  function Scale(p: Point, k: int): Point
  {
    Point(k * p.x, k * p.y)
  }

  /**
   * The confidence rule shared by every proximity test of the pipeline:
   * `1 - distance/limit` when `distance < limit`, nothing otherwise.
   */
  function ProximityConfidence(distance: real, limit: real): (c: Option<real>)
    requires 0.0 <= distance
    ensures c.Some? <==> distance < limit
    ensures c.Some? ==> c.value == 1.0 - distance / limit
    ensures c.Some? ==> 0.0 < c.value <= 1.0
    ensures c.Some? ==> (c.value == 1.0 <==> distance == 0.0)
  {
    if distance < limit then Some(1.0 - distance / limit) else None
  }

  /** Multiplying the distance and the limit by the same k > 0 changes nothing. */
  lemma ConfidenceScaleInvariant(distance: real, limit: real, k: real)
    requires 0.0 <= distance && 0.0 < k
    ensures ProximityConfidence(k * distance, k * limit) == ProximityConfidence(distance, limit)
  {
    if distance < limit {
      assert k * distance < k * limit;
      assert (k * distance) / (k * limit) == distance / limit;
    } else {
      assert k * limit <= k * distance;
    }
  }

  /** Within the limit, the confidence strictly decreases as the distance grows. */
  lemma ConfidenceDecreasing(d1: real, d2: real, limit: real)
    requires 0.0 <= d1 < d2 < limit
    ensures ProximityConfidence(d1, limit).value > ProximityConfidence(d2, limit).value
  {
    assert d1 / limit < d2 / limit;
  }

  function Sum(ws: seq<real>): real
  {
    if ws == [] then 0.0 else ws[0] + Sum(ws[1..])
  }

  /** `sum(p[axis] * w for p, w in zip(ps, ws))` for sequences of equal length. */
  function Dot(ps: seq<Point>, ws: seq<real>, axis: Axis): real
    requires |ps| == |ws|
  {
    if ps == [] then 0.0 else Coord(ps[0], axis) as real * ws[0] + Dot(ps[1..], ws[1..], axis)
  }

  /**
   * With nonnegative weights, a weighted sum of coordinates that all lie in
   * [lo, hi] lies between lo and hi times the total weight.
   */
  lemma DotBounds(ps: seq<Point>, ws: seq<real>, axis: Axis, lo: int, hi: int)
    requires |ps| == |ws|
    requires forall i :: 0 <= i < |ws| ==> 0.0 <= ws[i]
    requires forall i :: 0 <= i < |ps| ==> lo <= Coord(ps[i], axis) <= hi
    ensures lo as real * Sum(ws) <= Dot(ps, ws, axis) <= hi as real * Sum(ws)
  {
    DotLower(ps, ws, axis, lo as real);
    DotUpper(ps, ws, axis, hi as real);
  }

  lemma {:induction false} DotLower(ps: seq<Point>, ws: seq<real>, axis: Axis, lo: real)
    requires |ps| == |ws|
    requires forall i :: 0 <= i < |ws| ==> 0.0 <= ws[i]
    requires forall i :: 0 <= i < |ps| ==> lo <= Coord(ps[i], axis) as real
    ensures lo * Sum(ws) <= Dot(ps, ws, axis)
  {
    if ps != [] {
      DotLower(ps[1..], ws[1..], axis, lo);
      StepLower(lo, Coord(ps[0], axis) as real, ws[0], Sum(ws[1..]), Dot(ps[1..], ws[1..], axis));
    }
  }

  lemma {:induction false} DotUpper(ps: seq<Point>, ws: seq<real>, axis: Axis, hi: real)
    requires |ps| == |ws|
    requires forall i :: 0 <= i < |ws| ==> 0.0 <= ws[i]
    requires forall i :: 0 <= i < |ps| ==> Coord(ps[i], axis) as real <= hi
    ensures Dot(ps, ws, axis) <= hi * Sum(ws)
  {
    if ps != [] {
      DotUpper(ps[1..], ws[1..], axis, hi);
      StepUpper(hi, Coord(ps[0], axis) as real, ws[0], Sum(ws[1..]), Dot(ps[1..], ws[1..], axis));
    }
  }

  /** One step of `DotLower`: adding a sample at least lo with weight w keeps the bound. */
  lemma StepLower(lo: real, c: real, w: real, restSum: real, restDot: real)
    requires lo <= c && 0.0 <= w && lo * restSum <= restDot
    ensures lo * (w + restSum) <= c * w + restDot
  {
    ScaleBelow(lo, c, w);
    Distribute(lo, w, restSum);
  }

  /** One step of `DotUpper`: adding a sample at most hi with weight w keeps the bound. */
  lemma StepUpper(hi: real, c: real, w: real, restSum: real, restDot: real)
    requires c <= hi && 0.0 <= w && restDot <= hi * restSum
    ensures c * w + restDot <= hi * (w + restSum)
  {
    ScaleBelow(c, hi, w);
    Distribute(hi, w, restSum);
  }

  lemma Distribute(k: real, x: real, y: real)
    ensures k * (x + y) == k * x + k * y
  {
  }

  lemma ScaleBelow(lo: real, c: real, w: real)
    requires lo <= c && 0.0 <= w
    ensures lo * w <= c * w
  {
    assert 0.0 <= (c - lo) * w;
  }

  /** The smallest coordinate on an axis over a nonempty sequence of points. */
  function MinCoord(ps: seq<Point>, axis: Axis): (m: int)
    requires 0 < |ps|
    ensures forall i :: 0 <= i < |ps| ==> m <= Coord(ps[i], axis)
    ensures exists i :: 0 <= i < |ps| && m == Coord(ps[i], axis)
  {
    if |ps| == 1 then Coord(ps[0], axis)
    else
      var rest := MinCoord(ps[1..], axis);
      assert forall i :: 1 <= i < |ps| ==> ps[i] == ps[1..][i - 1];
      Min(Coord(ps[0], axis), rest)
  }

  /** The largest coordinate on an axis over a nonempty sequence of points. */
  function MaxCoord(ps: seq<Point>, axis: Axis): (m: int)
    requires 0 < |ps|
    ensures forall i :: 0 <= i < |ps| ==> Coord(ps[i], axis) <= m
    ensures exists i :: 0 <= i < |ps| && m == Coord(ps[i], axis)
  {
    if |ps| == 1 then Coord(ps[0], axis)
    else
      var rest := MaxCoord(ps[1..], axis);
      assert forall i :: 1 <= i < |ps| ==> ps[i] == ps[1..][i - 1];
      Max(Coord(ps[0], axis), rest)
  }

  /**
   * `int(t * size)`: where a fraction t of a screen extent of `size` pixels
   * lands; a fraction in [0, 1] of a nonnegative extent lands within it.
   */
  function ScaleFraction(t: real, size: int): (n: int)
    ensures 0.0 <= t <= 1.0 && 0 <= size ==> 0 <= n <= size
  {
    var s := size as real;
    if 0.0 <= t <= 1.0 && 0 <= size then
      ScaleBelow(0.0, t, s);
      ScaleBelow(t, 1.0, s);
      assert 0.0 * s == 0.0 && 1.0 * s == s;
      assert 0.0 <= t * s <= s;
      TruncBetween(t * s, 0, size);
      Trunc(t * s)
    else
      Trunc(t * s)
  }
}
