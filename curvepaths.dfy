/**
  Camera paths made of quadratic pieces (RayTracer/CurvePath.c). Each new
  waypoint adds one curve that leaves the previous waypoint with the previous
  curve's end tangent, so the path is continuous and has a continuous
  tangent. The curves live in a growable array: `curves` holds the filled
  part and `curvesSize` the allocated capacity.
 */
module CurvePaths {
  import opened Vectors
  import opened QCurves
  import opened Capacities
  import opened CNumbers

  /** C's fmod(x, 1.0): what is left of x after its integer part, with the sign of x. */
  function FracTowardZero(x: real): (r: real)
    ensures -1.0 < r < 1.0
    ensures x >= 0.0 ==> 0.0 <= r
    ensures x <= 0.0 ==> r <= 0.0
  {
    x - Trunc(x) as real
  }

  /**
    The lookup with the scaled parameter totalT: its floor picks the curve and
    fmod(totalT, 1) the parameter along it. Past the last curve the end of the
    last curve is returned; with no curve, or a negative index, the origin.
   */
  function Lookup(curves: seq<QCurve>, totalT: real): Vec3
  {
    var curveIndex := totalT.Floor;
    var curveT := FracTowardZero(totalT);
    var i := if curveIndex >= |curves| then |curves| - 1 else curveIndex;
    var ct := if curveIndex >= |curves| then 1.0 else curveT;
    if i < 0 then Zero else QCurves.Interpolate(curves[i], ct)
  }

  /** CurvePath_interpolate on a curve list, with the number `scale` that t is multiplied by. */
  function PathPoint(curves: seq<QCurve>, scale: int, t: real): Vec3
  {
    Lookup(curves, t * scale as real)
  }

  /** Curve k runs from waypoint k to waypoint k + 1. */
  ghost predicate Joins(curves: seq<QCurve>, waypoints: seq<Vec3>)
  {
    |waypoints| == |curves| + 1 &&
    forall k :: 0 <= k < |curves| ==>
      QCurves.Interpolate(curves[k], 0.0) == waypoints[k] &&
      QCurves.Interpolate(curves[k], 1.0) == waypoints[k + 1]
  }

  /** Each curve starts with the tangent the previous one ends with, the first one with `start`. */
  ghost predicate TangentsMatch(curves: seq<QCurve>, start: Vec3)
  {
    (|curves| > 0 ==> Tangent(curves[0], 0.0) == start) &&
    forall k :: 0 < k < |curves| ==> Tangent(curves[k], 0.0) == Tangent(curves[k - 1], 1.0)
  }

  /** Appending the curve from the last waypoint to a new one keeps the curves joined. */
  lemma JoinsAppend(curves: seq<QCurve>, waypoints: seq<Vec3>, curve: QCurve, point: Vec3)
    requires Joins(curves, waypoints)
    requires QCurves.Interpolate(curve, 0.0) == waypoints[|curves|]
    requires QCurves.Interpolate(curve, 1.0) == point
    ensures Joins(curves + [curve], waypoints + [point])
  {
    var c, w := curves + [curve], waypoints + [point];
    forall k | 0 <= k < |c|
      ensures QCurves.Interpolate(c[k], 0.0) == w[k] && QCurves.Interpolate(c[k], 1.0) == w[k + 1]
    {
      if k < |curves| {
        assert c[k] == curves[k] && w[k] == waypoints[k] && w[k + 1] == waypoints[k + 1];
      }
    }
  }

  /** Appending a curve that starts with the last end tangent keeps the tangents matched. */
  lemma TangentsAppend(curves: seq<QCurve>, start: Vec3, curve: QCurve)
    requires TangentsMatch(curves, start)
    requires Tangent(curve, 0.0) == if |curves| == 0 then start else Tangent(curves[|curves| - 1], 1.0)
    ensures TangentsMatch(curves + [curve], start)
  {
    var c := curves + [curve];
    forall k | 0 < k < |c|
      ensures Tangent(c[k], 0.0) == Tangent(c[k - 1], 1.0)
    {
      assert c[k - 1] == curves[k - 1];
      if k < |curves| {
        assert c[k] == curves[k];
      }
    }
  }

  /**
    The state of a path: a power-of-two capacity holding the curves, the
    curves joining the waypoints with matching tangents, and prevPoint and
    prevDeriv the end point and end tangent of the path so far.
   */
  ghost predicate PathInvariant(size: nat, curves: seq<QCurve>, waypoints: seq<Vec3>,
                                prevPoint: Vec3, prevDeriv: Vec3, startDeriv: Vec3)
  {
    IsPowerOfTwo(size) && |curves| <= size &&
    Joins(curves, waypoints) && prevPoint == waypoints[|curves|] &&
    TangentsMatch(curves, startDeriv) &&
    prevDeriv == (if |curves| == 0 then startDeriv else Tangent(curves[|curves| - 1], 1.0))
  }

  /** Appending the curve from prevPoint to `point`, leaving with prevDeriv, keeps the state of a path. */
  lemma AppendKeepsPath(size: nat, curves: seq<QCurve>, waypoints: seq<Vec3>,
                        prevPoint: Vec3, prevDeriv: Vec3, startDeriv: Vec3, newSize: nat, point: Vec3)
    requires PathInvariant(size, curves, waypoints, prevPoint, prevDeriv, startDeriv)
    requires IsPowerOfTwo(newSize) && |curves| < newSize
    ensures var curve := QCurves.Create(prevPoint, point, prevDeriv, 0);
      PathInvariant(newSize, curves + [curve], waypoints + [point], point, GetDerivative(curve, 1), startDeriv)
  {
    var curve := QCurves.Create(prevPoint, point, prevDeriv, 0);
    JoinsAppend(curves, waypoints, curve, point);
    TangentsAppend(curves, startDeriv, curve);
    assert (waypoints + [point])[|curves| + 1] == point;
    assert (curves + [curve])[|curves|] == curve;
  }

  class CurvePath {
    var prevPoint: Vec3
    var prevDeriv: Vec3
    var curves: seq<QCurve>
    var curvesSize: nat
    /** The start point followed by every waypoint added so far. */
    ghost var waypoints: seq<Vec3>
    /** The tangent the path was created with. */
    ghost var startDeriv: Vec3

    ghost predicate Valid()
      reads this
    {
      PathInvariant(curvesSize, curves, waypoints, prevPoint, prevDeriv, startDeriv)
    }

    constructor Init(startPoint: Vec3, startDeriv: Vec3)
      ensures Valid()
      ensures prevPoint == startPoint && prevDeriv == startDeriv
      ensures curves == [] && curvesSize == 1 && waypoints == [startPoint]
    {
      prevPoint := startPoint;
      prevDeriv := startDeriv;
      curves := [];
      curvesSize := 1;
      waypoints := [startPoint];
      this.startDeriv := startDeriv;
    }

    /**
      CurvePath_create: an empty path at `startPoint` with room for one curve.
      `allocOk` says whether both allocations succeed; if either fails the
      result is null.
     */
    static method Create(startPoint: Vec3, startDeriv: Vec3, allocOk: bool) returns (path: CurvePath?)
      ensures !allocOk ==> path == null
      ensures allocOk ==> path != null && fresh(path) && path.Valid()
      ensures allocOk ==> path.prevPoint == startPoint && path.prevDeriv == startDeriv
      ensures allocOk ==> path.curves == [] && path.curvesSize == 1 && path.waypoints == [startPoint]
    {
      if allocOk {
        path := new CurvePath.Init(startPoint, startDeriv);
      } else {
        path := null;
      }
    }

    /**
      CurvePath_addWaypoint: when the array is full it is doubled (`reallocOk`
      says whether that succeeds; if not, nothing changes); then the curve
      from the previous waypoint to `point`, leaving with the previous end
      tangent, is appended.
     */
    method AddWaypoint(point: Vec3, reallocOk: bool)
      requires Valid()
      modifies this
      ensures Valid()
      ensures old(|curves|) >= old(curvesSize) && !reallocOk ==>
        curves == old(curves) && curvesSize == old(curvesSize) && waypoints == old(waypoints) &&
        prevPoint == old(prevPoint) && prevDeriv == old(prevDeriv)
      ensures old(|curves|) < old(curvesSize) || reallocOk ==>
        curves == old(curves) + [QCurves.Create(old(prevPoint), point, old(prevDeriv), 0)] &&
        curvesSize == (if old(|curves|) >= old(curvesSize) then 2 * old(curvesSize) else old(curvesSize)) &&
        waypoints == old(waypoints) + [point] && prevPoint == point
      ensures startDeriv == old(startDeriv)
    {
      var canAdd := true;
      if |curves| >= curvesSize {
        if reallocOk {
          DoubleIsPowerOfTwo(curvesSize);
          curvesSize := curvesSize * 2;
        } else {
          canAdd := false;
        }
      }
      if canAdd {
        var curve := QCurves.Create(prevPoint, point, prevDeriv, 0);
        AppendKeepsPath(old(curvesSize), curves, waypoints, prevPoint, prevDeriv, startDeriv, curvesSize, point);
        curves := curves + [curve];
        waypoints := waypoints + [point];
        prevPoint := point;
        prevDeriv := GetDerivative(curve, 1);
      }
    }

    /** CurvePath_interpolate as written: t is scaled by the capacity, not the curve count. */
    function Interpolate(t: real): Vec3
      reads this
    {
      PathPoint(curves, curvesSize, t)
    }

    /** CurvePath_interpolate with t scaled by the number of curves, so t in [0, 1] spans the path. */
    function InterpolateByCount(t: real): Vec3
      reads this
    {
      PathPoint(curves, |curves|, t)
    }
  }

  // ---------------------------------------------------------------------------
  // Properties of the path.

  /** Consecutive curves meet, and meet with the same tangent. */
  lemma PathIsSmooth(p: CurvePath, k: int)
    requires p.Valid() && 0 <= k && k + 1 < |p.curves|
    ensures QCurves.Interpolate(p.curves[k], 1.0) == QCurves.Interpolate(p.curves[k + 1], 0.0)
    ensures Tangent(p.curves[k], 1.0) == Tangent(p.curves[k + 1], 0.0)
  {
  }

  /** Within the range of the curves, the path is the curve the integer part of totalT names. */
  lemma LookupOnCurve(curves: seq<QCurve>, totalT: real)
    requires totalT >= 0.0 && totalT.Floor < |curves|
    ensures Lookup(curves, totalT)
         == QCurves.Interpolate(curves[totalT.Floor], totalT - totalT.Floor as real)
  {
  }

  /** From totalT = |curves| on, the path stays at its end point. */
  lemma LookupPastEnd(curves: seq<QCurve>, totalT: real)
    requires |curves| > 0 && totalT >= |curves| as real
    ensures Lookup(curves, totalT) == QCurves.Interpolate(curves[|curves| - 1], 1.0)
  {
  }

  /** An empty path is the origin everywhere. */
  lemma LookupOfEmpty(totalT: real)
    ensures Lookup([], totalT) == Zero
  {
  }

  /** At a whole number k from 0 to |curves| the lookup gives waypoint k. */
  lemma LookupAtWaypoint(curves: seq<QCurve>, waypoints: seq<Vec3>, k: int)
    requires Joins(curves, waypoints) && |curves| > 0 && 0 <= k <= |curves|
    ensures Lookup(curves, k as real) == waypoints[k]
  {
    assert (k as real).Floor == k;
  }

  /**
    Scaled by the number n of curves, parameter k / n reaches waypoint k, for
    every k from 0 to n: t in [0, 1] spans the whole path.
   */
  lemma ByCountReachesWaypoints(curves: seq<QCurve>, waypoints: seq<Vec3>, k: int)
    requires Joins(curves, waypoints) && |curves| > 0 && 0 <= k <= |curves|
    ensures PathPoint(curves, |curves|, k as real / |curves| as real) == waypoints[k]
  {
    var n := |curves| as real;
    QuotientTimes(k as real, n);
    PathPointAtWaypoint(curves, waypoints, k, k as real / n);
  }

  /** Any t that the count scales to k gives waypoint k. */
  lemma PathPointAtWaypoint(curves: seq<QCurve>, waypoints: seq<Vec3>, k: int, t: real)
    requires Joins(curves, waypoints) && |curves| > 0 && 0 <= k <= |curves|
    requires t * |curves| as real == k as real
    ensures PathPoint(curves, |curves|, t) == waypoints[k]
  {
    LookupAtWaypoint(curves, waypoints, k);
  }

  /**
    Scaled by a capacity larger than the number n of curves, the path reaches
    its end at t = n / capacity and stays there for the rest of [0, 1].
   */
  lemma ByCapacityStopsEarly(curves: seq<QCurve>, waypoints: seq<Vec3>, capacity: int, t: real)
    requires Joins(curves, waypoints) && 0 < |curves| < capacity
    requires |curves| as real / capacity as real <= t
    ensures PathPoint(curves, capacity, t) == waypoints[|curves|]
  {
    var last := |curves| - 1;
    ScaledPastCount(|curves| as real, capacity as real, t);
    LookupPastEnd(curves, t * capacity as real);
    assert QCurves.Interpolate(curves[last], 1.0) == waypoints[last + 1];
  }

  /** n / c <= t scales back to n <= t * c. */
  lemma ScaledPastCount(n: real, c: real, t: real)
    requires 0.0 < c && n / c <= t
    ensures n <= t * c
  {
    QuotientTimes(n, c);
    MulMonotone(n / c, t, c);
  }

  lemma QuotientTimes(k: real, n: real)
    requires n != 0.0
    ensures (k / n) * n == k
  {
  }

  /** Three curves scaled by 4 (as written, after three waypoints): t = 3/4 is already the end. */
  lemma ThreeOfFourAtThreeQuarters(curves: seq<QCurve>)
    requires |curves| == 3
    ensures PathPoint(curves, 4, 0.75) == QCurves.Interpolate(curves[2], 1.0)
  {
    assert 0.75 * 4 as real == 3.0;
    LookupPastEnd(curves, 3.0);
  }

  /** Three curves scaled by 3: t = 3/4 is a quarter of the way along the last curve. */
  lemma ThreeOfThreeAtThreeQuarters(curves: seq<QCurve>)
    requires |curves| == 3
    ensures PathPoint(curves, 3, 0.75) == QCurves.Interpolate(curves[2], 0.25)
  {
    assert 0.75 * 3 as real == 2.25;
    assert 2.25.Floor == 2;
    LookupOnCurve(curves, 2.25);
  }

  /**
    A path with three curves in an array of capacity 4 whose last curve is the
    straight piece from (2,0,0) to (3,0,0): at t = 3/4 the lookup as written
    is already at the end point, while scaled by the count it is a quarter of
    the way along the last piece.
   */
  lemma InterpolateStopsEarlyOnStraightPiece(p: CurvePath)
    requires |p.curves| == 3 && p.curvesSize == 4
    requires p.curves[2] == QCurve(Vec3(0.0, 0.0, 0.0), Vec3(1.0, 0.0, 0.0), Vec3(2.0, 0.0, 0.0))
    ensures p.Interpolate(0.75) == Vec3(3.0, 0.0, 0.0)
    ensures p.InterpolateByCount(0.75) == Vec3(2.25, 0.0, 0.0)
  {
    ThreeOfFourAtThreeQuarters(p.curves);
    ThreeOfThreeAtThreeQuarters(p.curves);
  }
}
