/**
  The decision logic of Scene_traceHit (RayTracer/Scene.c): which candidate
  intersection becomes the closest hit, the plane's bounds test, and the
  torus's quartic and root search. The intersection geometry that produces
  the candidate distances is not modelled: candidates are inputs.
 */
module Hits {
  import opened Vectors
  import opened CNumbers
  import opened MathFunctions
  import opened Materials

  /** FAR_T: the distance reported when nothing is hit. */
  const FarT: real := 1000.0
  /** EPSILON: hits closer than this (the surface the ray starts on) are ignored. */
  const Epsilon: real := 0.001

  datatype ObjectKind = NoObject | PlaneObject | SphereObject | TorusObject

  /**
    One candidate intersection, in the order Scene_traceHit tests them (planes,
    then for each sphere t1 then t2, then tori): its distance, the object it
    belongs to, and whether the object's own test admits it (the plane's
    bounds, the sphere's non-negative discriminant), with the object's
    material, which the hit record takes from the object selected.
   */
  datatype Candidate = Candidate(t: real, kind: ObjectKind, index: nat, fits: bool, material: Material)

  /** The closest hit so far: closestT, closestObjectType, which object and its material. */
  datatype Closest = Closest(t: real, kind: ObjectKind, index: nat, material: Material)

  /** The material of no object: C leaves the hit record's material unset when nothing is hit. */
  const NoMaterial: Material := Material(Zero, Zero, false)

  const NoHit: Closest := Closest(FarT, NoObject, 0, NoMaterial)

  /** A candidate the selection can take at all. */
  predicate Acceptable(c: Candidate)
  {
    c.fits && Epsilon < c.t < FarT
  }

  /** One test of the selection: replace the closest hit when t is strictly nearer and beyond EPSILON. */
  function Select(closest: Closest, c: Candidate): Closest
  {
    if c.fits && c.t < closest.t && c.t > Epsilon then Closest(c.t, c.kind, c.index, c.material) else closest
  }

  /** The selection over a candidate list, from closestT = FAR_T. */
  function SelectAll(cs: seq<Candidate>): Closest
  {
    if |cs| == 0 then NoHit else Select(SelectAll(cs[..|cs| - 1]), cs[|cs| - 1])
  }

  /** The selection loop of Scene_traceHit over one candidate list, on its own; the scene runs it as Scene.ScanPlanes, ScanSpheres and ScanTori. */
  method ClosestHit(cs: seq<Candidate>) returns (closest: Closest)
    ensures closest == SelectAll(cs)
  {
    closest := Closest(FarT, NoObject, 0, NoMaterial);
    var i := 0;
    while i < |cs|
      invariant 0 <= i <= |cs| && closest == SelectAll(cs[..i])
    {
      var c := cs[i];
      if c.fits && c.t < closest.t && c.t > Epsilon {
        closest := Closest(c.t, c.kind, c.index, c.material);
      }
      assert cs[..i + 1][..i] == cs[..i];
      i := i + 1;
    }
    assert cs[..i] == cs;
  }

  /** The selection is FAR_T with no object exactly when no candidate is acceptable. */
  lemma {:induction false} NothingAcceptableMeansNoHit(cs: seq<Candidate>)
    ensures SelectAll(cs) == NoHit <==> forall k :: 0 <= k < |cs| ==> !Acceptable(cs[k])
  {
    if |cs| > 0 {
      var init := cs[..|cs| - 1];
      NothingAcceptableMeansNoHit(init);
      SelectAllStaysBelowFar(init);
      forall k | 0 <= k < |init| ensures init[k] == cs[k] { }
    }
  }

  /**
    Candidate j is what the selection reports: it is acceptable, no acceptable
    candidate is nearer, and every acceptable candidate before it is farther.
   */
  predicate IsFirstMinimum(cs: seq<Candidate>, j: int)
  {
    0 <= j < |cs| && Acceptable(cs[j]) &&
    (forall k :: 0 <= k < |cs| && Acceptable(cs[k]) ==> cs[j].t <= cs[k].t) &&
    (forall k :: 0 <= k < j && Acceptable(cs[k]) ==> cs[j].t < cs[k].t)
  }

  function Report(c: Candidate): Closest
  {
    Closest(c.t, c.kind, c.index, c.material)
  }

  /**
    The reported distance is the smallest acceptable one, and the object is
    the first candidate at that distance (ties go to the earlier one).
   */
  lemma {:induction false} SelectAllIsFirstMinimum(cs: seq<Candidate>)
    requires exists k :: 0 <= k < |cs| && Acceptable(cs[k])
    ensures exists j :: IsFirstMinimum(cs, j) && SelectAll(cs) == Report(cs[j])
  {
    var n := |cs| - 1;
    var init := cs[..n];
    if exists k :: 0 <= k < n && Acceptable(init[k]) {
      SelectAllIsFirstMinimum(init);
      var j :| IsFirstMinimum(init, j) && SelectAll(init) == Report(init[j]);
      var i := ExtendFirstMinimum(cs, j);
    } else {
      NothingAcceptableMeansNoHit(init);
      OnlyLastIsAcceptable(cs);
    }
  }

  /** Appending one candidate to a list whose first minimum is j. */
  lemma ExtendFirstMinimum(cs: seq<Candidate>, j: int) returns (i: int)
    requires |cs| > 0 && IsFirstMinimum(cs[..|cs| - 1], j)
    requires SelectAll(cs[..|cs| - 1]) == Report(cs[..|cs| - 1][j])
    ensures IsFirstMinimum(cs, i) && SelectAll(cs) == Report(cs[i])
  {
    var n := |cs| - 1;
    var init := cs[..n];
    var last := cs[n];
    assert init[j] == cs[j];
    if Acceptable(last) && last.t < cs[j].t {
      i := n;
      forall k | 0 <= k < n && Acceptable(cs[k])
        ensures last.t < cs[k].t
      {
        assert init[k] == cs[k];
      }
    } else {
      i := j;
      forall k | 0 <= k < n && Acceptable(cs[k])
        ensures cs[j].t <= cs[k].t
      {
        assert init[k] == cs[k];
      }
      forall k | 0 <= k < j && Acceptable(cs[k])
        ensures cs[j].t < cs[k].t
      {
        assert init[k] == cs[k];
      }
    }
  }

  /** When only the last candidate is acceptable, it is reported. */
  lemma OnlyLastIsAcceptable(cs: seq<Candidate>)
    requires |cs| > 0 && Acceptable(cs[|cs| - 1])
    requires SelectAll(cs[..|cs| - 1]) == NoHit
    requires forall k :: 0 <= k < |cs| - 1 ==> !Acceptable(cs[k])
    ensures IsFirstMinimum(cs, |cs| - 1) && SelectAll(cs) == Report(cs[|cs| - 1])
  {
  }

  lemma {:induction false} SelectAllStaysBelowFar(cs: seq<Candidate>)
    ensures SelectAll(cs).t <= FarT
  {
    if |cs| > 0 {
      SelectAllStaysBelowFar(cs[..|cs| - 1]);
    }
  }

  // ---------------------------------------------------------------------------
  // The plane's bounds test.

  /**
    The bounds test of a plane hit as written: C's integer abs, so each
    local coordinate is first truncated toward zero.
   */
  predicate PlaneFitsAsWritten(hitX: real, hitZ: real, halfWidth: real, halfHeight: real)
  {
    IntAbs(Trunc(hitX)) as real < halfWidth && IntAbs(Trunc(hitZ)) as real < halfHeight
  }

  /** The bounds test evidently intended: the hit lies strictly inside the rectangle. */
  predicate PlaneFits(hitX: real, hitZ: real, halfWidth: real, halfHeight: real)
  {
    RealAbs(hitX) < halfWidth && RealAbs(hitZ) < halfHeight
  }

  /** The intended test accepts exactly the points strictly inside the plane's rectangle. */
  lemma PlaneFitsIsInsideRectangle(hitX: real, hitZ: real, halfWidth: real, halfHeight: real)
    ensures PlaneFits(hitX, hitZ, halfWidth, halfHeight) <==>
      -halfWidth < hitX < halfWidth && -halfHeight < hitZ < halfHeight
  {
  }

  /**
    As written, any hit with both local coordinates within (-1, 1) passes the
    bounds test of every plane of positive size, however small the plane.
   */
  lemma PlaneFitsAsWrittenAcceptsUnitSquare(hitX: real, hitZ: real, halfWidth: real, halfHeight: real)
    requires halfWidth > 0.0 && halfHeight > 0.0
    requires -1.0 < hitX < 1.0 && -1.0 < hitZ < 1.0
    ensures PlaneFitsAsWritten(hitX, hitZ, halfWidth, halfHeight)
  {
    assert Trunc(hitX) == 0 && Trunc(hitZ) == 0;
  }

  /** A 1 x 1 plane is hit at local x = 0.9, outside it, and the test as written still accepts. */
  lemma PlaneBoundsCounterexample()
    ensures PlaneFitsAsWritten(0.9, 0.0, 0.5, 0.5)
    ensures !PlaneFits(0.9, 0.0, 0.5, 0.5)
  {
    PlaneFitsAsWrittenAcceptsUnitSquare(0.9, 0.0, 0.5, 0.5);
  }

  /**
    With whole-number half sizes the two tests agree: truncating a coordinate
    toward zero keeps it below a whole bound exactly when its absolute value is.
   */
  lemma PlaneFitsAgreeOnWholeSizes(hitX: real, hitZ: real, halfWidth: nat, halfHeight: nat)
    ensures PlaneFitsAsWritten(hitX, hitZ, halfWidth as real, halfHeight as real) <==>
            PlaneFits(hitX, hitZ, halfWidth as real, halfHeight as real)
  {
    TruncBelowWhole(hitX, halfWidth);
    TruncBelowWhole(hitZ, halfHeight);
  }

  lemma TruncBelowWhole(x: real, n: nat)
    ensures IntAbs(Trunc(x)) as real < n as real <==> RealAbs(x) < n as real
  {
    var t := Trunc(x);
    if x >= 0.0 {
      assert IntAbs(t) == t && RealAbs(x) == x;
      if t < n {
        assert (t + 1) as real <= n as real;
      }
    } else {
      assert IntAbs(t) == -t && RealAbs(x) == -x;
      if -t < n {
        assert (-t + 1) as real <= n as real;
      }
    }
  }

  // ---------------------------------------------------------------------------
  // The torus quartic.

  /** TorusConstants: R^2 - r^2, 4 R^2, and the ray's start and direction in torus space. */
  datatype TorusConstants = TorusConstants(r2MinusTube2: real, fourR2: real,
                                           xs: real, xd: real, ys: real, yd: real, zs: real, zd: real)

  /** The constants Scene_traceHit builds for a torus of radius R and tube radius r. */
  function TorusConstantsFor(radius: real, tubeRadius: real, st: Vec3, dr: Vec3): TorusConstants
  {
    var r2 := radius * radius;
    TorusConstants(r2 - tubeRadius * tubeRadius, 4.0 * r2, st.x, dr.x, st.y, dr.y, st.z, dr.z)
  }

  /** torusFunction: the torus quartic at the point st + t * dr. */
  function TorusFunction(tc: TorusConstants, t: real): real
  {
    var x := tc.xs + t * tc.xd;
    var y := tc.ys + t * tc.yd;
    var z := tc.zs + t * tc.zd;
    var sumX2Z2 := x * x + z * z;
    Quartic(sumX2Z2, y * y, tc.r2MinusTube2, tc.fourR2)
  }

  /** (x^2 + z^2 + y^2 + R^2 - r^2)^2 - 4 R^2 (x^2 + z^2), given x^2 + z^2, y^2 and the constants. */
  function Quartic(sumX2Z2: real, y2: real, r2MinusTube2: real, fourR2: real): real
  {
    var part1 := sumX2Z2 + y2 + r2MinusTube2;
    part1 * part1 + -fourR2 * sumX2Z2
  }

  /**
    With p = s^2, the quartic in the shape torusFunction evaluates it is the
    product of the tube equations of the two points at distance s from the axis.
   */
  lemma QuarticFactors(p: real, s: real, yy: real, radius: real, tube: real)
    requires p == s * s
    ensures Quartic(p, yy, radius * radius - tube * tube, 4.0 * (radius * radius))
         == ((s - radius) * (s - radius) + yy - tube * tube) * ((s + radius) * (s + radius) + yy - tube * tube)
  {
    var a := p + yy + (radius * radius - tube * tube);
    var b := 2.0 * s * radius;
    assert (s - radius) * (s - radius) + yy - tube * tube == a - b;
    assert (s + radius) * (s + radius) + yy - tube * tube == a + b;
    assert (a - b) * (a + b) == a * a - b * b;
    assert b * b == (4.0 * (radius * radius)) * p;
  }

  /** On the tube around the ring (distance s from the axis) the quartic is 0. */
  lemma QuarticVanishesOnTube(p: real, s: real, yy: real, radius: real, tube: real, c: real, f4: real)
    requires c == radius * radius - tube * tube && f4 == 4.0 * (radius * radius)
    requires p == s * s
    requires (s - radius) * (s - radius) + yy == tube * tube
    ensures Quartic(p, yy, c, f4) == 0.0
  {
    QuarticFactors(p, s, yy, radius, tube);
    var f1 := (s - radius) * (s - radius) + yy - tube * tube;
    var f2 := (s + radius) * (s + radius) + yy - tube * tube;
    assert f1 == 0.0;
    assert f1 * f2 == 0.0 * f2;
  }

  /**
    The quartic factors through the distance s of the point from the torus
    axis: its first factor vanishes exactly on the tube of radius r around
    the ring of radius R, so the quartic is 0 on the torus surface.
   */
  lemma TorusFunctionVanishesOnSurface(radius: real, tubeRadius: real, st: Vec3, dr: Vec3, t: real, s: real)
    requires var x, z := st.x + t * dr.x, st.z + t * dr.z; s * s == x * x + z * z
    requires var y := st.y + t * dr.y; (s - radius) * (s - radius) + y * y == tubeRadius * tubeRadius
    ensures TorusFunction(TorusConstantsFor(radius, tubeRadius, st, dr), t) == 0.0
  {
    var tc := TorusConstantsFor(radius, tubeRadius, st, dr);
    var x, y, z := tc.xs + t * tc.xd, tc.ys + t * tc.yd, tc.zs + t * tc.zd;
    QuarticVanishesOnTube(x * x + z * z, s, y * y, radius, tubeRadius, tc.r2MinusTube2, tc.fourR2);
  }

  /** The search interval: the ray's distance to the centre, widened by 1.3 times the outer radius, starting no nearer than EPSILON. */
  function TorusSearchStart(dist: real, radius: real, tubeRadius: real): (tMin: real)
    ensures tMin >= Epsilon
  {
    var outerRadius := (radius + tubeRadius) * 1.3;
    var tMin := dist - outerRadius;
    if tMin < Epsilon then Epsilon else tMin
  }

  function TorusSearchEnd(dist: real, radius: real, tubeRadius: real): real
  {
    dist + (radius + tubeRadius) * 1.3
  }

  /** The root the torus search can report: the first of 50 probes' sign changes, bisected 25 times. */
  function TorusRoots(tc: TorusConstants, tMin: real, tMax: real): seq<real>
  {
    Roots(t => TorusFunction(tc, t), tMin, SubInterval(tMin, tMax, 50), 50, 25)
  }

  /**
    The torus part of Scene_traceHit: t starts at -1 and findRoots, asked for
    one root, overwrites it only when it finds one.
   */
  method TorusHitDistance(tc: TorusConstants, tMin: real, tMax: real) returns (t: real)
    ensures t == if |TorusRoots(tc, tMin, tMax)| == 0 then -1.0 else TorusRoots(tc, tMin, tMax)[0]
  {
    var roots := new real[1];
    roots[0] := -1.0;
    var found := FindRoots(t => TorusFunction(tc, t), tMin, tMax, roots, 1, 50, 25);
    t := roots[0];
  }

  /** When no root is found the torus candidate (t = -1) is never selected. */
  lemma MissedTorusIsRejected(closest: Closest, index: nat, material: Material)
    ensures Select(closest, Candidate(-1.0, TorusObject, index, true, material)) == closest
  {
  }

  /** Probe k + 1, for k = 0 .. tries - 1, lies in [sx, ex]. */
  lemma ProbeInRange(sx: real, ex: real, tries: nat, k: int)
    requires sx <= ex && 0 <= k < tries
    ensures sx <= Probe(sx, SubInterval(sx, ex, tries), k) <= ex
    ensures sx <= Probe(sx, SubInterval(sx, ex, tries), k + 1) <= ex
  {
    var sub := SubInterval(sx, ex, tries);
    var n := (tries + 1) as real;
    assert sub * n == ex - sx;
    assert sub >= 0.0;
    assert (k + 2) as real * sub <= n * sub by {
      assert n * sub - (k + 2) as real * sub == (n - (k + 2) as real) * sub;
    }
    assert (k + 1) as real * sub <= (k + 2) as real * sub;
  }

  /** A torus root that is found lies inside the search interval. */
  lemma TorusRootInInterval(tc: TorusConstants, tMin: real, tMax: real)
    requires tMin <= tMax && |TorusRoots(tc, tMin, tMax)| > 0
    ensures tMin <= TorusRoots(tc, tMin, tMax)[0] <= tMax
  {
    var sub := SubInterval(tMin, tMax, 50);
    ProbeInRange(tMin, tMax, 50, 0);
    assert sub >= 0.0;
    RootsAreBracketed(t => TorusFunction(tc, t), tMin, sub, 50, 25, 0);
    var k :| 0 <= k < 50 && Flips(t => TorusFunction(tc, t), tMin, sub, k) &&
      InInterval(TorusRoots(tc, tMin, tMax)[0], tMin, sub, k);
    ProbeInRange(tMin, tMax, 50, k);
  }
}
