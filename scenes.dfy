/**
  The scene (RayTracer/Scene.c): four growable lists of objects (point
  lights, planes, spheres, tori) and a sky, with the ray tracing that reads
  them: the closest-hit search, diffuse lighting with shadow rays, and the
  bounded chain of mirror reflections folded back into one colour.

  Floats are exact reals. The C library's sqrt and the sky texel lookup
  (atan2, asin, floor and the byte-to-colour conversion) are supplied by an
  Optics value, as is the one real that stands for whatever C's division
  by zero yields.
 */
module Scenes {
  import opened Vectors
  import Matrices
  import opened Materials
  import opened Bytes
  import opened Capacities
  import opened Hits

  datatype Option<T> = None | Some(value: T)

  /** AMBIENT_LIGHT */
  const AmbientLight: real := 0.05
  /** NUM_REFLECTIONS: the deepest reflection traced. */
  const NumReflections: nat := 5

  datatype PointLight = PointLight(pos: Vec3, col: Vec3, distSq: real)

  datatype Plane = Plane(center: Vec3, halfWidth: real, halfHeight: real, yaw: real, pitch: real,
                         translate: Matrices.Mat4, translateInverse: Matrices.Mat4,
                         rotate: Matrices.Mat4, rotateInverse: Matrices.Mat4, material: Material)

  datatype Sphere = Sphere(center: Vec3, radius: real,
                           translate: Matrices.Mat4, translateInverse: Matrices.Mat4, material: Material)

  datatype Torus = Torus(center: Vec3, radius: real, tubeRadius: real, yaw: real, pitch: real,
                         translate: Matrices.Mat4, translateInverse: Matrices.Mat4,
                         rotate: Matrices.Mat4, rotateInverse: Matrices.Mat4, material: Material)

  /** The sky texture; `pixels` is None for the null pointer. */
  datatype Sky = Sky(pixels: Option<seq<byte>>, pixelsWidth: int, pixelsHeight: int,
                     enabled: int, reflectionsEnabled: int)

  datatype TraceInfo = TraceInfo(t: real, hitPoint: Vec3, normal: Vec3, material: Material)

  /** The objects a ray can hit, as the trace reads them. */
  datatype Objects = Objects(planes: seq<Plane>, spheres: seq<Sphere>, tori: seq<Torus>)

  /** A ray in an object's own frame. */
  datatype Ray = Ray(start: Vec3, dir: Vec3)

  /**
    A ray meeting a plane's y = 0 in the plane's frame: `parallel` when the
    frame direction has dr.y == 0, else the distance -st.y / dr.y and the
    local x and z of the hit.
   */
  datatype PlaneCrossing = PlaneCrossing(parallel: bool, t: real, hitX: real, hitZ: real)

  /** The roots t1, t2 of a sphere's quadratic; `meets` when the discriminant is non-negative. */
  datatype SphereCrossing = SphereCrossing(t1: real, t2: real, meets: bool)

  /**
    What the model leaves to the floating-point library: sqrt, the value a
    division by zero yields (an infinity or NaN in C), the sky's texel colour
    in a direction, and the intersection geometry of each kind of object:
    where a ray crosses a plane or a sphere, a ray carried into a torus's
    frame, and the sphere and torus normals at distance t.
   */
  datatype Optics = Optics(sqrt: real -> real, divByZero: real, skyTexel: (Sky, Vec3) -> Vec3,
                           planeCrossing: (Plane, Vec3, Vec3) -> PlaneCrossing,
                           sphereCrossing: (Sphere, Vec3, Vec3) -> SphereCrossing,
                           torusRay: (Torus, Vec3, Vec3) -> Ray,
                           sphereNormal: (Sphere, Vec3, Vec3, real) -> Vec3,
                           torusNormal: (Torus, Vec3, Vec3, real) -> Vec3)

  /** Vec3_norm: the vector divided by its length. */
  function Direction(g: Optics, v: Vec3): Vec3
  {
    if g.sqrt(LenSq(v)) != 0.0 then Norm(v, g.sqrt) else Vec3(g.divByZero, g.divByZero, g.divByZero)
  }

  // ---------------------------------------------------------------------------
  // The records the add functions store.

  ghost predicate Pythagorean(sine: real -> real, cosine: real -> real, angle: real)
  {
    sine(angle) * sine(angle) + cosine(angle) * cosine(angle) == 1.0
  }

  /** The light Scene_addPointLight stores: its range is kept squared. */
  function NewPointLight(pos: Vec3, col: Vec3, dist: real): PointLight
  {
    PointLight(pos, col, dist * dist)
  }

  /**
    The plane Scene_addPlane stores: half extents, the yaw-pitch rotation,
    the translation to its centre, and the inverses of both. The rotation's
    determinant is 1 when the sine and cosine satisfy s^2 + c^2 = 1 at both
    angles, which Mat4_inverse needs.
   */
  function NewPlane(center: Vec3, width: real, height: real, yaw: real, pitch: real, material: Material,
                    sine: real -> real, cosine: real -> real): Plane
    requires Pythagorean(sine, cosine, yaw) && Pythagorean(sine, cosine, pitch)
  {
    var rotate := Matrices.YawPitch(yaw, pitch, sine, cosine);
    var translate := Matrices.Translate(center);
    Matrices.DetOfYawPitch(yaw, pitch, sine, cosine);
    Matrices.DetOfTranslate(center);
    Plane(center, width * 0.5, height * 0.5, yaw, pitch, translate, Matrices.Inverse(translate),
          rotate, Matrices.Inverse(rotate), material)
  }

  function NewSphere(center: Vec3, radius: real, material: Material): Sphere
  {
    var translate := Matrices.Translate(center);
    Matrices.DetOfTranslate(center);
    Sphere(center, radius, translate, Matrices.Inverse(translate), material)
  }

  /** Scene_addTorus clamps the tube radius to the ring radius. */
  function ClampTube(radius: real, tubeRadius: real): real
  {
    if tubeRadius > radius then radius else tubeRadius
  }

  function NewTorus(center: Vec3, radius: real, tubeRadius: real, yaw: real, pitch: real, material: Material,
                    sine: real -> real, cosine: real -> real): Torus
    requires Pythagorean(sine, cosine, yaw) && Pythagorean(sine, cosine, pitch)
  {
    var rotate := Matrices.YawPitch(yaw, pitch, sine, cosine);
    var translate := Matrices.Translate(center);
    Matrices.DetOfYawPitch(yaw, pitch, sine, cosine);
    Matrices.DetOfTranslate(center);
    Torus(center, radius, ClampTube(radius, tubeRadius), yaw, pitch, translate, Matrices.Inverse(translate),
          rotate, Matrices.Inverse(rotate), material)
  }

  /** The stored tube radius is the smaller of the two radii. */
  lemma ClampTubeIsMinimum(radius: real, tubeRadius: real)
    ensures ClampTube(radius, tubeRadius) <= radius && ClampTube(radius, tubeRadius) <= tubeRadius
    ensures ClampTube(radius, tubeRadius) == radius || ClampTube(radius, tubeRadius) == tubeRadius
  {
  }

  /**
    What the squared range means to the lighting: a point at distance
    |dist| or more from the light gets none of it, a nearer point a share
    in (0, 1]; a negative range reaches as far as its absolute value.
   */
  lemma NewPointLightRange(pos: Vec3, col: Vec3, dist: real, p: Vec3)
    ensures NewPointLight(pos, col, dist).distSq >= 0.0
    ensures LenSq(Sub(pos, p)) >= dist * dist ==> DistanceBrightness(p, NewPointLight(pos, col, dist)) == 0.0
    ensures LenSq(Sub(pos, p)) < dist * dist ==> 0.0 < DistanceBrightness(p, NewPointLight(pos, col, dist)) <= 1.0
    ensures DistanceBrightness(p, NewPointLight(pos, col, -dist)) == DistanceBrightness(p, NewPointLight(pos, col, dist))
  {
    assert (-dist) * (-dist) == dist * dist;
  }

  /** The stored plane spans width x height around its centre. */
  lemma NewPlaneExtent(center: Vec3, width: real, height: real, yaw: real, pitch: real, material: Material,
                       sine: real -> real, cosine: real -> real)
    requires Pythagorean(sine, cosine, yaw) && Pythagorean(sine, cosine, pitch)
    ensures NewPlane(center, width, height, yaw, pitch, material, sine, cosine).halfWidth * 2.0 == width
    ensures NewPlane(center, width, height, yaw, pitch, material, sine, cosine).halfHeight * 2.0 == height
  {
  }

  /** The stored plane's inverse translation moves its centre back to the origin. */
  lemma NewPlaneTranslation(center: Vec3, width: real, height: real, yaw: real, pitch: real, material: Material,
                       sine: real -> real, cosine: real -> real)
    requires Pythagorean(sine, cosine, yaw) && Pythagorean(sine, cosine, pitch)
    ensures NewPlane(center, width, height, yaw, pitch, material, sine, cosine).translateInverse == Matrices.Translate(Neg(center))
  {
    Matrices.InverseOfTranslate(center);
  }

  /** The stored plane's rotation has determinant 1, so its inverse is defined. */
  lemma NewPlaneRotation(center: Vec3, width: real, height: real, yaw: real, pitch: real, material: Material,
                       sine: real -> real, cosine: real -> real)
    requires Pythagorean(sine, cosine, yaw) && Pythagorean(sine, cosine, pitch)
    ensures Matrices.Det3(NewPlane(center, width, height, yaw, pitch, material, sine, cosine).rotate) == 1.0
  {
    Matrices.DetOfYawPitch(yaw, pitch, sine, cosine);
  }

  /** A stored torus keeps its ring radius, and its tube never exceeds the ring or the requested tube. */
  lemma NewTorusTube(center: Vec3, radius: real, tubeRadius: real, yaw: real, pitch: real, material: Material,
                       sine: real -> real, cosine: real -> real)
    requires Pythagorean(sine, cosine, yaw) && Pythagorean(sine, cosine, pitch)
    ensures NewTorus(center, radius, tubeRadius, yaw, pitch, material, sine, cosine).radius == radius
    ensures NewTorus(center, radius, tubeRadius, yaw, pitch, material, sine, cosine).tubeRadius <= radius
    ensures NewTorus(center, radius, tubeRadius, yaw, pitch, material, sine, cosine).tubeRadius <= tubeRadius
  {
  }

  /** The stored torus's inverse translation moves its centre back to the origin. */
  lemma NewTorusTranslation(center: Vec3, radius: real, tubeRadius: real, yaw: real, pitch: real, material: Material,
                       sine: real -> real, cosine: real -> real)
    requires Pythagorean(sine, cosine, yaw) && Pythagorean(sine, cosine, pitch)
    ensures NewTorus(center, radius, tubeRadius, yaw, pitch, material, sine, cosine).translateInverse == Matrices.Translate(Neg(center))
  {
    Matrices.InverseOfTranslate(center);
  }

  /** The stored torus's rotation has determinant 1, so its inverse is defined. */
  lemma NewTorusRotation(center: Vec3, radius: real, tubeRadius: real, yaw: real, pitch: real, material: Material,
                       sine: real -> real, cosine: real -> real)
    requires Pythagorean(sine, cosine, yaw) && Pythagorean(sine, cosine, pitch)
    ensures Matrices.Det3(NewTorus(center, radius, tubeRadius, yaw, pitch, material, sine, cosine).rotate) == 1.0
  {
    Matrices.DetOfYawPitch(yaw, pitch, sine, cosine);
  }

  // ---------------------------------------------------------------------------
  // Growth of the object lists.

  /** Whether an add stores its object: there is room, or the doubling realloc succeeds. */
  predicate CanAdd(count: nat, size: nat, reallocOk: bool)
  {
    count != size || reallocOk
  }

  /** The capacity after an add: doubled exactly when the list was full and realloc succeeded. */
  function GrownSize(count: nat, size: nat, reallocOk: bool): nat
  {
    if count == size && reallocOk then 2 * size else size
  }

  /**
    Growth keeps a list within its capacity and the capacity a power of two;
    capacity only ever stays or doubles, and an add is refused only when the
    list is full and the realloc fails.
   */
  lemma GrowthKeepsRoom(count: nat, size: nat, reallocOk: bool)
    requires count <= size && IsPowerOfTwo(size)
    ensures IsPowerOfTwo(GrownSize(count, size, reallocOk))
    ensures GrownSize(count, size, reallocOk) == size || GrownSize(count, size, reallocOk) == 2 * size
    ensures CanAdd(count, size, reallocOk) ==> count + 1 <= GrownSize(count, size, reallocOk)
    ensures !CanAdd(count, size, reallocOk) <==> count == size && !reallocOk
  {
    if count == size && reallocOk {
      DoubleIsPowerOfTwo(size);
    }
  }

  // ---------------------------------------------------------------------------
  // The candidate hits of a ray, in the order Scene_traceHit tests them.

  /**
    A plane's candidate. When the ray runs parallel to the plane C's division
    gives an infinity or NaN, which fails the range test, so the candidate
    does not fit; otherwise it fits when the hit lies inside the rectangle
    (the bounds test as written, with C's integer abs; see
    Hits.PlaneFitsAsWritten and the corrected Hits.PlaneFits).
   */
  function PlaneCandidate(g: Optics, p: Plane, index: nat, start: Vec3, dir: Vec3): Candidate
  {
    var x := g.planeCrossing(p, start, dir);
    Candidate(x.t, PlaneObject, index, !x.parallel && PlaneFitsAsWritten(x.hitX, x.hitZ, p.halfWidth, p.halfHeight), p.material)
  }

  /** A sphere's two candidates, t1 then t2, both admitted when the ray meets the sphere. */
  function SphereCandidates(g: Optics, s: Sphere, index: nat, start: Vec3, dir: Vec3): seq<Candidate>
  {
    var x := g.sphereCrossing(s, start, dir);
    [Candidate(x.t1, SphereObject, index, x.meets, s.material), Candidate(x.t2, SphereObject, index, x.meets, s.material)]
  }

  /** The quartic of a torus along the ray, in the torus's frame. */
  function TorusQuartic(g: Optics, tor: Torus, start: Vec3, dir: Vec3): TorusConstants
  {
    var ray := g.torusRay(tor, start, dir);
    TorusConstantsFor(tor.radius, tor.tubeRadius, ray.start, ray.dir)
  }

  /** The interval the torus root search scans, from the frame ray's distance to the centre. */
  function TorusInterval(g: Optics, tor: Torus, start: Vec3, dir: Vec3): (real, real)
  {
    var dist := Len(g.torusRay(tor, start, dir).start, g.sqrt);
    (TorusSearchStart(dist, tor.radius, tor.tubeRadius), TorusSearchEnd(dist, tor.radius, tor.tubeRadius))
  }

  /** The distance the torus root search reports: its first root, or -1 when it finds none. */
  function TorusDistance(g: Optics, tor: Torus, start: Vec3, dir: Vec3): real
  {
    var interval := TorusInterval(g, tor, start, dir);
    var roots := TorusRoots(TorusQuartic(g, tor, start, dir), interval.0, interval.1);
    if |roots| == 0 then -1.0 else roots[0]
  }

  /** A torus's candidate: always admitted, at the distance the root search reports. */
  function TorusCandidate(g: Optics, tor: Torus, index: nat, start: Vec3, dir: Vec3): Candidate
  {
    Candidate(TorusDistance(g, tor, start, dir), TorusObject, index, true, tor.material)
  }

  function PlaneCandidatesOf(g: Optics, planes: seq<Plane>, start: Vec3, dir: Vec3): (cs: seq<Candidate>)
    ensures |cs| == |planes|
  {
    if |planes| == 0 then []
    else PlaneCandidatesOf(g, planes[..|planes| - 1], start, dir) +
         [PlaneCandidate(g, planes[|planes| - 1], |planes| - 1, start, dir)]
  }

  function SphereCandidatesOf(g: Optics, spheres: seq<Sphere>, start: Vec3, dir: Vec3): (cs: seq<Candidate>)
    ensures |cs| == 2 * |spheres|
  {
    if |spheres| == 0 then []
    else SphereCandidatesOf(g, spheres[..|spheres| - 1], start, dir) +
         SphereCandidates(g, spheres[|spheres| - 1], |spheres| - 1, start, dir)
  }

  function TorusCandidatesOf(g: Optics, tori: seq<Torus>, start: Vec3, dir: Vec3): (cs: seq<Candidate>)
    ensures |cs| == |tori|
  {
    if |tori| == 0 then []
    else TorusCandidatesOf(g, tori[..|tori| - 1], start, dir) +
         [TorusCandidate(g, tori[|tori| - 1], |tori| - 1, start, dir)]
  }

  /** Every candidate of the ray: planes, then each sphere's t1 and t2, then tori. */
  function Candidates(g: Optics, objs: Objects, start: Vec3, dir: Vec3): seq<Candidate>
  {
    PlaneCandidatesOf(g, objs.planes, start, dir) + SphereCandidatesOf(g, objs.spheres, start, dir) +
    TorusCandidatesOf(g, objs.tori, start, dir)
  }

  /** A candidate names an object that exists. */
  predicate NamesObject(objs: Objects, kind: ObjectKind, index: nat)
  {
    match kind
    case NoObject => false
    case PlaneObject => index < |objs.planes|
    case SphereObject => index < |objs.spheres|
    case TorusObject => index < |objs.tori|
  }

  // ---------------------------------------------------------------------------
  // The hit record.

  /** The material of the object a candidate names; C leaves it unset when nothing is hit. */
  function ObjectMaterial(objs: Objects, kind: ObjectKind, index: nat): Material
  {
    match kind
    case NoObject => NoMaterial
    case PlaneObject => if index < |objs.planes| then objs.planes[index].material else NoMaterial
    case SphereObject => if index < |objs.spheres| then objs.spheres[index].material else NoMaterial
    case TorusObject => if index < |objs.tori| then objs.tori[index].material else NoMaterial
  }

  /**
    The surface normal of the selected object at distance t: the plane's
    rotated y axis, or the sphere's and torus's normal geometry; C leaves
    it unset when nothing is hit.
   */
  function SurfaceNormal(g: Optics, objs: Objects, c: Closest, start: Vec3, dir: Vec3): Vec3
  {
    match c.kind
    case NoObject => Zero
    case PlaneObject =>
      if c.index < |objs.planes| then Matrices.MulVec3(objs.planes[c.index].rotate, Vec3(0.0, 1.0, 0.0)) else Zero
    case SphereObject =>
      if c.index < |objs.spheres| then g.sphereNormal(objs.spheres[c.index], start, dir, c.t) else Zero
    case TorusObject =>
      if c.index < |objs.tori| then g.torusNormal(objs.tori[c.index], start, dir, c.t) else Zero
  }

  /** What Scene_traceHit reports for the ray from `start` along `dir`. */
  function HitInfo(g: Optics, objs: Objects, start: Vec3, dir: Vec3): TraceInfo
  {
    var c := SelectAll(Candidates(g, objs, start, dir));
    TraceInfo(c.t, Add(start, Scale(dir, c.t)), SurfaceNormal(g, objs, c, start, dir), c.material)
  }

  /** Every candidate of the list names an existing object and carries that object's material. */
  predicate NameObjects(objs: Objects, cs: seq<Candidate>)
  {
    forall k :: 0 <= k < |cs| ==>
      NamesObject(objs, cs[k].kind, cs[k].index) && cs[k].material == ObjectMaterial(objs, cs[k].kind, cs[k].index)
  }

  /** Candidate k is the one of plane k. */
  predicate IndexesPlanes(planes: seq<Plane>, cs: seq<Candidate>)
  {
    |cs| == |planes| &&
    forall k :: 0 <= k < |cs| ==>
      cs[k].kind == PlaneObject && cs[k].index == k && cs[k].material == planes[k].material
  }

  /** Candidates 2i and 2i + 1 are those of sphere i. */
  predicate IndexesSpheres(spheres: seq<Sphere>, cs: seq<Candidate>)
  {
    |cs| == 2 * |spheres| &&
    forall k :: 0 <= k < |cs| ==>
      cs[k].kind == SphereObject && cs[k].index == k / 2 && cs[k].material == spheres[k / 2].material
  }

  /** Candidate k is the one of torus k. */
  predicate IndexesTori(tori: seq<Torus>, cs: seq<Candidate>)
  {
    |cs| == |tori| &&
    forall k :: 0 <= k < |cs| ==>
      cs[k].kind == TorusObject && cs[k].index == k && cs[k].material == tori[k].material
  }

  /** Every candidate names an existing object, planes first, then spheres, then tori, with its material. */
  lemma CandidatesNameObjects(g: Optics, objs: Objects, start: Vec3, dir: Vec3)
    ensures NameObjects(objs, Candidates(g, objs, start, dir))
  {
    var ps := PlaneCandidatesOf(g, objs.planes, start, dir);
    var ss := SphereCandidatesOf(g, objs.spheres, start, dir);
    var ts := TorusCandidatesOf(g, objs.tori, start, dir);
    PlaneCandidatesNamePlanes(g, objs.planes, start, dir);
    SphereCandidatesNameSpheres(g, objs.spheres, start, dir);
    TorusCandidatesNameTori(g, objs.tori, start, dir);
    assert IndexesPlanes(objs.planes, ps) && IndexesSpheres(objs.spheres, ss) && IndexesTori(objs.tori, ts);
    var cs := ps + ss + ts;
    forall k | 0 <= k < |cs|
      ensures NamesObject(objs, cs[k].kind, cs[k].index) && cs[k].material == ObjectMaterial(objs, cs[k].kind, cs[k].index)
    {
      if k < |ps| {
        assert cs[k] == ps[k];
      } else if k < |ps| + |ss| {
        assert cs[k] == ss[k - |ps|];
      } else {
        assert cs[k] == ts[k - |ps| - |ss|];
      }
    }
  }

  lemma {:induction false} PlaneCandidatesNamePlanes(g: Optics, planes: seq<Plane>, start: Vec3, dir: Vec3)
    ensures IndexesPlanes(planes, PlaneCandidatesOf(g, planes, start, dir))
  {
    if |planes| > 0 {
      var n := |planes| - 1;
      PlaneCandidatesNamePlanes(g, planes[..n], start, dir);
      var prefix := PlaneCandidatesOf(g, planes[..n], start, dir);
      assert IndexesPlanes(planes[..n], prefix);
      var cs := PlaneCandidatesOf(g, planes, start, dir);
      assert cs == prefix + [PlaneCandidate(g, planes[n], n, start, dir)];
      forall k | 0 <= k < |cs|
        ensures cs[k].kind == PlaneObject && cs[k].index == k && cs[k].material == planes[k].material
      {
        if k < n {
          assert cs[k] == prefix[k] && planes[k] == planes[..n][k];
        }
      }
    }
  }

  lemma {:induction false} SphereCandidatesNameSpheres(g: Optics, spheres: seq<Sphere>, start: Vec3, dir: Vec3)
    ensures IndexesSpheres(spheres, SphereCandidatesOf(g, spheres, start, dir))
  {
    if |spheres| > 0 {
      var n := |spheres| - 1;
      SphereCandidatesNameSpheres(g, spheres[..n], start, dir);
      var prefix := SphereCandidatesOf(g, spheres[..n], start, dir);
      assert IndexesSpheres(spheres[..n], prefix);
      var cs := SphereCandidatesOf(g, spheres, start, dir);
      assert cs == prefix + SphereCandidates(g, spheres[n], n, start, dir);
      forall k | 0 <= k < |cs|
        ensures cs[k].kind == SphereObject && cs[k].index == k / 2 && cs[k].material == spheres[k / 2].material
      {
        if k < 2 * n {
          assert cs[k] == prefix[k] && spheres[k / 2] == spheres[..n][k / 2];
        }
      }
    }
  }

  lemma {:induction false} TorusCandidatesNameTori(g: Optics, tori: seq<Torus>, start: Vec3, dir: Vec3)
    ensures IndexesTori(tori, TorusCandidatesOf(g, tori, start, dir))
  {
    if |tori| > 0 {
      var n := |tori| - 1;
      TorusCandidatesNameTori(g, tori[..n], start, dir);
      var prefix := TorusCandidatesOf(g, tori[..n], start, dir);
      assert IndexesTori(tori[..n], prefix);
      var cs := TorusCandidatesOf(g, tori, start, dir);
      assert cs == prefix + [TorusCandidate(g, tori[n], n, start, dir)];
      forall k | 0 <= k < |cs|
        ensures cs[k].kind == TorusObject && cs[k].index == k && cs[k].material == tori[k].material
      {
        if k < n {
          assert cs[k] == prefix[k] && tori[k] == tori[..n][k];
        }
      }
    }
  }

  /**
    Scene_traceHit reports FAR_T and no object exactly when no candidate is
    acceptable; otherwise it reports the nearest acceptable candidate (the
    first of equals), which names an existing object whose material it carries.
   */
  lemma HitIsNearestCandidate(g: Optics, objs: Objects, start: Vec3, dir: Vec3)
    ensures var cs := Candidates(g, objs, start, dir);
      var info := HitInfo(g, objs, start, dir);
      (info.t >= FarT <==> forall k :: 0 <= k < |cs| ==> !Acceptable(cs[k])) &&
      (info.t >= FarT ==> info.t == FarT && info.material == NoMaterial)
    ensures var cs := Candidates(g, objs, start, dir);
      var c := SelectAll(cs);
      c.t < FarT ==> NamesObject(objs, c.kind, c.index) && exists j :: IsFirstMinimum(cs, j) && c == Report(cs[j])
    ensures var c := SelectAll(Candidates(g, objs, start, dir));
      c.t < FarT ==> HitInfo(g, objs, start, dir).material == ObjectMaterial(objs, c.kind, c.index)
  {
    var cs := Candidates(g, objs, start, dir);
    NothingAcceptableMeansNoHit(cs);
    SelectAllStaysBelowFar(cs);
    if exists k :: 0 <= k < |cs| && Acceptable(cs[k]) {
      SelectAllIsFirstMinimum(cs);
      CandidatesNameObjects(g, objs, start, dir);
      var j :| IsFirstMinimum(cs, j) && SelectAll(cs) == Report(cs[j]);
      assert NamesObject(objs, cs[j].kind, cs[j].index) && cs[j].material == ObjectMaterial(objs, cs[j].kind, cs[j].index);
    }
  }


  /**
    A closest-hit query: the hit record Scene_traceHit reports for a ray
    (start, direction). Scene_diffuse and Scene_trace consult it; their
    models are stated for any query that answers as the scene does.
   */
  type HitQuery = (Vec3, Vec3) -> TraceInfo

  /** The query answers every ray as Scene_traceHit does over these objects. */
  ghost predicate Answers(trace: HitQuery, g: Optics, objs: Objects)
  {
    forall start, dir {:trigger HitInfo(g, objs, start, dir)} :: trace(start, dir) == HitInfo(g, objs, start, dir)
  }

  /** The query of the objects themselves. */
  function QueryOf(g: Optics, objs: Objects): (trace: HitQuery)
    ensures Answers(trace, g, objs)
  {
    (start, dir) => HitInfo(g, objs, start, dir)
  }

  // ---------------------------------------------------------------------------
  // Lighting.

  /**
    PointLight_distanceBrightness: (1 - r^2 / dist^2)^2 inside the light's
    range, 0 outside it.
   */
  function DistanceBrightness(point: Vec3, light: PointLight): (b: real)
    ensures LenSq(Sub(light.pos, point)) >= light.distSq ==> b == 0.0
    ensures LenSq(Sub(light.pos, point)) < light.distSq ==> 0.0 < b <= 1.0
  {
    var rSq := LenSq(Sub(light.pos, point));
    if rSq < light.distSq then
      LenSqIsSelfDot(Sub(light.pos, point));
      var rSqInv := 1.0 - rSq / light.distSq;
      QuotientInUnitRange(rSq, light.distSq);
      UnitSquare(rSqInv);
      rSqInv * rSqInv
    else 0.0
  }

  lemma QuotientInUnitRange(a: real, b: real)
    requires 0.0 <= a < b
    ensures 0.0 <= a / b < 1.0
  {
  }

  lemma UnitSquare(u: real)
    requires 0.0 < u <= 1.0
    ensures 0.0 < u * u <= 1.0
  {
    assert u * u <= u by {
      assert u - u * u == u * (1.0 - u);
    }
  }

  /** PointLight_angleBrightness: the cosine of the angle of incidence, cut off at 0. */
  function AngleBrightness(toLightNorm: Vec3, normal: Vec3): (b: real)
    ensures b >= 0.0
  {
    var br := Dot(normal, toLightNorm);
    if br < 0.0 then 0.0 else br
  }

  /** For unit vectors the angle brightness is at most 1, and it is the cosine on the lit side. */
  lemma AngleBrightnessIsCosine(toLightNorm: Vec3, normal: Vec3)
    requires LenSq(toLightNorm) == 1.0 && LenSq(normal) == 1.0
    ensures AngleBrightness(toLightNorm, normal) <= 1.0
    ensures Dot(normal, toLightNorm) >= 0.0 ==> AngleBrightness(toLightNorm, normal) == Dot(normal, toLightNorm)
    ensures Dot(normal, toLightNorm) <= 0.0 ==> AngleBrightness(toLightNorm, normal) == 0.0
  {
    UnitDotAtMostOne(normal, toLightNorm);
  }

  /** Cauchy-Schwarz for unit vectors, from Lagrange's identity. */
  lemma UnitDotAtMostOne(a: Vec3, b: Vec3)
    requires LenSq(a) == 1.0 && LenSq(b) == 1.0
    ensures Dot(a, b) <= 1.0
  {
    CrossLenSq(a, b);
    LenSqIsSelfDot(Cross(a, b));
    var d := Dot(a, b);
    assert d * d <= 1.0;
    SquareAtMostOne(d);
  }

  lemma SquareAtMostOne(d: real)
    requires d * d <= 1.0
    ensures d <= 1.0
  {
  }

  /** The direction from the hit point towards the light. */
  function ToLight(light: PointLight, info: TraceInfo): Vec3
  {
    Sub(light.pos, info.hitPoint)
  }

  /** The light reaches the point: nothing along the shadow ray is nearer than the light. */
  predicate Unblocked(g: Optics, trace: HitQuery, light: PointLight, info: TraceInfo)
  {
    Len(ToLight(light, info), g.sqrt) < trace(info.hitPoint, Direction(g, ToLight(light, info))).t
  }

  function Brightness(g: Optics, light: PointLight, info: TraceInfo): real
  {
    DistanceBrightness(info.hitPoint, light) * AngleBrightness(Direction(g, ToLight(light, info)), info.normal)
  }

  /** Scene_diffuse's colour after the given lights: ambient plus every unblocked light's share. */
  function Lighting(g: Optics, trace: HitQuery, lights: seq<PointLight>, info: TraceInfo): Vec3
  {
    if |lights| == 0 then Vec3(AmbientLight, AmbientLight, AmbientLight)
    else
      var color := Lighting(g, trace, lights[..|lights| - 1], info);
      var light := lights[|lights| - 1];
      if Unblocked(g, trace, light, info) then Add(color, Scale(light.col, Brightness(g, light, info))) else color
  }

  /** One more light adds its share when it reaches the point. */
  lemma LightingStep(g: Optics, trace: HitQuery, lights: seq<PointLight>, i: nat, info: TraceInfo)
    requires i < |lights|
    ensures Lighting(g, trace, lights[..i + 1], info) ==
            if Unblocked(g, trace, lights[i], info)
            then Add(Lighting(g, trace, lights[..i], info), Scale(lights[i].col, Brightness(g, lights[i], info)))
            else Lighting(g, trace, lights[..i], info)
  {
    assert lights[..i + 1][..i] == lights[..i];
  }

  predicate NonNegative(v: Vec3)
  {
    v.x >= 0.0 && v.y >= 0.0 && v.z >= 0.0
  }

  /** A light's share is in [0, 1] of its colour. */
  lemma BrightnessInUnitRange(g: Optics, light: PointLight, info: TraceInfo)
    ensures Brightness(g, light, info) >= 0.0
    ensures LenSq(Direction(g, ToLight(light, info))) == 1.0 && LenSq(info.normal) == 1.0 ==>
      Brightness(g, light, info) <= 1.0
  {
    var dir := Direction(g, ToLight(light, info));
    var d := DistanceBrightness(info.hitPoint, light);
    var a := AngleBrightness(dir, info.normal);
    assert Brightness(g, light, info) == d * a;
    assert 0.0 <= d * a <= a by {
      ScaleByUnit(d, a);
    }
    if LenSq(dir) == 1.0 && LenSq(info.normal) == 1.0 {
      assert a <= 1.0 by {
        AngleBrightnessIsCosine(dir, info.normal);
      }
    }
  }

  lemma ScaleByUnit(x: real, y: real)
    requires 0.0 <= x <= 1.0 && 0.0 <= y
    ensures 0.0 <= x * y <= y
  {
    assert y - x * y == (1.0 - x) * y;
  }

  /** Every channel is at least the ambient light. */
  predicate AtLeastAmbient(c: Vec3)
  {
    c.x >= AmbientLight && c.y >= AmbientLight && c.z >= AmbientLight
  }

  /** Every light has a non-negative colour. */
  predicate NonNegativeLights(lights: seq<PointLight>)
  {
    forall i :: 0 <= i < |lights| ==> NonNegative(lights[i].col)
  }

  /** With lights of non-negative colour, every channel is at least the ambient light. */
  lemma {:induction false} LightingIsAtLeastAmbient(g: Optics, trace: HitQuery, lights: seq<PointLight>, info: TraceInfo)
    requires NonNegativeLights(lights)
    ensures AtLeastAmbient(Lighting(g, trace, lights, info))
  {
    if |lights| > 0 {
      var prefix := lights[..|lights| - 1];
      var light := lights[|lights| - 1];
      assert NonNegativeLights(prefix) by {
        assert forall i :: 0 <= i < |prefix| ==> prefix[i] == lights[i];
      }
      LightingIsAtLeastAmbient(g, trace, prefix, info);
      var c0 := Lighting(g, trace, prefix, info);
      var share := Scale(light.col, Brightness(g, light, info));
      assert NonNegative(share) by {
        BrightnessInUnitRange(g, light, info);
        ScaleKeepsNonNegative(light.col, Brightness(g, light, info));
      }
      assert Lighting(g, trace, lights, info) == if Unblocked(g, trace, light, info) then Add(c0, share) else c0;
      assert AtLeastAmbient(Add(c0, share));
    }
  }

  lemma ScaleKeepsNonNegative(v: Vec3, k: real)
    requires NonNegative(v) && k >= 0.0
    ensures NonNegative(Scale(v, k))
  {
  }

  /** When every light is blocked or out of sight, only the ambient light remains. */
  lemma {:induction false} LightingInShadow(g: Optics, trace: HitQuery, lights: seq<PointLight>, info: TraceInfo)
    requires forall i :: 0 <= i < |lights| ==> !Unblocked(g, trace, lights[i], info)
    ensures Lighting(g, trace, lights, info) == Vec3(AmbientLight, AmbientLight, AmbientLight)
  {
    if |lights| > 0 {
      var prefix := lights[..|lights| - 1];
      assert forall i :: 0 <= i < |prefix| ==> prefix[i] == lights[i];
      LightingInShadow(g, trace, prefix, info);
    }
  }

  // ---------------------------------------------------------------------------
  // Reflections.

  /** The mirror direction: d - 2 (d . n) n. */
  function Reflect(d: Vec3, n: Vec3): Vec3
  {
    Sub(d, Scale(n, 2.0 * Dot(d, n)))
  }

  /** About a unit normal, reflection keeps the ray's length and flips its normal component. */
  lemma ReflectionIsMirror(d: Vec3, n: Vec3)
    requires LenSq(n) == 1.0
    ensures Dot(Reflect(d, n), n) == -Dot(d, n)
    ensures LenSq(Reflect(d, n)) == LenSq(d)
  {
    var k := 2.0 * Dot(d, n);
    var r := Reflect(d, n);
    assert Dot(r, n) == Dot(d, n) - k * LenSq(n);
    assert LenSq(r) == LenSq(d) - 2.0 * k * Dot(d, n) + k * k * LenSq(n);
  }

  /** The sky is sampled when there is a texture and the flag for this depth is set. */
  predicate SkySampled(sky: Sky, depth: nat)
  {
    sky.pixels.Some? && ((depth > 0 && sky.reflectionsEnabled != 0) || (depth == 0 && sky.enabled != 0))
  }

  /** The colour of a ray that hits nothing: the sky texel, or black. */
  function Background(g: Optics, sky: Sky, depth: nat, dir: Vec3): Vec3
  {
    if SkySampled(sky, depth) then g.skyTexel(sky, dir) else Zero
  }

  /**
    The colour seen along a ray at reflection depth `depth`: the lit diffuse
    colour of the surface hit, plus its specular colour times what the
    mirrored ray sees, while the surface is a mirror and the depth is below
    NUM_REFLECTIONS.
   */
  function Bounce(g: Optics, trace: HitQuery, lights: seq<PointLight>, sky: Sky, from: Vec3, to: Vec3, depth: nat): Vec3
    requires depth <= NumReflections
    decreases NumReflections - depth
  {
    var info := trace(from, to);
    if info.t >= FarT then Background(g, sky, depth, to)
    else
      var diff := Mul(Lighting(g, trace, lights, info), info.material.diffuse);
      if info.material.hasSpecular && depth < NumReflections then
        Add(diff, Mul(info.material.specular, Bounce(g, trace, lights, sky, info.hitPoint, Reflect(to, info.normal), depth + 1)))
      else diff
  }

  /** The final clamp of Scene_trace: each channel is cut off at 1 from above only. */
  function ClampColor(c: Vec3): (r: Vec3)
    ensures r.x <= 1.0 && r.y <= 1.0 && r.z <= 1.0
    ensures c.x <= 1.0 ==> r.x == c.x
    ensures c.y <= 1.0 ==> r.y == c.y
    ensures c.z <= 1.0 ==> r.z == c.z
  {
    Vec3(if c.x > 1.0 then 1.0 else c.x, if c.y > 1.0 then 1.0 else c.y, if c.z > 1.0 then 1.0 else c.z)
  }

  /** Clamping only lowers channels above 1 and leaves a non-negative colour non-negative. */
  lemma ClampColorIsIdempotent(c: Vec3)
    ensures ClampColor(ClampColor(c)) == ClampColor(c)
    ensures NonNegative(c) ==> NonNegative(ClampColor(c))
    ensures ClampColor(c).x <= c.x && ClampColor(c).y <= c.y && ClampColor(c).z <= c.z
  {
  }

  /** A primary ray that hits nothing with the sky off (or absent) sees black. */
  lemma MissWithoutSkyIsBlack(g: Optics, trace: HitQuery, lights: seq<PointLight>, sky: Sky, start: Vec3, dir: Vec3)
    requires trace(start, dir).t >= FarT
    requires sky.pixels.None? || sky.enabled == 0
    ensures ClampColor(Bounce(g, trace, lights, sky, start, dir, 0)) == Zero
  {
  }

  /** A primary ray that hits a surface without a mirror part sees only that surface's lit diffuse colour. */
  lemma MatteSurfaceEndsTrace(g: Optics, trace: HitQuery, lights: seq<PointLight>, sky: Sky, start: Vec3, dir: Vec3)
    requires trace(start, dir).t < FarT
    requires !trace(start, dir).material.hasSpecular
    ensures var info := trace(start, dir);
      Bounce(g, trace, lights, sky, start, dir, 0) == Mul(Lighting(g, trace, lights, info), info.material.diffuse)
  {
  }

  /** Reflections stop at NUM_REFLECTIONS: a ray at the deepest level is not followed further. */
  lemma DeepestLevelIsNotReflected(g: Optics, trace: HitQuery, lights: seq<PointLight>, sky: Sky, from: Vec3, to: Vec3)
    ensures var info := trace(from, to);
      Bounce(g, trace, lights, sky, from, to, NumReflections) ==
      if info.t >= FarT then Background(g, sky, NumReflections, to)
      else Mul(Lighting(g, trace, lights, info), info.material.diffuse)
  {
  }

  /**
    Appending one candidate to the selection is one more test: the loops of
    Scene_traceHit extend the candidate list one test at a time.
   */
  lemma SelectAllAppend(cs: seq<Candidate>, c: Candidate)
    ensures SelectAll(cs + [c]) == Select(SelectAll(cs), c)
  {
    assert (cs + [c])[..|cs|] == cs;
  }

  /** One more plane adds its candidate to the end of the list. */
  lemma PlaneCandidatesStep(g: Optics, planes: seq<Plane>, i: nat, start: Vec3, dir: Vec3)
    requires i < |planes|
    ensures PlaneCandidatesOf(g, planes[..i + 1], start, dir) ==
            PlaneCandidatesOf(g, planes[..i], start, dir) + [PlaneCandidate(g, planes[i], i, start, dir)]
  {
    assert planes[..i + 1][..i] == planes[..i];
  }

  /** One more sphere adds its two candidates to the end of the list. */
  lemma SphereCandidatesStep(g: Optics, spheres: seq<Sphere>, i: nat, start: Vec3, dir: Vec3)
    requires i < |spheres|
    ensures SphereCandidatesOf(g, spheres[..i + 1], start, dir) ==
            SphereCandidatesOf(g, spheres[..i], start, dir) + SphereCandidates(g, spheres[i], i, start, dir)
  {
    assert spheres[..i + 1][..i] == spheres[..i];
  }

  /** One more torus adds its candidate to the end of the list. */
  lemma TorusCandidatesStep(g: Optics, tori: seq<Torus>, i: nat, start: Vec3, dir: Vec3)
    requires i < |tori|
    ensures TorusCandidatesOf(g, tori[..i + 1], start, dir) ==
            TorusCandidatesOf(g, tori[..i], start, dir) + [TorusCandidate(g, tori[i], i, start, dir)]
  {
    assert tori[..i + 1][..i] == tori[..i];
  }

  /** Every torus's tube lies within its ring. */
  predicate TubesFit(tori: seq<Torus>)
  {
    forall i :: 0 <= i < |tori| ==> tori[i].tubeRadius <= tori[i].radius
  }

  lemma TubesFitAppend(tori: seq<Torus>, torus: Torus)
    requires TubesFit(tori) && torus.tubeRadius <= torus.radius
    ensures TubesFit(tori + [torus])
  {
    var ts := tori + [torus];
    forall i | 0 <= i < |ts| ensures ts[i].tubeRadius <= ts[i].radius {
      if i < |tori| {
        assert ts[i] == tori[i];
      }
    }
  }

  /** A ray that hits nothing sees the background. */
  lemma BounceOfMiss(g: Optics, trace: HitQuery, lights: seq<PointLight>, sky: Sky, from: Vec3, to: Vec3, depth: nat,
                     info: TraceInfo)
    requires depth <= NumReflections && info == trace(from, to) && info.t >= FarT
    ensures Bounce(g, trace, lights, sky, from, to, depth) == Background(g, sky, depth, to)
  {
  }

  /** A ray that hits a surface sees its lit diffuse colour, plus the mirrored ray through its specular filter. */
  lemma BounceOfHit(g: Optics, trace: HitQuery, lights: seq<PointLight>, sky: Sky, from: Vec3, to: Vec3, depth: nat,
                    info: TraceInfo)
    requires depth <= NumReflections && info == trace(from, to) && info.t < FarT
    ensures var diff := Mul(Lighting(g, trace, lights, info), info.material.diffuse);
      Bounce(g, trace, lights, sky, from, to, depth) ==
      if info.material.hasSpecular && depth < NumReflections
      then Add(diff, Mul(info.material.specular,
                         Bounce(g, trace, lights, sky, info.hitPoint, Reflect(to, info.normal), depth + 1)))
      else diff
  {
  }

  /** What the ray from `from` in direction `to` sees at depth `depth`, as one function value. */
  function Seen(g: Optics, trace: HitQuery, lights: seq<PointLight>, sky: Sky): (Vec3, Vec3, nat) -> Vec3
  {
    (from: Vec3, to: Vec3, depth: nat) =>
      if depth <= NumReflections then Bounce(g, trace, lights, sky, from, to, depth) else Zero
  }

  /**
    The levels recorded so far unfold the colour `seen` at each depth k into
    the level's diffuse colour plus its specular filter times what the next
    level sees.
   */
  ghost predicate Unfolds(seen: (Vec3, Vec3, nat) -> Vec3,
                          froms: seq<Vec3>, tos: seq<Vec3>, diffs: seq<Vec3>, specs: seq<Vec3>)
  {
    |froms| == |tos| == |diffs| + 1 && |specs| == |diffs| &&
    forall k :: 0 <= k < |diffs| ==>
      seen(froms[k], tos[k], k) == Add(diffs[k], Mul(specs[k], seen(froms[k + 1], tos[k + 1], k + 1)))
  }

  /** One equation of an unfolding: the level-`k` colour in terms of level `k + 1`. */
  lemma UnfoldsAt(seen: (Vec3, Vec3, nat) -> Vec3,
                  froms: seq<Vec3>, tos: seq<Vec3>, diffs: seq<Vec3>, specs: seq<Vec3>, k: nat)
    requires Unfolds(seen, froms, tos, diffs, specs) && k < |diffs|
    ensures seen(froms[k], tos[k], k) == Add(diffs[k], Mul(specs[k], seen(froms[k + 1], tos[k + 1], k + 1)))
  {
  }

  /** Recording one more level whose equation holds keeps the stack an unfolding. */
  lemma UnfoldsExtend(seen: (Vec3, Vec3, nat) -> Vec3,
                      froms: seq<Vec3>, tos: seq<Vec3>, diffs: seq<Vec3>, specs: seq<Vec3>,
                      from: Vec3, to: Vec3, diff: Vec3, spec: Vec3)
    requires Unfolds(seen, froms, tos, diffs, specs)
    requires seen(froms[|diffs|], tos[|diffs|], |diffs|) == Add(diff, Mul(spec, seen(from, to, |diffs| + 1)))
    ensures Unfolds(seen, froms + [from], tos + [to], diffs + [diff], specs + [spec])
  {
    var fs, ts, ds, ss := froms + [from], tos + [to], diffs + [diff], specs + [spec];
    forall k | 0 <= k < |ds|
      ensures seen(fs[k], ts[k], k) == Add(ds[k], Mul(ss[k], seen(fs[k + 1], ts[k + 1], k + 1)))
    {
      if k < |diffs| {
        UnfoldsAt(seen, froms, tos, diffs, specs, k);
      }
    }
  }

  /**
    The second loop of Scene_trace: folds the recorded levels from the
    deepest back to the first, each level adding its diffuse colour to its
    specular filter times the colour folded so far.
   */
  method FoldLevels(ghost seen: (Vec3, Vec3, nat) -> Vec3, ghost froms: seq<Vec3>, ghost tos: seq<Vec3>,
                    diffs: array<Vec3>, specs: array<Vec3>, count: nat) returns (color: Vec3)
    requires count < diffs.Length && count < specs.Length
    requires Unfolds(seen, froms, tos, diffs[..count], specs[..count])
    requires diffs[count] == seen(froms[count], tos[count], count)
    ensures color == seen(froms[0], tos[0], 0)
  {
    ghost var ds, ss := diffs[..count], specs[..count];
    color := diffs[count];
    var level := count as int - 1;
    while level >= 0
      invariant -1 <= level < count == |ds| == |ss| && |froms| == |tos| == count + 1
      invariant Unfolds(seen, froms, tos, ds, ss)
      invariant color == seen(froms[level + 1], tos[level + 1], level + 1)
    {
      assert ds[level] == diffs[level] && ss[level] == specs[level];
      UnfoldsAt(seen, froms, tos, ds, ss, level);
      color := Add(diffs[level], Mul(specs[level], color));
      level := level - 1;
    }
  }

  // ---------------------------------------------------------------------------
  // The scene object.

  class Scene {
    var pointLights: seq<PointLight>
    var pointLightsSize: nat
    var planes: seq<Plane>
    var planesSize: nat
    var spheres: seq<Sphere>
    var spheresSize: nat
    var tori: seq<Torus>
    var toriSize: nat
    var sky: Sky

    /** Each list within its capacity, capacities powers of two, every torus tube within its ring. */
    ghost predicate Valid()
      reads this
    {
      |pointLights| <= pointLightsSize && IsPowerOfTwo(pointLightsSize) &&
      |planes| <= planesSize && IsPowerOfTwo(planesSize) &&
      |spheres| <= spheresSize && IsPowerOfTwo(spheresSize) &&
      |tori| <= toriSize && IsPowerOfTwo(toriSize) &&
      TubesFit(tori)
    }

    function Shapes(): Objects
      reads this
    {
      Objects(planes, spheres, tori)
    }

    constructor Init()
      ensures Valid()
      ensures pointLights == [] && planes == [] && spheres == [] && tori == []
      ensures pointLightsSize == 1 && planesSize == 1 && spheresSize == 1 && toriSize == 1
      ensures sky == Sky(None, 0, 0, 0, 0)
    {
      pointLights, planes, spheres, tori := [], [], [], [];
      pointLightsSize, planesSize, spheresSize, toriSize := 1, 1, 1, 1;
      sky := Sky(None, 0, 0, 0, 0);
    }

    /**
      Scene_create: four empty lists with room for one object each and no
      sky. `allocOk` says whether all five allocations succeed; otherwise
      the result is null.
     */
    static method Create(allocOk: bool) returns (scene: Scene?)
      ensures !allocOk ==> scene == null
      ensures allocOk ==> scene != null && fresh(scene) && scene.Valid()
      ensures allocOk ==> scene.pointLights == [] && scene.planes == [] && scene.spheres == [] && scene.tori == []
      ensures allocOk ==> scene.pointLightsSize == 1 && scene.planesSize == 1 &&
                          scene.spheresSize == 1 && scene.toriSize == 1
      ensures allocOk ==> scene.sky == Sky(None, 0, 0, 0, 0)
    {
      if allocOk {
        scene := new Scene.Init();
      } else {
        scene := null;
      }
    }

    /** Scene_setSky: replaces the sky and nothing else. */
    method SetSky(pixels: Option<seq<byte>>, width: int, height: int, skyEnabled: int, reflectionsEnabled: int)
      modifies this
      ensures sky == Sky(pixels, width, height, skyEnabled, reflectionsEnabled)
      ensures pointLights == old(pointLights) && planes == old(planes) && spheres == old(spheres) && tori == old(tori)
      ensures pointLightsSize == old(pointLightsSize) && planesSize == old(planesSize) &&
              spheresSize == old(spheresSize) && toriSize == old(toriSize)
    {
      sky := Sky(pixels, width, height, skyEnabled, reflectionsEnabled);
    }

    /** Scene_addPointLight; `reallocOk` says whether doubling a full list succeeds. */
    method AddPointLight(pos: Vec3, col: Vec3, dist: real, reallocOk: bool)
      requires Valid()
      modifies this
      ensures Valid()
      ensures pointLightsSize == GrownSize(old(|pointLights|), old(pointLightsSize), reallocOk)
      ensures pointLights == if CanAdd(old(|pointLights|), old(pointLightsSize), reallocOk)
                             then old(pointLights) + [NewPointLight(pos, col, dist)] else old(pointLights)
      ensures planes == old(planes) && spheres == old(spheres) && tori == old(tori) && sky == old(sky)
      ensures planesSize == old(planesSize) && spheresSize == old(spheresSize) && toriSize == old(toriSize)
    {
      GrowthKeepsRoom(|pointLights|, pointLightsSize, reallocOk);
      var canAdd := true;
      if |pointLights| == pointLightsSize {
        if reallocOk {
          pointLightsSize := pointLightsSize * 2;
        } else {
          canAdd := false;
        }
      }
      if canAdd {
        pointLights := pointLights + [PointLight(pos, col, dist * dist)];
      }
    }

    /** Scene_addPlane; the sine and cosine build its rotation. */
    method AddPlane(center: Vec3, width: real, height: real, yaw: real, pitch: real, material: Material,
                    reallocOk: bool, sine: real -> real, cosine: real -> real)
      requires Valid()
      requires Pythagorean(sine, cosine, yaw) && Pythagorean(sine, cosine, pitch)
      modifies this
      ensures Valid()
      ensures planesSize == GrownSize(old(|planes|), old(planesSize), reallocOk)
      ensures planes == if CanAdd(old(|planes|), old(planesSize), reallocOk)
                        then old(planes) + [NewPlane(center, width, height, yaw, pitch, material, sine, cosine)]
                        else old(planes)
      ensures pointLights == old(pointLights) && spheres == old(spheres) && tori == old(tori) && sky == old(sky)
      ensures pointLightsSize == old(pointLightsSize) && spheresSize == old(spheresSize) && toriSize == old(toriSize)
    {
      GrowthKeepsRoom(|planes|, planesSize, reallocOk);
      var canAdd := true;
      if |planes| == planesSize {
        if reallocOk {
          planesSize := planesSize * 2;
        } else {
          canAdd := false;
        }
      }
      if canAdd {
        planes := planes + [NewPlane(center, width, height, yaw, pitch, material, sine, cosine)];
      }
    }

    /** Scene_addSphere */
    method AddSphere(center: Vec3, radius: real, material: Material, reallocOk: bool)
      requires Valid()
      modifies this
      ensures Valid()
      ensures spheresSize == GrownSize(old(|spheres|), old(spheresSize), reallocOk)
      ensures spheres == if CanAdd(old(|spheres|), old(spheresSize), reallocOk)
                         then old(spheres) + [NewSphere(center, radius, material)] else old(spheres)
      ensures pointLights == old(pointLights) && planes == old(planes) && tori == old(tori) && sky == old(sky)
      ensures pointLightsSize == old(pointLightsSize) && planesSize == old(planesSize) && toriSize == old(toriSize)
    {
      GrowthKeepsRoom(|spheres|, spheresSize, reallocOk);
      var canAdd := true;
      if |spheres| == spheresSize {
        if reallocOk {
          spheresSize := spheresSize * 2;
        } else {
          canAdd := false;
        }
      }
      if canAdd {
        spheres := spheres + [NewSphere(center, radius, material)];
      }
    }

    /** Scene_addTorus: the tube radius is clamped to the ring radius before it is stored. */
    method AddTorus(center: Vec3, radius: real, tubeRadius: real, yaw: real, pitch: real, material: Material,
                    reallocOk: bool, sine: real -> real, cosine: real -> real)
      requires Valid()
      requires Pythagorean(sine, cosine, yaw) && Pythagorean(sine, cosine, pitch)
      modifies this
      ensures Valid()
      ensures toriSize == GrownSize(old(|tori|), old(toriSize), reallocOk)
      ensures tori == if CanAdd(old(|tori|), old(toriSize), reallocOk)
                      then old(tori) + [NewTorus(center, radius, tubeRadius, yaw, pitch, material, sine, cosine)]
                      else old(tori)
      ensures pointLights == old(pointLights) && planes == old(planes) && spheres == old(spheres) && sky == old(sky)
      ensures pointLightsSize == old(pointLightsSize) && planesSize == old(planesSize) && spheresSize == old(spheresSize)
    {
      GrowthKeepsRoom(|tori|, toriSize, reallocOk);
      var canAdd := true;
      if |tori| == toriSize {
        if reallocOk {
          toriSize := toriSize * 2;
        } else {
          canAdd := false;
        }
      }
      if canAdd {
        var torus := NewTorus(center, radius, tubeRadius, yaw, pitch, material, sine, cosine);
        NewTorusTube(center, radius, tubeRadius, yaw, pitch, material, sine, cosine);
        TubesFitAppend(tori, torus);
        tori := tori + [torus];
      }
    }

    /**
      Scene_traceHit: the closest acceptable candidate over the planes, each
      sphere's two roots and the tori, and the hit record built from it.
     */
    method TraceHit(g: Optics, start: Vec3, rayDir: Vec3) returns (info: TraceInfo)
      ensures info == HitInfo(g, Shapes(), start, rayDir)
    {
      var closest := Closest(FarT, NoObject, 0, NoMaterial);
      ghost var ps := PlaneCandidatesOf(g, planes, start, rayDir);
      ghost var ss := SphereCandidatesOf(g, spheres, start, rayDir);
      closest := ScanPlanes(g, start, rayDir, [], closest);
      assert [] + ps == ps;
      closest := ScanSpheres(g, start, rayDir, ps, closest);
      closest := ScanTori(g, start, rayDir, ps + ss, closest);
      info := TraceInfo(closest.t, Add(start, Scale(rayDir, closest.t)),
                        SurfaceNormal(g, Shapes(), closest, start, rayDir), closest.material);
    }

    /** The planes loop of Scene_traceHit, continuing the selection made over `before`. */
    method ScanPlanes(g: Optics, start: Vec3, rayDir: Vec3, ghost before: seq<Candidate>, closest0: Closest)
      returns (closest: Closest)
      requires closest0 == SelectAll(before)
      ensures closest == SelectAll(before + PlaneCandidatesOf(g, planes, start, rayDir))
    {
      closest := closest0;
      ghost var cs := before;
      var i := 0;
      while i < |planes|
        invariant 0 <= i <= |planes|
        invariant cs == before + PlaneCandidatesOf(g, planes[..i], start, rayDir) && closest == SelectAll(cs)
      {
        var c := PlaneCandidate(g, planes[i], i, start, rayDir);
        if c.fits && c.t < closest.t && c.t > Epsilon {
          closest := Closest(c.t, PlaneObject, i, c.material);
        }
        SelectAllAppend(cs, c);
        PlaneCandidatesStep(g, planes, i, start, rayDir);
        cs := cs + [c];
        i := i + 1;
      }
      assert planes[..i] == planes;
    }

    /** The spheres loop of Scene_traceHit: both roots are tested only when the ray meets the sphere. */
    method ScanSpheres(g: Optics, start: Vec3, rayDir: Vec3, ghost before: seq<Candidate>, closest0: Closest)
      returns (closest: Closest)
      requires closest0 == SelectAll(before)
      ensures closest == SelectAll(before + SphereCandidatesOf(g, spheres, start, rayDir))
    {
      closest := closest0;
      ghost var cs := before;
      var i := 0;
      while i < |spheres|
        invariant 0 <= i <= |spheres|
        invariant cs == before + SphereCandidatesOf(g, spheres[..i], start, rayDir) && closest == SelectAll(cs)
      {
        var pair := SphereCandidates(g, spheres[i], i, start, rayDir);
        if pair[0].fits {
          if pair[0].t < closest.t && pair[0].t > Epsilon {
            closest := Closest(pair[0].t, SphereObject, i, pair[0].material);
          }
          if pair[1].t < closest.t && pair[1].t > Epsilon {
            closest := Closest(pair[1].t, SphereObject, i, pair[1].material);
          }
        }
        SelectAllAppend(cs, pair[0]);
        SelectAllAppend(cs + [pair[0]], pair[1]);
        SphereCandidatesStep(g, spheres, i, start, rayDir);
        cs := cs + [pair[0]] + [pair[1]];
        i := i + 1;
      }
      assert spheres[..i] == spheres;
    }

    /** The tori loop of Scene_traceHit: each torus is tested at the first root the search finds, or at -1. */
    method ScanTori(g: Optics, start: Vec3, rayDir: Vec3, ghost before: seq<Candidate>, closest0: Closest)
      returns (closest: Closest)
      requires closest0 == SelectAll(before)
      ensures closest == SelectAll(before + TorusCandidatesOf(g, tori, start, rayDir))
    {
      closest := closest0;
      ghost var cs := before;
      var i := 0;
      while i < |tori|
        invariant 0 <= i <= |tori|
        invariant cs == before + TorusCandidatesOf(g, tori[..i], start, rayDir) && closest == SelectAll(cs)
      {
        var torus := tori[i];
        var interval := TorusInterval(g, torus, start, rayDir);
        var t := TorusHitDistance(TorusQuartic(g, torus, start, rayDir), interval.0, interval.1);
        if t < closest.t && t > Epsilon {
          closest := Closest(t, TorusObject, i, torus.material);
        }
        ghost var c := Candidate(t, TorusObject, i, true, torus.material);
        SelectAllAppend(cs, c);
        TorusCandidatesStep(g, tori, i, start, rayDir);
        cs := cs + [c];
        i := i + 1;
      }
      assert tori[..i] == tori;
    }

    /** Scene_diffuse: ambient light plus each light that reaches the hit point, weighted by its brightness. */
    method Diffuse(g: Optics, ghost trace: HitQuery, info: TraceInfo) returns (color: Vec3)
      requires Answers(trace, g, Shapes())
      ensures color == Lighting(g, trace, pointLights, info)
    {
      color := Vec3(AmbientLight, AmbientLight, AmbientLight);
      var i := 0;
      while i < |pointLights|
        invariant 0 <= i <= |pointLights|
        invariant color == Lighting(g, trace, pointLights[..i], info)
      {
        var lit, share := LightShare(g, trace, pointLights[i], info);
        LightingStep(g, trace, pointLights, i, info);
        if lit {
          color := Add(color, share);
        }
        i := i + 1;
      }
      assert pointLights[..i] == pointLights;
    }

    /**
      The body of Scene_diffuse's loop for one light: a shadow ray towards
      the light, and the light's colour weighted by its brightness.
     */
    method LightShare(g: Optics, ghost trace: HitQuery, light: PointLight, info: TraceInfo) returns (lit: bool, share: Vec3)
      requires Answers(trace, g, Shapes())
      ensures lit == Unblocked(g, trace, light, info)
      ensures share == Scale(light.col, Brightness(g, light, info))
    {
      var toLight := Sub(light.pos, info.hitPoint);
      var toLightNorm := Direction(g, toLight);
      var brightness := DistanceBrightness(info.hitPoint, light) * AngleBrightness(toLightNorm, info.normal);
      share := Scale(light.col, brightness);
      assert share == Scale(light.col, Brightness(g, light, info));
      var infoShadow := TraceHit(g, info.hitPoint, toLightNorm);
      var tL := Len(toLight, g.sqrt);
      lit := tL < infoShadow.t;
    }

    /**
      One pass of Scene_trace's first loop at reflection depth `depth`: the
      colour recorded for this level and whether the ray goes on, mirrored,
      to the next level. Together they make up what the ray sees.
     */
    method TraceLevel(g: Optics, ghost trace: HitQuery, from: Vec3, to: Vec3, depth: nat)
      returns (diff: Vec3, spec: Vec3, more: bool, nextFrom: Vec3, nextTo: Vec3)
      requires depth <= NumReflections && Answers(trace, g, Shapes())
      ensures more ==> depth < NumReflections
      ensures more ==> Bounce(g, trace, pointLights, sky, from, to, depth) ==
                       Add(diff, Mul(spec, Bounce(g, trace, pointLights, sky, nextFrom, nextTo, depth + 1)))
      ensures !more ==> diff == Bounce(g, trace, pointLights, sky, from, to, depth)
    {
      var info := TraceHit(g, from, to);
      spec, nextFrom, nextTo := Zero, from, to;
      if info.t >= FarT {
        if sky.pixels.Some? && ((depth > 0 && sky.reflectionsEnabled != 0) || (depth == 0 && sky.enabled != 0)) {
          diff := g.skyTexel(sky, to);
        } else {
          diff := Zero;
        }
        more := false;
        assert diff == Bounce(g, trace, pointLights, sky, from, to, depth) by {
          BounceOfMiss(g, trace, pointLights, sky, from, to, depth, info);
        }
      } else {
        var lit := Diffuse(g, trace, info);
        diff := Mul(lit, info.material.diffuse);
        spec := info.material.specular;
        more := info.material.hasSpecular && depth < NumReflections;
        if more {
          nextFrom := info.hitPoint;
          nextTo := Sub(to, Scale(info.normal, 2.0 * Dot(to, info.normal)));
          assert Bounce(g, trace, pointLights, sky, from, to, depth) ==
                 Add(diff, Mul(spec, Bounce(g, trace, pointLights, sky, nextFrom, nextTo, depth + 1))) by {
            BounceOfHit(g, trace, pointLights, sky, from, to, depth, info);
          }
        } else {
          assert diff == Bounce(g, trace, pointLights, sky, from, to, depth) by {
            BounceOfHit(g, trace, pointLights, sky, from, to, depth, info);
          }
        }
      }
    }

    /**
      Scene_trace: follows the ray through at most NUM_REFLECTIONS mirror
      bounces, recording each level's diffuse and specular colour, then
      folds the levels back to front and clamps the result.
     */
    method Trace(g: Optics, ghost trace: HitQuery, start: Vec3, rayDir: Vec3) returns (color: Vec3)
      requires Answers(trace, g, Shapes())
      ensures color == ClampColor(Bounce(g, trace, pointLights, sky, start, rayDir, 0))
    {
      var diffs := new Vec3[NumReflections + 1];
      var specs := new Vec3[NumReflections + 1];
      var from, to := start, rayDir;
      var reflectCount := 0;
      ghost var froms, tos := [start], [rayDir];
      var done := false;
      while !done
        invariant 0 <= reflectCount <= NumReflections && |froms| == |tos| == reflectCount + 1
        invariant froms[0] == start && tos[0] == rayDir
        invariant Unfolds(Seen(g, trace, pointLights, sky), froms, tos, diffs[..reflectCount], specs[..reflectCount])
        invariant froms[reflectCount] == from && tos[reflectCount] == to
        invariant done ==> diffs[reflectCount] == Bounce(g, trace, pointLights, sky, from, to, reflectCount)
        decreases NumReflections - reflectCount + (if done then 0 else 1)
      {
        var diff, spec, more, nextFrom, nextTo := TraceLevel(g, trace, from, to, reflectCount);
        ghost var ds, ss := diffs[..reflectCount], specs[..reflectCount];
        diffs[reflectCount], specs[reflectCount] := diff, spec;
        assert diffs[..reflectCount] == ds && specs[..reflectCount] == ss;
        if more {
          UnfoldsExtend(Seen(g, trace, pointLights, sky), froms, tos, ds, ss, nextFrom, nextTo, diff, spec);
          assert diffs[..reflectCount + 1] == ds + [diff] && specs[..reflectCount + 1] == ss + [spec];
          from, to := nextFrom, nextTo;
          reflectCount := reflectCount + 1;
          froms, tos := froms + [from], tos + [to];
        } else {
          done := true;
        }
      }
      assert diffs[reflectCount] == Seen(g, trace, pointLights, sky)(froms[reflectCount], tos[reflectCount], reflectCount);
      color := FoldLevels(Seen(g, trace, pointLights, sky), froms, tos, diffs, specs, reflectCount);
      color := ClampColor(color);
    }
  }
}
