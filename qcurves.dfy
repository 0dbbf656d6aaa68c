/**
  Quadratic curves a t^2 + b t + c over Vec3 (RayTracer/QCurve.c), the pieces
  of a camera path.
 */
module QCurves {
  import opened Vectors

  datatype QCurve = QCurve(a: Vec3, b: Vec3, c: Vec3)

  /** QCurve_interpolate: the point at parameter t. */
  function Interpolate(q: QCurve, t: real): Vec3
  {
    var t2 := t * t;
    Vec3(q.a.x * t2 + q.b.x * t + q.c.x,
         q.a.y * t2 + q.b.y * t + q.c.y,
         q.a.z * t2 + q.b.z * t + q.c.z)
  }

  /** The derivative of the curve at parameter t, 2 a t + b. */
  function Tangent(q: QCurve, t: real): Vec3
  {
    Add(Scale(q.a, 2.0 * t), q.b)
  }

  /**
    QCurve_create: the quadratic from point0 (at t = 0) to point1 (at t = 1)
    whose derivative is `deriv` at t = 0 when derivPoint is 0, and at t = 1
    otherwise.
   */
  function Create(point0: Vec3, point1: Vec3, deriv: Vec3, derivPoint: int): (q: QCurve)
    ensures Interpolate(q, 0.0) == point0
    ensures Interpolate(q, 1.0) == point1
    ensures derivPoint == 0 ==> Tangent(q, 0.0) == deriv
    ensures derivPoint != 0 ==> Tangent(q, 1.0) == deriv
  {
    if derivPoint == 0 then
      QCurve(Vec3(point1.x - point0.x - deriv.x, point1.y - point0.y - deriv.y, point1.z - point0.z - deriv.z),
             deriv,
             point0)
    else
      QCurve(Vec3(deriv.x + point0.x - point1.x, deriv.y + point0.y - point1.y, deriv.z + point0.z - point1.z),
             Vec3(2.0 * (point1.x - point0.x) - deriv.x, 2.0 * (point1.y - point0.y) - deriv.y,
                  2.0 * (point1.z - point0.z) - deriv.z),
             point0)
  }

  /** QCurve_getDerivative: the tangent at t = 0 when derivPoint is 0, at t = 1 otherwise. */
  function GetDerivative(q: QCurve, derivPoint: int): (r: Vec3)
    ensures r == Tangent(q, if derivPoint == 0 then 0.0 else 1.0)
  {
    var t := if derivPoint == 0 then 0.0 else 2.0;
    Vec3(q.a.x * t + q.b.x, q.a.y * t + q.b.y, q.a.z * t + q.b.z)
  }

  /**
    The two end points and one end tangent determine the curve: any quadratic
    meeting Create's three conditions is Create's curve.
   */
  lemma CreateIsUnique(q: QCurve, point0: Vec3, point1: Vec3, deriv: Vec3, derivPoint: int)
    requires Interpolate(q, 0.0) == point0 && Interpolate(q, 1.0) == point1
    requires Tangent(q, if derivPoint == 0 then 0.0 else 1.0) == deriv
    ensures q == Create(point0, point1, deriv, derivPoint)
  {
  }

  /** One coordinate of the exact expansion f(t + h) = f(t) + h f'(t) + h^2 a. */
  lemma ExpandQuadratic(a: real, b: real, c: real, t: real, h: real)
    ensures a * ((t + h) * (t + h)) + b * (t + h) + c
         == ((a * (t * t) + b * t + c) + (a * (2.0 * t) + b) * h) + a * (h * h)
  {
  }

  /** Tangent is the derivative of Interpolate: the expansion around t is exact. */
  lemma TangentIsDerivative(q: QCurve, t: real, h: real)
    ensures Interpolate(q, t + h)
         == Add(Add(Interpolate(q, t), Scale(Tangent(q, t), h)), Scale(q.a, h * h))
  {
    ExpandX(q, t, h);
    ExpandY(q, t, h);
    ExpandZ(q, t, h);
    Assemble(Interpolate(q, t + h), Interpolate(q, t), Tangent(q, t), q.a, h);
  }

  /** The expansion of TangentIsDerivative in the x, y and z coordinates, one lemma each. */
  lemma ExpandX(q: QCurve, t: real, h: real)
    ensures Interpolate(q, t + h).x == (Interpolate(q, t).x + Tangent(q, t).x * h) + q.a.x * (h * h)
  {
    ExpandQuadratic(q.a.x, q.b.x, q.c.x, t, h);
  }

  lemma ExpandY(q: QCurve, t: real, h: real)
    ensures Interpolate(q, t + h).y == (Interpolate(q, t).y + Tangent(q, t).y * h) + q.a.y * (h * h)
  {
    ExpandQuadratic(q.a.y, q.b.y, q.c.y, t, h);
  }

  lemma ExpandZ(q: QCurve, t: real, h: real)
    ensures Interpolate(q, t + h).z == (Interpolate(q, t).z + Tangent(q, t).z * h) + q.a.z * (h * h)
  {
    ExpandQuadratic(q.a.z, q.b.z, q.c.z, t, h);
  }

  /** The three coordinate expansions put together. */
  lemma Assemble(p: Vec3, p0: Vec3, d: Vec3, a: Vec3, h: real)
    requires p.x == (p0.x + d.x * h) + a.x * (h * h)
    requires p.y == (p0.y + d.y * h) + a.y * (h * h)
    requires p.z == (p0.z + d.z * h) + a.z * (h * h)
    ensures p == Add(Add(p0, Scale(d, h)), Scale(a, h * h))
  {
  }
}
