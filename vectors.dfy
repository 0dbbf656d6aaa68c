/**
  Three-component vectors (RayTracer/Vec3.c), used for points, directions and
  RGB colours alike. Components are exact reals; `sqrt` is a parameter, since
  the C library's square root is not modelled.
 */
module Vectors {

  datatype Vec3 = Vec3(x: real, y: real, z: real)

  const Zero: Vec3 := Vec3(0.0, 0.0, 0.0)

  function Add(a: Vec3, b: Vec3): Vec3
  {
    Vec3(a.x + b.x, a.y + b.y, a.z + b.z)
  }

  function Sub(a: Vec3, b: Vec3): Vec3
  {
    Vec3(a.x - b.x, a.y - b.y, a.z - b.z)
  }

  function Neg(a: Vec3): Vec3
  {
    Vec3(-a.x, -a.y, -a.z)
  }

  /** Component-wise product (Vec3_mul), used to filter a colour by a material. */
  function Mul(a: Vec3, b: Vec3): Vec3
  {
    Vec3(a.x * b.x, a.y * b.y, a.z * b.z)
  }

  /** Component-wise quotient (Vec3_div); C gives Inf/NaN for a zero divisor. */
  function Div(a: Vec3, b: Vec3): (r: Vec3)
    requires b.x != 0.0 && b.y != 0.0 && b.z != 0.0
    ensures Mul(r, b) == a
  {
    Vec3(a.x / b.x, a.y / b.y, a.z / b.z)
  }

  /** Vec3_mulScalar */
  function Scale(a: Vec3, s: real): Vec3
  {
    Vec3(a.x * s, a.y * s, a.z * s)
  }

  function Dot(a: Vec3, b: Vec3): real
  {
    a.x * b.x + a.y * b.y + a.z * b.z
  }

  function Cross(a: Vec3, b: Vec3): Vec3
  {
    Vec3(a.y * b.z - a.z * b.y, a.z * b.x - a.x * b.z, a.x * b.y - a.y * b.x)
  }

  function LenSq(a: Vec3): real
  {
    a.x * a.x + a.y * a.y + a.z * a.z
  }

  /** Vec3_len, with the square root supplied by the caller. */
  function Len(a: Vec3, sqrt: real -> real): real
  {
    sqrt(LenSq(a))
  }

  /** Vec3_norm: divide by the length. The source does not guard a zero length. */
  function Norm(a: Vec3, sqrt: real -> real): Vec3
    requires sqrt(LenSq(a)) != 0.0
  {
    var len := sqrt(LenSq(a));
    Vec3(a.x / len, a.y / len, a.z / len)
  }

  /** The largest of the three components, as Vec3_normComponents picks it. */
  function MaxComponent(a: Vec3): (m: real)
    ensures a.x <= m && a.y <= m && a.z <= m
    ensures m == a.x || m == a.y || m == a.z
  {
    var m0 := a.x;
    var m1 := if a.y > m0 then a.y else m0;
    if a.z > m1 then a.z else m1
  }

  /**
    Vec3_normComponents: divide every component by the largest one. When that
    largest component is positive, the result's largest component is exactly 1.
   */
  function NormComponents(a: Vec3): (r: Vec3)
    requires MaxComponent(a) != 0.0
    ensures MaxComponent(a) > 0.0 ==> MaxComponent(r) == 1.0
    ensures MaxComponent(a) > 0.0 ==> r.x <= 1.0 && r.y <= 1.0 && r.z <= 1.0
    ensures MaxComponent(a) > 0.0 && a.x >= 0.0 && a.y >= 0.0 && a.z >= 0.0 ==>
              r.x >= 0.0 && r.y >= 0.0 && r.z >= 0.0
  {
    var m := MaxComponent(a);
    var r := Vec3(a.x / m, a.y / m, a.z / m);
    if m > 0.0 then
      DivByMax(a.x, m); DivByMax(a.y, m); DivByMax(a.z, m);
      r
    else
      r
  }

  lemma DivByMax(v: real, m: real)
    requires 0.0 < m && v <= m
    ensures v / m <= 1.0
    ensures v == m ==> v / m == 1.0
    ensures v >= 0.0 ==> v / m >= 0.0
  {
  }

  // ---------------------------------------------------------------------------
  // Algebraic identities of the vector operations.

  lemma SubUndoesAdd(a: Vec3, b: Vec3)
    ensures Sub(Add(a, b), b) == a
    ensures Add(a, b) == Add(b, a)
  {
  }

  lemma LenSqIsSelfDot(a: Vec3)
    ensures LenSq(a) == Dot(a, a)
    ensures LenSq(a) >= 0.0
  {
  }

  /** The cross product is orthogonal to both of its arguments. */
  lemma CrossIsOrthogonal(a: Vec3, b: Vec3)
    ensures Dot(Cross(a, b), a) == 0.0
    ensures Dot(Cross(a, b), b) == 0.0
  {
  }

  /** Lagrange's identity: |a x b|^2 = |a|^2 |b|^2 - (a . b)^2. */
  lemma CrossLenSq(a: Vec3, b: Vec3)
    ensures LenSq(Cross(a, b)) == LenSq(a) * LenSq(b) - Dot(a, b) * Dot(a, b)
  {
  }

  lemma ScaleAndMulAreComponentwise(a: Vec3, b: Vec3, s: real)
    ensures Scale(a, 1.0) == a
    ensures Mul(a, b) == Mul(b, a)
    ensures Scale(a, s) == Mul(a, Vec3(s, s, s))
  {
  }

  /** A vector divided by its true (positive) length has length 1. */
  lemma NormIsUnit(a: Vec3, sqrt: real -> real)
    requires sqrt(LenSq(a)) > 0.0
    requires sqrt(LenSq(a)) * sqrt(LenSq(a)) == LenSq(a)
    ensures LenSq(Norm(a, sqrt)) == 1.0
  {
    var len := sqrt(LenSq(a));
    var n := Norm(a, sqrt);
    assert n.x * len == a.x && n.y * len == a.y && n.z * len == a.z;
    calc {
      LenSq(n) * (len * len);
      (n.x * len) * (n.x * len) + (n.y * len) * (n.y * len) + (n.z * len) * (n.z * len);
      LenSq(a);
      1.0 * (len * len);
    }
  }

  /** Scaling by a non-negative factor scales the largest component by that factor. */
  lemma MaxComponentOfScale(a: Vec3, k: real)
    requires k >= 0.0
    ensures MaxComponent(Scale(a, k)) == MaxComponent(a) * k
  {
    var m := MaxComponent(a);
    var s := Scale(a, k);
    assert s.x <= m * k && s.y <= m * k && s.z <= m * k by {
      MulMonotone(a.x, m, k); MulMonotone(a.y, m, k); MulMonotone(a.z, m, k);
    }
    assert m * k == s.x || m * k == s.y || m * k == s.z;
    assert MaxComponent(s) <= m * k && m * k <= MaxComponent(s);
  }

  lemma MulMonotone(u: real, v: real, k: real)
    requires u <= v && k >= 0.0
    ensures u * k <= v * k
  {
    assert v * k - u * k == (v - u) * k;
  }
}
