/**
  4x4 matrices over the reals (RayTracer/Mat4.c), row-major, entry `aRC` in
  row R and column C. The sine and cosine of a rotation angle enter as the
  reals `s` and `c`.
 */
module Matrices {
  import opened Vectors

  datatype Mat4 = Mat4(
    a11: real, a12: real, a13: real, a14: real,
    a21: real, a22: real, a23: real, a24: real,
    a31: real, a32: real, a33: real, a34: real,
    a41: real, a42: real, a43: real, a44: real)

  /** The bottom row is [0, 0, 0, 1]: the matrices the renderer builds are affine. */
  predicate IsAffine(m: Mat4)
  {
    m.a41 == 0.0 && m.a42 == 0.0 && m.a43 == 0.0 && m.a44 == 1.0
  }

  /** The translation column (a14, a24, a34). */
  function TranslationOf(m: Mat4): Vec3
  {
    Vec3(m.a14, m.a24, m.a34)
  }

  function Identity(): (r: Mat4)
    ensures IsAffine(r) && TranslationOf(r) == Zero
  {
    Mat4(1.0, 0.0, 0.0, 0.0,
         0.0, 1.0, 0.0, 0.0,
         0.0, 0.0, 1.0, 0.0,
         0.0, 0.0, 0.0, 1.0)
  }

  /** Mat4_mul */
  function Mul(a: Mat4, b: Mat4): (r: Mat4)
    ensures IsAffine(a) && IsAffine(b) ==> IsAffine(r)
  {
    Mat4(
      a.a11*b.a11 + a.a12*b.a21 + a.a13*b.a31 + a.a14*b.a41,
      a.a11*b.a12 + a.a12*b.a22 + a.a13*b.a32 + a.a14*b.a42,
      a.a11*b.a13 + a.a12*b.a23 + a.a13*b.a33 + a.a14*b.a43,
      a.a11*b.a14 + a.a12*b.a24 + a.a13*b.a34 + a.a14*b.a44,

      a.a21*b.a11 + a.a22*b.a21 + a.a23*b.a31 + a.a24*b.a41,
      a.a21*b.a12 + a.a22*b.a22 + a.a23*b.a32 + a.a24*b.a42,
      a.a21*b.a13 + a.a22*b.a23 + a.a23*b.a33 + a.a24*b.a43,
      a.a21*b.a14 + a.a22*b.a24 + a.a23*b.a34 + a.a24*b.a44,

      a.a31*b.a11 + a.a32*b.a21 + a.a33*b.a31 + a.a34*b.a41,
      a.a31*b.a12 + a.a32*b.a22 + a.a33*b.a32 + a.a34*b.a42,
      a.a31*b.a13 + a.a32*b.a23 + a.a33*b.a33 + a.a34*b.a43,
      a.a31*b.a14 + a.a32*b.a24 + a.a33*b.a34 + a.a34*b.a44,

      a.a41*b.a11 + a.a42*b.a21 + a.a43*b.a31 + a.a44*b.a41,
      a.a41*b.a12 + a.a42*b.a22 + a.a43*b.a32 + a.a44*b.a42,
      a.a41*b.a13 + a.a42*b.a23 + a.a43*b.a33 + a.a44*b.a43,
      a.a41*b.a14 + a.a42*b.a24 + a.a43*b.a34 + a.a44*b.a44)
  }

  /** Mat4_mulScalar: all sixteen entries are multiplied. */
  function MulScalar(m: Mat4, s: real): Mat4
  {
    Mat4(m.a11 * s, m.a12 * s, m.a13 * s, m.a14 * s,
         m.a21 * s, m.a22 * s, m.a23 * s, m.a24 * s,
         m.a31 * s, m.a32 * s, m.a33 * s, m.a34 * s,
         m.a41 * s, m.a42 * s, m.a43 * s, m.a44 * s)
  }

  /** Mat4_mulVec3: transform a point (the implied fourth coordinate is 1). */
  function MulVec3(m: Mat4, v: Vec3): Vec3
  {
    Vec3(m.a11 * v.x + m.a12 * v.y + m.a13 * v.z + m.a14,
         m.a21 * v.x + m.a22 * v.y + m.a23 * v.z + m.a24,
         m.a31 * v.x + m.a32 * v.y + m.a33 * v.z + m.a34)
  }

  /** Determinant of the upper-left block, expanded along the first row as Mat4_inverse expands it. */
  function Det3(m: Mat4): real
  {
    m.a11 * (m.a22 * m.a33 - m.a23 * m.a32)
    + m.a12 * (m.a23 * m.a31 - m.a21 * m.a33)
    + m.a13 * (m.a21 * m.a32 - m.a22 * m.a31)
  }

  /**
    Mat4_inverse: the 3x3 block is inverted by cofactors and scaled by one over
    its determinant, then the translation is replaced by the negated inverse
    block applied to the old translation. The bottom row of the input is
    ignored. The source divides without a check; the model asks for a
    non-singular block.
   */
  function Inverse(m: Mat4): (r: Mat4)
    requires Det3(m) != 0.0
    ensures IsAffine(r)
  {
    var det11 := m.a22*m.a33 - m.a23*m.a32;
    var det12 := m.a13*m.a32 - m.a12*m.a33;
    var det13 := m.a12*m.a23 - m.a13*m.a22;
    var det21 := m.a23*m.a31 - m.a21*m.a33;
    var det22 := m.a11*m.a33 - m.a13*m.a31;
    var det23 := m.a13*m.a21 - m.a11*m.a23;
    var det31 := m.a21*m.a32 - m.a22*m.a31;
    var det32 := m.a12*m.a31 - m.a11*m.a32;
    var det33 := m.a11*m.a22 - m.a12*m.a21;
    var adj := Mat4(det11, det12, det13, 0.0,
                    det21, det22, det23, 0.0,
                    det31, det32, det33, 0.0,
                    0.0, 0.0, 0.0, 1.0);
    assert m.a11*det11 + m.a12*det21 + m.a13*det31 == Det3(m);
    var oneOverDet := 1.0 / (m.a11*det11 + m.a12*det21 + m.a13*det31);
    var inv3 := MulScalar(adj, oneOverDet).(a44 := 1.0);
    var negInv3 := MulScalar(inv3, -1.0).(a44 := 1.0);
    var right := MulVec3(negInv3, TranslationOf(m));
    inv3.(a14 := right.x, a24 := right.y, a34 := right.z)
  }

  function Translate(t: Vec3): (r: Mat4)
    ensures IsAffine(r) && TranslationOf(r) == t
  {
    Mat4(1.0, 0.0, 0.0, t.x,
         0.0, 1.0, 0.0, t.y,
         0.0, 0.0, 1.0, t.z,
         0.0, 0.0, 0.0, 1.0)
  }

  /** Rotation about the x axis; `s`, `c` are the sine and cosine of the angle. */
  function RotateX(s: real, c: real): (r: Mat4)
    ensures IsAffine(r) && TranslationOf(r) == Zero
  {
    Mat4(1.0, 0.0, 0.0, 0.0,
         0.0, c, -s, 0.0,
         0.0, s, c, 0.0,
         0.0, 0.0, 0.0, 1.0)
  }

  function RotateY(s: real, c: real): (r: Mat4)
    ensures IsAffine(r) && TranslationOf(r) == Zero
  {
    Mat4(c, 0.0, s, 0.0,
         0.0, 1.0, 0.0, 0.0,
         -s, 0.0, c, 0.0,
         0.0, 0.0, 0.0, 1.0)
  }

  function RotateZ(s: real, c: real): (r: Mat4)
    ensures IsAffine(r) && TranslationOf(r) == Zero
  {
    Mat4(c, -s, 0.0, 0.0,
         s, c, 0.0, 0.0,
         0.0, 0.0, 1.0, 0.0,
         0.0, 0.0, 0.0, 1.0)
  }

  function ScaleMatrix(v: Vec3): (r: Mat4)
    ensures IsAffine(r) && TranslationOf(r) == Zero
    ensures forall p: Vec3 :: MulVec3(r, p) == Vectors.Mul(v, p)
  {
    Mat4(v.x, 0.0, 0.0, 0.0,
         0.0, v.y, 0.0, 0.0,
         0.0, 0.0, v.z, 0.0,
         0.0, 0.0, 0.0, 1.0)
  }

  // ---------------------------------------------------------------------------
  // Identities. Polynomial facts are stated over plain reals and then applied
  // entry by entry, which keeps each proof obligation small.

  lemma IdentityIsLeftNeutral(m: Mat4)
    ensures Mul(Identity(), m) == m
  {
  }

  lemma IdentityIsRightNeutral(m: Mat4)
    ensures Mul(m, Identity()) == m
  {
  }

  lemma MulScalarOne(m: Mat4)
    ensures MulScalar(m, 1.0) == m
  {
  }

  lemma DetOfIdentity()
    ensures Det3(Identity()) == 1.0
  {
  }

  lemma DetOfTranslate(t: Vec3)
    ensures Det3(Translate(t)) == 1.0
  {
  }

  /** A rotation built from a sine and cosine with s*s + c*c == 1 has determinant 1. */
  lemma DetOfRotateX(s: real, c: real)
    ensures Det3(RotateX(s, c)) == s * s + c * c
  {
  }

  lemma DetOfRotateY(s: real, c: real)
    ensures Det3(RotateY(s, c)) == s * s + c * c
  {
  }

  lemma DetOfRotateZ(s: real, c: real)
    ensures Det3(RotateZ(s, c)) == s * s + c * c
  {
  }

  lemma DetOfScaleMatrix(v: Vec3)
    ensures Det3(ScaleMatrix(v)) == v.x * v.y * v.z
  {
  }
  /**
    The orientation used by the camera, planes and tori: yaw about y after
    pitch about x, Mat4_mul(Mat4_rotateY(yaw), Mat4_rotateX(pitch)), with the
    trigonometric functions supplied by the caller.
   */
  function YawPitch(yaw: real, pitch: real, sine: real -> real, cosine: real -> real): (r: Mat4)
    ensures IsAffine(r) && TranslationOf(r) == Zero
  {
    Mul(RotateY(sine(yaw), cosine(yaw)), RotateX(sine(pitch), cosine(pitch)))
  }

  /** When s^2 + c^2 = 1 at both angles, the yaw-pitch rotation has determinant 1, so Mat4_inverse applies to it. */
  lemma DetOfYawPitch(yaw: real, pitch: real, sine: real -> real, cosine: real -> real)
    requires sine(yaw) * sine(yaw) + cosine(yaw) * cosine(yaw) == 1.0
    requires sine(pitch) * sine(pitch) + cosine(pitch) * cosine(pitch) == 1.0
    ensures Det3(YawPitch(yaw, pitch, sine, cosine)) == 1.0
  {
    var sy, cy, sp, cp := sine(yaw), cosine(yaw), sine(pitch), cosine(pitch);
    var m := YawPitch(yaw, pitch, sine, cosine);
    assert m.a11 == cy && m.a12 == sy * sp && m.a13 == sy * cp;
    assert m.a21 == 0.0 && m.a22 == cp && m.a23 == -sp;
    assert m.a31 == -sy && m.a32 == cy * sp && m.a33 == cy * cp;
    YawPitchDet(sy, cy, sp, cp);
  }

  lemma YawPitchDet(sy: real, cy: real, sp: real, cp: real)
    requires sy * sy + cy * cy == 1.0 && sp * sp + cp * cp == 1.0
    ensures cy * (cp * (cy * cp) - (-sp) * (cy * sp)) + (sy * sp) * ((-sp) * (-sy) - 0.0 * (cy * cp)) +
            (sy * cp) * (0.0 * (cy * sp) - cp * (-sy)) == 1.0
  {
    assert cy * (cp * (cy * cp) - (-sp) * (cy * sp)) == (cy * cy) * (cp * cp + sp * sp);
    assert (sy * sp) * ((-sp) * (-sy)) + (sy * cp) * (cp * sy) == (sy * sy) * (sp * sp + cp * cp);
  }


  /** Applying a translation matrix to a point adds the translation. */
  lemma TranslateMovesPoint(t: Vec3, p: Vec3)
    ensures MulVec3(Translate(t), p) == Add(p, t)
  {
  }

  lemma InverseOfTranslate(t: Vec3)
    ensures Inverse(Translate(t)) == Translate(Neg(t))
  {
  }

  /** The inverse a translation gets from Mat4_inverse moves every translated point back. */
  lemma InverseOfTranslateUndoesPoint(t: Vec3, p: Vec3)
    ensures MulVec3(Inverse(Translate(t)), MulVec3(Translate(t), p)) == p
  {
    InverseOfTranslate(t);
    TranslateMovesPoint(t, p);
    TranslateMovesPoint(Neg(t), Add(p, t));
  }

  /**
    One row (p, q, r, w) of a product with an affine `b`, whose entries are
    `m1`..`m4`, applied to a point `v`; `u` is `b` applied to `v`.
   */
  lemma RowDistributes(p: real, q: real, r: real, w: real, m1: real, m2: real, m3: real, m4: real,
                       b: Mat4, v: Vec3, u: Vec3)
    requires IsAffine(b) && u == MulVec3(b, v)
    requires m1 == p*b.a11 + q*b.a21 + r*b.a31 + w*b.a41
    requires m2 == p*b.a12 + q*b.a22 + r*b.a32 + w*b.a42
    requires m3 == p*b.a13 + q*b.a23 + r*b.a33 + w*b.a43
    requires m4 == p*b.a14 + q*b.a24 + r*b.a34 + w*b.a44
    ensures m1 * v.x + m2 * v.y + m3 * v.z + m4 == p * u.x + q * u.y + r * u.z + w
  {
  }

  lemma MulVec3OfMulX(a: Mat4, b: Mat4, v: Vec3)
    requires IsAffine(b)
    ensures MulVec3(Mul(a, b), v).x == MulVec3(a, MulVec3(b, v)).x
  {
    var m, u := Mul(a, b), MulVec3(b, v);
    RowDistributes(a.a11, a.a12, a.a13, a.a14, m.a11, m.a12, m.a13, m.a14, b, v, u);
  }

  lemma MulVec3OfMulY(a: Mat4, b: Mat4, v: Vec3)
    requires IsAffine(b)
    ensures MulVec3(Mul(a, b), v).y == MulVec3(a, MulVec3(b, v)).y
  {
    var m, u := Mul(a, b), MulVec3(b, v);
    RowDistributes(a.a21, a.a22, a.a23, a.a24, m.a21, m.a22, m.a23, m.a24, b, v, u);
  }

  lemma MulVec3OfMulZ(a: Mat4, b: Mat4, v: Vec3)
    requires IsAffine(b)
    ensures MulVec3(Mul(a, b), v).z == MulVec3(a, MulVec3(b, v)).z
  {
    var m, u := Mul(a, b), MulVec3(b, v);
    RowDistributes(a.a31, a.a32, a.a33, a.a34, m.a31, m.a32, m.a33, m.a34, b, v, u);
  }

  /** Transforming by a product is transforming by each factor in turn. */
  lemma MulVec3OfMul(a: Mat4, b: Mat4, v: Vec3)
    requires IsAffine(b)
    ensures MulVec3(Mul(a, b), v) == MulVec3(a, MulVec3(b, v))
  {
    MulVec3OfMulX(a, b, v);
    MulVec3OfMulY(a, b, v);
    MulVec3OfMulZ(a, b, v);
  }
}
