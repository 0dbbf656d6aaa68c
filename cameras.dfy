/**
  The camera (RayTracer/Camera.c): a position, yaw and pitch, the rotated
  basis (forward, up, right) derived from them, and a table of one
  camera-space ray direction per pixel. The C library's tan, sqrt, sin and
  cos are parameters; sine and cosine are fixed when the camera is made.
 */
module Cameras {
  import opened Vectors
  import opened Matrices
  import opened Grids

  /** The decimal value of M_PI. */
  const Pi: real := 3.14159265358979323846

  /** A square root that is positive on positive arguments: all Vec3_norm needs here. */
  ghost predicate SqrtIsPositive(sqrt: real -> real)
  {
    forall v :: v > 0.0 ==> sqrt(v) > 0.0
  }

  /** The screen-plane offset of pixel column (or row) i: centred on the middle of the image. */
  function RayOffset(i: int, half: int, su: real): real
  {
    ((i - half) as real + 0.5) * su
  }

  /** Pixel i and its mirror image n - 1 - i get opposite offsets, for an even size n. */
  lemma RayOffsetsAreCentred(i: int, n: int, su: real)
    requires n % 2 == 0
    ensures RayOffset(i, n / 2, su) == -RayOffset(n - 1 - i, n / 2, su)
  {
    var a := (i - n / 2) as real + 0.5;
    var b := (n - 1 - i - n / 2) as real + 0.5;
    assert a == -b;
  }

  /** The unscaled direction through pixel (x, y): z is always 1. */
  function ScreenPoint(x: int, y: int, width: int, height: int, su: real): (v: Vec3)
  {
    Vec3(RayOffset(x, width / 2, su), RayOffset(y, height / 2, su), 1.0)
  }

  lemma ScreenPointIsLong(x: int, y: int, width: int, height: int, su: real)
    ensures LenSq(ScreenPoint(x, y, width, height, su)) >= 1.0
  {
    var v := ScreenPoint(x, y, width, height, su);
    assert v.x * v.x >= 0.0 && v.y * v.y >= 0.0;
  }

  /** The table entry for pixel (x, y): the normalised screen point. */
  function TableRay(x: int, y: int, width: int, height: int, su: real, sqrt: real -> real): Vec3
    requires SqrtIsPositive(sqrt)
  {
    ScreenPointIsLong(x, y, width, height, su);
    Norm(ScreenPoint(x, y, width, height, su), sqrt)
  }

  /** The factor that maps pixel offsets onto the screen plane at distance 1. */
  function ScreenScale(fov: real, width: nat, tan: real -> real): real
  {
    if width == 0 then 0.0 else tan(fov * 0.5 * Pi / 180.0) * 2.0 / width as real
  }

  function Forward(yaw: real, pitch: real, sine: real -> real, cosine: real -> real): Vec3
  {
    MulVec3(YawPitch(yaw, pitch, sine, cosine), Vec3(0.0, 0.0, 1.0))
  }

  function Up(yaw: real, pitch: real, sine: real -> real, cosine: real -> real): Vec3
  {
    MulVec3(YawPitch(yaw, pitch, sine, cosine), Vec3(0.0, 1.0, 0.0))
  }

  /** The nested loop of Camera_create: entry x + y * width gets the ray through pixel (x, y). */
  method FillTable(rays: array<Vec3>, width: nat, height: nat, su: real, sqrt: real -> real)
    requires rays.Length == width * height && SqrtIsPositive(sqrt)
    modifies rays
    ensures forall i :: 0 <= i < rays.Length ==> rays[i] == TableRay(i % width, i / width, width, height, su, sqrt)
  {
    var y := 0;
    ghost var row := 0;
    while y < height
      invariant 0 <= y <= height && row == y * width && row <= rays.Length
      invariant y == height ==> row == rays.Length
      invariant forall i :: 0 <= i < row ==> rays[i] == TableRay(i % width, i / width, width, height, su, sqrt)
    {
      RowFits(y, width, height);
      FillRow(rays, y, width, height, su, sqrt);
      row := row + width;
      y := y + 1;
    }
  }

  /** The inner loop of Camera_create: row y of the table, after rows 0 .. y - 1. */
  method FillRow(rays: array<Vec3>, y: int, width: nat, height: nat, su: real, sqrt: real -> real)
    requires rays.Length == width * height && SqrtIsPositive(sqrt)
    requires 0 <= y < height && y * width + width <= rays.Length
    requires forall i :: 0 <= i < y * width ==> rays[i] == TableRay(i % width, i / width, width, height, su, sqrt)
    modifies rays
    ensures forall i :: 0 <= i < y * width + width ==> rays[i] == TableRay(i % width, i / width, width, height, su, sqrt)
  {
    var halfWidth := width / 2;
    var halfHeight := height / 2;
    var x := 0;
    while x < width
      invariant 0 <= x <= width
      invariant forall i :: 0 <= i < y * width + x ==> rays[i] == TableRay(i % width, i / width, width, height, su, sqrt)
    {
      var v := Vec3(RayOffset(x, halfWidth, su), RayOffset(y, halfHeight, su), 1.0);
      assert sqrt(LenSq(v)) > 0.0 && Norm(v, sqrt) == TableRay(x, y, width, height, su, sqrt) by {
        ScreenPointIsLong(x, y, width, height, su);
      }
      assert (x + y * width) % width == x && (x + y * width) / width == y by {
        GridIndexDecodes(x, y, width);
      }
      rays[x + y * width] := Norm(v, sqrt);
      x := x + 1;
    }
  }

  class Camera {
    const width: nat
    const height: nat
    const rays: array<Vec3>
    const sine: real -> real
    const cosine: real -> real
    /** The screen scale and square root the table was built with. */
    ghost const su: real
    ghost const sqrt: real -> real

    var pos: Vec3
    var yaw: real
    var pitch: real
    var forward: Vec3
    var right: Vec3
    var up: Vec3

    /** The basis follows from yaw and pitch. */
    ghost predicate BasisValid()
      reads this
    {
      forward == Forward(yaw, pitch, sine, cosine) && up == Up(yaw, pitch, sine, cosine) &&
      right == Cross(up, forward)
    }

    /** Entry x + y * width of the table is the ray through pixel (x, y). */
    ghost predicate TableValid()
      reads this, rays
    {
      SqrtIsPositive(sqrt) && rays.Length == width * height &&
      forall i :: 0 <= i < rays.Length ==> rays[i] == TableRay(i % width, i / width, width, height, su, sqrt)
    }

    ghost predicate Valid()
      reads this, rays
    {
      BasisValid() && TableValid()
    }

    constructor Init(width: nat, height: nat, su: real, sqrt: real -> real, sine: real -> real, cosine: real -> real)
      ensures fresh(rays) && rays.Length == width * height
      ensures this.width == width && this.height == height && this.su == su && this.sqrt == sqrt
      ensures this.sine == sine && this.cosine == cosine
      ensures pos == Zero && yaw == 0.0 && pitch == 0.0 && BasisValid()
    {
      this.width := width;
      this.height := height;
      this.su := su;
      this.sqrt := sqrt;
      this.sine := sine;
      this.cosine := cosine;
      rays := new Vec3[width * height];
      pos := Zero;
      yaw := 0.0;
      pitch := 0.0;
      new;
      forward := Forward(0.0, 0.0, sine, cosine);
      up := Up(0.0, 0.0, sine, cosine);
      right := Cross(up, forward);
    }

    /**
      Camera_create: fails (null) when allocation fails or either dimension
      is odd; otherwise the camera sits at the origin with yaw and pitch 0
      and its table holds the normalised direction through every pixel.
     */
    static method Create(width: nat, height: nat, fov: real, allocOk: bool,
                         tan: real -> real, sqrt: real -> real, sine: real -> real, cosine: real -> real)
      returns (cam: Camera?)
      requires SqrtIsPositive(sqrt)
      ensures cam != null <==> allocOk && width % 2 == 0 && height % 2 == 0
      ensures cam != null ==> fresh(cam) && fresh(cam.rays) && cam.Valid()
      ensures cam != null ==> cam.width == width && cam.height == height
      ensures cam != null ==> cam.su == ScreenScale(fov, width, tan) && cam.sqrt == sqrt
      ensures cam != null ==> cam.sine == sine && cam.cosine == cosine
      ensures cam != null ==> cam.pos == Zero && cam.yaw == 0.0 && cam.pitch == 0.0
    {
      if !allocOk || width % 2 == 1 || height % 2 == 1 {
        return null;
      }
      var su := ScreenScale(fov, width, tan);
      var c := new Camera.Init(width, height, su, sqrt, sine, cosine);
      FillTable(c.rays, width, height, su, sqrt);
      cam := c;
    }

    /** Entry x + y * width of the table: the camera-space ray through pixel (x, y). */
    function RayAt(x: int, y: int): (v: Vec3)
      requires Valid() && 0 <= x < width && 0 <= y < height
      reads this, rays
      ensures v == TableRay(x, y, width, height, su, sqrt)
    {
      GridIndexInBounds(x, y, width, height);
      GridIndexDecodes(x, y, width);
      rays[x + y * width]
    }

    /**
      Camera_vectorAt: the table ray of pixel (x, y), taken out of camera
      space into the world by the basis (right, up, forward).
     */
    function VectorAt(x: int, y: int): Vec3
      requires Valid() && 0 <= x < width && 0 <= y < height
      reads this, rays
    {
      var v := RayAt(x, y);
      Add(Add(Scale(right, v.x), Scale(up, v.y)), Scale(forward, v.z))
    }

    /** Camera_set: store pos, yaw and pitch and derive the basis from yaw and pitch. */
    method Set(pos: Vec3, yaw: real, pitch: real)
      requires Valid()
      modifies this
      ensures Valid()
      ensures this.pos == pos && this.yaw == yaw && this.pitch == pitch
    {
      this.pos := pos;
      this.yaw := yaw;
      this.pitch := pitch;
      var rot := YawPitch(yaw, pitch, sine, cosine);
      forward := MulVec3(rot, Vec3(0.0, 0.0, 1.0));
      up := MulVec3(rot, Vec3(0.0, 1.0, 0.0));
      right := Cross(up, forward);
    }

    /** Camera_move: add the deltas to the position, yaw and pitch. */
    method Move(delta: Vec3, dYaw: real, dPitch: real)
      requires Valid()
      modifies this
      ensures Valid()
      ensures pos == Add(old(pos), delta) && yaw == old(yaw) + dYaw && pitch == old(pitch) + dPitch
    {
      Set(Add(pos, delta), yaw + dYaw, pitch + dPitch);
    }

    /** Camera_moveForward: move `amt` along the forward vector; the orientation is kept. */
    method MoveForward(amt: real)
      requires Valid()
      modifies this
      ensures Valid()
      ensures pos == Add(old(pos), Scale(old(forward), amt))
      ensures yaw == old(yaw) && pitch == old(pitch)
      ensures forward == old(forward) && up == old(up) && right == old(right)
    {
      Move(Scale(forward, amt), 0.0, 0.0);
    }

    /** Camera_moveUp: move `amt` along the up vector; the orientation is kept. */
    method MoveUp(amt: real)
      requires Valid()
      modifies this
      ensures Valid()
      ensures pos == Add(old(pos), Scale(old(up), amt))
      ensures yaw == old(yaw) && pitch == old(pitch)
      ensures forward == old(forward) && up == old(up) && right == old(right)
    {
      Move(Scale(up, amt), 0.0, 0.0);
    }

    /** Camera_moveRight: move `amt` along the right vector; the orientation is kept. */
    method MoveRight(amt: real)
      requires Valid()
      modifies this
      ensures Valid()
      ensures pos == Add(old(pos), Scale(old(right), amt))
      ensures yaw == old(yaw) && pitch == old(pitch)
      ensures forward == old(forward) && up == old(up) && right == old(right)
    {
      Move(Scale(right, amt), 0.0, 0.0);
    }
  }

  // ---------------------------------------------------------------------------
  // The basis in closed form, and why it is orthonormal.

  /** forward = (sin yaw cos pitch, -sin pitch, cos yaw cos pitch). */
  lemma ForwardClosedForm(yaw: real, pitch: real, sine: real -> real, cosine: real -> real)
    ensures Forward(yaw, pitch, sine, cosine) ==
      Vec3(sine(yaw) * cosine(pitch), -sine(pitch), cosine(yaw) * cosine(pitch))
  {
  }

  /** up = (sin yaw sin pitch, cos pitch, cos yaw sin pitch). */
  lemma UpClosedForm(yaw: real, pitch: real, sine: real -> real, cosine: real -> real)
    ensures Up(yaw, pitch, sine, cosine) ==
      Vec3(sine(yaw) * sine(pitch), cosine(pitch), cosine(yaw) * sine(pitch))
  {
  }

  lemma UnitOfProducts(sy: real, cy: real, p: real, q: real)
    requires sy * sy + cy * cy == 1.0 && p * p + q * q == 1.0
    ensures (sy * q) * (sy * q) + p * p + (cy * q) * (cy * q) == 1.0
  {
    assert (sy * q) * (sy * q) + (cy * q) * (cy * q) == (sy * sy + cy * cy) * (q * q);
  }

  lemma OrthogonalProducts(sy: real, cy: real, sp: real, cp: real)
    requires sy * sy + cy * cy == 1.0
    ensures (sy * cp) * (sy * sp) + (-sp) * cp + (cy * cp) * (cy * sp) == 0.0
  {
    assert (sy * cp) * (sy * sp) + (cy * cp) * (cy * sp) == (sy * sy + cy * cy) * (cp * sp);
  }

  /**
    When sine and cosine satisfy s^2 + c^2 = 1 at yaw and at pitch, forward
    and up are unit vectors at right angles, and right = up x forward is a
    unit vector orthogonal to both.
   */
  lemma BasisIsOrthonormal(yaw: real, pitch: real, sine: real -> real, cosine: real -> real)
    requires sine(yaw) * sine(yaw) + cosine(yaw) * cosine(yaw) == 1.0
    requires sine(pitch) * sine(pitch) + cosine(pitch) * cosine(pitch) == 1.0
    ensures var f, u := Forward(yaw, pitch, sine, cosine), Up(yaw, pitch, sine, cosine);
      LenSq(f) == 1.0 && LenSq(u) == 1.0 && Dot(f, u) == 0.0 &&
      LenSq(Cross(u, f)) == 1.0 && Dot(Cross(u, f), f) == 0.0 && Dot(Cross(u, f), u) == 0.0
  {
    var sy, cy, sp, cp := sine(yaw), cosine(yaw), sine(pitch), cosine(pitch);
    var f, u := Forward(yaw, pitch, sine, cosine), Up(yaw, pitch, sine, cosine);
    ForwardClosedForm(yaw, pitch, sine, cosine);
    UpClosedForm(yaw, pitch, sine, cosine);
    UnitOfProducts(sy, cy, -sp, cp);
    UnitOfProducts(sy, cy, cp, sp);
    OrthogonalProducts(sy, cy, sp, cp);
    assert LenSq(f) == 1.0 && LenSq(u) == 1.0 && Dot(f, u) == 0.0;
    CrossLenSq(u, f);
    CrossIsOrthogonal(u, f);
  }

  /** The dot product is linear in a combination of three vectors. */
  lemma DotOfCombination(a: Vec3, b: Vec3, c: Vec3, p: real, q: real, r: real, w: Vec3)
    ensures Dot(Add(Add(Scale(a, p), Scale(b, q)), Scale(c, r)), w) == p * Dot(a, w) + q * Dot(b, w) + r * Dot(c, w)
  {
  }

  /**
    Over an orthonormal basis, the world direction Camera_vectorAt returns
    has the table ray's coordinates: its components along right, up and
    forward are the table entry's x, y and z.
   */
  lemma VectorAtHasTableCoordinates(cam: Camera, x: int, y: int)
    requires cam.Valid() && 0 <= x < cam.width && 0 <= y < cam.height
    requires cam.sine(cam.yaw) * cam.sine(cam.yaw) + cam.cosine(cam.yaw) * cam.cosine(cam.yaw) == 1.0
    requires cam.sine(cam.pitch) * cam.sine(cam.pitch) + cam.cosine(cam.pitch) * cam.cosine(cam.pitch) == 1.0
    ensures var v, r := cam.RayAt(x, y), cam.VectorAt(x, y);
      Dot(r, cam.right) == v.x && Dot(r, cam.up) == v.y && Dot(r, cam.forward) == v.z
  {
    BasisIsOrthonormal(cam.yaw, cam.pitch, cam.sine, cam.cosine);
    CombinationCoordinates(cam.right, cam.up, cam.forward, cam.RayAt(x, y));
  }

  /** Coordinates along an orthonormal basis (a, b, c) recover the coefficients of a combination. */
  lemma CombinationCoordinates(a: Vec3, b: Vec3, c: Vec3, v: Vec3)
    requires LenSq(a) == 1.0 && LenSq(b) == 1.0 && LenSq(c) == 1.0
    requires Dot(a, b) == 0.0 && Dot(a, c) == 0.0 && Dot(b, c) == 0.0
    ensures var r := Add(Add(Scale(a, v.x), Scale(b, v.y)), Scale(c, v.z));
      Dot(r, a) == v.x && Dot(r, b) == v.y && Dot(r, c) == v.z
  {
    LenSqIsSelfDot(a);
    LenSqIsSelfDot(b);
    LenSqIsSelfDot(c);
    DotIsSymmetric(a, b);
    DotIsSymmetric(a, c);
    DotIsSymmetric(b, c);
    DotOfCombination(a, b, c, v.x, v.y, v.z, a);
    DotOfCombination(a, b, c, v.x, v.y, v.z, b);
    DotOfCombination(a, b, c, v.x, v.y, v.z, c);
  }

  lemma DotIsSymmetric(a: Vec3, b: Vec3)
    ensures Dot(a, b) == Dot(b, a)
  {
  }

  /** The table index x + y * width is a bijection from the pixel grid onto 0 .. width * height - 1. */
  lemma RayIndexIsBijection(width: nat, height: nat)
    ensures forall x, y :: 0 <= x < width && 0 <= y < height ==>
      0 <= GridIndex(x, y, width) < width * height &&
      GridIndex(x, y, width) % width == x && GridIndex(x, y, width) / width == y
    ensures forall i :: 0 <= i < width * height ==>
      0 <= i % width < width && 0 <= i / width < height && GridIndex(i % width, i / width, width) == i
  {
    forall x, y | 0 <= x < width && 0 <= y < height
      ensures 0 <= GridIndex(x, y, width) < width * height
      ensures GridIndex(x, y, width) % width == x && GridIndex(x, y, width) / width == y
    {
      GridIndexInBounds(x, y, width, height);
      GridIndexDecodes(x, y, width);
    }
    forall i | 0 <= i < width * height
      ensures 0 <= i % width < width && 0 <= i / width < height && GridIndex(i % width, i / width, width) == i
    {
      GridIndexCovers(i, width, height);
    }
  }
}
