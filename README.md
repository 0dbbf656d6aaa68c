# A progressive ray tracer, modelled in Dafny

The system is a small real-time ray tracer written in C. A `RayTracingEngine`
owns a camera, a scene and an RGB framebuffer. It renders the image
progressively: the image is cut into a `blockWidth` x `blockWidth` lattice of
pixel offsets, the offsets are visited in a shuffled order, and each call to
`simulate` traces the pixels of one more offset. When the camera moves, the
buffer is cleared and the cursor goes back to the first offset.

A scene holds point lights, rectangular planes, spheres and tori. Each kind
lives in its own growable array that starts with room for one element and
doubles when full. Tracing a ray picks the nearest admissible intersection.
It lights the hit point with ambient light plus every point light whose shadow
ray is unobstructed. It then follows mirror reflections up to
`NUM_REFLECTIONS` levels and folds the colours back to front, clamping each
channel at 1. Tori are intersected by a root search: probe a quartic and bisect
the first sign change. Camera paths are chains of quadratic Bezier-like curves
joined with matching tangents.

The model covers, module by module:

- `Vectors`, `Matrices`, `Materials` and `QCurves`: the value types (`Vec3.c`,
  `Mat4.c`, `Material.c`, `QCurve.c`) over `real`, with their algebraic
  identities.
- `MathFunctions`: the sign test, the fixed-iteration bisection and the probe
  loop of the root finder (`MathFunctions.c`), over an arbitrary `f`.
- `Framebuffers`, `Grids` and `Bytes`: the byte buffer of
  `3 * width * height` bytes and its pixel addressing (`Framebuffer.c`).
- `Cameras`: creation with the even-size check, the ray table and its
  indexing, and `set`/`move*` (`Camera.c`).
- `CurvePaths` and `Capacities`: the waypoint path with capacity doubling and
  C1 chaining (`CurvePath.c`).
- `Hits` and `Scenes`: the scene containers, the closest-hit selection of
  `Scene_traceHit`, the torus quartic and root search, `Scene_diffuse`, and the
  reflection loop and fold of `Scene_trace` (`Scene.c`). `Scene_trace` is
  proved equal to `Bounce`, a recursive reference definition of the colour a
  ray sees.
- `Blocks` and `Engine`: the block-order table (identity, then swap-shuffled),
  the block-width clamp, colour quantisation, `simulate`'s strided double loop
  with its running byte index, full coverage after `blockSize` steps, and the
  camera moves that clear and reset (`RayTracingEngine.c`).

Everything that goes through IEEE floats keeps its structure but is computed
over `real`:

- The C library's `sqrt`, `tan`, `sin` and `cos` are function parameters.
- The float geometry of intersections and normals comes from an `Optics`
  record of functions. The engine and scene proofs hold for every choice of
  those functions.
- `malloc`/`realloc` results are boolean success flags.
- `rand()` is a function `rand: nat -> nat`, applied to the loop counter.

## Model

| member | source | states |
|---|---|---|
| Vectors.Div | RayTracer/Vec3.c:32-39 | componentwise division by a vector with no zero channel is undone by componentwise multiplication |
| Vectors.MaxComponent | RayTracer/Vec3.c:83-95 | the value normComponents divides by bounds every channel and is one of x, y, z |
| Vectors.NormComponents | RayTracer/Vec3.c:83-95 | with a positive maximum the largest channel becomes exactly 1 and none exceeds 1; non-negative colours land in [0, 1] |
| Vectors.SubUndoesAdd | RayTracer/Vec3.c:5-21 | sub(add(a, b), b) == a and add is commutative |
| Vectors.LenSqIsSelfDot | RayTracer/Vec3.c:49-71 | lenSq(a) == dot(a, a) and it is never negative |
| Vectors.CrossIsOrthogonal | RayTracer/Vec3.c:49-61 | cross(a, b) is orthogonal to a and to b |
| Vectors.CrossLenSq | RayTracer/Vec3.c:54-71 | Lagrange's identity: lenSq(a x b) == lenSq(a) lenSq(b) - dot(a, b)^2 |
| Vectors.ScaleAndMulAreComponentwise | RayTracer/Vec3.c:23-47 | mulScalar(a, 1) == a, mul is commutative, and mulScalar is mul by (s, s, s) |
| Vectors.NormIsUnit | RayTracer/Vec3.c:73-81 | dividing by a positive square root of lenSq gives a unit vector |
| Vectors.MaxComponentOfScale | RayTracer/Vec3.c:41-47 | scaling by k >= 0 scales the largest channel by k |
| Vectors.Add | RayTracer/Vec3.c:5-12 | Vec3_add, the componentwise sum; defined without a contract, its meaning is stated by Vectors.SubUndoesAdd (sub undoes it, and it commutes) |
| Vectors.Sub | RayTracer/Vec3.c:14-21 | Vec3_sub, the componentwise difference; defined without a contract, Vectors.SubUndoesAdd states that it undoes add |
| Vectors.Mul | RayTracer/Vec3.c:23-30 | Vec3_mul, the componentwise product; defined without a contract, Vectors.ScaleAndMulAreComponentwise states that it commutes and extends mulScalar, and Vectors.Div that it undoes div |
| Vectors.Scale | RayTracer/Vec3.c:41-47 | Vec3_mulScalar; defined without a contract, Vectors.ScaleAndMulAreComponentwise states that 1 is neutral and that it is mul by (s, s, s), and Vectors.MaxComponentOfScale that it scales the largest channel |
| Vectors.Dot | RayTracer/Vec3.c:49-52 | Vec3_dot; defined without a contract, Vectors.LenSqIsSelfDot and Vectors.CrossIsOrthogonal state its relation to lenSq and cross |
| Vectors.Cross | RayTracer/Vec3.c:54-61 | Vec3_cross; defined without a contract, Vectors.CrossIsOrthogonal states that the result is orthogonal to both factors and Vectors.CrossLenSq gives its squared length |
| Vectors.LenSq | RayTracer/Vec3.c:68-71 | Vec3_lenSq; defined without a contract, Vectors.LenSqIsSelfDot states that it is dot(a, a) and never negative |
| Vectors.Len | RayTracer/Vec3.c:63-66 | Vec3_len: the caller-supplied square root of lenSq; defined without a contract, since sqrt is a parameter |
| Vectors.Norm | RayTracer/Vec3.c:73-81 | Vec3_norm, each channel divided by the length, with no guard for length 0 (the requires is exactly the divisor being nonzero); Vectors.NormIsUnit states that the result is a unit vector |
| Vectors.DivByMax | RayTracer/Vec3.c:83-95 | a channel divided by a positive maximum it does not exceed is at most 1, exactly 1 when it is the maximum, and non-negative when the channel is |
| Matrices.Identity | RayTracer/Mat4.c:6-15 | identity is affine with zero translation |
| Matrices.Mul | RayTracer/Mat4.c:62-91 | the product of two affine matrices is affine |
| Matrices.Inverse | RayTracer/Mat4.c:22-60 | inverse always yields bottom row [0, 0, 0, 1] |
| Matrices.Translate | RayTracer/Mat4.c:131-142 | translate(v) is affine with translation column v |
| Matrices.RotateX | RayTracer/Mat4.c:144-154 | affine with zero translation |
| Matrices.RotateY | RayTracer/Mat4.c:156-166 | affine with zero translation |
| Matrices.RotateZ | RayTracer/Mat4.c:168-178 | affine with zero translation |
| Matrices.ScaleMatrix | RayTracer/Mat4.c:180-191 | affine, zero translation, and applying it multiplies a point componentwise by v |
| Matrices.IdentityIsLeftNeutral | RayTracer/Mat4.c:62-91 | mul(identity(), m) == m |
| Matrices.IdentityIsRightNeutral | RayTracer/Mat4.c:62-91 | mul(m, identity()) == m |
| Matrices.MulScalarOne | RayTracer/Mat4.c:93-120 | mulScalar(m, 1) == m |
| Matrices.DetOfIdentity | RayTracer/Mat4.c:6-15 | the 3x3 determinant of identity is 1 |
| Matrices.DetOfTranslate | RayTracer/Mat4.c:131-142 | a translation has 3x3 determinant 1 |
| Matrices.DetOfRotateX | RayTracer/Mat4.c:144-154 | the determinant is s^2 + c^2, so 1 for a true sine/cosine pair |
| Matrices.DetOfRotateY | RayTracer/Mat4.c:156-166 | the determinant is s^2 + c^2 |
| Matrices.DetOfRotateZ | RayTracer/Mat4.c:168-178 | the determinant is s^2 + c^2 |
| Matrices.DetOfScaleMatrix | RayTracer/Mat4.c:180-191 | the determinant is the product of the scale factors |
| Matrices.YawPitch | RayTracer/Camera.c:74 | rotateY(yaw) times rotateX(pitch) is affine with zero translation |
| Matrices.DetOfYawPitch | RayTracer/Camera.c:74 | when s^2 + c^2 == 1 at both angles the combined rotation has determinant 1 |
| Matrices.TranslateMovesPoint | RayTracer/Mat4.c:122-142 | mulVec3(translate(v), p) == p + v |
| Matrices.InverseOfTranslate | RayTracer/Mat4.c:22-60 | inverse(translate(v)) == translate(-v) |
| Matrices.MulVec3OfMul | RayTracer/Mat4.c:62-129 | for affine b, mulVec3(mul(a, b), v) == mulVec3(a, mulVec3(b, v)) |
| Matrices.MulVec3 | RayTracer/Mat4.c:122-129 | Mat4_mulVec3, the point transform with implied w = 1; defined without a contract, Matrices.TranslateMovesPoint, Matrices.ScaleMatrix and Matrices.MulVec3OfMul state what it does |
| Matrices.Det3 | RayTracer/Mat4.c:22-39 | the first-row expansion of the upper-left 3x3 block that Mat4_inverse divides by; defined without a contract, the Matrices.DetOf... lemmas give its value for every constructor |
| Matrices.MulScalar | RayTracer/Mat4.c:93-120 | Mat4_mulScalar, every entry times s; defined without a contract, Matrices.MulScalarOne states that 1 is neutral |
| Matrices.InverseOfTranslateUndoesPoint | RayTracer/Mat4.c:22-60 | the stored inverse of a translation moves every translated point back: mulVec3(inverse(translate(t)), mulVec3(translate(t), p)) == p |
| Materials.Create | RayTracer/Material.c:3-13 | hasSpecular iff specRatio > 0; ratio 0 gives zero specular, ratio 1 zero diffuse |
| Materials.CreateSplitsLight | RayTracer/Material.c:5-10 | for positive colours and a ratio in [0, 1] the diffuse channels peak at 1 - specRatio and the specular ones at specRatio |
| Materials.CreateKeepsHue | RayTracer/Material.c:5-10 | each part is its input colour scaled by one factor: (1 - ratio) / max and ratio / max |
| Materials.CreateChannelsInUnitRange | RayTracer/Material.c:5-10 | non-negative colours give every channel of both parts in [0, 1] |
| QCurves.Create | RayTracer/QCurve.c:3-37 | the curve passes through point0 at 0 and point1 at 1, with tangent deriv at the end derivPoint selects |
| QCurves.GetDerivative | RayTracer/QCurve.c:50-59 | the result is the curve's true tangent 2at + b at t = 0, or at t = 1 for any nonzero derivPoint |
| QCurves.CreateIsUnique | RayTracer/QCurve.c:3-37 | any quadratic with those endpoints and that end tangent is the one create builds |
| QCurves.TangentIsDerivative | RayTracer/QCurve.c:39-59 | the tangent is the derivative of interpolate: the exact expansion of interpolate(t + h) |
| QCurves.Interpolate | RayTracer/QCurve.c:39-48 | QCurve_interpolate, a t^2 + b t + c per channel; defined without a contract, QCurves.Create states its values at 0 and 1 and QCurves.TangentIsDerivative its expansion |
| QCurves.Tangent | RayTracer/QCurve.c:50-59 | 2 a t + b, the curve derivative that getDerivative samples; defined without a contract, QCurves.TangentIsDerivative states that it is the derivative of interpolate |
| CurvePaths.FracTowardZero | RayTracer/CurvePath.c:72 | fmod(x, 1) lies in (-1, 1) and has the sign of x |
| CurvePaths.CurvePath.Create | RayTracer/CurvePath.c:16-38 | null iff allocation fails; otherwise no curves, capacity 1, prevPoint and prevDeriv the start arguments |
| CurvePaths.CurvePath.AddWaypoint | RayTracer/CurvePath.c:40-65 | keeps count <= capacity (a power of two); a failed growth changes nothing; otherwise it appends the curve from prevPoint to the point leaving with prevDeriv, doubling a full array |
| CurvePaths.PathIsSmooth | RayTracer/CurvePath.c:58-64 | consecutive curves meet at a waypoint with equal tangents |
| CurvePaths.LookupOnCurve | RayTracer/CurvePath.c:70-82 | below the curve count the index selects curve floor(totalT) at its fractional part |
| CurvePaths.LookupPastEnd | RayTracer/CurvePath.c:73-77 | at or past the curve count the result is the end point of the last curve |
| CurvePaths.LookupOfEmpty | RayTracer/CurvePath.c:78-81 | an empty path yields the zero vector |
| CurvePaths.LookupAtWaypoint | RayTracer/CurvePath.c:68-83 | integer positions land exactly on the waypoints |
| CurvePaths.ByCapacityStopsEarly | RayTracer/CurvePath.c:70 | with fewer curves than capacity, every t from count/capacity on yields the last waypoint |
| CurvePaths.InterpolateStopsEarlyOnStraightPiece | RayTracer/CurvePath.c:68-83 | three curves, capacity 4: the path as written is already at the end at t = 0.75, while scaling by the count is not |
| CurvePaths.AppendKeepsPath | RayTracer/CurvePath.c:58-64 | appending the curve from prevPoint to the new point, leaving with prevDeriv, keeps the curves joined with matching tangents and prevPoint at the last waypoint |
| CurvePaths.PathPointAtWaypoint | RayTracer/CurvePath.c:68-83 | t with t * count == k lands the count-scaled lookup on waypoint k |
| CurvePaths.ByCountReachesWaypoints | RayTracer/CurvePath.c:70 | scaling by the curve count, t = k / count lands on waypoint k, so [0, 1] spans the path |
| CurvePaths.Lookup | RayTracer/CurvePath.c:70-82 | the body of CurvePath_interpolate after t is scaled; defined without a contract, CurvePaths.LookupOnCurve, CurvePaths.LookupPastEnd, CurvePaths.LookupOfEmpty and CurvePaths.LookupAtWaypoint state its three branches |
| CurvePaths.CurvePath.Interpolate | RayTracer/CurvePath.c:68-83 | CurvePath_interpolate as written, scaling t by the capacity; defined without a contract, CurvePaths.ByCapacityStopsEarly and CurvePaths.InterpolateStopsEarlyOnStraightPiece state where it stops |
| CurvePaths.CurvePath.InterpolateByCount | RayTracer/CurvePath.c:68-83 | the corrected interpolation, scaling t by the curve count; defined without a contract, CurvePaths.ByCountReachesWaypoints states that [0, 1] spans every waypoint |
| Capacities.DoubleIsPowerOfTwo | RayTracer/CurvePath.c:43-56 | doubling keeps the capacity a power of two |
| MathFunctions.SameSign | RayTracer/MathFunctions.c:10-13 | true exactly when both values are non-negative or both negative |
| MathFunctions.SameSignIsEquivalence | RayTracer/MathFunctions.c:10-13 | zero counts as positive, and the test is reflexive, symmetric and transitive |
| MathFunctions.BisectionMethod | RayTracer/MathFunctions.c:15-34 | the loop computes the result of iter halvings of the bracket |
| MathFunctions.IterateStaysInside | RayTracer/MathFunctions.c:19-32 | sx <= ex throughout and the bracket stays inside the original one |
| MathFunctions.IterateHalves | RayTracer/MathFunctions.c:19-32 | after n steps the bracket's width is the original halved n times |
| MathFunctions.HalveIsDivision | RayTracer/MathFunctions.c:19-32 | a width halved n times, times 2^n, gives the width back |
| MathFunctions.StepHalves | RayTracer/MathFunctions.c:21-31 | one step halves the bracket |
| MathFunctions.MidpointIsAnEnd | RayTracer/MathFunctions.c:21-31 | after a step the last midpoint is an end of the new bracket |
| MathFunctions.BisectionInBracket | RayTracer/MathFunctions.c:15-34 | with at least one iteration the result lies in [sx, ex] |
| MathFunctions.BisectionWithoutIterations | RayTracer/MathFunctions.c:17-19 | with iter <= 0 the result is 0 |
| MathFunctions.IterateKeepsSignChange | RayTracer/MathFunctions.c:23-31 | the sign test decides the moving end so the bracket keeps a sign change with sy == f(sx) |
| MathFunctions.RootsPrefix | RayTracer/MathFunctions.c:44-56 | scanning more probe intervals only appends roots |
| MathFunctions.RootsAtMostOnePerInterval | RayTracer/MathFunctions.c:44-56 | at most one root per probe interval |
| MathFunctions.RootsAreBracketed | RayTracer/MathFunctions.c:38-51 | every reported root lies in a probe interval [prevX, curX] whose ends differ in sign |
| MathFunctions.ProbeStep | RayTracer/MathFunctions.c:38-46 | consecutive probes are one subinterval apart and increase |
| MathFunctions.FindRoots | RayTracer/MathFunctions.c:36-59 | returns min(rootCount, roots found) and writes exactly those first entries; the rest of the array is untouched |
| MathFunctions.FoundIsBounded | RayTracer/MathFunctions.c:42-58 | the count returned is at most min(rootCount, tries) |
| MathFunctions.Step | RayTracer/MathFunctions.c:21-31 | one bisection iteration; defined without a contract, MathFunctions.StepHalves and MathFunctions.MidpointIsAnEnd state that it halves the bracket and keeps the midpoint as an end |
| MathFunctions.Iterate | RayTracer/MathFunctions.c:19-32 | the loop state after n iterations; defined without a contract, MathFunctions.IterateStaysInside, MathFunctions.IterateHalves and MathFunctions.IterateKeepsSignChange state its invariants |
| MathFunctions.Bisection | RayTracer/MathFunctions.c:15-34 | the value bisectionMethodF returns; defined without a contract, MathFunctions.BisectionInBracket and MathFunctions.BisectionWithoutIterations state its range and its zero-iteration case, and MathFunctions.BisectionMethod that the loop computes it |
| MathFunctions.Roots | RayTracer/MathFunctions.c:44-56 | the roots found in the first n probe intervals; defined without a contract, MathFunctions.RootsPrefix, MathFunctions.RootsAtMostOnePerInterval and MathFunctions.RootsAreBracketed state its shape, and MathFunctions.FindRoots that the loop writes its prefix |
| MathFunctions.Probe | RayTracer/MathFunctions.c:38-46 | probe k is sx + (k + 1) * subInterval; defined without a contract, MathFunctions.ProbeStep states the spacing and Hits.ProbeInRange the range |
| Grids.GridIndexInBounds | RayTracer/Camera.c:63 | x + y * width of a pixel is below width * height |
| Grids.GridIndexDecodes | RayTracer/Camera.c:63 | the index gives back x and y by remainder and quotient |
| Grids.GridIndexCovers | RayTracer/Camera.c:46-55 | every table index is the index of one pixel |
| Cameras.RayIndexIsBijection | RayTracer/Camera.c:46-63 | x + y * width is a bijection from the pixel grid onto 0 .. width * height - 1 |
| Cameras.RayOffsetsAreCentred | RayTracer/Camera.c:42-51 | pixels i and n - 1 - i get opposite offsets |
| Cameras.ScreenPointIsLong | RayTracer/Camera.c:50-53 | the screen point has z = 1, so its length is at least 1 and norm never divides by 0 |
| Cameras.FillTable | RayTracer/Camera.c:46-56 | entry i of the table is the normalised ray of pixel (i % width, i / width) |
| Cameras.FillRow | RayTracer/Camera.c:48-55 | one row of the nested loop fills exactly that row's entries and keeps the earlier ones |
| Cameras.Camera.Create | RayTracer/Camera.c:25-59 | non-null iff allocation succeeds and both sizes are even; then at the origin with yaw and pitch 0 and the full ray table |
| Cameras.Camera.RayAt | RayTracer/Camera.c:63 | entry x + y * width is the table ray of pixel (x, y) |
| Cameras.Camera.Set | RayTracer/Camera.c:68-79 | stores pos, yaw and pitch exactly; the basis is the function of yaw and pitch, right = cross(up, forward) |
| Cameras.Camera.Move | RayTracer/Camera.c:81-84 | adds the deltas to pos, yaw and pitch |
| Cameras.Camera.MoveForward | RayTracer/Camera.c:86-90 | pos moves by amt times the old forward vector; yaw, pitch and basis unchanged |
| Cameras.Camera.MoveUp | RayTracer/Camera.c:93-97 | pos moves by amt times the old up vector; yaw, pitch and basis unchanged |
| Cameras.Camera.MoveRight | RayTracer/Camera.c:99-103 | pos moves by amt times the old right vector; yaw, pitch and basis unchanged |
| Cameras.ForwardClosedForm | RayTracer/Camera.c:74-76 | forward is (sin yaw cos pitch, -sin pitch, cos yaw cos pitch) |
| Cameras.UpClosedForm | RayTracer/Camera.c:74-77 | up is (sin yaw sin pitch, cos pitch, cos yaw sin pitch) |
| Cameras.BasisIsOrthonormal | RayTracer/Camera.c:74-78 | for true sine/cosine values forward, up and right are unit vectors at right angles |
| Cameras.VectorAtHasTableCoordinates | RayTracer/Camera.c:61-66 | the world ray of vectorAt has the table ray's coordinates along right, up and forward |
| Cameras.RayOffset | RayTracer/Camera.c:42-51 | (i - half + 0.5) * su, the pixel's screen offset; defined without a contract, Cameras.RayOffsetsAreCentred states that it is symmetric about the centre |
| Cameras.ScreenScale | RayTracer/Camera.c:41 | su = tan(fov / 2 in radians) * 2 / width, with tan a parameter and 0 for width 0, where C divides by zero but the ray table is empty; defined without a contract |
| Cameras.Forward | RayTracer/Camera.c:74-76 | rot applied to (0, 0, 1); defined without a contract, Cameras.ForwardClosedForm gives its coordinates and Cameras.BasisIsOrthonormal its length |
| Cameras.Up | RayTracer/Camera.c:74-77 | rot applied to (0, 1, 0); defined without a contract, Cameras.UpClosedForm gives its coordinates and Cameras.BasisIsOrthonormal its length |
| Cameras.Camera.VectorAt | RayTracer/Camera.c:61-66 | Camera_vectorAt, the table ray combined along right, up and forward; defined without a contract, Cameras.VectorAtHasTableCoordinates states that the table ray is its coordinate vector in the basis |
| Framebuffers.OffsetInBounds | RayTracer/RayTracingEngine.c:90-102 | (y * width + x) * 3 + 2 < 3 * width * height for every pixel |
| Framebuffers.ByteOfPixel | RayTracer/Framebuffer.c:45-51 | every byte index is one channel of one pixel |
| Framebuffers.PixelsDetermineBytes | RayTracer/Framebuffer.c:45-51 | two buffers that agree on every pixel are equal |
| Framebuffers.OffsetsAreApart | RayTracer/RayTracingEngine.c:100-102 | distinct pixels' byte triples do not overlap |
| Framebuffers.Framebuffer.Create | RayTracer/Framebuffer.c:11-26 | null iff allocation fails; otherwise a buffer of 3 * width * height bytes with the given sizes |
| Framebuffers.Framebuffer.Clear | RayTracer/Framebuffer.c:43-52 | pixels[i] == [r, g, b][i % 3] for every i; sizes unchanged |
| Framebuffers.ClearedPixelsAreUniform | RayTracer/Framebuffer.c:43-52 | after clear every pixel reads back as (r, g, b) |
| CNumbers.Trunc | RayTracer/Scene.c:349 | the int conversion truncates toward zero |
| Hits.ClosestHit | RayTracer/Scene.c:334-431 | a standalone statement of the selection loop over one candidate list: it computes SelectAll; the scene does not call it, its own loops are Scenes.Scene.ScanPlanes, ScanSpheres and ScanTori |
| Hits.NothingAcceptableMeansNoHit | RayTracer/Scene.c:334-431 | FAR_T and no object exactly when no candidate fits with EPSILON < t < FAR_T |
| Hits.SelectAllIsFirstMinimum | RayTracer/Scene.c:349-428 | otherwise the reported candidate is the minimum acceptable one, and the first of equals |
| Hits.SelectAllStaysBelowFar | RayTracer/Scene.c:334 | the reported t never exceeds FAR_T |
| Hits.PlaneFitsIsInsideRectangle | RayTracer/Scene.c:349 | the intended bounds test accepts exactly the points strictly inside the plane's rectangle |
| Hits.PlaneFitsAsWrittenAcceptsUnitSquare | RayTracer/Scene.c:349 | as written, any hit with both local coordinates in (-1, 1) passes for every plane |
| Hits.PlaneBoundsCounterexample | RayTracer/Scene.c:349 | a 1 x 1 plane hit at local x = 0.9 passes the test as written and fails the intended one |
| Hits.QuarticFactors | RayTracer/Scene.c:309-326 | the quartic equals the product of the tube equations at signed distance s from the axis |
| Hits.TorusFunctionVanishesOnSurface | RayTracer/Scene.c:309-326 | torusFunction is 0 at every point of the torus surface |
| Hits.TorusSearchStart | RayTracer/Scene.c:414-417 | the search starts no nearer than EPSILON |
| Hits.TorusHitDistance | RayTracer/Scene.c:419-420 | t is the first root found, or stays -1 when there is none |
| Hits.MissedTorusIsRejected | RayTracer/Scene.c:419-428 | a torus with no root (t = -1) never becomes the closest hit |
| Hits.ProbeInRange | RayTracer/MathFunctions.c:38-46 | the probes of the torus search stay within [tMin, tMax] |
| Hits.TorusRootInInterval | RayTracer/Scene.c:414-420 | a torus root that is found lies in [tMin, tMax] |
| Hits.Select | RayTracer/Scene.c:349-428 | one test of the selection loops, replacing the closest hit when the candidate fits and EPSILON < t < closestT; defined without a contract, Hits.SelectAllIsFirstMinimum states what repeating it computes |
| Hits.SelectAll | RayTracer/Scene.c:334-431 | the selection over a candidate list from FAR_T; defined without a contract, Hits.NothingAcceptableMeansNoHit, Hits.SelectAllIsFirstMinimum and Hits.SelectAllStaysBelowFar state its result |
| Hits.PlaneFits | RayTracer/Scene.c:349 | the corrected bounds test on real absolute values; defined without a contract, Hits.PlaneFitsIsInsideRectangle states that it accepts exactly the inside of the rectangle |
| Hits.PlaneFitsAsWritten | RayTracer/Scene.c:349 | the bounds test as written, with C's integer abs of the truncated coordinate, which the scene's plane candidates use; defined without a contract, Hits.PlaneFitsAsWrittenAcceptsUnitSquare and Hits.PlaneBoundsCounterexample state how it differs |
| Hits.PlaneFitsAgreeOnWholeSizes | RayTracer/Scene.c:349 | with whole-number half sizes the test as written and the corrected test accept the same hits |
| Hits.TorusConstantsFor | RayTracer/Scene.c:403-411 | the TorusConstants record: R^2 - r^2, 4 R^2 and the local start and direction; defined without a contract, Hits.QuarticFactors states the quartic they define |
| Hits.TorusFunction | RayTracer/Scene.c:309-326 | torusFunction, the quartic at st + t dr; defined without a contract, Hits.QuarticFactors and Hits.TorusFunctionVanishesOnSurface state that it vanishes exactly where the tube equations do |
| Hits.TorusRoots | RayTracer/Scene.c:413-419 | the roots findRootsF can report for the torus: 50 probes, 25 bisections, room for one; defined without a contract, Hits.TorusHitDistance and Hits.TorusRootInInterval state what t becomes |
| Scenes.ClampTubeIsMinimum | RayTracer/Scene.c:282-285 | the stored tube radius is min(radius, tubeRadius) |
| Scenes.NewPointLightRange | RayTracer/Scene.c:19-29 | the stored squared range is never negative; a point at distance at least abs(dist) from the added light gets brightness 0 and a nearer point a brightness in (0, 1]; -dist and dist give the same light |
| Scenes.NewPlaneExtent | RayTracer/Scene.c:220-221 | halfWidth == width / 2 and halfHeight == height / 2 |
| Scenes.NewPlaneTranslation | RayTracer/Scene.c:225-227 | the stored inverse translation is translate(-center) |
| Scenes.NewPlaneRotation | RayTracer/Scene.c:224 | the stored rotation has determinant 1 |
| Scenes.NewTorusTube | RayTracer/Scene.c:282-289 | a stored torus keeps its radius and has tubeRadius <= radius and <= the requested tube |
| Scenes.NewTorusTranslation | RayTracer/Scene.c:292-293 | the stored inverse translation is translate(-center) |
| Scenes.NewTorusRotation | RayTracer/Scene.c:294 | the stored rotation has determinant 1 |
| Scenes.Direction | RayTracer/Vec3.c:73-81 | Vec3_norm as the scene applies it, through the optics record's square root; defined without a contract |
| Scenes.NewPointLight | RayTracer/Scene.c:190-193 | the stored light, with its range kept squared; defined without a contract, Scenes.NewPointLightRange states what that range means to the lighting |
| Scenes.NewPlane | RayTracer/Scene.c:218-228 | the stored plane with its derived fields; defined without a contract, Scenes.NewPlaneExtent, Scenes.NewPlaneTranslation and Scenes.NewPlaneRotation state them |
| Scenes.NewSphere | RayTracer/Scene.c:251-256 | the stored sphere, with translate(center) and its inverse; defined without a contract |
| Scenes.NewTorus | RayTracer/Scene.c:282-296 | the stored torus with its tube clamped; defined without a contract, Scenes.NewTorusTube, Scenes.NewTorusTranslation and Scenes.NewTorusRotation state its fields |
| Scenes.ClampTube | RayTracer/Scene.c:282-285 | the tube radius lowered to the ring radius when larger; defined without a contract, Scenes.ClampTubeIsMinimum states that it is the minimum |
| Scenes.GrowthKeepsRoom | RayTracer/Scene.c:173-188 | capacity stays a power of two and only doubles; an add fails exactly when the array is full and realloc fails; a successful add has room |
| Scenes.PlaneCandidatesOf | RayTracer/Scene.c:340-356 | one candidate per plane |
| Scenes.SphereCandidatesOf | RayTracer/Scene.c:359-394 | two candidates per sphere, t1 then t2 |
| Scenes.TorusCandidatesOf | RayTracer/Scene.c:397-429 | one candidate per torus |
| Scenes.PlaneCandidate | RayTracer/Scene.c:342-355 | a plane's candidate, t = -st.y / dr.y in the plane's frame with the bounds test as written (`Hits.PlaneFitsAsWritten`, C's integer abs); defined without a contract, Scenes.PlaneCandidatesOf states where it lands in the list |
| Scenes.SphereCandidates | RayTracer/Scene.c:361-393 | a sphere's t1 and t2, both admitted exactly when the ray meets the sphere (the discriminant test, taken from the optics record); defined without a contract, Scenes.SphereCandidatesOf states their place in the list |
| Scenes.TorusCandidate | RayTracer/Scene.c:398-428 | a torus's candidate at the first root or -1; defined without a contract, Hits.TorusHitDistance and Hits.MissedTorusIsRejected state its distance |
| Scenes.Candidates | RayTracer/Scene.c:340-429 | every candidate of the ray in plane, sphere, torus order; defined without a contract, Scenes.CandidatesNameObjects states that each names an existing object with its material |
| Scenes.SurfaceNormal | RayTracer/Scene.c:433-466 | the normal of the closest object: rotate * (0, 1, 0) for a plane, the optics record's sphere or torus normal otherwise, zero when nothing is hit; defined without a contract |
| Scenes.HitInfo | RayTracer/Scene.c:332-469 | what Scene_traceHit writes into TraceInfo; defined without a contract, Scenes.HitIsNearestCandidate states its meaning |
| Scenes.CandidatesNameObjects | RayTracer/Scene.c:340-429 | every candidate names an existing object and carries its material |
| Scenes.HitIsNearestCandidate | RayTracer/Scene.c:332-469 | traceHit reports FAR_T iff nothing is acceptable; otherwise the first nearest acceptable candidate, an existing object whose material the record carries |
| Scenes.QueryOf | RayTracer/Scene.c:332-469 | the scene's own query answers every ray as traceHit does |
| Scenes.DistanceBrightness | RayTracer/Scene.c:19-29 | 0 when rSq >= distSq, otherwise in (0, 1] |
| Scenes.AngleBrightness | RayTracer/Scene.c:31-39 | never negative |
| Scenes.AngleBrightnessIsCosine | RayTracer/Scene.c:31-39 | for unit vectors it is the cosine clipped at 0, so at most 1 |
| Scenes.BrightnessInUnitRange | RayTracer/Scene.c:487 | a light's share is non-negative, and at most 1 for unit vectors |
| Scenes.LightingStep | RayTracer/Scene.c:475-490 | each light adds its share exactly when nothing on the shadow ray is nearer than the light |
| Scenes.LightingIsAtLeastAmbient | RayTracer/Scene.c:472-492 | with non-negative light colours every channel is at least AMBIENT_LIGHT |
| Scenes.LightingInShadow | RayTracer/Scene.c:474-490 | with every light blocked the colour is exactly the ambient grey |
| Scenes.Lighting | RayTracer/Scene.c:472-492 | ambient grey plus the share of every unblocked light; defined without a contract, Scenes.LightingStep, Scenes.LightingIsAtLeastAmbient and Scenes.LightingInShadow state its value |
| Scenes.Reflect | RayTracer/Scene.c:536 | d - 2 (d . n) n; defined without a contract, Scenes.ReflectionIsMirror states that it mirrors about a unit normal and keeps the length |
| Scenes.SkySampled | RayTracer/Scene.c:511 | the sky is sampled when it has pixels and its flag for this depth is set; defined without a contract |
| Scenes.Background | RayTracer/Scene.c:509-523 | the colour of a missed ray, the sky texel or black; defined without a contract, Scenes.MissWithoutSkyIsBlack and Scenes.BounceOfMiss state its cases |
| Scenes.Bounce | RayTracer/Scene.c:498-550 | the colour seen down a ray at a depth, as the recursion the loop-and-stack code unrolls; defined without a contract, Scenes.BounceOfMiss, Scenes.BounceOfHit, Scenes.MatteSurfaceEndsTrace and Scenes.DeepestLevelIsNotReflected state its cases, and Scenes.Scene.Trace that the loops compute it |
| Scenes.ReflectionIsMirror | RayTracer/Scene.c:536 | reflecting about a unit normal flips the normal component and keeps the length |
| Scenes.ClampColor | RayTracer/Scene.c:552-554 | every channel of the result is at most 1, and channels at most 1 are kept |
| Scenes.ClampColorIsIdempotent | RayTracer/Scene.c:552-554 | clamping twice is clamping once; it only lowers channels and keeps non-negative colours non-negative |
| Scenes.MissWithoutSkyIsBlack | RayTracer/Scene.c:509-525 | a primary miss with no sky texture or the sky flag off is black |
| Scenes.MatteSurfaceEndsTrace | RayTracer/Scene.c:528-533 | a hit without specular part is its lit diffuse colour only |
| Scenes.DeepestLevelIsNotReflected | RayTracer/Scene.c:532 | at depth NUM_REFLECTIONS no reflection is followed |
| Scenes.TubesFitAppend | RayTracer/Scene.c:282-289 | appending a clamped torus keeps tubeRadius <= radius for all stored tori |
| Scenes.BounceOfMiss | RayTracer/Scene.c:509-525 | on a miss the colour is the sky texel when sampled at that depth, else black |
| Scenes.BounceOfHit | RayTracer/Scene.c:526-537 | on a hit the colour is lit diffuse plus specular times the mirrored ray's colour, while mirrors and the depth allow |
| Scenes.UnfoldsExtend | RayTracer/Scene.c:526-537 | recording one more level keeps the per-level equations of the stack |
| Scenes.FoldLevels | RayTracer/Scene.c:540-550 | folding the recorded levels from the deepest one back to the first gives the colour seen at depth 0 |
| Scenes.Scene.Create | RayTracer/Scene.c:124-156 | null iff allocation fails; otherwise every collection is empty with capacity 1 and the sky has no pixels |
| Scenes.Scene.SetSky | RayTracer/Scene.c:158-168 | the sky record is replaced and nothing else changes |
| Scenes.Scene.AddPointLight | RayTracer/Scene.c:170-195 | appends the light at the old count or, when growth fails, changes nothing; capacity per GrownSize; other collections unchanged |
| Scenes.Scene.AddPlane | RayTracer/Scene.c:197-230 | appends the plane with its derived fields or changes nothing; capacity per GrownSize; others unchanged |
| Scenes.Scene.AddSphere | RayTracer/Scene.c:232-259 | appends the sphere or changes nothing; capacity per GrownSize; others unchanged |
| Scenes.Scene.AddTorus | RayTracer/Scene.c:261-298 | appends the torus with its tube clamped or changes nothing; capacity per GrownSize; others unchanged |
| Scenes.Scene.TraceHit | RayTracer/Scene.c:332-469 | the hit record is the nearest-candidate record over the scene's objects |
| Scenes.Scene.ScanPlanes | RayTracer/Scene.c:340-356 | the plane loop continues the selection over one candidate per plane |
| Scenes.Scene.ScanSpheres | RayTracer/Scene.c:359-394 | the sphere loop continues the selection over t1, t2 of each sphere |
| Scenes.Scene.ScanTori | RayTracer/Scene.c:397-429 | the torus loop continues the selection over each torus's root |
| Scenes.Scene.Diffuse | RayTracer/Scene.c:472-492 | the accumulated colour is ambient plus every unblocked light's share |
| Scenes.Scene.LightShare | RayTracer/Scene.c:477-489 | whether the shadow ray reaches the light, and the light's colour times its brightness |
| Scenes.Scene.TraceLevel | RayTracer/Scene.c:506-537 | one level of the loop: the level's colour, and whether to continue with the mirrored ray |
| Scenes.Scene.Trace | RayTracer/Scene.c:498-557 | the back-to-front fold of the materialInfo stack is the clamped colour Bounce defines, the recursive sum of lit diffuse plus specular times the mirrored ray |
| Blocks.Identity | RayTracer/RayTracingEngine.c:47-50 | the table 0, 1, ..., n - 1 |
| Blocks.Swap | RayTracer/RayTracingEngine.c:53-57 | the two entries are exchanged and the others kept |
| Blocks.SwapPermutes | RayTracer/RayTracingEngine.c:53-57 | a swap keeps the multiset of entries |
| Blocks.ShuffledIsPermutation | RayTracer/RayTracingEngine.c:51-58 | the shuffle is a permutation for every random sequence |
| Blocks.BlockOrderLists | RayTracer/RayTracingEngine.c:47-58 | the order has blockSize entries in [0, blockSize) and lists every offset |
| Blocks.BlockOrderIsInjective | RayTracer/RayTracingEngine.c:47-58 | no offset appears twice |
| Blocks.FillBlockOrder | RayTracer/RayTracingEngine.c:47-58 | the array holds the identity shuffled by rand |
| Blocks.FillIdentity | RayTracer/RayTracingEngine.c:47-50 | the first loop leaves the identity |
| Blocks.ShuffleOrder | RayTracer/RayTracingEngine.c:51-58 | the second loop swaps entry i with entry rand(i) % blockSize for each i in turn |
| Blocks.BlockOffsetsInRange | RayTracer/RayTracingEngine.c:83-84 | 0 <= val % bw < bw and 0 <= val / bw < bw |
| Blocks.InBlockIsBlockOf | RayTracer/RayTracingEngine.c:83-91 | a pixel is congruent to offset val exactly when its block index is val |
| Blocks.BlockOfInRange | RayTracer/RayTracingEngine.c:83-84 | every pixel's block index is below blockSize |
| Blocks.EveryPixelIsInSomeBlock | RayTracer/RayTracingEngine.c:80-103 | every pixel is congruent to the offset of some order entry |
| Blocks.ClampBlockWidth | RayTracer/RayTracingEngine.c:29-31 | in range kept, below 1 gives 1, above height gives height; in [1, height] when height > 0 |
| Blocks.QuantizeRounds | RayTracer/RayTracingEngine.c:96-98 | on [0, 1] the byte is c * 255 rounded to nearest; 0 gives 0 and 1 gives 255 |
| Blocks.QuantizeIsMonotone | RayTracer/RayTracingEngine.c:96-98 | brighter channels never give smaller bytes on [0, 1] |
| Blocks.StorePixel | RayTracer/RayTracingEngine.c:100-102 | the three writes keep the buffer length |
| Blocks.StorePixelEffect | RayTracer/RayTracingEngine.c:100-102 | the written pixel reads back as the colour and every other pixel is unchanged |
| Blocks.Shuffled | RayTracer/RayTracingEngine.c:51-58 | the first k swaps of the shuffle loop applied to the table; the ensures keeps the length, and Blocks.ShuffledIsPermutation states that it is a permutation |
| Blocks.BlockOf | RayTracer/RayTracingEngine.c:83-91 | the index of the block offset a pixel is congruent to; defined without a contract beyond positivity of the width, Blocks.InBlockIsBlockOf and Blocks.BlockOfInRange state its meaning |
| Blocks.Quantize | RayTracer/RayTracingEngine.c:96-98 | (uint8_t) floor(c * 255 + 0.5), keeping the low eight bits where the C conversion is undefined; defined without a contract, Blocks.QuantizeRounds and Blocks.QuantizeIsMonotone state its value on [0, 1] |
| Engine.RayTracingEngine.Create | RayTracer/RayTracingEngine.c:21-63 | non-null iff every allocation succeeds and both sizes are even; then the clamped block width, blockSize == bw * bw, the shuffled identity as order, cursor 0, empty scene, camera at the origin |
| Engine.RayTracingEngine.GetWidth | RayTracer/RayTracingEngine.c:65-68 | the stored width |
| Engine.RayTracingEngine.GetHeight | RayTracer/RayTracingEngine.c:70-73 | the stored height |
| Engine.RayTracingEngine.Simulate | RayTracer/RayTracingEngine.c:75-106 | at the end of the order nothing changes; otherwise the cursor advances by one and exactly the pixels congruent to the next offset get their traced colour, all other bytes unchanged |
| Engine.RayTracingEngine.FullyRendered | RayTracer/RayTracingEngine.c:80-103 | once blockSize steps are done since a reset, every pixel holds its traced colour |
| Engine.RayTracingEngine.Restart | RayTracer/RayTracingEngine.c:121-122 | every byte becomes 0 and the cursor 0 |
| Engine.RayTracingEngine.MoveCamera | RayTracer/RayTracingEngine.c:118-123 | the camera moves as Camera_move does, every byte becomes 0 and the cursor 0 |
| Engine.RayTracingEngine.MoveCameraForward | RayTracer/RayTracingEngine.c:125-130 | the camera moves along forward, every byte becomes 0 and the cursor 0 |
| Engine.RayTracingEngine.MoveCameraUp | RayTracer/RayTracingEngine.c:132-137 | the camera moves along up, every byte becomes 0 and the cursor 0 |
| Engine.RayTracingEngine.MoveCameraRight | RayTracer/RayTracingEngine.c:139-145 | the camera moves along right, every byte becomes 0 and the cursor 0 |
| Engine.RayTracingEngine.DrawBlock | RayTracer/RayTracingEngine.c:88-104 | the outer loop writes exactly the pixels congruent to the offset |
| Engine.RayTracingEngine.DrawRow | RayTracer/RayTracingEngine.c:90-103 | the inner loop writes one row's congruent pixels, with pLoc == (y * width + x) * 3 |
| Engine.RayTracingEngine.DrawPixel | RayTracer/RayTracingEngine.c:93-102 | one in-bounds three-byte write of the pixel's quantised traced colour |
| Engine.RayTracingEngine.Shade | RayTracer/RayTracingEngine.c:93-98 | the quantised colour Scene_trace gives the camera ray through pixel (x, y); defined without a contract, Engine.RayTracingEngine.DrawPixel and Engine.RayTracingEngine.FullyRendered state where it is written |

`Engine.RayTracingEngine.Rendered` is the engine's progress invariant: every
pixel of an offset before the cursor holds its traced colour. `Create`,
`Restart` and the camera moves establish it, and `Simulate` preserves it.
With `FullyRendered`, this gives the coverage theorem: starting from a reset,
`blockSize` calls of `simulate` paint every pixel.

## Left out

- Floating point: colours, geometry and the camera are over `real`.
  Rounding, NaN and infinity are not modelled. `float` to `int` conversion
  is modelled in the quantisation and in the as-written plane bounds test
  (`Hits.PlaneFitsAsWritten`), which the scene uses.
- `sqrt`, `tan`, `sin` and `cos` are parameters constrained only by the facts
  each proof needs: a positive `sqrt`, and s^2 + c^2 = 1. `M_PI` is its
  decimal constant.
- The float geometry of `Scene_traceHit` is the `Optics` record of functions:
  - the plane and sphere crossings;
  - the torus frame ray;
  - the surface normals;
  - the reciprocal used for a zero length;
  - the sky texel lookup (`atan2`, `asin`, `floor`).

  The selection that consumes these values is modelled exactly.
- A parallel ray divides by zero when it meets a plane. The model treats that
  candidate as not fitting, because an infinity or NaN fails the range test in C.
- `malloc` and `realloc` are success flags, and `free` and the `*_destroy`
  functions are left out. `rand()` is a function of the loop counter.
  `MathFunctions_randomF` is a wrapper over `rand()` and is not modelled.
- RayTracer/main.c is not part of this model: it does windowing, OpenGL and
  input. Neither is `Mat4_print`, which is console output.
- Getters that only return a field are read as the field:
  - `RayTracingEngine_getRenderBuffer`, `RayTracingEngine_getScene`;
  - `Framebuffer_getWidth`, `Framebuffer_getHeight`, `Framebuffer_getPixels`;
  - `Camera_getPos`.
- C `int` width is not modelled:
  - Dimensions are `nat`.
  - `blockSize`, `pLoc` and the ray-table index are unbounded, so overflow for huge images is not captured.
  - Negative widths and heights are not modelled.
- Blocks.Quantize: C's conversion of an out-of-range float to `uint8_t` is undefined. The model takes the floor's low 8 bits, and states rounding only on [0, 1].
- Engine.RayTracingEngine.Create: the block width is in [1, height] only when height > 0. With height 0 the C clamp can store 0, and the model keeps that.
- Loops are split into helper methods where one method would outrun the solver. The split does not change what is written, or in what order:
  - `FillBlockOrder` into `FillIdentity` and `ShuffleOrder`;
  - `Simulate` into `DrawBlock`, `DrawRow` and `DrawPixel`;
  - the three loops of `Scene_traceHit` into `ScanPlanes`, `ScanSpheres` and `ScanTori`;
  - the body of the `Scene_diffuse` loop into `LightShare`;
  - one round of the `Scene_trace` loop into `TraceLevel`;
  - `Camera_create`'s outer loop body into `FillRow`.
- In `Scene_trace` and `Scene_diffuse`, the recursive uses of `Scene_traceHit` go through a hit query (`HitQuery`). That query is proved to answer every ray as `Scene_traceHit` does (`Answers`, `QueryOf`).
- A miss leaves the normal and material of the hit record unset in C. The model fills them with zero values (`NoMaterial`, `Zero`); nothing reads them on a miss.
- Scenes.Scene.AddPlane and Scenes.Scene.AddTorus: both require s^2 + c^2 = 1 at yaw and pitch. The derived rotation and its inverse need this, and it is true of the C library's functions.
- Matrices.Inverse: inverse(m) * m == identity is not proved for a general matrix or for the rotations. What is proved is the bottom row, the inverse of a translation, and that this inverse moves every translated point back. The reason is the solver: the unfolded inverse is a degree-four real polynomial in the twelve entries, and the nonlinear real arithmetic that the identity needs does not close within the resource limit. The ray transforms that use the stored inverses are part of the `Optics` record, so no proof here depends on the identity.
- Vectors.Norm: requires a non-zero length, which C does not check. The camera's table rays always have length at least 1.
- MathFunctions.FindRoots:
  - this follows the code: the probes start one subinterval in from `sx`;
  - it scans `tries` intervals of width (ex - sx) / (tries + 1);
  - the last interval ends at `ex`, and the first subinterval is never examined.
- Cameras.ScreenScale: for width 0 the model's screen scale is 0. C divides by zero there, but the table it fills is then empty.
- Counts and capacities are sequence lengths and `nat` fields. Element storage beyond the count is not modelled.

## Findings

| source | as written | input that shows it | evidently intended | confidence | as-written member | corrected member |
|---|---|---|---|---|---|---|
| RayTracer/CurvePath.c:70 | `t` is scaled by the capacity `curvesSize`, not by the number of curves | 3 curves in an array of capacity 4, t = 0.75: the path as written is already at its last point, and t in (0.75, 1] adds nothing | scale by the curve count `curvesPtr`, so that t in [0, 1] spans the whole path | not executed | CurvePaths.InterpolateStopsEarlyOnStraightPiece | CurvePaths.ByCountReachesWaypoints |
| RayTracer/Scene.c:349 | the plane bounds test uses C's integer `abs`, truncating the local coordinates toward zero | a 1 x 1 plane (half sizes 0.5) hit at local x = 0.9, z = 0: `abs(0.9)` is 0 and the hit is accepted | compare the real absolute value (`fabsf`) with the half sizes | not executed | Hits.PlaneBoundsCounterexample | Hits.PlaneFitsIsInsideRectangle |

The as-written `CurvePaths.CurvePath.Interpolate` is kept beside
`CurvePaths.CurvePath.InterpolateByCount`. In the same way, the scene's plane
candidates use the test as written, `Hits.PlaneFitsAsWritten`, so every
rendering theorem describes the program as it is. The corrected
`Hits.PlaneFits` stands beside it with its own lemma. The two agree whenever
the half sizes are whole numbers (`Hits.PlaneFitsAgreeOnWholeSizes`), as they
are for the 10 x 10 planes of RayTracer/main.c:105-106.
