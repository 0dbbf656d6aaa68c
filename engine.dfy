/**
  The progressive renderer (RayTracer/RayTracingEngine.c). The screen is cut
  into blockWidth * blockWidth interleaved blocks: block v = py * blockWidth +
  px holds every pixel (x, y) with x % blockWidth == px and y % blockWidth ==
  py. The blocks are visited in a shuffled order, one block per call of
  Simulate, so that a coarse picture appears early and sharpens over time.
 */
module Engine {
  import opened Bytes
  import opened Vectors
  import opened Grids
  import opened Framebuffers
  import opened Cameras
  import opened Scenes
  import opened Blocks

  /** A traced colour as the three bytes of a pixel. */
  function QuantizeColor(c: Vec3): Rgb
  {
    Rgb(Quantize(c.x), Quantize(c.y), Quantize(c.z))
  }

  // ---------------------------------------------------------------------
  // The engine
  // ---------------------------------------------------------------------

  /** Which of the allocations of RayTracingEngine_create succeed. */
  datatype Allocations = Allocations(engine: bool, order: bool, buffer: bool, scene: bool, camera: bool)

  class RayTracingEngine {
    const width: nat
    const height: nat
    const blockWidth: nat
    const blockSize: nat
    const blockOrder: array<int>
    var blockOrderIndex: nat
    var blockOrderVal: int
    const renderBuffer: Framebuffer
    const scene: Scene
    const camera: Camera
    /** The square root, texture and geometry oracles every traced ray uses. */
    const optics: Optics

    /**
      The block width lies in [1, height] (it is 1 or 0 for an empty
      screen), the block order is a permutation of the blocks, the cursor
      never passes the end of it, and buffer and camera have the engine's
      size.
     */
    ghost predicate Valid()
      reads this, blockOrder, camera, camera.rays, scene
    {
      blockSize == blockWidth * blockWidth &&
      (height > 0 ==> 1 <= blockWidth <= height) && (height == 0 ==> blockWidth <= 1) &&
      blockOrder.Length == blockSize && IsBlockOrder(blockOrder[..], blockSize) &&
      blockOrderIndex <= blockSize &&
      renderBuffer.Valid() && renderBuffer.width == width && renderBuffer.height == height &&
      camera.Valid() && camera.width == width && camera.height == height &&
      scene.Valid()
    }

    /** The colour Scene_trace gives the camera ray through pixel (x, y), quantised to bytes. */
    function Shade(x: int, y: int): Rgb
      requires camera.Valid() && 0 <= x < camera.width && 0 <= y < camera.height
      reads camera, camera.rays, scene
    {
      var trace := QueryOf(optics, scene.Shapes());
      QuantizeColor(ClampColor(Bounce(optics, trace, scene.pointLights, scene.sky, camera.pos, camera.VectorAt(x, y), 0)))
    }

    /** Every pixel of every block visited since the last reset shows the current scene. */
    ghost predicate Rendered()
      requires Valid()
      reads this, blockOrder, camera, camera.rays, scene, renderBuffer.pixels
    {
      forall x, y :: 0 <= x < width && 0 <= y < height && BlockOf(x, y, blockWidth) in blockOrder[..blockOrderIndex] ==>
        PixelAt(renderBuffer.pixels[..], x, y, width, height) == Shade(x, y)
    }

    constructor Init(width: nat, height: nat, blockWidth: nat, renderBuffer: Framebuffer, scene: Scene,
                     camera: Camera, optics: Optics)
      ensures this.width == width && this.height == height && this.blockWidth == blockWidth
      ensures blockSize == blockWidth * blockWidth && fresh(blockOrder) && blockOrder.Length == blockSize
      ensures blockOrderIndex == 0 && blockOrderVal == 0
      ensures this.renderBuffer == renderBuffer && this.scene == scene && this.camera == camera
      ensures this.optics == optics
    {
      this.width := width;
      this.height := height;
      this.blockWidth := blockWidth;
      blockSize := blockWidth * blockWidth;
      blockOrder := new int[blockWidth * blockWidth];
      blockOrderIndex := 0;
      blockOrderVal := 0;
      this.renderBuffer := renderBuffer;
      this.scene := scene;
      this.camera := camera;
      this.optics := optics;
    }

    /**
      RayTracingEngine_create: null when an allocation fails (or the camera
      refuses an odd size); otherwise an engine with the clamped block width,
      a block order shuffled by the successive values of rand(), the cursor
      at the start, an empty scene and a camera at the origin.
     */
    static method Create(width: nat, height: nat, blockWidth: int, fov: real, allocs: Allocations,
                         rand: nat -> nat, optics: Optics, tan: real -> real, sine: real -> real, cosine: real -> real)
      returns (engine: RayTracingEngine?)
      requires SqrtIsPositive(optics.sqrt)
      ensures engine != null <==>
              allocs.engine && allocs.order && allocs.buffer && allocs.scene && allocs.camera &&
              width % 2 == 0 && height % 2 == 0
      ensures engine != null ==> fresh(engine) && engine.Valid() && engine.Rendered()
      ensures engine != null ==> engine.width == width && engine.height == height && engine.optics == optics
      ensures engine != null ==> engine.blockWidth == ClampBlockWidth(blockWidth, height)
      ensures engine != null ==>
              engine.blockOrder[..] == Shuffled(Identity(engine.blockSize), rand, engine.blockSize)
      ensures engine != null ==> engine.blockOrderIndex == 0
      ensures engine != null ==> engine.scene.pointLights == [] && engine.scene.planes == [] &&
                                 engine.scene.spheres == [] && engine.scene.tori == []
      ensures engine != null ==> engine.camera.pos == Zero && engine.camera.yaw == 0.0 && engine.camera.pitch == 0.0
    {
      if !allocs.engine {
        return null;
      }
      var bw := ClampBlockWidth(blockWidth, height);
      var buffer := Framebuffer.Create(width, height, allocs.buffer);
      var scene := Scene.Create(allocs.scene);
      var camera := Camera.Create(width, height, fov, allocs.camera, tan, optics.sqrt, sine, cosine);
      if buffer == null || scene == null || camera == null || !allocs.order {
        return null;
      }
      var e := new RayTracingEngine.Init(width, height, bw, buffer, scene, camera, optics);
      FillBlockOrder(e.blockOrder, rand);
      ShuffledIsPermutation(Identity(e.blockSize), rand, e.blockSize);
      engine := e;
    }

    /** RayTracingEngine_getWidth. */
    function GetWidth(): (w: nat)
      reads this
      ensures w == width
    {
      width
    }

    /** RayTracingEngine_getHeight. */
    function GetHeight(): (h: nat)
      reads this
      ensures h == height
    {
      height
    }

    /**
      RayTracingEngine_simulate: with blocks left, take the next block of the
      order and redraw exactly its pixels, each with its traced colour; every
      other pixel keeps its bytes. With none left, nothing changes.
     */
    method Simulate()
      requires Valid()
      modifies this`blockOrderIndex, this`blockOrderVal, renderBuffer.pixels
      ensures Valid()
      ensures old(Rendered()) ==> Rendered()
      ensures old(blockOrderIndex) == blockSize ==>
              blockOrderIndex == blockSize && blockOrderVal == old(blockOrderVal) &&
              renderBuffer.pixels[..] == old(renderBuffer.pixels[..])
      ensures old(blockOrderIndex) < blockSize ==>
              blockOrderIndex == old(blockOrderIndex) + 1 && blockOrderVal == blockOrder[old(blockOrderIndex)]
      ensures old(blockOrderIndex) < blockSize ==>
              forall x, y :: 0 <= x < width && 0 <= y < height ==>
                PixelAt(renderBuffer.pixels[..], x, y, width, height) ==
                if InBlock(x, y, blockWidth, blockOrderVal) then Shade(x, y)
                else old(PixelAt(renderBuffer.pixels[..], x, y, width, height))
    {
      var pixels := renderBuffer.pixels;
      ghost var before := pixels[..];
      if blockOrderIndex < blockSize {
        BlockOrderLists(blockOrder[..], blockSize);
        assert blockOrder[..blockOrderIndex + 1] == blockOrder[..blockOrderIndex] + [blockOrder[blockOrderIndex]];
        blockOrderVal := blockOrder[blockOrderIndex];
        blockOrderIndex := blockOrderIndex + 1;
        DrawBlock(blockOrderVal);
        ghost var v := blockOrderVal;
        forall x, y | 0 <= x < width && 0 <= y < height
          ensures BlockOf(x, y, blockWidth) in blockOrder[..blockOrderIndex] <==>
                  BlockOf(x, y, blockWidth) in blockOrder[..blockOrderIndex - 1] || InBlock(x, y, blockWidth, v)
        {
          InBlockIsBlockOf(x, y, blockWidth, v);
        }
      }
    }

    /**
      Once the cursor reaches the end of the block order every pixel of the
      screen shows the current scene: the order lists the block of each.
     */
    lemma FullyRendered()
      requires Valid() && Rendered() && blockOrderIndex == blockSize
      ensures forall x, y :: 0 <= x < width && 0 <= y < height ==>
                PixelAt(renderBuffer.pixels[..], x, y, width, height) == Shade(x, y)
    {
      BlockOrderLists(blockOrder[..], blockSize);
      assert blockOrder[..blockOrderIndex] == blockOrder[..];
      forall x, y | 0 <= x < width && 0 <= y < height
        ensures PixelAt(renderBuffer.pixels[..], x, y, width, height) == Shade(x, y)
      {
        BlockOfInRange(x, y, blockWidth);
      }
    }

    /** The shared tail of the camera moves: black screen, cursor back at the first block. */
    method Restart()
      requires Valid()
      modifies this`blockOrderIndex, renderBuffer.pixels
      ensures Valid() && Rendered() && blockOrderIndex == 0
      ensures forall i :: 0 <= i < renderBuffer.pixels.Length ==> renderBuffer.pixels[i] == 0
    {
      renderBuffer.Clear(0, 0, 0);
      blockOrderIndex := 0;
      forall i | 0 <= i < renderBuffer.pixels.Length
        ensures renderBuffer.pixels[i] == 0
      {
        assert renderBuffer.pixels[i] == Channel(Rgb(0, 0, 0), i % 3);
      }
    }

    /** RayTracingEngine_moveCamera: Camera_move, then a black screen and a restarted block order. */
    method MoveCamera(v: Vec3, yaw: real, pitch: real)
      requires Valid()
      modifies this`blockOrderIndex, camera, renderBuffer.pixels
      ensures Valid() && Rendered() && blockOrderIndex == 0
      ensures forall i :: 0 <= i < renderBuffer.pixels.Length ==> renderBuffer.pixels[i] == 0
      ensures camera.pos == Add(old(camera.pos), v)
      ensures camera.yaw == old(camera.yaw) + yaw && camera.pitch == old(camera.pitch) + pitch
    {
      camera.Move(v, yaw, pitch);
      Restart();
    }

    /** RayTracingEngine_moveCameraForward: a step along the view direction, then a restart. */
    method MoveCameraForward(amt: real)
      requires Valid()
      modifies this`blockOrderIndex, camera, renderBuffer.pixels
      ensures Valid() && Rendered() && blockOrderIndex == 0
      ensures forall i :: 0 <= i < renderBuffer.pixels.Length ==> renderBuffer.pixels[i] == 0
      ensures camera.pos == Add(old(camera.pos), Scale(old(camera.forward), amt))
      ensures camera.yaw == old(camera.yaw) && camera.pitch == old(camera.pitch)
    {
      camera.MoveForward(amt);
      Restart();
    }

    /** RayTracingEngine_moveCameraUp: a step along the camera's up vector, then a restart. */
    method MoveCameraUp(amt: real)
      requires Valid()
      modifies this`blockOrderIndex, camera, renderBuffer.pixels
      ensures Valid() && Rendered() && blockOrderIndex == 0
      ensures forall i :: 0 <= i < renderBuffer.pixels.Length ==> renderBuffer.pixels[i] == 0
      ensures camera.pos == Add(old(camera.pos), Scale(old(camera.up), amt))
      ensures camera.yaw == old(camera.yaw) && camera.pitch == old(camera.pitch)
    {
      camera.MoveUp(amt);
      Restart();
    }

    /** RayTracingEngine_moveCameraRight: a step along the camera's right vector, then a restart. */
    method MoveCameraRight(amt: real)
      requires Valid()
      modifies this`blockOrderIndex, camera, renderBuffer.pixels
      ensures Valid() && Rendered() && blockOrderIndex == 0
      ensures forall i :: 0 <= i < renderBuffer.pixels.Length ==> renderBuffer.pixels[i] == 0
      ensures camera.pos == Add(old(camera.pos), Scale(old(camera.right), amt))
      ensures camera.yaw == old(camera.yaw) && camera.pitch == old(camera.pitch)
    {
      camera.MoveRight(amt);
      Restart();
    }

    /**
      The pixels of `s` drawn, in loop order, up to (but not including) pixel
      (x, y): those of block v in an earlier row, or earlier in row y, hold
      their traced colour, and every other pixel is as in `before`.
     */
    ghost predicate DrawnUpTo(s: seq<byte>, before: seq<byte>, v: int, y: int, x: int)
      requires camera.Valid() && camera.width == width && camera.height == height && blockWidth > 0
      requires |s| == |before| == 3 * width * height
      reads camera, camera.rays, scene
    {
      forall x', y' :: 0 <= x' < width && 0 <= y' < height ==>
        PixelAt(s, x', y', width, height) ==
        if InBlock(x', y', blockWidth, v) && (y' < y || (y' == y && x' < x)) then Shade(x', y')
        else PixelAt(before, x', y', width, height)
    }

    /** Before the first row of block v nothing of it is drawn. */
    lemma DrawnAtStart(s: seq<byte>, v: int)
      requires camera.Valid() && camera.width == width && camera.height == height && blockWidth > 0
      requires |s| == 3 * width * height
      ensures DrawnUpTo(s, s, v, v / blockWidth, 0)
    {
      forall x', y' | 0 <= x' < width && 0 <= y' < height && InBlock(x', y', blockWidth, v)
        ensures y' >= v / blockWidth
      {
        ResidueAtMost(y', blockWidth);
      }
    }

    /** At the first column of block v in row y, the row has nothing of the block drawn yet. */
    lemma DrawnAtRowStart(s: seq<byte>, before: seq<byte>, v: int, y: int)
      requires camera.Valid() && camera.width == width && camera.height == height && blockWidth > 0
      requires |s| == |before| == 3 * width * height
      requires DrawnUpTo(s, before, v, y, 0)
      ensures DrawnUpTo(s, before, v, y, v % blockWidth)
    {
      forall x', y' | 0 <= x' < width && 0 <= y' < height && InBlock(x', y', blockWidth, v)
        ensures x' >= v % blockWidth
      {
        ResidueAtMost(x', blockWidth);
      }
    }

    /** Drawing pixel (x, y) of block v moves the frontier one block width to the right. */
    lemma DrawnStep(s: seq<byte>, before: seq<byte>, v: int, y: int, x: int)
      requires camera.Valid() && camera.width == width && camera.height == height && blockWidth > 0
      requires |s| == |before| == 3 * width * height
      requires 0 <= x < width && 0 <= y < height && InBlock(x, y, blockWidth, v)
      requires DrawnUpTo(s, before, v, y, x)
      ensures DrawnUpTo(StorePixel(s, x, y, width, height, Shade(x, y)), before, v, y, x + blockWidth)
    {
      var s' := StorePixel(s, x, y, width, height, Shade(x, y));
      forall x', y' | 0 <= x' < width && 0 <= y' < height
        ensures PixelAt(s', x', y', width, height) ==
                if InBlock(x', y', blockWidth, v) && (y' < y || (y' == y && x' < x + blockWidth)) then Shade(x', y')
                else PixelAt(before, x', y', width, height)
      {
        StorePixelEffect(s, x, y, width, height, Shade(x, y), x', y');
        if y' == y && x < x' < x + blockWidth && InBlock(x', y', blockWidth, v) {
          SameResidueInWindow(x', x, blockWidth);
        }
      }
    }

    /** Past the end of row y, the next row of block v lies one block width further down. */
    lemma DrawnRow(s: seq<byte>, before: seq<byte>, v: int, y: int, x: int)
      requires camera.Valid() && camera.width == width && camera.height == height && blockWidth > 0
      requires |s| == |before| == 3 * width * height
      requires x >= width && y % blockWidth == v / blockWidth
      requires DrawnUpTo(s, before, v, y, x)
      ensures DrawnUpTo(s, before, v, y + blockWidth, 0)
    {
      forall x', y' | 0 <= x' < width && 0 <= y' < height && InBlock(x', y', blockWidth, v) && y < y' < y + blockWidth
        ensures false
      {
        SameResidueInWindow(y', y, blockWidth);
      }
    }

    /** The outer loop of RayTracingEngine_simulate: the rows of block v, one block width apart. */
    method DrawBlock(v: int)
      requires Valid() && 0 <= v < blockSize
      modifies renderBuffer.pixels
      ensures forall x, y :: 0 <= x < width && 0 <= y < height ==>
                PixelAt(renderBuffer.pixels[..], x, y, width, height) ==
                if InBlock(x, y, blockWidth, v) then Shade(x, y)
                else old(PixelAt(renderBuffer.pixels[..], x, y, width, height))
    {
      ghost var before := renderBuffer.pixels[..];
      var camPos := camera.pos;
      BlockOffsetsInRange(v, blockWidth);
      var blockPxOffset := v % blockWidth;
      var blockPyOffset := v / blockWidth;
      var y := blockPyOffset;
      ResidueOfSmall(blockPyOffset, blockWidth);
      DrawnAtStart(before, v);
      while y < height
        invariant blockPyOffset <= y && y % blockWidth == blockPyOffset
        invariant DrawnUpTo(renderBuffer.pixels[..], before, v, y, 0)
        decreases height - y
      {
        DrawnAtRowStart(renderBuffer.pixels[..], before, v, y);
        DrawRow(v, y, camPos, before);
        assert (y + blockWidth) % blockWidth == blockPyOffset by {
          ResidueStep(y, blockWidth);
        }
        y := y + blockWidth;
      }
    }

    /** The inner loop of RayTracingEngine_simulate: row y of block v, one block width apart. */
    method DrawRow(v: int, y: int, camPos: Vec3, ghost before: seq<byte>)
      requires Valid() && 0 <= v < blockSize && 0 <= y < height && y % blockWidth == v / blockWidth
      requires camPos == camera.pos && |before| == renderBuffer.pixels.Length
      requires DrawnUpTo(renderBuffer.pixels[..], before, v, y, v % blockWidth)
      modifies renderBuffer.pixels
      ensures DrawnUpTo(renderBuffer.pixels[..], before, v, y + blockWidth, 0)
    {
      BlockOffsetsInRange(v, blockWidth);
      var blockPxOffset := v % blockWidth;
      var pLocIncColumn := blockWidth * 3;
      var pLoc := (y * width + blockPxOffset) * 3;
      var x := blockPxOffset;
      ResidueIdempotent(v, blockWidth);
      while x < width
        invariant 0 <= x && x % blockWidth == blockPxOffset && pLoc == PixelOffset(x, y, width)
        invariant DrawnUpTo(renderBuffer.pixels[..], before, v, y, x)
        decreases width - x
      {
        DrawPixel(v, x, y, pLoc, camPos, before);
        assert (x + blockWidth) % blockWidth == blockPxOffset by {
          ResidueStep(x, blockWidth);
        }
        x, pLoc := x + blockWidth, pLoc + pLocIncColumn;
      }
      DrawnRow(renderBuffer.pixels[..], before, v, y, x);
    }

    /** The body of the inner loop: trace the ray through pixel (x, y) and store its bytes at pLoc. */
    method DrawPixel(v: int, x: int, y: int, pLoc: int, camPos: Vec3, ghost before: seq<byte>)
      requires camera.Valid() && camera.width == width && camera.height == height && blockWidth > 0
      requires renderBuffer.Valid() && renderBuffer.width == width && renderBuffer.height == height
      requires 0 <= x < width && 0 <= y < height && InBlock(x, y, blockWidth, v)
      requires pLoc == PixelOffset(x, y, width) && camPos == camera.pos && |before| == renderBuffer.pixels.Length
      requires DrawnUpTo(renderBuffer.pixels[..], before, v, y, x)
      modifies renderBuffer.pixels
      ensures DrawnUpTo(renderBuffer.pixels[..], before, v, y, x + blockWidth)
    {
      var pixels := renderBuffer.pixels;
      var rayDir := camera.VectorAt(x, y);
      var color := scene.Trace(optics, QueryOf(optics, scene.Shapes()), camPos, rayDir);
      var r := Quantize(color.x);
      var g := Quantize(color.y);
      var b := Quantize(color.z);
      assert Rgb(r, g, b) == Shade(x, y);
      OffsetInBounds(x, y, width, height);
      DrawnStep(pixels[..], before, v, y, x);
      ghost var s := pixels[..];
      pixels[pLoc] := r;
      pixels[pLoc + 1] := g;
      pixels[pLoc + 2] := b;
      assert pixels[..] == StorePixel(s, x, y, width, height, Rgb(r, g, b));
    }
  }
}
