/**
  The render target (RayTracer/Framebuffer.c): width * height pixels of three
  bytes each (red, green, blue), stored row by row, pixel (x, y) at byte
  (y * width + x) * 3.
 */
module Framebuffers {
  import opened Bytes
  import opened Grids

  /** Byte offset of pixel (x, y) in a buffer `width` pixels wide. */
  function PixelOffset(x: int, y: int, width: int): int
  {
    (y * width + x) * 3
  }

  /** The pixel at (x, y) of a buffer, read as three bytes. */
  function PixelAt(s: seq<byte>, x: int, y: int, width: nat, height: nat): Rgb
    requires |s| == 3 * width * height && 0 <= x < width && 0 <= y < height
  {
    OffsetInBounds(x, y, width, height);
    var p := PixelOffset(x, y, width);
    Rgb(s[p], s[p + 1], s[p + 2])
  }

  /** Every pixel of the grid lies wholly inside the buffer. */
  lemma OffsetInBounds(x: int, y: int, width: nat, height: nat)
    requires 0 <= x < width && 0 <= y < height
    ensures 0 <= PixelOffset(x, y, width) && PixelOffset(x, y, width) + 2 < 3 * width * height
  {
    GridIndexInBounds(x, y, width, height);
  }

  /** Byte i belongs to pixel ((i / 3) % width, (i / 3) / width), channel i % 3. */
  lemma ByteOfPixel(i: int, width: nat, height: nat)
    requires 0 <= i < 3 * width * height
    ensures width > 0
    ensures 0 <= (i / 3) % width < width && 0 <= (i / 3) / width < height
    ensures i == PixelOffset((i / 3) % width, (i / 3) / width, width) + i % 3
  {
    GridIndexCovers(i / 3, width, height);
  }

  /**
    Two buffers of the same size agree byte for byte when they agree pixel
    for pixel: every byte belongs to some pixel.
   */
  lemma PixelsDetermineBytes(a: seq<byte>, b: seq<byte>, width: nat, height: nat)
    requires |a| == |b| == 3 * width * height
    requires forall x, y :: 0 <= x < width && 0 <= y < height ==>
      PixelAt(a, x, y, width, height) == PixelAt(b, x, y, width, height)
    ensures a == b
  {
    forall i | 0 <= i < |a|
      ensures a[i] == b[i]
    {
      ByteOfPixel(i, width, height);
      var q := i / 3;
      assert PixelAt(a, q % width, q / width, width, height) == PixelAt(b, q % width, q / width, width, height);
    }
  }

  /** Distinct pixels of the grid occupy disjoint bytes. */
  lemma OffsetsAreApart(x: int, y: int, x': int, y': int, width: nat)
    requires 0 <= x < width && 0 <= x' < width && 0 <= y && 0 <= y'
    requires x != x' || y != y'
    ensures PixelOffset(x, y, width) - PixelOffset(x', y', width) >= 3 ||
            PixelOffset(x', y', width) - PixelOffset(x, y, width) >= 3
  {
    if y == y' {
    } else if y < y' {
      MulLeMul(y + 1, y', width);
    } else {
      MulLeMul(y' + 1, y, width);
    }
  }

  class Framebuffer {
    const width: nat
    const height: nat
    const pixels: array<byte>

    ghost predicate Valid()
    {
      pixels.Length == 3 * width * height
    }

    constructor Init(width: nat, height: nat)
      ensures Valid() && fresh(pixels)
      ensures this.width == width && this.height == height
    {
      this.width := width;
      this.height := height;
      pixels := new byte[3 * width * height];
    }

    /**
      Framebuffer_create: a buffer of 3 * width * height bytes. `allocOk`
      says whether both allocations succeed; if either fails the result is
      null.
     */
    static method Create(width: nat, height: nat, allocOk: bool) returns (buffer: Framebuffer?)
      ensures !allocOk ==> buffer == null
      ensures allocOk ==> buffer != null && fresh(buffer) && fresh(buffer.pixels) && buffer.Valid()
      ensures allocOk ==> buffer.width == width && buffer.height == height
    {
      if allocOk {
        buffer := new Framebuffer.Init(width, height);
      } else {
        buffer := null;
      }
    }

    /** Framebuffer_clear: every pixel becomes (r, g, b). */
    method Clear(r: byte, g: byte, b: byte)
      requires Valid()
      modifies pixels
      ensures forall i :: 0 <= i < pixels.Length ==> pixels[i] == Channel(Rgb(r, g, b), i % 3)
    {
      var pixelCount := width * height * 3;
      var i := 0;
      while i < pixelCount
        invariant 0 <= i <= pixelCount == pixels.Length && i % 3 == 0
        invariant forall j :: 0 <= j < i ==> pixels[j] == Channel(Rgb(r, g, b), j % 3)
      {
        pixels[i] := r;
        pixels[i + 1] := g;
        pixels[i + 2] := b;
        i := i + 3;
      }
    }
  }

  /** After Clear(r, g, b) every pixel of the grid reads back as (r, g, b). */
  lemma ClearedPixelsAreUniform(s: seq<byte>, width: nat, height: nat, c: Rgb, x: int, y: int)
    requires |s| == 3 * width * height
    requires forall i :: 0 <= i < |s| ==> s[i] == Channel(c, i % 3)
    requires 0 <= x < width && 0 <= y < height
    ensures PixelAt(s, x, y, width, height) == c
  {
    OffsetInBounds(x, y, width, height);
    var p := PixelOffset(x, y, width);
    assert p % 3 == 0 && (p + 1) % 3 == 1 && (p + 2) % 3 == 2;
  }
}
