/**
  Row-major indexing of a width * height grid, shared by the camera's ray
  table (index x + y * width, RayTracer/Camera.c) and the framebuffer's pixel
  bytes (offset (y * width + x) * 3, RayTracer/RayTracingEngine.c).
 */
module Grids {

  function GridIndex(x: int, y: int, width: int): int
  {
    x + y * width
  }

  lemma MulLeMul(a: int, b: int, k: nat)
    requires a <= b
    ensures a * k <= b * k
  {
    assert b * k - a * k == (b - a) * k;
  }

  /** A cell of the grid has an index in 0 .. width * height - 1. */
  lemma GridIndexInBounds(x: int, y: int, width: nat, height: nat)
    requires 0 <= x < width && 0 <= y < height
    ensures 0 <= GridIndex(x, y, width) < width * height
  {
    MulLeMul(y, height - 1, width);
    assert (height - 1) * width == height * width - width;
  }

  /** Row y (of height) ends inside the grid, and the last row ends exactly at its end. */
  lemma RowFits(y: int, width: nat, height: nat)
    requires 0 <= y < height
    ensures y * width + width <= width * height
    ensures y + 1 == height ==> y * width + width == width * height
  {
    MulLeMul(y + 1, height, width);
  }

  /** The index determines the cell: x and y are recovered by % and /. */
  lemma GridIndexDecodes(x: int, y: int, width: nat)
    requires 0 <= x < width && 0 <= y
    ensures GridIndex(x, y, width) % width == x && GridIndex(x, y, width) / width == y
  {
    var i := GridIndex(x, y, width);
    var q, r := i / width, i % width;
    assert q * width + r == y * width + x;
    if q < y {
      MulLeMul(q + 1, y, width);
      assert false;
    } else if q > y {
      MulLeMul(y + 1, q, width);
      assert false;
    }
  }

  /** Every index 0 .. width * height - 1 is the index of a cell of the grid. */
  lemma GridIndexCovers(i: int, width: nat, height: nat)
    requires 0 <= i < width * height
    ensures width > 0 && 0 <= i % width < width && 0 <= i / width < height
    ensures GridIndex(i % width, i / width, width) == i
  {
    if width == 0 {
      assert false;
    }
    assert i / width < height by {
      if i / width >= height {
        MulLeMul(height, i / width, width);
        assert false;
      }
    }
  }
}
