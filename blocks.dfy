/**
  The block schedule of the progressive renderer (RayTracer/RayTracingEngine.c):
  the shuffled order of blocks, which pixels a block holds, the quantisation
  of a traced colour to bytes, and the store of one pixel into the buffer.
 */
module Blocks {
  import opened Bytes
  import opened Grids
  import opened Framebuffers

  // ---------------------------------------------------------------------
  // Block order: the identity, then swapped with random partners
  // ---------------------------------------------------------------------

  /** The order 0, 1, ..., n - 1 the block list starts from. */
  function Identity(n: nat): (s: seq<int>)
    ensures |s| == n && forall i :: 0 <= i < n ==> s[i] == i
  {
    seq(n, i => i)
  }

  /** Exchange entries i and j, as the three assignments of the shuffle do. */
  function Swap(s: seq<int>, i: int, j: int): (r: seq<int>)
    requires 0 <= i < |s| && 0 <= j < |s|
    ensures |r| == |s| && r[i] == s[j] && r[j] == s[i]
    ensures forall k :: 0 <= k < |s| && k != i && k != j ==> r[k] == s[k]
  {
    seq(|s|, k requires 0 <= k < |s| => if k == i then s[j] else if k == j then s[i] else s[k])
  }

  /**
    The order after the first k swaps of the shuffle: swap k - 1 exchanges
    entry k - 1 with entry rand(k - 1) % |s|, where rand(k - 1) is the value
    of the k-th call of rand().
   */
  function Shuffled(s: seq<int>, rand: nat -> nat, k: nat): (r: seq<int>)
    requires k <= |s|
    ensures |r| == |s|
    decreases k
  {
    if k == 0 then s else Swap(Shuffled(s, rand, k - 1), k - 1, rand(k - 1) % |s|)
  }

  /** Swapping never loses or duplicates an entry, whatever rand() returns. */
  lemma {:induction false} ShuffledIsPermutation(s: seq<int>, rand: nat -> nat, k: nat)
    requires k <= |s|
    ensures multiset(Shuffled(s, rand, k)) == multiset(s)
    decreases k
  {
    if k > 0 {
      ShuffledIsPermutation(s, rand, k - 1);
      SwapPermutes(Shuffled(s, rand, k - 1), k - 1, rand(k - 1) % |s|);
    }
  }

  /** A swap keeps every entry: the multiset of entries is unchanged. */
  lemma SwapPermutes(s: seq<int>, i: int, j: int)
    requires 0 <= i < |s| && 0 <= j < |s|
    ensures multiset(Swap(s, i, j)) == multiset(s)
  {
    SwapIsUpdate(s, i, j);
  }

  /** The swap is the two updates of the shuffle, in their order. */
  lemma SwapIsUpdate(s: seq<int>, i: int, j: int)
    requires 0 <= i < |s| && 0 <= j < |s|
    ensures Swap(s, i, j) == s[i := s[j]][j := s[i]]
  {
  }

  /** A permutation of 0 .. n - 1: the order holds each block exactly as often as the identity does. */
  ghost predicate IsBlockOrder(order: seq<int>, n: nat)
  {
    multiset(order) == multiset(Identity(n))
  }

  /** Every block order lists only blocks 0 .. n - 1 and lists each of them somewhere. */
  lemma BlockOrderLists(order: seq<int>, n: nat)
    requires IsBlockOrder(order, n)
    ensures |order| == n
    ensures forall k :: 0 <= k < |order| ==> 0 <= order[k] < n
    ensures forall v :: 0 <= v < n ==> v in order
  {
    assert |order| == |multiset(order)| == |multiset(Identity(n))| == n;
    forall k | 0 <= k < |order|
      ensures 0 <= order[k] < n
    {
      assert order[k] in multiset(order);
      assert order[k] in Identity(n);
    }
    forall v | 0 <= v < n
      ensures v in order
    {
      assert Identity(n)[v] == v;
      assert v in multiset(Identity(n));
    }
  }

  /** A block order never lists a block twice. */
  lemma BlockOrderIsInjective(order: seq<int>, n: nat, i: int, j: int)
    requires IsBlockOrder(order, n)
    requires 0 <= i < j < |order|
    ensures order[i] != order[j]
  {
    if order[i] == order[j] {
      var v := order[i];
      assert multiset(order)[v] >= 2 by {
        var rest := order[..i] + order[i + 1..];
        assert order == order[..i] + [v] + order[i + 1..];
        assert multiset(order) == multiset(rest) + multiset{v};
        assert order[j] == rest[j - 1];
        assert v in multiset(rest);
      }
      IdentityCountsOnce(n, v);
      assert false;
    }
  }

  /** The identity order holds each value at most once. */
  lemma {:induction false} IdentityCountsOnce(n: nat, v: int)
    ensures multiset(Identity(n))[v] <= 1
    decreases n
  {
    if n > 0 {
      IdentityCountsOnce(n - 1, v);
      assert Identity(n) == Identity(n - 1) + [n - 1];
      if v == n - 1 {
        assert v !in Identity(n - 1);
      }
    }
  }

  /**
    The two loops of RayTracingEngine_create over the block order: fill it
    with the identity, then swap entry i with entry rand() % blockSize for
    i = 0, 1, ..., blockSize - 1.
   */
  method FillBlockOrder(order: array<int>, rand: nat -> nat)
    modifies order
    ensures order[..] == Shuffled(Identity(order.Length), rand, order.Length)
  {
    FillIdentity(order);
    ShuffleOrder(order, rand);
  }

  /** The first loop: entry i becomes i. */
  method FillIdentity(order: array<int>)
    modifies order
    ensures order[..] == Identity(order.Length)
  {
    var i := 0;
    while i < order.Length
      invariant 0 <= i <= order.Length
      invariant forall k :: 0 <= k < i ==> order[k] == k
    {
      order[i] := i;
      i := i + 1;
    }
  }

  /** The second loop: the swaps, applied to the identity in place. */
  method ShuffleOrder(order: array<int>, rand: nat -> nat)
    requires order[..] == Identity(order.Length)
    modifies order
    ensures order[..] == Shuffled(Identity(order.Length), rand, order.Length)
  {
    var blockSize := order.Length;
    ghost var start := order[..];
    var i := 0;
    while i < blockSize
      invariant 0 <= i <= blockSize
      invariant order[..] == Shuffled(start, rand, i)
    {
      var temp := order[i];
      var randIndex := rand(i) % blockSize;
      ghost var s := order[..];
      order[i] := order[randIndex];
      order[randIndex] := temp;
      assert order[..] == s[i := s[randIndex]][randIndex := s[i]];
      SwapIsUpdate(s, i, randIndex);
      i := i + 1;
    }
  }

  // ---------------------------------------------------------------------
  // Blocks and pixels
  // ---------------------------------------------------------------------

  /** The block pixel (x, y) belongs to. */
  function BlockOf(x: int, y: int, blockWidth: nat): int
    requires blockWidth > 0
  {
    (y % blockWidth) * blockWidth + x % blockWidth
  }

  /** Pixel (x, y) is drawn when block v is simulated: its offsets within the block are v's. */
  predicate InBlock(x: int, y: int, blockWidth: nat, v: int)
    requires blockWidth > 0
  {
    x % blockWidth == v % blockWidth && y % blockWidth == v / blockWidth
  }

  /** The offsets decoded from a block lie within the block. */
  lemma BlockOffsetsInRange(v: int, blockWidth: nat)
    requires blockWidth > 0 && 0 <= v < blockWidth * blockWidth
    ensures 0 <= v % blockWidth < blockWidth && 0 <= v / blockWidth < blockWidth
  {
    if v / blockWidth >= blockWidth {
      MulLeMul(blockWidth, v / blockWidth, blockWidth);
      assert false;
    }
  }

  /** Pixel (x, y) is drawn by block v exactly when v is the block it belongs to. */
  lemma InBlockIsBlockOf(x: int, y: int, blockWidth: nat, v: int)
    requires blockWidth > 0 && 0 <= v < blockWidth * blockWidth
    ensures InBlock(x, y, blockWidth, v) <==> BlockOf(x, y, blockWidth) == v
  {
    var px, py := x % blockWidth, y % blockWidth;
    GridIndexDecodes(px, py, blockWidth);
    BlockOffsetsInRange(v, blockWidth);
    assert v == GridIndex(v % blockWidth, v / blockWidth, blockWidth);
  }

  /** Every pixel belongs to one of the blockWidth * blockWidth blocks. */
  lemma BlockOfInRange(x: int, y: int, blockWidth: nat)
    requires blockWidth > 0
    ensures 0 <= BlockOf(x, y, blockWidth) < blockWidth * blockWidth
  {
    GridIndexInBounds(x % blockWidth, y % blockWidth, blockWidth, blockWidth);
  }

  /** Stepping by the block width keeps the offset within the block. */
  lemma ResidueStep(a: int, b: nat)
    requires b > 0
    ensures (a + b) % b == a % b
  {
    var q, r := a / b, a % b;
    assert a + b == (q + 1) * b + r;
    if (a + b) / b < q + 1 {
      MulLeMul((a + b) / b + 1, q + 1, b);
      assert false;
    } else if (a + b) / b > q + 1 {
      MulLeMul(q + 2, (a + b) / b, b);
      assert false;
    }
  }

  /** An offset within the block is its own offset. */
  lemma ResidueIdempotent(a: int, b: nat)
    requires b > 0
    ensures (a % b) % b == a % b
  {
    ResidueOfSmall(a % b, b);
  }

  /** A coordinate in [0, b) is its own offset. */
  lemma ResidueOfSmall(a: int, b: nat)
    requires b > 0 && 0 <= a < b
    ensures a % b == a
  {
  }

  /** Two coordinates with the same offset that are less than a block apart are equal. */
  lemma SameResidueInWindow(a: int, c: int, b: nat)
    requires b > 0 && a % b == c % b && c <= a < c + b
    ensures a == c
  {
    var qa, qc := a / b, c / b;
    if qa > qc {
      MulLeMul(qc + 1, qa, b);
      assert false;
    } else if qa < qc {
      MulLeMul(qa + 1, qc, b);
      assert false;
    }
  }

  /** A non-negative coordinate is at least its offset within the block. */
  lemma ResidueAtMost(a: int, b: nat)
    requires b > 0 && 0 <= a
    ensures a % b <= a
  {
    if a / b < 0 {
      MulLeMul(a / b + 1, 0, b);
      assert false;
    }
    assert a / b * b >= 0;
  }

  /**
    Once every block has been visited every pixel has been drawn: a block
    order lists the block of every pixel.
   */
  lemma EveryPixelIsInSomeBlock(order: seq<int>, blockWidth: nat, x: int, y: int)
    requires blockWidth > 0 && IsBlockOrder(order, blockWidth * blockWidth)
    ensures exists k :: 0 <= k < |order| && InBlock(x, y, blockWidth, order[k])
  {
    var v := BlockOf(x, y, blockWidth);
    BlockOfInRange(x, y, blockWidth);
    InBlockIsBlockOf(x, y, blockWidth, v);
    BlockOrderLists(order, blockWidth * blockWidth);
    assert v in order;
    var k :| 0 <= k < |order| && order[k] == v;
    assert InBlock(x, y, blockWidth, order[k]);
  }

  /** The stored blockWidth: the requested one clamped from below by 1 and then from above by the height. */
  function ClampBlockWidth(blockWidth: int, height: nat): (bw: nat)
    ensures height > 0 ==> 1 <= bw <= height
    ensures 1 <= blockWidth <= height ==> bw == blockWidth
    ensures blockWidth < 1 ==> bw == 1
    ensures blockWidth > height && blockWidth >= 1 ==> bw == height
  {
    if blockWidth < 1 then 1 else if blockWidth > height then height else blockWidth
  }

  // ---------------------------------------------------------------------
  // Colour quantisation
  // ---------------------------------------------------------------------

  /**
    One channel of a traced colour as a byte: floor(c * 255 + 0.5). For a
    channel outside [0, 1] the C conversion is undefined; the model keeps
    the low eight bits.
   */
  function Quantize(c: real): byte
  {
    ((c * 255.0 + 0.5).Floor % 256) as byte
  }

  /** On [0, 1] quantisation rounds c * 255 to the nearest integer, from 0 at 0 up to 255 at 1. */
  lemma QuantizeRounds(c: real)
    requires 0.0 <= c <= 1.0
    ensures Quantize(c) as int == (c * 255.0 + 0.5).Floor
    ensures (Quantize(c) as real) - 0.5 <= c * 255.0 < (Quantize(c) as real) + 0.5
    ensures c == 0.0 ==> Quantize(c) == 0
    ensures c == 1.0 ==> Quantize(c) == 255
  {
    var n := (c * 255.0 + 0.5).Floor;
    assert 0 <= n < 256;
  }

  /** Quantisation keeps the order of channels in [0, 1]. */
  lemma QuantizeIsMonotone(c: real, d: real)
    requires 0.0 <= c <= d <= 1.0
    ensures Quantize(c) <= Quantize(d)
  {
    QuantizeRounds(c);
    QuantizeRounds(d);
  }

  /** The buffer after the three bytes of pixel (x, y) are set to c. */
  function StorePixel(s: seq<byte>, x: int, y: int, width: nat, height: nat, c: Rgb): (r: seq<byte>)
    requires |s| == 3 * width * height && 0 <= x < width && 0 <= y < height
    ensures |r| == |s|
  {
    OffsetInBounds(x, y, width, height);
    var p := PixelOffset(x, y, width);
    s[p := c.r][p + 1 := c.g][p + 2 := c.b]
  }

  /** Storing a pixel sets that pixel and leaves every other pixel as it was. */
  lemma StorePixelEffect(s: seq<byte>, x: int, y: int, width: nat, height: nat, c: Rgb, x': int, y': int)
    requires |s| == 3 * width * height && 0 <= x < width && 0 <= y < height
    requires 0 <= x' < width && 0 <= y' < height
    ensures PixelAt(StorePixel(s, x, y, width, height, c), x', y', width, height) ==
            if x' == x && y' == y then c else PixelAt(s, x', y', width, height)
  {
    OffsetInBounds(x, y, width, height);
    OffsetInBounds(x', y', width, height);
    if x' != x || y' != y {
      OffsetsAreApart(x, y, x', y', width);
    }
  }
}
