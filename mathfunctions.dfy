/**
  The root finder (RayTracer/MathFunctions.c): a sign test that counts zero
  as positive, fixed-iteration bisection, and a probe loop that scans evenly
  spaced points for sign changes and bisects each one it finds. The function
  whose roots are sought is a parameter `f`.
 */
module MathFunctions {

  /** MathFunctions_sameSignF: (a >= 0) xor (b < 0). */
  function SameSign(a: real, b: real): (r: bool)
    ensures r <==> (a >= 0.0 <==> b >= 0.0)
  {
    (a >= 0.0) != (b < 0.0)
  }

  /** Zero counts as positive, and "same sign" is an equivalence relation. */
  lemma SameSignIsEquivalence(a: real, b: real, c: real)
    ensures SameSign(0.0, a) <==> a >= 0.0
    ensures SameSign(a, a)
    ensures SameSign(a, b) ==> SameSign(b, a)
    ensures SameSign(a, b) && SameSign(b, c) ==> SameSign(a, c)
  {
  }

  // ---------------------------------------------------------------------------
  // Bisection.

  /** The variables of the bisection loop: the bracket [sx, ex], the value sy kept for sx, and the last midpoint. */
  datatype Bracket = Bracket(sx: real, ex: real, sy: real, mx: real)

  /** One iteration: probe the midpoint and move the end whose sign it shares. */
  function Step(f: real -> real, b: Bracket): Bracket
  {
    var mx := (b.sx + b.ex) * 0.5;
    var my := f(mx);
    if SameSign(b.sy, my) then Bracket(mx, b.ex, my, mx) else Bracket(b.sx, mx, b.sy, mx)
  }

  /** The loop state after n iterations. */
  function Iterate(f: real -> real, b: Bracket, n: nat): Bracket
  {
    if n == 0 then b else Step(f, Iterate(f, b, n - 1))
  }

  /** What MathFunctions_bisectionMethodF returns: the last midpoint, or 0 when no iteration runs. */
  function Bisection(f: real -> real, sx: real, ex: real, sy: real, iter: int): real
  {
    Iterate(f, Bracket(sx, ex, sy, 0.0), if iter < 0 then 0 else iter).mx
  }

  function Pow2(n: nat): (r: real)
    ensures r >= 1.0
  {
    if n == 0 then 1.0 else 2.0 * Pow2(n - 1)
  }

  /**
    MathFunctions_bisectionMethodF: exactly `iter` iterations (none when
    iter <= 0), each halving the bracket.
   */
  method BisectionMethod(f: real -> real, sx: real, ex: real, sy: real, iter: int) returns (mx: real)
    ensures mx == Bisection(f, sx, ex, sy, iter)
  {
    var s, e, y := sx, ex, sy;
    mx := 0.0;
    var my := 0.0;
    var i := 0;
    while i < iter
      invariant 0 <= i && (iter >= 0 ==> i <= iter) && (iter < 0 ==> i == 0)
      invariant Iterate(f, Bracket(sx, ex, sy, 0.0), i) == Bracket(s, e, y, mx)
    {
      mx := (s + e) * 0.5;
      my := f(mx);
      if SameSign(y, my) {
        s := mx;
        y := my;
      } else {
        e := mx;
      }
      i := i + 1;
    }
  }

  /**
    Started on a bracket sx <= ex, bisection keeps a bracket inside the
    original one whose width is the original width over 2^n.
   */
  lemma {:induction false} IterateStaysInside(f: real -> real, b: Bracket, n: nat)
    requires b.sx <= b.ex
    ensures var r := Iterate(f, b, n); b.sx <= r.sx <= r.ex <= b.ex
  {
    if n > 0 {
      IterateStaysInside(f, b, n - 1);
    }
  }

  /** w halved n times. */
  function Halve(w: real, n: nat): real
  {
    if n == 0 then w else Halve(w, n - 1) * 0.5
  }

  /** Each iteration halves the bracket: after n of them its width is the original width halved n times. */
  lemma {:induction false} IterateHalves(f: real -> real, b: Bracket, n: nat)
    ensures Iterate(f, b, n).ex - Iterate(f, b, n).sx == Halve(b.ex - b.sx, n)
  {
    if n > 0 {
      IterateHalves(f, b, n - 1);
      StepHalves(f, Iterate(f, b, n - 1));
    }
  }

  /** Halving n times is dividing by 2^n. */
  lemma {:induction false} HalveIsDivision(w: real, n: nat)
    ensures Halve(w, n) * Pow2(n) == w
  {
    if n > 0 {
      HalveIsDivision(w, n - 1);
      HalfTimesDouble(Halve(w, n), Halve(w, n - 1), Pow2(n), Pow2(n - 1), w);
    }
  }

  lemma StepHalves(f: real -> real, p: Bracket)
    ensures Step(f, p).ex - Step(f, p).sx == (p.ex - p.sx) * 0.5
  {
  }

  lemma HalfTimesDouble(a: real, w: real, d: real, q: real, c: real)
    requires a == w * 0.5 && d == 2.0 * q && w * q == c
    ensures a * d == c
  {
  }

  /** After at least one iteration the returned midpoint is an end of the current bracket. */
  lemma MidpointIsAnEnd(f: real -> real, b: Bracket, n: nat)
    requires n > 0
    ensures var r := Iterate(f, b, n); r.mx == r.sx || r.mx == r.ex
  {
  }

  /** With at least one iteration, the result lies in the original bracket. */
  lemma BisectionInBracket(f: real -> real, sx: real, ex: real, sy: real, iter: int)
    requires sx <= ex && iter > 0
    ensures sx <= Bisection(f, sx, ex, sy, iter) <= ex
  {
    IterateStaysInside(f, Bracket(sx, ex, sy, 0.0), iter);
    MidpointIsAnEnd(f, Bracket(sx, ex, sy, 0.0), iter);
  }

  /** With no iteration the result is 0, wherever the bracket is. */
  lemma BisectionWithoutIterations(f: real -> real, sx: real, ex: real, sy: real, iter: int)
    requires iter <= 0
    ensures Bisection(f, sx, ex, sy, iter) == 0.0
  {
  }

  /**
    The sign change is kept: if sy is f(sx) and f(ex) has the other sign,
    the same holds of every later bracket, so a continuous f keeps a root
    between its ends.
   */
  lemma {:induction false} IterateKeepsSignChange(f: real -> real, b: Bracket, n: nat)
    requires b.sy == f(b.sx) && !SameSign(b.sy, f(b.ex))
    ensures var r := Iterate(f, b, n); r.sy == f(r.sx) && !SameSign(r.sy, f(r.ex))
  {
    if n > 0 {
      IterateKeepsSignChange(f, b, n - 1);
    }
  }

  // ---------------------------------------------------------------------------
  // The probe loop.

  /** The spacing of the probes: the interval split into tries + 1 parts (0 when tries + 1 is 0). */
  function SubInterval(sx: real, ex: real, tries: int): real
  {
    if tries + 1 == 0 then 0.0 else (ex - sx) / (tries + 1) as real
  }

  /** Probe k, for k = 0 .. tries: sx + (k + 1) * sub. The loop starts one step in from sx. */
  function Probe(sx: real, sub: real, k: int): real
  {
    sx + (k + 1) as real * sub
  }

  /** Whether the sign changes from probe k to probe k + 1. */
  predicate Flips(f: real -> real, sx: real, sub: real, k: int)
  {
    !SameSign(f(Probe(sx, sub, k)), f(Probe(sx, sub, k + 1)))
  }

  /** The roots found in the first n probe intervals, in order. */
  function Roots(f: real -> real, sx: real, sub: real, n: nat, iter: int): seq<real>
  {
    if n == 0 then []
    else
      var k := n - 1;
      Roots(f, sx, sub, k, iter) +
      if Flips(f, sx, sub, k)
      then [Bisection(f, Probe(sx, sub, k), Probe(sx, sub, k + 1), f(Probe(sx, sub, k)), iter)]
      else []
  }

  lemma {:induction false} RootsPrefix(f: real -> real, sx: real, sub: real, i: nat, n: nat, iter: int)
    requires i <= n
    ensures Roots(f, sx, sub, i, iter) <= Roots(f, sx, sub, n, iter)
  {
    if i < n {
      RootsPrefix(f, sx, sub, i, n - 1, iter);
    }
  }

  /** At most one root per interval. */
  lemma {:induction false} RootsAtMostOnePerInterval(f: real -> real, sx: real, sub: real, n: nat, iter: int)
    ensures |Roots(f, sx, sub, n, iter)| <= n
  {
    if n > 0 {
      RootsAtMostOnePerInterval(f, sx, sub, n - 1, iter);
    }
  }

  /**
    Every root reported lies between the two probes of an interval where the
    sign changed (for increasing probes and at least one bisection step).
   */
  lemma {:induction false} RootsAreBracketed(f: real -> real, sx: real, sub: real, n: nat, iter: int, j: int)
    requires sub >= 0.0 && iter > 0 && 0 <= j < |Roots(f, sx, sub, n, iter)|
    ensures exists k :: 0 <= k < n && Flips(f, sx, sub, k) && InInterval(Roots(f, sx, sub, n, iter)[j], sx, sub, k)
  {
    var k := n - 1;
    var prev := Roots(f, sx, sub, k, iter);
    var all := Roots(f, sx, sub, n, iter);
    if j < |prev| {
      RootsAreBracketed(f, sx, sub, k, iter, j);
      assert all[j] == prev[j];
    } else {
      ProbeStep(sx, sub, k);
      BisectionInBracket(f, Probe(sx, sub, k), Probe(sx, sub, k + 1), f(Probe(sx, sub, k)), iter);
      assert InInterval(all[j], sx, sub, k);
    }
  }

  /** x lies between probes k and k + 1. */
  predicate InInterval(x: real, sx: real, sub: real, k: int)
  {
    Probe(sx, sub, k) <= x <= Probe(sx, sub, k + 1)
  }

  lemma ProbeStep(sx: real, sub: real, k: int)
    requires sub >= 0.0
    ensures Probe(sx, sub, k + 1) == Probe(sx, sub, k) + sub
    ensures Probe(sx, sub, k) <= Probe(sx, sub, k + 1)
  {
  }

  function Min(a: int, b: int): int
  {
    if a <= b then a else b
  }

  /**
    MathFunctions_findRootsF: scan probes 0 .. tries for sign changes and
    store the bisected root of each in `roots`, stopping after `rootCount`
    roots. The count returned is the number of roots stored; only
    roots[0 .. count - 1] is written.
   */
  method FindRoots(f: real -> real, sx: real, ex: real, roots: array<real>, rootCount: int, tries: int, iter: int)
    returns (found: int)
    requires rootCount <= roots.Length
    modifies roots
    ensures var all := Roots(f, sx, SubInterval(sx, ex, tries), if tries < 0 then 0 else tries, iter);
      found == Min(if rootCount < 0 then 0 else rootCount, |all|)
    ensures var all := Roots(f, sx, SubInterval(sx, ex, tries), if tries < 0 then 0 else tries, iter);
      found <= |all| && roots[..found] == all[..found]
    ensures roots[found..] == old(roots[found..])
  {
    var subInterval := SubInterval(sx, ex, tries);
    var prevX := sx + subInterval;
    var prevY := f(prevX);
    var currentRoot := 0;
    ghost var n: nat := if tries < 0 then 0 else tries;
    ghost var i: nat := 0;
    var t := tries;
    while t > 0 && currentRoot < rootCount
      invariant 0 <= currentRoot <= roots.Length && currentRoot <= (if rootCount < 0 then 0 else rootCount)
      invariant i <= n && t == tries - i && (t > 0 ==> i < n)
      invariant prevX == Probe(sx, subInterval, i) && prevY == f(prevX)
      invariant roots[..currentRoot] == Roots(f, sx, subInterval, i, iter)
      invariant roots[currentRoot..] == old(roots[currentRoot..])
    {
      var curX := prevX + subInterval;
      assert curX == Probe(sx, subInterval, i + 1) by { ProbeSucc(sx, subInterval, i); }
      var curY := f(curX);
      if !SameSign(prevY, curY) {
        var r := BisectionMethod(f, prevX, curX, prevY, iter);
        ghost var pre := roots[..];
        roots[currentRoot] := r;
        assert roots[..currentRoot + 1] == pre[..currentRoot] + [r];
        assert roots[currentRoot + 1..] == pre[currentRoot + 1..];
        currentRoot := currentRoot + 1;
      }
      prevX := curX;
      prevY := curY;
      t := t - 1;
      i := i + 1;
    }
    found := currentRoot;
    RootsPrefix(f, sx, subInterval, i, n, iter);
    ghost var all := Roots(f, sx, subInterval, n, iter);
    ghost var done := Roots(f, sx, subInterval, i, iter);
    assert |done| == found;
    assert t <= 0 ==> i == n;
    assert done <= all;
    assert all[..found] == done;
    if currentRoot < rootCount {
      assert all == done;
      assert found == |all|;
    } else {
      assert |all| >= found;
      assert found == (if rootCount < 0 then 0 else rootCount);
    }
  }

  lemma ProbeSucc(sx: real, sub: real, k: int)
    ensures Probe(sx, sub, k) + sub == Probe(sx, sub, k + 1)
  {
  }

  /** The count is bounded by both rootCount and tries. */
  lemma FoundIsBounded(f: real -> real, sx: real, ex: real, rootCount: int, tries: int, iter: int)
    requires rootCount >= 0 && tries >= 0
    ensures Min(rootCount, |Roots(f, sx, SubInterval(sx, ex, tries), tries, iter)|) <= Min(rootCount, tries)
  {
    RootsAtMostOnePerInterval(f, sx, SubInterval(sx, ex, tries), tries, iter);
  }
}
