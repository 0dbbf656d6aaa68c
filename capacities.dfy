/**
  Growable arrays: both the scene's object lists (RayTracer/Scene.c) and the
  curve list of a path (RayTracer/CurvePath.c) start with room for one
  element and double their capacity whenever they are full.
 */
module Capacities {

  /** The capacities reachable from 1 by doubling. */
  ghost predicate IsPowerOfTwo(n: nat)
    decreases n
  {
    n == 1 || (n > 1 && n % 2 == 0 && IsPowerOfTwo(n / 2))
  }

  lemma DoubleIsPowerOfTwo(n: nat)
    requires IsPowerOfTwo(n)
    ensures IsPowerOfTwo(2 * n)
  {
    assert (2 * n) / 2 == n;
  }
}
