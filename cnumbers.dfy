/** C's conversions from floating point to integers, over exact reals. */
module CNumbers {

  /** C's conversion of a real to an integer: rounds toward zero. */
  function Trunc(x: real): (n: int)
    ensures x >= 0.0 ==> 0 <= n && n as real <= x < n as real + 1.0
    ensures x < 0.0 ==> n <= 0 && n as real - 1.0 < x <= n as real
  {
    if x >= 0.0 then x.Floor else -((-x).Floor)
  }

  /** C's integer abs. */
  function IntAbs(n: int): nat
  {
    if n < 0 then -n else n
  }

  function RealAbs(x: real): real
  {
    if x < 0.0 then -x else x
  }
}
