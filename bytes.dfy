/** Unsigned 8-bit values (C `uint8_t`) and packed RGB triples. */
module Bytes {

  newtype byte = x: int | 0 <= x < 256

  /** One quantised pixel: the three bytes the engine stores for it. */
  datatype Rgb = Rgb(r: byte, g: byte, b: byte)

  /** Channel `c` (0 = red, 1 = green, 2 = blue) of a pixel. */
  function Channel(p: Rgb, c: int): byte
    requires 0 <= c < 3
  {
    if c == 0 then p.r else if c == 1 then p.g else p.b
  }
}
