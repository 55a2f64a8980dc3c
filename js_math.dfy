/** The pieces of JavaScript's number semantics that the two calculators rely on,
    stated over exact `real` and `int` values. */
module JsMath {

  /** `Math.PI`, as the double literal JavaScript prints for it. */
  const PI: real := 3.141592653589793

  /** The transcendental functions of `Math`. Nothing about them is assumed: every
      operation that uses one takes this record as a parameter, so every property
      proved in this project holds for ANY choice of these functions. */
  datatype Trig = Trig(
    acos: real -> real,
    asin: real -> real,
    atan: real -> real,
    sin: real -> real,
    cos: real -> real,
    tan: real -> real)

  /** An angle in radians turned into degrees the way the rib calculator writes it,
      `x * 180 / Math.PI`; nothing is lost, since dividing by 180 and multiplying by
      `PI` gives the radians back. */
  function Degrees(x: real): (deg: real)
    ensures deg / 180.0 * PI == x
  {
    x * 180.0 / PI
  }

  /** `Math.round(x)`: the nearest integer, halves rounded towards +infinity. */
  function Round(x: real): (r: int)
    ensures r as real - 0.5 <= x < r as real + 0.5
  {
    (x + 0.5).Floor
  }

  /** Rounding commutes with adding a whole number. */
  lemma RoundShift(k: int, x: real)
    ensures Round(k as real + x) == k + Round(x)
  {
  }

  /** JavaScript's integer division truncated towards zero (what `a / b` followed
      by `Math.trunc` gives). */
  function Quotient(a: int, b: int): int
    requires b > 0
  {
    if a >= 0 then a / b else -((-a) / b)
  }

  /** JavaScript's `a % b` on integers: the remainder of the division truncated
      towards zero, so it takes the sign of `a` (`-8 % 16` is `-8`), unlike
      Dafny's `%`, which is never negative. */
  function Remainder(a: int, b: int): (r: int)
    requires b > 0
    ensures a == b * Quotient(a, b) + r
    ensures a >= 0 ==> 0 <= r < b
    ensures a < 0 ==> -b < r <= 0
  {
    if a >= 0 then a % b else -((-a) % b)
  }
}
