/** The two integer operations JavaScript code writes as `Math.floor(a / d)`
    and `a % d`, for a positive divisor. */
module JsNumber {

  /** `Math.floor(a / d)`: rounds toward minus infinity, which is what
      Dafny's `/` does for a positive divisor. */
  function FloorDiv(a: int, d: int): (q: int)
    requires d > 0
    ensures q * d <= a < q * d + d
  {
    a / d
  }

  /** `a % d`: the remainder takes the sign of the dividend. */
  function Rem(a: int, d: int): (r: int)
    requires d > 0
    ensures -d < r < d
    ensures a >= 0 ==> 0 <= r && r == a % d
    ensures a < 0 ==> r <= 0 && r == -((-a) % d)
  {
    if a >= 0 then a % d else -((-a) % d)
  }
}
