/** Integer helpers that stand in for the Python operators the game uses:
    `abs`, floor division `//` and `math.ceil` of an exact quotient. */
module Arith {

  function Abs(x: int): (r: nat)
    ensures r == x || r == -x
  {
    if x < 0 then -x else x
  }

  /** Python's `a // b` for a positive divisor: rounds toward minus infinity. */
  function FloorDiv(a: int, b: int): (q: int)
    requires b > 0
    ensures b * q <= a < b * q + b
  {
    a / b
  }

  /** `math.ceil(a / b)` for a positive divisor, computed without fractions. */
  function CeilDiv(a: int, b: int): (q: int)
    requires b > 0
    ensures b * (q - 1) < a <= b * q
  {
    -FloorDiv(-a, b)
  }
}
