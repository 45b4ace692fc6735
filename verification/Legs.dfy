/** Values kept once per leg or wheel, in vehicle leg order. */
module Legs {

  type Quad = q: seq<int> | |q| == 4 witness [0, 0, 0, 0]

  function Max(a: int, b: int): int { if a > b then a else b }

  function Min(a: int, b: int): int { if a < b then a else b }

  function Abs(a: int): nat { if a < 0 then -a else a }

  function Clamp(value: int, low: int, high: int): int {
    if value < low then low else if value > high then high else value
  }

  function Highest(q: Quad): int { Max(Max(Max(q[0], q[1]), q[2]), q[3]) }

  function Lowest(q: Quad): int { Min(Min(Min(q[0], q[1]), q[2]), q[3]) }

  function Spread(q: Quad): nat { Highest(q) - Lowest(q) }

  function Same(value: int): Quad { [value, value, value, value] }

  /** The largest distance of any leg from one common position. */
  function Farthest(from: int, q: Quad): nat {
    Max(Max(Max(Abs(from - q[0]), Abs(from - q[1])), Abs(from - q[2])), Abs(from - q[3]))
  }

  /** `x` lies between the two ends, in either order. */
  predicate Towards(from: int, x: int, to: int) {
    from <= x <= to || to <= x <= from
  }

  /** Division truncating toward zero, as C divides. */
  function Quotient(a: int, b: int): int
    requires b > 0
  {
    if a < 0 then -(-a / b) else a / b
  }
}
