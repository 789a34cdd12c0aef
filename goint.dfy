/**
 * Go's 64-bit `int`: the range a value must lie in, the wrap-around of `+`
 * and the truncating integer division `/`.
 */
module GoInt {

  const MinInt: int := -0x8000_0000_0000_0000
  const MaxInt: int := 0x7FFF_FFFF_FFFF_FFFF
  const Modulus: int := 0x1_0000_0000_0000_0000

  predicate IsInt64(x: int) {
    MinInt <= x <= MaxInt
  }

  /** The int64 that Go's two's-complement arithmetic yields for the exact result `x`. */
  function Wrap(x: int): (r: int)
    ensures IsInt64(r)
    ensures (x - r) % Modulus == 0
    ensures IsInt64(x) ==> r == x
  {
    var r := (x - MinInt) % Modulus + MinInt;
    assert x - r == Modulus * ((x - MinInt) / Modulus);
    r
  }

  /** Go's `a / d` for a positive divisor: the quotient is truncated toward zero. */
  function Quo(a: int, d: int): (q: int)
    requires d > 0
    ensures a >= 0 ==> 0 <= a - d * q < d
    ensures a < 0 ==> -d < a - d * q <= 0
  {
    if a >= 0 then a / d else -((-a) / d)
  }
}
