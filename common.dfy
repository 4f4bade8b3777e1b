/** Numeric helpers shared by the model: Kotlin's `max`/`min` and the
    float-to-integer conversions `toInt()` and `toLong()`, on exact numbers. */
module Common {

  datatype Option<+T> = None | Some(value: T)

  function MaxInt(a: int, b: int): int { if a >= b then a else b }
  function MinInt(a: int, b: int): int { if a <= b then a else b }
  function MaxReal(a: real, b: real): real { if a >= b then a else b }
  function MinReal(a: real, b: real): real { if a <= b then a else b }

  /** Kotlin's `Float.toInt()` on a value of moderate size: rounds toward zero. */
  function Trunc(x: real): (r: int)
    ensures 0.0 <= x ==> 0 <= r && r as real <= x < r as real + 1.0
    ensures x < 0.0 ==> r <= 0 && x <= r as real < x + 1.0
  {
    if x >= 0.0 then x.Floor else -((-x).Floor)
  }

  const LONG_MIN: int := -0x8000_0000_0000_0000
  const LONG_MAX: int := 0x7FFF_FFFF_FFFF_FFFF

  /** Kotlin's `Float.toLong()` on a finite value: rounds toward zero and
      saturates at the bounds of a 64-bit `Long`. */
  function ToLong(x: real): (r: int)
    ensures LONG_MIN <= r <= LONG_MAX
    ensures LONG_MIN as real <= x <= LONG_MAX as real ==> r == Trunc(x)
  {
    if x >= LONG_MAX as real then LONG_MAX
    else if x <= LONG_MIN as real then LONG_MIN
    else Trunc(x)
  }

  /** `toLong()` never reverses the order of two values. */
  lemma ToLongMonotone(x: real, y: real)
    requires x <= y
    ensures ToLong(x) <= ToLong(y)
  {
  }
}
