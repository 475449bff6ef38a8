/** The two clamping primitives of java.lang.Math that the face view uses,
    over `real` (for `float`) and `int`. */
module JavaMath {

  function Min(a: real, b: real): real {
    if a <= b then a else b
  }

  function Max(a: real, b: real): real {
    if a >= b then a else b
  }

  function MinInt(a: int, b: int): int {
    if a <= b then a else b
  }
}
