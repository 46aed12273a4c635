/** Extremes, magnitudes and ceilings of reals. */
module Reals {
  function MinReal(a: real, b: real): real {
    if a <= b then a else b
  }

  function MaxReal(a: real, b: real): real {
    if a >= b then a else b
  }

  function AbsReal(x: real): real {
    if x < 0.0 then -x else x
  }

  function Ceiling(x: real): int {
    -((-x).Floor)
  }
}
