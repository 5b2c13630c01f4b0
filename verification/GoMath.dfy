/** The rounding and clamping of Go's math package, on reals. */
module GoMath {

  // math.Round: half away from zero.
  function Round(x: real): (r: int)
    ensures -0.5 <= r as real - x <= 0.5
    ensures if x >= 0.0 then r as real - x != -0.5 else r as real - x != 0.5
  {
    if x >= 0.0 then (x + 0.5).Floor else -((0.5 - x).Floor)
  }

  function Max(a: real, b: real): real { if a >= b then a else b }

  function Min(a: real, b: real): real { if a <= b then a else b }

  function Distance(a: real, b: real): real { if a >= b then a - b else b - a }
}
