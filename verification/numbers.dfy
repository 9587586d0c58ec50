/** The larger and the smaller of two numbers. */
module Numbers {
  function Max(a: int, b: int): int { if a >= b then a else b }

  function Min(a: int, b: int): int { if a <= b then a else b }

  function RealMax(a: real, b: real): real { if a >= b then a else b }

  function RealMin(a: real, b: real): real { if a <= b then a else b }
}
