/** The larger and the smaller of two numbers. */
module Math {
  function Max(x: int, y: int): int { if x < y then y else x }
  function Min(x: int, y: int): int { if x < y then x else y }
}
