/** The larger and the smaller of two numbers, and the length of an hour. */
module Arithmetic {

  /** Milliseconds. */
  const HOUR: int := 3_600_000

  function Max(a: int, b: int): int { if a > b then a else b }

  function Min(a: int, b: int): int { if a < b then a else b }
}
