/** The larger, the smaller, and the part of a number above zero. */
module Arithmetic {
  function Max(a: int, b: int): int { if a < b then b else a }

  function Min(a: int, b: int): int { if a < b then a else b }

  function AtLeastZero(n: int): nat { if n < 0 then 0 else n }
}
