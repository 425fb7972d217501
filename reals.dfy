/** JavaScript's Math.min, Math.max and Math.abs on exact reals (no NaN, no infinities). */
module Reals {

  function Min(a: real, b: real): real
  {
    if a <= b then a else b
  }

  function Max(a: real, b: real): real
  {
    if a >= b then a else b
  }

  function Abs(a: real): real
  {
    if a < 0.0 then -a else a
  }
}
