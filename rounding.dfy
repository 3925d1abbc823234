/**
 * The integer roundings the engine applies to yen amounts. `roundDown0` and
 * `roundUp0` are rounding down and up to zero decimal places (floor and
 * ceiling); `Math.round` rounds to the nearest integer, halves upwards.
 */
module Rounding {

  /** `roundDown0(x)`: the largest integer not above `x`. */
  function RoundDown0(x: real): (r: int)
    ensures r as real <= x < r as real + 1.0
  {
    x.Floor
  }

  /** `roundUp0(x)`: the smallest integer not below `x`. */
  function RoundUp0(x: real): (r: int)
    ensures r as real - 1.0 < x <= r as real
  {
    -((-x).Floor)
  }

  /** `Math.round(x)`: the nearest integer, a half going up. */
  function MathRound(x: real): (r: int)
    ensures r as real - 0.5 <= x < r as real + 0.5
  {
    (x + 0.5).Floor
  }

  /** `Math.round(x * 10) / 10`: `x` to one decimal place. */
  function RoundTenth(x: real): (r: real)
    ensures r - 0.05 <= x < r + 0.05
    ensures (r * 10.0).Floor as real == r * 10.0
  {
    MathRound(x * 10.0) as real / 10.0
  }

  /** A whole number is its own nearest integer. */
  lemma MathRoundWhole(n: int)
    ensures MathRound(n as real) == n
  {
    assert (n as real + 0.5).Floor == n;
  }

  /** A whole number is unchanged by rounding to one decimal place. */
  lemma RoundTenthWhole(n: int)
    ensures RoundTenth(n as real) == n as real
  {
    MathRoundWhole(10 * n);
    assert n as real * 10.0 == (10 * n) as real;
  }

  /** A number of whole tenths is unchanged by rounding to one decimal place. */
  lemma RoundTenthTenths(n: int)
    ensures RoundTenth(n as real / 10.0) == n as real / 10.0
  {
    MathRoundWhole(n);
    assert n as real / 10.0 * 10.0 == n as real;
  }
}
