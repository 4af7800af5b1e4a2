/**
 * Single-precision arithmetic of the artillery match, read as exact real
 * arithmetic. The conversions the engine relies on are written out: a C#
 * `(int)` cast truncates toward zero, and Math.Round / MathF.Round round
 * half-way cases to the even neighbour. Square root and the trigonometric
 * functions are supplied by the caller.
 */
module Numerics {
  /** The C# `(int)` cast of a value in range: truncation toward zero. */
  function Trunc(x: real): (n: int)
    ensures x >= 0.0 ==> n as real <= x < n as real + 1.0
    ensures x < 0.0 ==> n as real - 1.0 < x <= n as real
  {
    if x >= 0.0 then x.Floor else -((-x).Floor)
  }

  /** Math.Round with its default mode: the nearest integer, ties to the even one. */
  function Round(x: real): (n: int)
    ensures x - 0.5 <= n as real <= x + 0.5
    ensures (n as real == x - 0.5 || n as real == x + 0.5) ==> n % 2 == 0
    ensures x >= 0.0 ==> n >= 0
  {
    var f := x.Floor;
    var d := x - f as real;
    if d < 0.5 then f
    else if d > 0.5 then f + 1
    else if f % 2 == 0 then f else f + 1
  }

  /** MathF.Round(x, 1): the nearest tenth, ties to the even tenth. */
  function RoundTenth(x: real): (r: real)
    ensures x - 0.05 <= r <= x + 0.05
  {
    Round(x * 10.0) as real / 10.0
  }

  /** Math.Clamp: the value pushed into [lo, hi]. */
  function Clamp(v: real, lo: real, hi: real): (r: real)
    requires lo <= hi
    ensures lo <= r <= hi
    ensures lo <= v <= hi ==> r == v
    ensures v < lo ==> r == lo
    ensures v > hi ==> r == hi
  {
    if v < lo then lo else if v > hi then hi else v
  }

  function Abs(v: real): real
  {
    if v < 0.0 then -v else v
  }

  function Max(a: real, b: real): real
  {
    if a >= b then a else b
  }

  function MaxInt(a: int, b: int): int
  {
    if a >= b then a else b
  }

  function MinInt(a: int, b: int): int
  {
    if a <= b then a else b
  }

  /** The floating-point library the engines call, supplied by the caller. */
  datatype MathLib = MathLib(sqrt: real -> real, sin: real -> real, cos: real -> real, atan2: (real, real) -> real, pi: real)

  /** The one fact the model uses of the library: a square root is never negative. */
  ghost predicate Sound(m: MathLib)
  {
    forall v :: m.sqrt(v) >= 0.0
  }
}
