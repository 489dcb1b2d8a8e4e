// Shared numeric vocabulary of the library: the drag-function tag, the
// constants of the public headers, and the floating-point and math-library
// operations that the model keeps abstract.

module Numerics {

  /** The eight standard drag functions; only the tag is used here. */
  datatype DragFunction = G1 | G2 | G3 | G4 | G5 | G6 | G7 | G8

  /** Row capacity of a trajectory table. */
  const MaxYards: int := 50000
  /** Row capacity of the legacy flat solution array. */
  const LegacyMaxRange: int := 5000
  /** Gravitational acceleration in ft/s^2, pointing down. */
  const Gravity: real := -32.194
  /** The C library's value of pi. */
  const Pi: real := 3.14159265358979323846

  /** Status codes of the point-blank-range solver. */
  const PbrOutOfRange: int := -1
  const PbrTooFastVy: int := -2

  /**
   * The parts of the computation that the model does not interpret:
   * the drag retardation (whose tables are not part of this model), the
   * math library, and the value a floating-point division produces when
   * its divisor is zero.  `speed(vx, vy)` is the magnitude of a velocity,
   * computed by the library as pow(pow(vx, 2) + pow(vy, 2), 0.5).
   */
  datatype Env = Env(
    retard: (DragFunction, real, real) -> real,
    speed: (real, real) -> real,
    sin: real -> real,
    cos: real -> real,
    atan: real -> real,
    overZero: real -> real)

  /** Floating-point division: exact when the divisor is nonzero, abstract otherwise. */
  function Div(env: Env, a: real, b: real): (q: real)
    ensures b != 0.0 ==> q * b == a
    ensures b == 0.0 ==> q == env.overZero(a)
  {
    if b == 0.0 then env.overZero(a) else a / b
  }

  function Abs(r: real): (a: real)
    ensures a >= 0.0 && (a == r || a == -r)
  {
    if r < 0.0 then -r else r
  }

  /** C's conversion of a double to int, which truncates toward zero. */
  function Trunc(r: real): (i: int)
    ensures 0.0 <= r ==> 0 <= i && i as real <= r < i as real + 1.0
    ensures r < 0.0 ==> i <= 0 && i as real - 1.0 < r <= i as real
  {
    if r >= 0.0 then r.Floor else -((-r).Floor)
  }
}
