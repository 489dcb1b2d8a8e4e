// Wind: the crosswind drift of a projectile and the decomposition of a
// wind into headwind and crosswind components.  The old-name copies
// Windage, HeadWind and CrossWind are the same three functions.

module Wind {
  import opened Numerics
  import opened Angle

  /** Miles per hour expressed in inches per second, as the library rounds it. */
  const MphToInchesPerSecond: real := 17.60

  /**
   * Drift in inches of a projectile that reached range `x` feet after `t`
   * seconds in a crosswind of `windSpeed` mph, given the muzzle velocity
   * `vi`: the wind acts for the lag between `t` and the vacuum time `x/vi`.
   */
  function Windage(env: Env, windSpeed: real, vi: real, x: real, t: real): real
  {
    var vw := windSpeed * MphToInchesPerSecond;
    vw * (t - Div(env, x, vi))
  }

  /** Wind component blowing against the shot; positive for a wind from straight ahead. */
  function HeadWind(env: Env, windSpeed: real, windAngle: real): real
  {
    env.cos(DegToRad(windAngle)) * windSpeed
  }

  /** Wind component across the shot; positive for a wind from the shooter's right. */
  function CrossWind(env: Env, windSpeed: real, windAngle: real): real
  {
    env.sin(DegToRad(windAngle)) * windSpeed
  }

  /** No wind, no drift. */
  lemma WindageCalm(env: Env, vi: real, x: real, t: real)
    ensures Windage(env, 0.0, vi, x, t) == 0.0
  {
  }

  /** A projectile that keeps its vacuum time does not drift. */
  lemma WindageAtVacuumTime(env: Env, windSpeed: real, vi: real, x: real)
    requires vi != 0.0
    ensures Windage(env, windSpeed, vi, x, x / vi) == 0.0
  {
  }

  /** Drift scales linearly with the wind speed. */
  lemma WindageLinear(env: Env, k: real, windSpeed: real, vi: real, x: real, t: real)
    ensures Windage(env, k * windSpeed, vi, x, t) == k * Windage(env, windSpeed, vi, x, t)
  {
  }

  /** A projectile slower than in vacuum drifts in the direction the wind blows. */
  lemma WindageDownwind(env: Env, windSpeed: real, vi: real, x: real, t: real)
    requires vi != 0.0 && windSpeed > 0.0 && t > x / vi
    ensures Windage(env, windSpeed, vi, x, t) > 0.0
  {
  }

  /** Both wind components scale linearly with the wind speed. */
  lemma ComponentsLinear(env: Env, k: real, windSpeed: real, windAngle: real)
    ensures HeadWind(env, k * windSpeed, windAngle) == k * HeadWind(env, windSpeed, windAngle)
    ensures CrossWind(env, k * windSpeed, windAngle) == k * CrossWind(env, windSpeed, windAngle)
  {
  }

  /** A wind from straight ahead is all headwind, and a positive one. */
  lemma WindFromAhead(env: Env, windSpeed: real)
    requires env.cos(0.0) == 1.0 && env.sin(0.0) == 0.0
    ensures HeadWind(env, windSpeed, 0.0) == windSpeed
    ensures CrossWind(env, windSpeed, 0.0) == 0.0
    ensures windSpeed > 0.0 ==> HeadWind(env, windSpeed, 0.0) > 0.0
  {
  }
}
