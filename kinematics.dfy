// The integration step shared by the trajectory-table builder and the
// point-blank-range solver: semi-implicit Euler on the velocity with a step
// of half a foot of travel, and a trapezoidal update of the position.

module Kinematics {
  import opened Numerics

  /**
   * Kinematic state in the frame of the bore axis: elapsed time (s),
   * velocity along and across the bore (ft/s) and position (ft).
   */
  datatype Kin = Kin(t: real, vx: real, vy: real, x: real, y: real)

  /** One step: the speed it started from, its duration and the state after it. */
  datatype Step = Step(v: real, dt: real, next: Kin)

  /** Advances `k` by one step under drag (evaluated at speed plus headwind) and gravity (gx, gy). */
  function Advance(env: Env, df: DragFunction, dc: real, hwind: real, gx: real, gy: real, k: Kin): Step
  {
    var v := env.speed(k.vx, k.vy);
    var dt := Div(env, 0.5, v);
    var dv := env.retard(df, dc, v + hwind);
    var dvx := -Div(env, k.vx, v) * dv;
    var dvy := -Div(env, k.vy, v) * dv;
    var vx := k.vx + dt * dvx + dt * gx;
    var vy := k.vy + dt * dvy + dt * gy;
    Step(v, dt, Kin(k.t + dt, vx, vy, k.x + dt * (vx + k.vx) / 2.0, k.y + dt * (vy + k.vy) / 2.0))
  }

  /** Away from rest a step lasts the time the projectile needs to travel half a foot. */
  lemma StepDuration(env: Env, df: DragFunction, dc: real, hwind: real, gx: real, gy: real, k: Kin)
    requires env.speed(k.vx, k.vy) != 0.0
    ensures var s := Advance(env, df, dc, hwind, gx, gy, k);
            && s.v == env.speed(k.vx, k.vy)
            && s.dt * s.v == 0.5
            && s.next.t == k.t + s.dt
  {
  }

  /**
   * Away from rest a step changes the velocity by the step's duration times
   * the drag deceleration, directed against the velocity, plus gravity.
   */
  lemma StepVelocity(env: Env, df: DragFunction, dc: real, hwind: real, gx: real, gy: real, k: Kin)
    requires env.speed(k.vx, k.vy) != 0.0
    ensures var s := Advance(env, df, dc, hwind, gx, gy, k);
            var dv := env.retard(df, dc, s.v + hwind);
            && s.next.vx - k.vx == s.dt * (-(k.vx / s.v) * dv + gx)
            && s.next.vy - k.vy == s.dt * (-(k.vy / s.v) * dv + gy)
  {
  }

  /** A step moves the projectile by its duration times the mean of the old and new velocities. */
  lemma StepPosition(env: Env, df: DragFunction, dc: real, hwind: real, gx: real, gy: real, k: Kin)
    ensures var s := Advance(env, df, dc, hwind, gx, gy, k);
            && s.next.x - k.x == s.dt * ((k.vx + s.next.vx) / 2.0)
            && s.next.y - k.y == s.dt * ((k.vy + s.next.vy) / 2.0)
  {
  }

  /** With a positive speed a step moves time forward. */
  lemma AdvanceTakesTime(env: Env, df: DragFunction, dc: real, hwind: real, gx: real, gy: real, k: Kin)
    requires env.speed(k.vx, k.vy) > 0.0
    ensures Advance(env, df, dc, hwind, gx, gy, k).dt > 0.0
    ensures Advance(env, df, dc, hwind, gx, gy, k).next.t > k.t
  {
  }
}
