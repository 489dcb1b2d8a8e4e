// Zero angle: the bore elevation (degrees) at which the trajectory meets a
// given height at a given range, found by successive approximation.  The
// old-name copy ZeroAngle is the same search.

module Zero {
  import opened Numerics
  import opened Angle
  import opened Kinematics

  /** The first angular change of the search: 14 degrees. */
  function InitialDa(): real { DegToRad(14.0) }
  /** The search is accurate enough once the change is below a hundredth of a minute of angle. */
  function Accuracy(): real { MoaToRad(0.01) }
  /** Beyond 45 degrees the projectile will not get there. */
  function MaxAngle(): real { DegToRad(45.0) }

  /**
   * The step of this search: it lasts the time to travel one foot, drag
   * enters the velocity change already multiplied by the duration, and
   * gravity (gx, gy) is added after it; the position moves by the mean of
   * the old and new velocities.
   */
  function ZeroStep(env: Env, df: DragFunction, dc: real, gx: real, gy: real, k: Kin): Step
  {
    var v := env.speed(k.vx, k.vy);
    var dt := Div(env, 1.0, v);
    var dv := env.retard(df, dc, v);
    var dvy := Div(env, -dv * k.vy, v) * dt;
    var dvx := Div(env, -dv * k.vx, v) * dt;
    var vx := k.vx + dvx + dt * gx;
    var vy := k.vy + dvy + dt * gy;
    Step(v, dt, Kin(k.t + dt, vx, vy, k.x + dt * (vx + k.vx) / 2.0, k.y + dt * (vy + k.vy) / 2.0))
  }

  /** Away from rest a step lasts the time to travel one foot: twice the table builder's step. */
  lemma ZeroStepDuration(env: Env, df: DragFunction, dc: real, gx: real, gy: real, k: Kin)
    requires env.speed(k.vx, k.vy) != 0.0
    ensures var s := ZeroStep(env, df, dc, gx, gy, k);
            && s.v == env.speed(k.vx, k.vy)
            && s.dt * s.v == 1.0
            && s.dt == 2.0 * Advance(env, df, dc, 0.0, gx, gy, k).dt
            && s.next.t == k.t + s.dt
  {
  }

  /** Away from rest the velocity changes as in the table builder's step, over this step's duration. */
  lemma ZeroStepVelocity(env: Env, df: DragFunction, dc: real, gx: real, gy: real, k: Kin)
    requires env.speed(k.vx, k.vy) != 0.0
    ensures var s := ZeroStep(env, df, dc, gx, gy, k);
            var dv := env.retard(df, dc, s.v);
            && s.next.vx - k.vx == s.dt * (-(k.vx / s.v) * dv + gx)
            && s.next.vy - k.vy == s.dt * (-(k.vy / s.v) * dv + gy)
  {
  }

  /** A step moves the projectile by its duration times the mean of the old and new velocities. */
  lemma ZeroStepPosition(env: Env, df: DragFunction, dc: real, gx: real, gy: real, k: Kin)
    ensures var s := ZeroStep(env, df, dc, gx, gy, k);
            && s.next.x - k.x == s.dt * ((k.vx + s.next.vx) / 2.0)
            && s.next.y - k.y == s.dt * ((k.vy + s.next.vy) / 2.0)
  {
  }

  /** Where a trial stopped, and whether it stopped at all. */
  datatype TrialEnd = TrialEnd(last: Kin, finished: bool)

  /** The projectile is falling and already below the target height: it will not come back up. */
  predicate BelowTarget(k: Kin, yIntercept: real) { k.vy < 0.0 && k.y < yIntercept }

  /** The projectile climbs more than three times as fast as it travels. */
  predicate Climbing(k: Kin) { k.vy > 3.0 * k.vx }

  /** A trial from state `k`: integrate while the range is within the zero range, for at most `fuel` steps. */
  function ZeroTrial(env: Env, df: DragFunction, dc: real, gx: real, gy: real, zeroRange: real,
                     yIntercept: real, k: Kin, fuel: nat): TrialEnd
    decreases fuel, 0
  {
    if !(k.x <= zeroRange * 3.0) then TrialEnd(k, true)
    else if fuel == 0 then TrialEnd(k, false)
    else ZeroObserve(env, df, dc, gx, gy, zeroRange, yIntercept, ZeroStep(env, df, dc, gx, gy, k).next, fuel - 1)
  }

  /** The rest of a trial once a step has reached `k`: the two early exits, then the loop test. */
  function ZeroObserve(env: Env, df: DragFunction, dc: real, gx: real, gy: real, zeroRange: real,
                       yIntercept: real, k: Kin, fuel: nat): TrialEnd
    decreases fuel, 1
  {
    if BelowTarget(k, yIntercept) || Climbing(k) then TrialEnd(k, true)
    else ZeroTrial(env, df, dc, gx, gy, zeroRange, yIntercept, k, fuel)
  }

  /** Gravity along and across a bore at `angle` radians. */
  function AlongBore(env: Env, angle: real): real { Gravity * env.sin(angle) }
  function AcrossBore(env: Env, angle: real): real { Gravity * env.cos(angle) }

  /** The muzzle state of a trial at bore angle `angle` radians: the sight is `sightHeight` inches above the bore. */
  function TrialStart(env: Env, vi: real, sightHeight: real, angle: real): Kin
  {
    Kin(0.0, vi * env.cos(angle), vi * env.sin(angle), 0.0, -sightHeight / 12.0)
  }

  /** The trial at bore angle `angle` (radians): from the muzzle, with gravity resolved along and across the bore. */
  function TrialAt(env: Env, df: DragFunction, dc: real, vi: real, sightHeight: real, zeroRange: real,
                   yIntercept: real, angle: real, fuel: nat): TrialEnd
  {
    ZeroTrial(env, df, dc, AlongBore(env, angle), AcrossBore(env, angle), zeroRange, yIntercept,
              TrialStart(env, vi, sightHeight, angle), fuel)
  }

  /**
   * The update of the angular change after a trial that ended at height
   * `y`: a shot above the target turns a rising search downward, one below
   * it turns a falling search upward, and each turn halves the change.
   */
  function NextDa(y: real, yIntercept: real, da: real): (r: real)
    ensures r == da || r == -da / 2.0
    ensures Abs(r) <= Abs(da)
    ensures r != da ==> Abs(r) == Abs(da) / 2.0
    ensures y > yIntercept ==> r <= 0.0
    ensures y < yIntercept ==> r >= 0.0
    ensures y == yIntercept ==> r == da
  {
    var d := if y > yIntercept && da > 0.0 then -da / 2.0 else da;
    if y < yIntercept && d < 0.0 then -d / 2.0 else d
  }

  /** The search stops once the change is accurate enough or the angle just tried is beyond 45 degrees. */
  predicate Quits(angle: real, da: real)
  {
    Abs(da) < Accuracy() || angle > MaxAngle()
  }

  /** One finished trial: the angle tried and the change made after it. */
  datatype ZeroRecord = ZeroRecord(angle: real, da: real)

  /** Where the search stopped: the angle after the last change, the change, the trials, and whether it stopped. */
  datatype SearchEnd = SearchEnd(angle: real, da: real, history: seq<ZeroRecord>, finished: bool)

  /** The outer loop from bore angle `angle` with change `da`, for at most `trials` more trials. */
  function Search(env: Env, df: DragFunction, dc: real, vi: real, sightHeight: real, zeroRange: real,
                  yIntercept: real, angle: real, da: real, history: seq<ZeroRecord>, trials: nat,
                  fuel: nat): SearchEnd
    decreases trials, 0
  {
    if trials == 0 then SearchEnd(angle, da, history, false)
    else Conclude(env, df, dc, vi, sightHeight, zeroRange, yIntercept, angle, da,
                  TrialAt(env, df, dc, vi, sightHeight, zeroRange, yIntercept, angle, fuel), history, trials - 1, fuel)
  }

  /** The rest of the outer loop once the trial at `angle` has ended: update, advance, then the quit test. */
  function Conclude(env: Env, df: DragFunction, dc: real, vi: real, sightHeight: real, zeroRange: real,
                    yIntercept: real, angle: real, da: real, tr: TrialEnd, history: seq<ZeroRecord>,
                    trials: nat, fuel: nat): SearchEnd
    decreases trials, 1
  {
    if !tr.finished then SearchEnd(angle, da, history, false)
    else
      var da' := NextDa(tr.last.y, yIntercept, da);
      var history' := history + [ZeroRecord(angle, da')];
      if Quits(angle, da') then SearchEnd(angle + da', da', history', true)
      else Search(env, df, dc, vi, sightHeight, zeroRange, yIntercept, angle + da', da', history', trials, fuel)
  }

  /** The whole search, from a level bore and a 14-degree change. */
  function ZeroSearch(env: Env, df: DragFunction, dc: real, vi: real, sightHeight: real, zeroRange: real,
                      yIntercept: real, trials: nat, fuel: nat): SearchEnd
  {
    Search(env, df, dc, vi, sightHeight, zeroRange, yIntercept, 0.0, InitialDa(), [], trials, fuel)
  }

  /**
   * Runs the trial at bore angle `angle` radians: integrates from the
   * muzzle while the range is within the zero range, breaking off once the
   * projectile falls below the target or climbs too steeply; at most
   * `fuel` steps, and `done` is false when that bound ended it.
   */
  method RunTrial(env: Env, df: DragFunction, dc: real, vi: real, sightHeight: real, zeroRange: real,
                  yIntercept: real, angle: real, fuel: nat)
    returns (k: Kin, done: bool)
    ensures TrialAt(env, df, dc, vi, sightHeight, zeroRange, yIntercept, angle, fuel) == TrialEnd(k, done)
  {
    var gx := AlongBore(env, angle);
    var gy := AcrossBore(env, angle);
    k := TrialStart(env, vi, sightHeight, angle);
    var stepsLeft := fuel;
    while k.x <= zeroRange * 3.0
      invariant ZeroTrial(env, df, dc, gx, gy, zeroRange, yIntercept, k, stepsLeft)
             == TrialAt(env, df, dc, vi, sightHeight, zeroRange, yIntercept, angle, fuel)
      decreases stepsLeft
    {
      if stepsLeft == 0 {
        return k, false;
      }
      k := ZeroStep(env, df, dc, gx, gy, k).next;
      stepsLeft := stepsLeft - 1;
      if BelowTarget(k, yIntercept) {
        return k, true;
      }
      if Climbing(k) {
        return k, true;
      }
    }
    done := true;
  }

  /**
   * Finds the bore angle, in degrees, at which the trajectory passes
   * `yIntercept` at `zeroRange` yards.  At most `trials` trials of at most
   * `fuel` steps each are run; `finished` is false when that bound, not
   * the search, ended it.
   */
  method ZeroAngle(env: Env, df: DragFunction, dc: real, vi: real, sightHeight: real, zeroRange: real,
                   yIntercept: real, trials: nat, fuel: nat)
    returns (degrees: real, finished: bool)
    ensures var se := ZeroSearch(env, df, dc, vi, sightHeight, zeroRange, yIntercept, trials, fuel);
            && finished == se.finished
            && (finished ==> degrees == RadToDeg(se.angle))
  {
    var da := InitialDa();
    var angle := 0.0;
    degrees, finished := 0.0, false;
    ghost var history: seq<ZeroRecord> := [];
    var trialsLeft := trials;
    while trialsLeft > 0
      invariant Search(env, df, dc, vi, sightHeight, zeroRange, yIntercept, angle, da, history, trialsLeft, fuel)
             == ZeroSearch(env, df, dc, vi, sightHeight, zeroRange, yIntercept, trials, fuel)
      decreases trialsLeft
    {
      var k, done := RunTrial(env, df, dc, vi, sightHeight, zeroRange, yIntercept, angle, fuel);
      if !done {
        return;
      }
      da := NextDa(k.y, yIntercept, da);
      history := history + [ZeroRecord(angle, da)];
      var quit := Quits(angle, da);
      angle := angle + da;
      if quit {
        degrees, finished := RadToDeg(angle), true;
        return;
      }
      trialsLeft := trialsLeft - 1;
    }
  }

  // ---------------------------------------------------------------------
  // The search: the change never grows, the search stops at the first
  // trial that meets the quit test, and the angle returned is the last
  // angle tried plus the last change.

  /** The angle after the recorded trials: each trial's angle plus its change. */
  function SumDa(h: seq<ZeroRecord>): real
  {
    if |h| == 0 then 0.0 else SumDa(h[..|h| - 1]) + h[|h| - 1].da
  }

  /** Each trial is at the angle the changes before it reached, starting from `a0`. */
  ghost predicate Chained(a0: real, h: seq<ZeroRecord>)
  {
    && (|h| > 0 ==> h[0].angle == a0)
    && forall i :: 0 < i < |h| ==> h[i].angle == h[i - 1].angle + h[i - 1].da
  }

  /** Each recorded change is at most as large as the one before it, the first at most `d0`. */
  ghost predicate Shrinks(d0: real, h: seq<ZeroRecord>)
  {
    && (|h| > 0 ==> Abs(h[0].da) <= Abs(d0))
    && forall i :: 0 < i < |h| ==> Abs(h[i].da) <= Abs(h[i - 1].da)
  }

  /** No recorded trial met the quit test. */
  ghost predicate NoneQuit(h: seq<ZeroRecord>)
  {
    forall i :: 0 <= i < |h| ==> !Quits(h[i].angle, h[i].da)
  }

  /** `angle` and `da` are where the recorded trials left the search, or the start when there are none. */
  ghost predicate At(a0: real, d0: real, h: seq<ZeroRecord>, angle: real, da: real)
  {
    && (|h| == 0 ==> angle == a0 && da == d0)
    && (|h| > 0 ==> angle == h[|h| - 1].angle + h[|h| - 1].da && da == h[|h| - 1].da)
  }

  lemma ChainSnoc(a0: real, d0: real, h: seq<ZeroRecord>, angle: real, da: real, da': real)
    requires Chained(a0, h) && At(a0, d0, h, angle, da)
    ensures Chained(a0, h + [ZeroRecord(angle, da')])
  {
    var h' := h + [ZeroRecord(angle, da')];
    forall i | 0 < i < |h'|
      ensures h'[i].angle == h'[i - 1].angle + h'[i - 1].da
    {
      if i < |h| {
        assert h'[i] == h[i] && h'[i - 1] == h[i - 1];
      } else {
        assert h'[i - 1] == h[|h| - 1];
      }
    }
  }

  lemma SumSnoc(h: seq<ZeroRecord>, r: ZeroRecord)
    ensures SumDa(h + [r]) == SumDa(h) + r.da
  {
    assert (h + [r])[..|h|] == h;
  }

  lemma ShrinksSnoc(a0: real, d0: real, h: seq<ZeroRecord>, angle: real, da: real, da': real)
    requires Shrinks(d0, h) && At(a0, d0, h, angle, da) && Abs(da') <= Abs(da)
    ensures Shrinks(d0, h + [ZeroRecord(angle, da')])
  {
    var h' := h + [ZeroRecord(angle, da')];
    forall i | 0 < i < |h'|
      ensures Abs(h'[i].da) <= Abs(h'[i - 1].da)
    {
      if i < |h| {
        assert h'[i] == h[i] && h'[i - 1] == h[i - 1];
      } else {
        assert h'[i - 1] == h[|h| - 1];
      }
    }
  }

  /** The search only appends records, one per trial at most. */
  lemma {:induction false} SearchAppends(env: Env, df: DragFunction, dc: real, vi: real, sightHeight: real,
                                         zeroRange: real, yIntercept: real, angle: real, da: real,
                                         history: seq<ZeroRecord>, trials: nat, fuel: nat)
    ensures var se := Search(env, df, dc, vi, sightHeight, zeroRange, yIntercept, angle, da, history, trials, fuel);
            history <= se.history && |se.history| <= |history| + trials
    decreases trials
  {
    if trials > 0 {
      var tr := TrialAt(env, df, dc, vi, sightHeight, zeroRange, yIntercept, angle, fuel);
      assert Search(env, df, dc, vi, sightHeight, zeroRange, yIntercept, angle, da, history, trials, fuel)
          == Conclude(env, df, dc, vi, sightHeight, zeroRange, yIntercept, angle, da, tr, history, trials - 1, fuel);
      if tr.finished {
        var da' := NextDa(tr.last.y, yIntercept, da);
        if !Quits(angle, da') {
          SearchAppends(env, df, dc, vi, sightHeight, zeroRange, yIntercept, angle + da', da',
                        history + [ZeroRecord(angle, da')], trials - 1, fuel);
        }
      }
    }
  }

  /** Each trial is at the angle the changes before it reached. */
  lemma {:induction false} SearchChain(env: Env, df: DragFunction, dc: real, vi: real, sightHeight: real,
                                       zeroRange: real, yIntercept: real, angle: real, da: real,
                                       history: seq<ZeroRecord>, trials: nat, fuel: nat, a0: real, d0: real)
    requires Chained(a0, history) && At(a0, d0, history, angle, da)
    ensures Chained(a0, Search(env, df, dc, vi, sightHeight, zeroRange, yIntercept, angle, da, history, trials, fuel).history)
    decreases trials
  {
    if trials > 0 {
      var tr := TrialAt(env, df, dc, vi, sightHeight, zeroRange, yIntercept, angle, fuel);
      assert Search(env, df, dc, vi, sightHeight, zeroRange, yIntercept, angle, da, history, trials, fuel)
          == Conclude(env, df, dc, vi, sightHeight, zeroRange, yIntercept, angle, da, tr, history, trials - 1, fuel);
      if tr.finished {
        var da' := NextDa(tr.last.y, yIntercept, da);
        ChainSnoc(a0, d0, history, angle, da, da');
        if !Quits(angle, da') {
          assert At(a0, d0, history + [ZeroRecord(angle, da')], angle + da', da');
          SearchChain(env, df, dc, vi, sightHeight, zeroRange, yIntercept, angle + da', da',
                      history + [ZeroRecord(angle, da')], trials - 1, fuel, a0, d0);
        }
      }
    }
  }

  /** The current angle is the start plus the changes made so far, and so is the angle the search ends at. */
  lemma {:induction false} SearchSum(env: Env, df: DragFunction, dc: real, vi: real, sightHeight: real,
                                     zeroRange: real, yIntercept: real, angle: real, da: real,
                                     history: seq<ZeroRecord>, trials: nat, fuel: nat, a0: real)
    requires angle == a0 + SumDa(history)
    ensures var se := Search(env, df, dc, vi, sightHeight, zeroRange, yIntercept, angle, da, history, trials, fuel);
            se.angle == a0 + SumDa(se.history)
    decreases trials
  {
    if trials > 0 {
      var tr := TrialAt(env, df, dc, vi, sightHeight, zeroRange, yIntercept, angle, fuel);
      assert Search(env, df, dc, vi, sightHeight, zeroRange, yIntercept, angle, da, history, trials, fuel)
          == Conclude(env, df, dc, vi, sightHeight, zeroRange, yIntercept, angle, da, tr, history, trials - 1, fuel);
      if tr.finished {
        var da' := NextDa(tr.last.y, yIntercept, da);
        SumSnoc(history, ZeroRecord(angle, da'));
        if !Quits(angle, da') {
          SearchSum(env, df, dc, vi, sightHeight, zeroRange, yIntercept, angle + da', da',
                    history + [ZeroRecord(angle, da')], trials - 1, fuel, a0);
        }
      }
    }
  }

  /** Each change is at most as large as the one before it. */
  lemma {:induction false} SearchShrinks(env: Env, df: DragFunction, dc: real, vi: real, sightHeight: real,
                                         zeroRange: real, yIntercept: real, angle: real, da: real,
                                         history: seq<ZeroRecord>, trials: nat, fuel: nat, a0: real, d0: real)
    requires Shrinks(d0, history) && At(a0, d0, history, angle, da)
    ensures Shrinks(d0, Search(env, df, dc, vi, sightHeight, zeroRange, yIntercept, angle, da, history, trials, fuel).history)
    decreases trials
  {
    if trials > 0 {
      var tr := TrialAt(env, df, dc, vi, sightHeight, zeroRange, yIntercept, angle, fuel);
      assert Search(env, df, dc, vi, sightHeight, zeroRange, yIntercept, angle, da, history, trials, fuel)
          == Conclude(env, df, dc, vi, sightHeight, zeroRange, yIntercept, angle, da, tr, history, trials - 1, fuel);
      if tr.finished {
        var da' := NextDa(tr.last.y, yIntercept, da);
        ShrinksSnoc(a0, d0, history, angle, da, da');
        if !Quits(angle, da') {
          assert At(a0, d0, history + [ZeroRecord(angle, da')], angle + da', da');
          SearchShrinks(env, df, dc, vi, sightHeight, zeroRange, yIntercept, angle + da', da',
                        history + [ZeroRecord(angle, da')], trials - 1, fuel, a0, d0);
        }
      }
    }
  }

  /** The search goes on while no trial meets the quit test and stops at the first that does. */
  lemma {:induction false} SearchStops(env: Env, df: DragFunction, dc: real, vi: real, sightHeight: real,
                                       zeroRange: real, yIntercept: real, angle: real, da: real,
                                       history: seq<ZeroRecord>, trials: nat, fuel: nat)
    requires NoneQuit(history)
    ensures var se := Search(env, df, dc, vi, sightHeight, zeroRange, yIntercept, angle, da, history, trials, fuel);
            !se.finished ==> NoneQuit(se.history)
    ensures var se := Search(env, df, dc, vi, sightHeight, zeroRange, yIntercept, angle, da, history, trials, fuel);
            se.finished ==> && |se.history| > |history|
                            && NoneQuit(se.history[..|se.history| - 1])
                            && Quits(se.history[|se.history| - 1].angle, se.history[|se.history| - 1].da)
                            && se.angle == se.history[|se.history| - 1].angle + se.history[|se.history| - 1].da
    decreases trials
  {
    if trials > 0 {
      var tr := TrialAt(env, df, dc, vi, sightHeight, zeroRange, yIntercept, angle, fuel);
      assert Search(env, df, dc, vi, sightHeight, zeroRange, yIntercept, angle, da, history, trials, fuel)
          == Conclude(env, df, dc, vi, sightHeight, zeroRange, yIntercept, angle, da, tr, history, trials - 1, fuel);
      if tr.finished {
        var da' := NextDa(tr.last.y, yIntercept, da);
        var history' := history + [ZeroRecord(angle, da')];
        assert history'[..|history|] == history;
        if !Quits(angle, da') {
          SearchStops(env, df, dc, vi, sightHeight, zeroRange, yIntercept, angle + da', da', history',
                      trials - 1, fuel);
        }
      }
    }
  }

  /**
   * The whole search: the first trial is at a level bore, each later one
   * at the angle the changes before it reached; each change is at most as
   * large as the one before, starting from 14 degrees; a finished search
   * stopped at its first trial meeting the quit test, and returns that
   * trial's angle plus its change.
   */
  lemma ZeroSearchHistory(env: Env, df: DragFunction, dc: real, vi: real, sightHeight: real, zeroRange: real,
                          yIntercept: real, trials: nat, fuel: nat)
    ensures var se := ZeroSearch(env, df, dc, vi, sightHeight, zeroRange, yIntercept, trials, fuel);
            && |se.history| <= trials
            && Chained(0.0, se.history) && Shrinks(InitialDa(), se.history)
            && se.angle == SumDa(se.history)
            && (se.finished ==> && |se.history| > 0
                                && NoneQuit(se.history[..|se.history| - 1])
                                && Quits(se.history[|se.history| - 1].angle, se.history[|se.history| - 1].da)
                                && se.angle == se.history[|se.history| - 1].angle + se.history[|se.history| - 1].da)
  {
    SearchAppends(env, df, dc, vi, sightHeight, zeroRange, yIntercept, 0.0, InitialDa(), [], trials, fuel);
    SearchChain(env, df, dc, vi, sightHeight, zeroRange, yIntercept, 0.0, InitialDa(), [], trials, fuel,
                0.0, InitialDa());
    SearchShrinks(env, df, dc, vi, sightHeight, zeroRange, yIntercept, 0.0, InitialDa(), [], trials, fuel,
                  0.0, InitialDa());
    SearchSum(env, df, dc, vi, sightHeight, zeroRange, yIntercept, 0.0, InitialDa(), [], trials, fuel, 0.0);
    SearchStops(env, df, dc, vi, sightHeight, zeroRange, yIntercept, 0.0, InitialDa(), [], trials, fuel);
  }

  /**
   * A trial ends either beyond the zero range or at an early exit: falling
   * below the target height, or climbing too steeply (a signed test).
   */
  lemma {:induction false} TrialExits(env: Env, df: DragFunction, dc: real, gx: real, gy: real, zeroRange: real,
                                      yIntercept: real, k: Kin, fuel: nat)
    ensures var tr := ZeroTrial(env, df, dc, gx, gy, zeroRange, yIntercept, k, fuel);
            tr.finished ==> !(tr.last.x <= zeroRange * 3.0) || BelowTarget(tr.last, yIntercept) || Climbing(tr.last)
    ensures var tr := ZeroTrial(env, df, dc, gx, gy, zeroRange, yIntercept, k, fuel);
            !tr.finished ==> tr.last.x <= zeroRange * 3.0
    decreases fuel
  {
    if k.x <= zeroRange * 3.0 && fuel > 0 {
      var k' := ZeroStep(env, df, dc, gx, gy, k).next;
      assert ZeroTrial(env, df, dc, gx, gy, zeroRange, yIntercept, k, fuel)
          == ZeroObserve(env, df, dc, gx, gy, zeroRange, yIntercept, k', fuel - 1);
      if !(BelowTarget(k', yIntercept) || Climbing(k')) {
        TrialExits(env, df, dc, gx, gy, zeroRange, yIntercept, k', fuel - 1);
      }
    }
  }
}
