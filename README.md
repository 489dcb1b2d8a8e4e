# libballistics: a Dafny model of its control logic

libballistics is a small exterior-ballistics library in C. Its main service builds a trajectory table: one row per yard of travel, holding path, elevation correction, time of flight, windage and velocity. It also solves two searches:
- the zero angle, which makes the trajectory cross a given height at a given range;
- the point-blank range for a given vital-zone size.

All of this is floating-point numerics wrapped in discrete control logic. The model covers that logic:
- the integration loops;
- the in-place filling of the row buffer;
- the first-time latches of the point-blank-range trial;
- the two successive-approximation searches, with their halve-and-reverse step rules;
- the bounds-checked getters;
- the closed-form unit arithmetic (angle conversions, wind drift, atmospheric correction).

Doubles are modelled as `real`s. The physics the control logic does not need stays abstract, as fields of `Numerics.Env`:
- the drag retardation;
- the speed `pow(pow(vx,2)+pow(vy,2),0.5)`;
- `sin`, `cos` and `atan`;
- the value of a division by zero.

So every property holds whatever drag law and math library are plugged in.

Files, one module each:
- `numerics.dfy` (`Numerics`): header constants, the abstract environment, C division and truncation.
- `angle.dfy` (`Angle`): the six unit conversions of angle.c.
- `windage.dfy` (`Wind`): windage.c.
- `atmosphere.dfy` (`Atmosphere`): atmosphere.c.
- `kinematics.dfy` (`Kinematics`): the half-foot integration step shared by `Ballistics_solve` and `PBR_solve`.
- `ballistics.dfy` (`Ballistics`): the `Ballistics` table as a class over an `array`, its getters, and `Ballistics_solve` as a method.
- `pbr.dfy` (`PointBlank`): `PBR_solve` as two methods, the trial loop and the outer search.
- `zero.dfy` (`Zero`): `zero_angle` as a method with its nested loops.
- `retrieve.dfy` (`Retrieve`): the legacy flat-array getters.

How the loops are proved:
- Each loop is modelled as a method with a `while` loop.
- The same loop is also written as a recursive specification function. That function is split into one function per half-step, so each unfolding exposes one step.
- The method's loop invariant says that the specification from the current state gives the same result as from the start.
- The properties are lemmas about the specification functions.
- The outer searches need not terminate in the C. Every loop therefore takes a fuel bound (steps or trials), and a result flag says whether the bound, not the code, ended it.

Duplicates are modelled once:
- solve.c repeats ballistics.c (its lines 1-182 are the same lines) followed by pbr.c (pbr.c line L is solve.c line L+162). `Ballistics.*` and `PointBlank.*` model both copies.
- _zero.c (`ZeroAngle`) is zero.c (`zero_angle`) with the old names. `Zero.ZeroAngle` models both; _zero.c:21-75 corresponds line for line to zero.c:41-93.
- _windage.c (`Windage`, `HeadWind`, `CrossWind`) is windage.c under the old names.
- _angle.c (`DegtoMOA` … `RadtoMOA`) is angle.c under the old names.

## Notes on the code

The model follows the code as written, including where it departs from the library's own comments:
- **PBR errors do not abort the search.** `PBR_solve` sets `status` to 0 at every step and to an error code when a trial breaks off (pbr.c:120, 165-172). The outer loop does not test it, so the next trial overwrites it. Only the status of the last trial is returned (pbr.c:199-201). include/ballistics/pbr.h:76 says -1 is returned for any error; the code returns -2 when the last trial breaks off on a steep climb, and 0 otherwise. `PointBlank.SearchStops` and `PointBlank.PbrSearchHistory` state this.
- **The PBR out-of-range error never occurs.** `n` is never incremented in `PBR_solve` (pbr.c:117, 169), so `PointBlank.TrialStatus` proves it unreachable.
- **Zero-angle units.** include/ballistics.h:112 and ballistics.h:97 document the target height in inches. The code compares the height in feet (`y` starts at `-sight_height/12`, zero.c:55) with it as passed (zero.c:73, 81-85). `Zero.NextDa` and `Zero.BelowTarget` take it the same way.
- **Row spacing.** include/ballistics/ballistics.h:59 describes a table "in 1 yard increments". The code guarantees only that row n is written once x/3 >= n (ballistics.c:158). How far past n yards the row lies depends on the step length, which the abstract physics does not bound.

## Model

| member | source | states |
|---|---|---|
| Numerics.Div | ballistics.c:145-150 | a C division is exact when the divisor is nonzero; a zero divisor yields the abstract IEEE value |
| Numerics.Trunc | pbr.c:204-207 | the conversion to `int` truncates toward zero: the result lies within one of the real, on the zero side |
| Angle.DegMoaInverse | angle.c:20-28 | degrees and MOA convert back and forth without loss |
| Angle.DegRadInverse | angle.c:23-34 | degrees and radians convert back and forth without loss |
| Angle.MoaToRadThroughDegrees | angle.c:26-31 | MOA to radians equals MOA to degrees followed by degrees to radians |
| Angle.RadToMoaThroughDegrees | angle.c:32-37 | radians to MOA equals radians to degrees followed by degrees to MOA |
| Angle.ConversionsFixZero | angle.c:20-37 | all six conversions map 0 to 0 |
| Angle.ConversionsIncreasing | angle.c:20-37 | all six conversions are strictly increasing |
| Wind.WindageCalm | windage.c:21-24 | no wind gives no drift |
| Wind.WindageAtVacuumTime | windage.c:21-24 | a projectile whose flight time is the vacuum time x/vi does not drift |
| Wind.WindageLinear | windage.c:21-24 | drift scales linearly with the wind speed |
| Wind.WindageDownwind | windage.c:21-24 | a positive wind and a flight slower than in vacuum drift the projectile downwind |
| Wind.ComponentsLinear | windage.c:26-36 | headwind and crosswind both scale linearly with the wind speed |
| Wind.WindFromAhead | windage.c:26-36 | at wind angle 0 all the wind is headwind, positive for a positive speed, with no crosswind |
| Atmosphere.CorrectionProportional | atmosphere.c:47-58 | the corrected coefficient is proportional to the coefficient |
| Atmosphere.SeaLevelAltitudeFactor | atmosphere.c:41-45 | the altitude factor is 1 at sea level |
| Atmosphere.StandardPressureFactor | atmosphere.c:28-33 | the pressure factor is 0 at standard pressure, 29.53 inHg |
| Atmosphere.StandardTemperatureFactor | atmosphere.c:35-39 | the temperature factor is 0 at the standard temperature 59 - 0.0036 altitude, e.g. 59 F at sea level |
| Atmosphere.DryAirHumidityFactor | atmosphere.c:22-26 | in dry air the humidity divisor is the pressure and the humidity factor is 0.995 |
| Atmosphere.StandardDryFactor | atmosphere.c:47-58 | in the standard dry sea-level atmosphere the correction factor is 0.995 |
| Atmosphere.StandardDryAtmosphere | atmosphere.c:47-58 | in the standard dry sea-level atmosphere the coefficient is scaled by exactly 0.995 |
| Kinematics.StepDuration | ballistics.c:143-145 | away from rest a step lasts the time to travel half a foot, and the time advances by it |
| Kinematics.StepVelocity | ballistics.c:147-154 | the velocity changes by dt times the drag deceleration directed against the velocity, plus dt times gravity |
| Kinematics.StepPosition | ballistics.c:172-174 | the position moves by dt times the mean of the old and new velocities |
| Kinematics.AdvanceTakesTime | ballistics.c:141-145 | with a positive speed each step has a positive duration and time moves forward |
| Ballistics.Table.Alloc | ballistics.c:42-46 | a fresh buffer with room for 50000 rows and no valid row |
| Ballistics.Table.Get | ballistics.c:53-115 | row `yardage`'s field below the valid count and 0 at or beyond it, reading the table without changing it |
| Ballistics.Solve | ballistics.c:117-182 | the buffer is written in place, every write within its 50000 rows; the valid rows and the exit reason are those of the loop's specification; the returned count is the stored count and at most 50000 |
| Ballistics.FlyAppends | ballistics.c:158-177 | rows are only appended, so an emitted row is never overwritten; at most one row per step; never more than 50000 rows |
| Ballistics.FlyRanges | ballistics.c:158-169 | row n is written only once x/3 >= n, so its range is at least n yards |
| Ballistics.FlyExit | ballistics.c:176-177 | a loop stopped as too steep has abs(vy) > abs(3 vx) at its last state; one stopped as full has exactly 50000 rows; one out of fuel still has room |
| Ballistics.FlyTimes | ballistics.c:141-169 | when the speed is positive at every state the loop visits (`MovesThroughout`), each row it records is later than the one before: the rows lie strictly increasing in time of flight |
| Ballistics.SolutionTimesIncrease | ballistics.c:117-182 | when the speed is positive at every state the table builder visits, the table's rows lie strictly increasing in time of flight |
| Ballistics.FirstRowAtMuzzle | ballistics.c:138-161 | row 0 is emitted on the first step, at 0 yards, with a path of minus the sight height |
| PointBlank.Set | pbr.c:139-162 | a latch records a value only when its condition holds and no value is kept yet, and never changes once kept |
| PointBlank.Reset | pbr.c:107-115 | every trial clears all six flags and zeroes the 100-yard value, keeping the other recorded values |
| PointBlank.NextStep | pbr.c:186-192 | the step is kept or reversed and halved; a vertex above half the vital zone makes it non-positive, otherwise non-negative; it never grows |
| PointBlank.Report | pbr.c:203-208 | each range is the feet value over 3 truncated toward zero, with the sign of the feet value: at or below it when nonnegative, at or above it when negative; the 100-yard value is passed through |
| PointBlank.Answer | pbr.c:199-210 | a nonzero status is returned alone; status 0 comes with the report |
| PointBlank.RunTrial | pbr.c:97-184 | the trial loop's landmarks and status are those of its specification |
| PointBlank.PbrSolve | pbr.c:60-211 | the solver's status and result are those of its specification's search |
| PointBlank.TrialLandmarks | pbr.c:139-162 | the near zero, far zero, vital-zone entry and 100-yard landmarks are first-time latches over the states visited |
| PointBlank.TrialMaxPbr | pbr.c:149-157 | the vital-zone exit is latched only at or after the entry: a first-time latch over the states from the entry on |
| PointBlank.TrialVertex | pbr.c:165-179 | the vertex is latched over the states that passed the steepness and range checks |
| PointBlank.TrialStatus | pbr.c:117-183 | one state is visited per step; a trial ends with status 0 and all six flags set, or with -2 at a steep state; -1 never occurs; no state before the last new one is steep, and the last new state is steep exactly when the status is -2 |
| PointBlank.TrialAtLandmarks | pbr.c:107-180 | in each trial every landmark is the value at the first state where its condition holds; a missed landmark keeps the earlier trial's value, and the 100-yard value falls back to 0 |
| PointBlank.SearchAppends | pbr.c:95-197 | records are only appended, at most one per trial |
| PointBlank.SearchShrinks | pbr.c:186-192 | each step is at most as large as the one before |
| PointBlank.SearchAngle | pbr.c:194 | the zero angle is the sum of the steps taken |
| PointBlank.SearchStops | pbr.c:196 | the search goes on while the steps are not below 0.01/60 and stops at the first that is |
| PointBlank.SearchStatuses | pbr.c:120-201 | every recorded trial status is 0 or -2 |
| PointBlank.PbrSearchHistory | pbr.c:69-201 | from a level bore and a 10-degree step: steps never grow, the angle is their sum, the search stops at the first small step, and the outcome is the last trial's status, never -1 |
| Zero.ZeroStepDuration | zero.c:58-59 | a step lasts the time to travel one foot: twice the table builder's step |
| Zero.ZeroStepVelocity | zero.c:61-68 | drag enters already multiplied by dt: the velocity changes as in the table builder's step, over this step's duration |
| Zero.ZeroStepPosition | zero.c:70-71 | the position moves by dt times the mean of the old and new velocities |
| Zero.TrialExits | zero.c:55-79 | a trial ends beyond three times the zero range (feet), or falling below the target height, or with vy > 3 vx (signed) |
| Zero.NextDa | zero.c:81-87 | the change is kept or reversed and halved; above the target it becomes non-positive, below non-negative, unchanged at the target; it never grows |
| Zero.RunTrial | zero.c:50-79 | the inner loop ends at the state, and with the finished flag, its specification `Zero.TrialAt` gives |
| Zero.ZeroAngle | zero.c:20-94 | the returned degrees are those of the search's specification |
| Zero.SearchAppends | zero.c:49-91 | records are only appended, at most one per trial |
| Zero.SearchChain | zero.c:49 | each trial is at the previous trial's angle plus its change |
| Zero.SearchSum | zero.c:49 | the angle reached is the sum of the changes |
| Zero.SearchShrinks | zero.c:81-87 | each change is at most as large as the one before |
| Zero.SearchStops | zero.c:89-90 | the search goes on while neither quit test holds, and stops at the first trial with a change below 0.01 MOA or an angle beyond 45 degrees |
| Zero.ZeroSearchHistory | zero.c:41-93 | from 0 radians and a 14-degree change: the trials are chained, the changes never grow, and the result is the last trial's angle plus the final change |
| Retrieve.Offset | retrieve.c:4-75 | each quantity sits at one of the first nine slots of its yard |
| Retrieve.OffsetInjective | retrieve.c:4-75 | different quantities sit in different slots |
| Retrieve.Get | retrieve.c:4-75 | quantity k of yard r is slot 10 r + k when r is below the stored count, and 0 otherwise |
| Retrieve.Flatten | retrieve.c:4-75 | stands in for the body of `SolveAll`, which is not part of this model: yard r's quantity k at slot 10 r + k and the row count at slot 50001, the layout the getters read; the size of 50002 slots is the model's choice |
| Retrieve.ReadsBelowCount | retrieve.c:5-7 | with a count of at most 5000, every read is below slot 50000, so the count slot is never read as data |
| Retrieve.GetFlatten | retrieve.c:4-75 | reading a flattened table gives back its rows and 0 past them, as the table getter does |

## Left out

- Floating-point rounding, NaN and infinities are not modelled: doubles are reals. A division by zero yields an abstract value rather than an IEEE infinity. For that reason no regression value (5090 rows, path values, PBR yardages) is stated.
- Drag retardation, `pow`, `sin`, `cos`, `atan` and `M_PI`:
  - `retard` (drag.c) is not part of this model;
  - the others are abstract fields of `Numerics.Env`;
  - `M_PI` is the C library's literal.
- Termination of the searches: each search is bounded by fuel, and a fuel-bounded run reports that it was cut short. Convergence needs physical monotonicity, which the abstract physics cannot supply.
- Memory management:
  - `malloc`/`free` in `Ballistics_alloc`, `Ballistics_free` and `PBR_free` become Dafny allocation and garbage collection;
  - `Ballistics_alloc` leaves `max_yardage` uninitialised, and `Table.Alloc` sets it to 0;
  - `PBR_solve`'s `malloc` of the result becomes an `Option`.
- `PBR_get_*` getters: these are the fields of `PointBlank.Pbr`.
- example.c: a `printf` driver, which is I/O.
- `Kinematics.Advance` computes the time at the end of a step together with the state. The C advances `t` only in the loop header, after the break tests, but no `t` is read after a loop ends, so the results are the same.
- The methods compute a step through the same function as the specifications (`Advance`, `ZeroStep`), rather than statement by statement: Dafny variables are values, so the ordering is kept.
- The inner loop of `zero_angle` is its own method, `Zero.RunTrial`, which `Zero.ZeroAngle` calls once per trial. `PointBlank.RunTrial` does the same for `PBR_solve`.
- The five latch tests after a step are written as one function, `LatchLandmarks`, rather than five `if`s. The six flags and their values are one `Marks` value rather than twelve variables.
- `x_vertex` of `PBR_solve` is written but never read, and is not modelled.
- PointBlank.Hundredths: the `(float)` casts in the 100-yard value are not modelled. The value is the truncation of the real 1200 y, not of its single-precision rounding.
- Ballistics.Table.Get: requires `0 <= yardage`, because a negative index is undefined behaviour in C.
- Retrieve.Get: requires `0 <= yardage` and an array long enough for the slots it reads, because anything else is an out-of-bounds read in C.
- Atmosphere.CorrectionFactor: requires its three divisors to be nonzero, where the C would produce an infinity.
- Ballistics.FlyRanges: states only the lower bound of row n's range (at least n yards), and consecutive rows are not proved increasing in range, because the distance covered per step depends on the abstract physics.
- Ballistics.FlyTimes: assumes a positive speed at each state the loop visits, because at zero speed the step 0.5/v is a division by zero of abstract value. Whether the speed stays positive depends on the abstract drag and trigonometry.
- PointBlank.Report: the near zero is not proved to lie before the far zero, nor the minimum point-blank range before the maximum. The order in which the landmarks are latched follows how the position moves along the path, which depends on the abstract physics.
- The `int` drag-function argument is modelled as the `DragFunction` tag.
