// Point-blank range: an outer successive-approximation search on the zero
// angle whose every trial integrates the trajectory until six landmarks
// have each been latched once, the trajectory turns too steep, or the
// (unreachable) range limit is hit.

module PointBlank {
  import opened Numerics
  import opened Angle
  import opened Kinematics
  import opened Ballistics

  /** The shooting angle is fixed at zero: the search is for a level shot. */
  const ShootingAngle: real := 0.0
  /** The first angular step of the search, in degrees. */
  const InitialStep: real := 10.0
  /** The search stops once a step is smaller than a hundredth of a minute of angle. */
  const StepThreshold: real := 0.01 / 60.0

  /** A value recorded the first time a condition holds, and whether it has been. */
  datatype Latch<T> = Latch(kept: bool, value: T)

  /** Records `v` into `l` unless a value is already kept. */
  function Set<T>(l: Latch<T>, cond: bool, v: T): (r: Latch<T>)
    ensures l.kept ==> r == l
    ensures !l.kept ==> r == if cond then Latch(true, v) else l
  {
    if cond && !l.kept then Latch(true, v) else l
  }

  /**
   * The six landmarks of a trial: near and far zero crossings, the ranges
   * where the path enters and leaves the vital zone (feet), the path at
   * 100 yards in hundredths of an inch, and the height of the vertex (feet).
   */
  datatype Marks = Marks(zero: Latch<real>, farZero: Latch<real>, minPbr: Latch<real>,
                         maxPbr: Latch<real>, tin: Latch<int>, vertex: Latch<real>)

  /** The landmarks before the first trial: no flag set, values -1, 0, 0, 0, 0, 0. */
  const Initial: Marks := Marks(Latch(false, -1.0), Latch(false, 0.0), Latch(false, 0.0),
                                Latch(false, 0.0), Latch(false, 0), Latch(false, 0.0))

  /** Start of a trial: every flag is cleared and the 100-yard value zeroed; the other values carry over. */
  function Reset(m: Marks): (r: Marks)
    ensures !r.zero.kept && !r.farZero.kept && !r.minPbr.kept && !r.maxPbr.kept && !r.tin.kept && !r.vertex.kept
    ensures r.zero.value == m.zero.value && r.farZero.value == m.farZero.value
    ensures r.minPbr.value == m.minPbr.value && r.maxPbr.value == m.maxPbr.value
    ensures r.vertex.value == m.vertex.value && r.tin.value == 0
  {
    Marks(m.zero.(kept := false), m.farZero.(kept := false), m.minPbr.(kept := false),
          m.maxPbr.(kept := false), Latch(false, 0), m.vertex.(kept := false))
  }

  function AllKept(m: Marks): bool
  {
    m.zero.kept && m.farZero.kept && m.minPbr.kept && m.maxPbr.kept && m.vertex.kept && m.tin.kept
  }

  /** The conditions the landmarks are latched on. */
  datatype Cond = Rising | Falling | AboveVital(vital: real) | BelowVital(vital: real) | PastHundred | Descending

  predicate Holds(c: Cond, k: Kin)
  {
    match c
    case Rising => k.y > 0.0 && k.vy >= 0.0
    case Falling => k.y < 0.0 && k.vy <= 0.0
    case AboveVital(vital) => 12.0 * k.y > -(vital / 2.0)
    case BelowVital(vital) => 12.0 * k.y < -(vital / 2.0)
    case PastHundred => k.x >= 300.0
    case Descending => k.vy < 0.0
  }

  function Feet(k: Kin): real { k.x }
  function Height(k: Kin): real { k.y }

  /** The path at the current range in hundredths of an inch, truncated toward zero. */
  function Hundredths(k: Kin): int { Trunc(100.0 * k.y * 12.0) }

  /** The five landmarks tested right after a step, in the order the solver tests them. */
  function LatchLandmarks(m: Marks, k: Kin, vital: real): Marks
  {
    var zero := Set(m.zero, Holds(Rising, k), Feet(k));
    var farZero := Set(m.farZero, Holds(Falling, k), Feet(k));
    var minPbr := Set(m.minPbr, Holds(AboveVital(vital), k), Feet(k));
    var maxPbr := Set(m.maxPbr, Holds(BelowVital(vital), k) && minPbr.kept, Feet(k));
    var tin := Set(m.tin, Holds(PastHundred, k), Hundredths(k));
    Marks(zero, farZero, minPbr, maxPbr, tin, m.vertex)
  }

  /** The vertex, tested only once the trajectory has passed the steepness and range checks. */
  function LatchVertex(m: Marks, k: Kin): Marks
  {
    m.(vertex := Set(m.vertex, Holds(Descending, k), Height(k)))
  }

  /** How a trial ended: the states after each step, the landmarks, the status, and whether it ended at all. */
  datatype TrialEnd = TrialEnd(path: seq<Kin>, marks: Marks, status: int, finished: bool)

  /**
   * The inner loop of a trial from state `k`, with `path` already visited,
   * for at most `fuel` steps.  The range counter `n` is never advanced.
   */
  function Trial(env: Env, df: DragFunction, dc: real, gx: real, gy: real, vital: real,
                 k: Kin, m: Marks, n: int, path: seq<Kin>, fuel: nat): TrialEnd
    decreases fuel, 0
  {
    if fuel == 0 then TrialEnd(path, m, 0, false)
    else Observe(env, df, dc, gx, gy, vital, Advance(env, df, dc, 0.0, gx, gy, k).next, m, n, path, fuel - 1)
  }

  /** The rest of a trial once a step has reached state `k`. */
  function Observe(env: Env, df: DragFunction, dc: real, gx: real, gy: real, vital: real,
                   k: Kin, m: Marks, n: int, path: seq<Kin>, fuel: nat): TrialEnd
    decreases fuel, 1
  {
    var m1 := LatchLandmarks(m, k, vital);
    var path' := path + [k];
    if Steep(k) then TrialEnd(path', m1, PbrTooFastVy, true)
    else if n >= MaxYards + 1 then TrialEnd(path', m1, PbrOutOfRange, true)
    else
      var m2 := LatchVertex(m1, k);
      if AllKept(m2) then TrialEnd(path', m2, 0, true)
      else Trial(env, df, dc, gx, gy, vital, k, m2, n, path', fuel)
  }

  function Gx(env: Env, zAngle: real): real { Gravity * env.sin(DegToRad(ShootingAngle + zAngle)) }
  function Gy(env: Env, zAngle: real): real { Gravity * env.cos(DegToRad(ShootingAngle + zAngle)) }

  /** The trial the search runs at zero angle `zAngle` (degrees), starting from the landmarks `m` of the last one. */
  function TrialAt(env: Env, df: DragFunction, dc: real, vi: real, sightHeight: real, vital: real,
                   zAngle: real, m: Marks, fuel: nat): TrialEnd
  {
    Trial(env, df, dc, Gx(env, zAngle), Gy(env, zAngle), vital, Muzzle(env, vi, sightHeight, zAngle),
          Reset(m), 0, [], fuel)
  }

  /**
   * The step rule: a vertex above half the vital zone turns a rising
   * search downward, one at or below it turns a falling search upward,
   * and each turn halves the step.
   */
  function NextStep(yVertex: real, vital: real, step: real): (r: real)
    ensures r == step || r == -step / 2.0
    ensures Abs(r) <= Abs(step)
    ensures r != step ==> Abs(r) == Abs(step) / 2.0
    ensures yVertex * 12.0 > vital / 2.0 ==> r <= 0.0
    ensures yVertex * 12.0 <= vital / 2.0 ==> r >= 0.0
  {
    if yVertex * 12.0 > vital / 2.0 then (if step > 0.0 then -step / 2.0 else step)
    else if step < 0.0 then -step / 2.0 else step
  }

  /** One finished trial of the search: the updated step and the trial's status. */
  datatype TrialRecord = TrialRecord(step: real, status: int)

  /** Where the search stopped: angle, step, landmarks, one record per trial, last status, and whether it stopped. */
  datatype SearchEnd = SearchEnd(zAngle: real, step: real, marks: Marks, history: seq<TrialRecord>,
                                 status: int, finished: bool)

  /** The outer loop from zero angle `zAngle` with step `step`, for at most `trials` more trials. */
  function Search(env: Env, df: DragFunction, dc: real, vi: real, sightHeight: real, vital: real,
                  zAngle: real, step: real, m: Marks, history: seq<TrialRecord>, status: int,
                  trials: nat, fuel: nat): SearchEnd
    decreases trials, 0
  {
    if trials == 0 then SearchEnd(zAngle, step, m, history, status, false)
    else Conclude(env, df, dc, vi, sightHeight, vital, zAngle, step,
                  TrialAt(env, df, dc, vi, sightHeight, vital, zAngle, m, fuel), history, trials - 1, fuel)
  }

  /** The rest of the outer loop once the trial `tr` at `zAngle` has ended. */
  function Conclude(env: Env, df: DragFunction, dc: real, vi: real, sightHeight: real, vital: real,
                    zAngle: real, step: real, tr: TrialEnd, history: seq<TrialRecord>,
                    trials: nat, fuel: nat): SearchEnd
    decreases trials, 1
  {
    if !tr.finished then SearchEnd(zAngle, step, tr.marks, history, tr.status, false)
    else
      var step' := NextStep(tr.marks.vertex.value, vital, step);
      var history' := history + [TrialRecord(step', tr.status)];
      if Abs(step') < StepThreshold then SearchEnd(zAngle + step', step', tr.marks, history', tr.status, true)
      else Search(env, df, dc, vi, sightHeight, vital, zAngle + step', step', tr.marks, history', tr.status,
                  trials, fuel)
  }

  /** The whole search, from a level bore and a 10-degree step. */
  function PbrSearch(env: Env, df: DragFunction, dc: real, vi: real, sightHeight: real, vital: real,
                     trials: nat, fuel: nat): SearchEnd
  {
    Search(env, df, dc, vi, sightHeight, vital, 0.0, InitialStep, Initial, [], 0, trials, fuel)
  }

  /** The result record; its five fields are what the getters return. */
  datatype Pbr = Pbr(nearZeroYards: int, farZeroYards: int, minPbrYards: int, maxPbrYards: int,
                     sightInAt100Yards: int)

  /**
   * `yards` is the range `feet` in yards truncated toward zero: the whole
   * number of yards at or below it for a nonnegative range, at or above it
   * for a negative one.
   */
  predicate TruncatedYards(yards: int, feet: real)
  {
    && (0.0 <= feet ==> 0 <= yards && yards as real <= feet / 3.0 < yards as real + 1.0)
    && (feet < 0.0 ==> yards <= 0 && yards as real - 1.0 < feet / 3.0 <= yards as real)
  }

  /** Ranges in feet become whole yards, truncated toward zero, and the 100-yard value is passed through. */
  function Report(m: Marks): (r: Pbr)
    ensures r.sightInAt100Yards == m.tin.value
    ensures TruncatedYards(r.nearZeroYards, m.zero.value)
    ensures TruncatedYards(r.farZeroYards, m.farZero.value)
    ensures TruncatedYards(r.minPbrYards, m.minPbr.value)
    ensures TruncatedYards(r.maxPbrYards, m.maxPbr.value)
  {
    Pbr(Trunc(m.zero.value / 3.0), Trunc(m.farZero.value / 3.0), Trunc(m.minPbr.value / 3.0),
        Trunc(m.maxPbr.value / 3.0), m.tin.value)
  }

  /** What the solver hands back for a finished search: a nonzero status alone, or 0 and the report. */
  function Answer(se: SearchEnd): (a: (int, Option<Pbr>))
    ensures se.status != 0 ==> a == (se.status, None)
    ensures se.status == 0 ==> a == (0, Some(Report(se.marks)))
  {
    if se.status != 0 then (se.status, None) else (0, Some(Report(se.marks)))
  }

  datatype Option<T> = None | Some(value: T)

  /**
   * Runs one trial of the search at zero angle `zAngle`: integrates from
   * the muzzle, latching each landmark the first time its condition holds,
   * until the trajectory is too steep or all six landmarks are kept; at
   * most `fuel` steps, and `done` is false when that bound ended it.
   */
  method RunTrial(env: Env, df: DragFunction, dc: real, vi: real, sightHeight: real, vitalSize: real,
                  zAngle: real, marks: Marks, fuel: nat)
    returns (m: Marks, status: int, done: bool)
    ensures var tr := TrialAt(env, df, dc, vi, sightHeight, vitalSize, zAngle, marks, fuel);
            && done == tr.finished
            && (done ==> m == tr.marks && status == tr.status)
  {
    var gy := Gravity * env.cos(DegToRad(ShootingAngle + zAngle));
    var gx := Gravity * env.sin(DegToRad(ShootingAngle + zAngle));
    var k := Muzzle(env, vi, sightHeight, zAngle);

    m := marks.(zero := marks.zero.(kept := false), farZero := marks.farZero.(kept := false),
                minPbr := marks.minPbr.(kept := false), maxPbr := marks.maxPbr.(kept := false),
                vertex := marks.vertex.(kept := false), tin := Latch(false, 0));
    var n := 0;
    ghost var path: seq<Kin> := [];
    status := 0;
    done := false;
    var stepsLeft := fuel;
    while stepsLeft > 0
      invariant Trial(env, df, dc, gx, gy, vitalSize, k, m, n, path, stepsLeft)
             == TrialAt(env, df, dc, vi, sightHeight, vitalSize, zAngle, marks, fuel)
      invariant n == 0
      decreases stepsLeft
    {
      status := 0;
      k := Advance(env, df, dc, 0.0, gx, gy, k).next;
      path := path + [k];

      m := LatchLandmarks(m, k, vitalSize);

      if Abs(k.vy) > Abs(3.0 * k.vx) {
        status := PbrTooFastVy;
        done := true;
        return;
      }
      if n >= MaxYards + 1 {
        status := PbrOutOfRange;
        done := true;
        return;
      }

      m := LatchVertex(m, k);

      if AllKept(m) {
        done := true;
        return;
      }
      stepsLeft := stepsLeft - 1;
    }
  }

  /**
   * Solves for the point-blank range: trial after trial, the step rule
   * moves the zero angle until the step falls below the threshold; the
   * last trial's status decides between an error code and the report.  At
   * most `trials` trials of at most `fuel` steps each are run; `finished`
   * is false when that bound, not the solver, ended the search.
   */
  method PbrSolve(env: Env, df: DragFunction, dc: real, vi: real, sightHeight: real, vitalSize: real,
                  trials: nat, fuel: nat)
    returns (status: int, pbr: Option<Pbr>, finished: bool)
    ensures var se := PbrSearch(env, df, dc, vi, sightHeight, vitalSize, trials, fuel);
            && finished == se.finished
            && (finished ==> (status, pbr) == Answer(se))
  {
    var zAngle := 0.0;
    var step := InitialStep;
    var m := Initial;
    status := 0;
    pbr := None;
    ghost var history: seq<TrialRecord> := [];
    finished := false;
    var trialsLeft := trials;
    while trialsLeft > 0
      invariant Search(env, df, dc, vi, sightHeight, vitalSize, zAngle, step, m, history, status, trialsLeft, fuel)
             == PbrSearch(env, df, dc, vi, sightHeight, vitalSize, trials, fuel)
      decreases trialsLeft
    {
      var done;
      m, status, done := RunTrial(env, df, dc, vi, sightHeight, vitalSize, zAngle, m, fuel);
      if !done {
        return;
      }

      step := NextStep(m.vertex.value, vitalSize, step);
      zAngle := zAngle + step;
      history := history + [TrialRecord(step, status)];

      if Abs(step) < StepThreshold {
        finished := true;
        break;
      }
      trialsLeft := trialsLeft - 1;
    }
    if finished && status == 0 {
      pbr := Some(Report(m));
    }
  }

  // ---------------------------------------------------------------------
  // Latches: each flag is set at most once, at the first state where its
  // condition holds.

  /** The index of the first state in `ks` where `c` holds, or |ks| if there is none. */
  function FirstWhere(ks: seq<Kin>, c: Cond): (i: nat)
    ensures i <= |ks|
    ensures forall j :: 0 <= j < i ==> !Holds(c, ks[j])
    ensures i < |ks| ==> Holds(c, ks[i])
  {
    if |ks| == 0 then 0 else if Holds(c, ks[0]) then 0 else 1 + FirstWhere(ks[1..], c)
  }

  /** The latch `l` after testing `c` on the states `ks`, one after the other. */
  function FoldLatch<T>(l: Latch<T>, ks: seq<Kin>, c: Cond, val: Kin -> T): Latch<T>
    decreases |ks|
  {
    if |ks| == 0 then l
    else Set(FoldLatch(l, ks[..|ks| - 1], c, val), Holds(c, ks[|ks| - 1]), val(ks[|ks| - 1]))
  }

  /** The value read at the first state where `c` holds, if there is one; otherwise `l` as it was. */
  function FirstLatch<T>(l: Latch<T>, ks: seq<Kin>, c: Cond, val: Kin -> T): Latch<T>
  {
    var i := FirstWhere(ks, c);
    if i < |ks| then Latch(true, val(ks[i])) else l
  }

  /** The conditions of FirstWhere determine its result. */
  lemma FirstWhereUnique(ks: seq<Kin>, c: Cond, i: nat)
    requires i <= |ks|
    requires forall j :: 0 <= j < i ==> !Holds(c, ks[j])
    requires i < |ks| ==> Holds(c, ks[i])
    ensures FirstWhere(ks, c) == i
  {
  }

  /** Extending the states by one keeps the first index once found, and otherwise finds it at the new state or not at all. */
  lemma FirstWhereSnoc(ks: seq<Kin>, k: Kin, c: Cond)
    ensures FirstWhere(ks, c) < |ks| ==> FirstWhere(ks + [k], c) == FirstWhere(ks, c)
    ensures FirstWhere(ks, c) == |ks| && Holds(c, k) ==> FirstWhere(ks + [k], c) == |ks|
    ensures FirstWhere(ks, c) == |ks| && !Holds(c, k) ==> FirstWhere(ks + [k], c) == |ks| + 1
  {
    var f := FirstWhere(ks, c);
    var ks' := ks + [k];
    assert forall j :: 0 <= j < |ks| ==> ks'[j] == ks[j];
    if f < |ks| {
      FirstWhereUnique(ks', c, f);
    } else if Holds(c, k) {
      FirstWhereUnique(ks', c, |ks|);
    } else {
      FirstWhereUnique(ks', c, |ks| + 1);
    }
  }

  /** A kept latch never changes. */
  lemma {:induction false} FoldKept<T>(l: Latch<T>, ks: seq<Kin>, c: Cond, val: Kin -> T)
    requires l.kept
    ensures FoldLatch(l, ks, c, val) == l
    decreases |ks|
  {
    if |ks| > 0 {
      FoldKept(l, ks[..|ks| - 1], c, val);
    }
  }

  /** A latch that starts cleared ends holding the value at the first state where its condition holds. */
  lemma {:induction false} FoldFirst<T>(l: Latch<T>, ks: seq<Kin>, c: Cond, val: Kin -> T)
    requires !l.kept
    ensures FoldLatch(l, ks, c, val) == FirstLatch(l, ks, c, val)
    decreases |ks|
  {
    if |ks| > 0 {
      var front := ks[..|ks| - 1];
      var k := ks[|ks| - 1];
      assert ks == front + [k];
      FoldFirst(l, front, c, val);
      FirstWhereSnoc(front, k, c);
      var f := FirstWhere(front, c);
      if f < |front| {
        assert ks[f] == front[f];
      }
    }
  }

  /** Folding over one more state is one more test. */
  lemma FoldSnoc<T>(l: Latch<T>, ks: seq<Kin>, k: Kin, c: Cond, val: Kin -> T)
    ensures FoldLatch(l, ks + [k], c, val) == Set(FoldLatch(l, ks, c, val), Holds(c, k), val(k))
  {
    assert (ks + [k])[..|ks|] == ks;
  }

  /** The states whose vertex test ran: all of them, except the last when a check ended the trial. */
  function Checked(tr: TrialEnd): seq<Kin>
  {
    if tr.status != 0 && |tr.path| > 0 then tr.path[..|tr.path| - 1] else tr.path
  }

  /** The four landmarks tested on every state are folds over the states visited. */
  lemma {:induction false} TrialLandmarks(env: Env, df: DragFunction, dc: real, gx: real, gy: real, vital: real,
                                          k: Kin, m: Marks, n: int, path: seq<Kin>, fuel: nat, m0: Marks)
    requires m.zero == FoldLatch(m0.zero, path, Rising, Feet)
    requires m.farZero == FoldLatch(m0.farZero, path, Falling, Feet)
    requires m.minPbr == FoldLatch(m0.minPbr, path, AboveVital(vital), Feet)
    requires m.tin == FoldLatch(m0.tin, path, PastHundred, Hundredths)
    ensures var tr := Trial(env, df, dc, gx, gy, vital, k, m, n, path, fuel);
            && tr.marks.zero == FoldLatch(m0.zero, tr.path, Rising, Feet)
            && tr.marks.farZero == FoldLatch(m0.farZero, tr.path, Falling, Feet)
            && tr.marks.minPbr == FoldLatch(m0.minPbr, tr.path, AboveVital(vital), Feet)
            && tr.marks.tin == FoldLatch(m0.tin, tr.path, PastHundred, Hundredths)
    decreases fuel
  {
    if fuel > 0 {
      var k' := Advance(env, df, dc, 0.0, gx, gy, k).next;
      var path' := path + [k'];
      var m1 := LatchLandmarks(m, k', vital);
      FoldSnoc(m0.zero, path, k', Rising, Feet);
      FoldSnoc(m0.farZero, path, k', Falling, Feet);
      FoldSnoc(m0.minPbr, path, k', AboveVital(vital), Feet);
      FoldSnoc(m0.tin, path, k', PastHundred, Hundredths);
      assert Trial(env, df, dc, gx, gy, vital, k, m, n, path, fuel)
          == Observe(env, df, dc, gx, gy, vital, k', m, n, path, fuel - 1);
      if !Steep(k') && n < MaxYards + 1 && !AllKept(LatchVertex(m1, k')) {
        TrialLandmarks(env, df, dc, gx, gy, vital, k', LatchVertex(m1, k'), n, path', fuel - 1, m0);
      }
    }
  }

  /** One step of the near and far ends of the vital zone, as folds from the near end on. */
  lemma MaxPbrStep(m: Marks, k: Kin, vital: real, path: seq<Kin>, m0: Marks)
    requires !m0.minPbr.kept
    requires m.minPbr == FoldLatch(m0.minPbr, path, AboveVital(vital), Feet)
    requires m.maxPbr == FoldLatch(m0.maxPbr, path[FirstWhere(path, AboveVital(vital))..], BelowVital(vital), Feet)
    ensures var path', m1 := path + [k], LatchLandmarks(m, k, vital);
            m1.maxPbr == FoldLatch(m0.maxPbr, path'[FirstWhere(path', AboveVital(vital))..], BelowVital(vital), Feet)
  {
    var path' := path + [k];
    var above := AboveVital(vital);
    var f := FirstWhere(path, above);
    FoldFirst(m0.minPbr, path, above, Feet);
    FoldSnoc(m0.minPbr, path, k, above, Feet);
    FirstWhereSnoc(path, k, above);
    if f < |path| {
      assert path'[f..] == path[f..] + [k];
      FoldSnoc(m0.maxPbr, path[f..], k, BelowVital(vital), Feet);
    } else if Holds(above, k) {
      assert path'[f..] == [] + [k];
      FoldSnoc(m0.maxPbr, [], k, BelowVital(vital), Feet);
    } else {
      assert path'[f + 1..] == [];
    }
  }

  /**
   * The far end of the vital zone is tested only once the near end is
   * kept: it is a fold over the states from the near end on.
   */
  lemma {:induction false} TrialMaxPbr(env: Env, df: DragFunction, dc: real, gx: real, gy: real, vital: real,
                                       k: Kin, m: Marks, n: int, path: seq<Kin>, fuel: nat, m0: Marks)
    requires !m0.minPbr.kept
    requires m.minPbr == FoldLatch(m0.minPbr, path, AboveVital(vital), Feet)
    requires m.maxPbr == FoldLatch(m0.maxPbr, path[FirstWhere(path, AboveVital(vital))..], BelowVital(vital), Feet)
    ensures var tr := Trial(env, df, dc, gx, gy, vital, k, m, n, path, fuel);
            tr.marks.maxPbr == FoldLatch(m0.maxPbr, tr.path[FirstWhere(tr.path, AboveVital(vital))..],
                                         BelowVital(vital), Feet)
    decreases fuel
  {
    if fuel > 0 {
      var k' := Advance(env, df, dc, 0.0, gx, gy, k).next;
      var m1 := LatchLandmarks(m, k', vital);
      MaxPbrStep(m, k', vital, path, m0);
      FoldSnoc(m0.minPbr, path, k', AboveVital(vital), Feet);
      assert Trial(env, df, dc, gx, gy, vital, k, m, n, path, fuel)
          == Observe(env, df, dc, gx, gy, vital, k', m, n, path, fuel - 1);
      if !Steep(k') && n < MaxYards + 1 && !AllKept(LatchVertex(m1, k')) {
        TrialMaxPbr(env, df, dc, gx, gy, vital, k', LatchVertex(m1, k'), n, path + [k'], fuel - 1, m0);
      }
    }
  }

  /** The vertex is a fold over the states that passed the steepness and range checks. */
  lemma {:induction false} TrialVertex(env: Env, df: DragFunction, dc: real, gx: real, gy: real, vital: real,
                                       k: Kin, m: Marks, n: int, path: seq<Kin>, fuel: nat, m0: Marks)
    requires m.vertex == FoldLatch(m0.vertex, path, Descending, Height)
    ensures var tr := Trial(env, df, dc, gx, gy, vital, k, m, n, path, fuel);
            tr.marks.vertex == FoldLatch(m0.vertex, Checked(tr), Descending, Height)
    decreases fuel
  {
    if fuel > 0 {
      var k' := Advance(env, df, dc, 0.0, gx, gy, k).next;
      var path' := path + [k'];
      var m1 := LatchLandmarks(m, k', vital);
      FoldSnoc(m0.vertex, path, k', Descending, Height);
      assert path'[..|path'| - 1] == path;
      assert Trial(env, df, dc, gx, gy, vital, k, m, n, path, fuel)
          == Observe(env, df, dc, gx, gy, vital, k', m, n, path, fuel - 1);
      if !Steep(k') && n < MaxYards + 1 && !AllKept(LatchVertex(m1, k')) {
        TrialVertex(env, df, dc, gx, gy, vital, k', LatchVertex(m1, k'), n, path', fuel - 1, m0);
      }
    }
  }

  /**
   * A trial appends one state per step; with the range counter below its
   * limit it ends only with status 0 (all six landmarks kept) or -2 (a
   * steep trajectory at its last state), so -1 never occurs; and a trial
   * that runs out of steps has status 0.  It stops at the first steep
   * state it reaches, and its last new state is steep exactly when its
   * status is -2.
   */
  lemma {:induction false} TrialStatus(env: Env, df: DragFunction, dc: real, gx: real, gy: real, vital: real,
                                       k: Kin, m: Marks, n: int, path: seq<Kin>, fuel: nat)
    requires n < MaxYards + 1
    ensures var tr := Trial(env, df, dc, gx, gy, vital, k, m, n, path, fuel);
            && path <= tr.path && |tr.path| <= |path| + fuel
            && (tr.finished ==> |tr.path| > |path|)
            && (tr.status == 0 || tr.status == PbrTooFastVy)
            && (tr.status == PbrTooFastVy ==> tr.finished && |tr.path| > 0 && Steep(tr.path[|tr.path| - 1]))
            && (tr.finished && tr.status == 0 ==> AllKept(tr.marks))
            && (!tr.finished ==> tr.status == 0)
            && (forall i :: |path| <= i < |tr.path| - 1 ==> !Steep(tr.path[i]))
            && (|tr.path| > |path| ==> (Steep(tr.path[|tr.path| - 1]) <==> tr.status == PbrTooFastVy))
    decreases fuel
  {
    if fuel > 0 {
      var k' := Advance(env, df, dc, 0.0, gx, gy, k).next;
      var m1 := LatchLandmarks(m, k', vital);
      assert Trial(env, df, dc, gx, gy, vital, k, m, n, path, fuel)
          == Observe(env, df, dc, gx, gy, vital, k', m, n, path, fuel - 1);
      if !Steep(k') && !AllKept(LatchVertex(m1, k')) {
        TrialStatus(env, df, dc, gx, gy, vital, k', LatchVertex(m1, k'), n, path + [k'], fuel - 1);
        var tr := Trial(env, df, dc, gx, gy, vital, k', LatchVertex(m1, k'), n, path + [k'], fuel - 1);
        assert tr.path[|path|] == (path + [k'])[|path|] == k';
      }
    }
  }

  /**
   * In every trial of the search each landmark is latched at most once, at
   * the first state where its condition holds (the far end of the vital
   * zone at the first such state from the near end on, the vertex among
   * the states that passed the checks); a landmark the trial misses keeps
   * the value of the trial before, except the 100-yard value, which is 0.
   */
  lemma TrialAtLandmarks(env: Env, df: DragFunction, dc: real, vi: real, sightHeight: real, vital: real,
                         zAngle: real, m: Marks, fuel: nat)
    ensures var tr := TrialAt(env, df, dc, vi, sightHeight, vital, zAngle, m, fuel);
            && tr.marks.zero == FirstLatch(Latch(false, m.zero.value), tr.path, Rising, Feet)
            && tr.marks.farZero == FirstLatch(Latch(false, m.farZero.value), tr.path, Falling, Feet)
            && tr.marks.minPbr == FirstLatch(Latch(false, m.minPbr.value), tr.path, AboveVital(vital), Feet)
            && tr.marks.tin == FirstLatch(Latch(false, 0), tr.path, PastHundred, Hundredths)
            && tr.marks.maxPbr == FirstLatch(Latch(false, m.maxPbr.value),
                                             tr.path[FirstWhere(tr.path, AboveVital(vital))..], BelowVital(vital), Feet)
            && tr.marks.vertex == FirstLatch(Latch(false, m.vertex.value), Checked(tr), Descending, Height)
  {
    var gx, gy, k0, m0 := Gx(env, zAngle), Gy(env, zAngle), Muzzle(env, vi, sightHeight, zAngle), Reset(m);
    var tr := TrialAt(env, df, dc, vi, sightHeight, vital, zAngle, m, fuel);
    assert tr == Trial(env, df, dc, gx, gy, vital, k0, m0, 0, [], fuel);
    TrialLandmarks(env, df, dc, gx, gy, vital, k0, m0, 0, [], fuel, m0);
    TrialMaxPbr(env, df, dc, gx, gy, vital, k0, m0, 0, [], fuel, m0);
    TrialVertex(env, df, dc, gx, gy, vital, k0, m0, 0, [], fuel, m0);
    FoldFirst(m0.zero, tr.path, Rising, Feet);
    FoldFirst(m0.farZero, tr.path, Falling, Feet);
    FoldFirst(m0.minPbr, tr.path, AboveVital(vital), Feet);
    FoldFirst(m0.tin, tr.path, PastHundred, Hundredths);
    FoldFirst(m0.maxPbr, tr.path[FirstWhere(tr.path, AboveVital(vital))..], BelowVital(vital), Feet);
    FoldFirst(m0.vertex, Checked(tr), Descending, Height);
  }

  // ---------------------------------------------------------------------
  // The search: the step never grows, the search stops at the first small
  // step, the angle is the sum of the steps, and the last trial's status
  // is the one reported.

  /** The sum of the steps taken. */
  function SumSteps(h: seq<TrialRecord>): real
  {
    if |h| == 0 then 0.0 else SumSteps(h[..|h| - 1]) + h[|h| - 1].step
  }

  /** Each recorded step is at most as large as the one before it, the first at most as large as `s0`. */
  ghost predicate Shrinks(s0: real, h: seq<TrialRecord>)
  {
    && (|h| > 0 ==> Abs(h[0].step) <= Abs(s0))
    && forall i :: 0 < i < |h| ==> Abs(h[i].step) <= Abs(h[i - 1].step)
  }

  /** No recorded step is below the threshold. */
  ghost predicate AllLarge(h: seq<TrialRecord>)
  {
    forall i :: 0 <= i < |h| ==> Abs(h[i].step) >= StepThreshold
  }

  /** Every recorded status is 0 or -2. */
  ghost predicate KnownStatuses(h: seq<TrialRecord>)
  {
    forall i :: 0 <= i < |h| ==> h[i].status == 0 || h[i].status == PbrTooFastVy
  }

  /** The search only appends records, at most one per trial. */
  lemma {:induction false} SearchAppends(env: Env, df: DragFunction, dc: real, vi: real, sightHeight: real, vital: real,
                                   zAngle: real, step: real, m: Marks, history: seq<TrialRecord>, status: int,
                                   trials: nat, fuel: nat)
    ensures var se := Search(env, df, dc, vi, sightHeight, vital, zAngle, step, m, history, status, trials, fuel);
            history <= se.history && |se.history| <= |history| + trials
    decreases trials
  {
    if trials > 0 {
      var tr := TrialAt(env, df, dc, vi, sightHeight, vital, zAngle, m, fuel);
      assert Search(env, df, dc, vi, sightHeight, vital, zAngle, step, m, history, status, trials, fuel)
          == Conclude(env, df, dc, vi, sightHeight, vital, zAngle, step, tr, history, trials - 1, fuel);
      var step' := NextStep(tr.marks.vertex.value, vital, step);
      var history' := history + [TrialRecord(step', tr.status)];
      if tr.finished && Abs(step') >= StepThreshold {
        SearchAppends(env, df, dc, vi, sightHeight, vital, zAngle + step', step', tr.marks, history', tr.status,
                      trials - 1, fuel);
      }
    }
  }

  lemma ShrinksSnoc(s0: real, h: seq<TrialRecord>, step: real, step': real, status: int)
    requires Shrinks(s0, h)
    requires |h| == 0 ==> step == s0
    requires |h| > 0 ==> step == h[|h| - 1].step
    requires Abs(step') <= Abs(step)
    ensures Shrinks(s0, h + [TrialRecord(step', status)])
  {
    var h' := h + [TrialRecord(step', status)];
    forall i | 0 < i < |h'|
      ensures Abs(h'[i].step) <= Abs(h'[i - 1].step)
    {
      if i < |h| {
        assert h'[i] == h[i] && h'[i - 1] == h[i - 1];
      } else {
        assert h'[i - 1] == h[|h| - 1];
      }
    }
  }

  /** Each recorded step is at most as large as the one before it. */
  lemma {:induction false} SearchShrinks(env: Env, df: DragFunction, dc: real, vi: real, sightHeight: real, vital: real,
                                   zAngle: real, step: real, m: Marks, history: seq<TrialRecord>, status: int,
                                   trials: nat, fuel: nat, s0: real)
    requires |history| == 0 ==> step == s0
    requires |history| > 0 ==> step == history[|history| - 1].step
    requires Shrinks(s0, history)
    ensures var se := Search(env, df, dc, vi, sightHeight, vital, zAngle, step, m, history, status, trials, fuel);
            Shrinks(s0, se.history)
    decreases trials
  {
    if trials > 0 {
      var tr := TrialAt(env, df, dc, vi, sightHeight, vital, zAngle, m, fuel);
      assert Search(env, df, dc, vi, sightHeight, vital, zAngle, step, m, history, status, trials, fuel)
          == Conclude(env, df, dc, vi, sightHeight, vital, zAngle, step, tr, history, trials - 1, fuel);
      var step' := NextStep(tr.marks.vertex.value, vital, step);
      var history' := history + [TrialRecord(step', tr.status)];
      if tr.finished {
        ShrinksSnoc(s0, history, step, step', tr.status);
      }
      if tr.finished && Abs(step') >= StepThreshold {
        SearchShrinks(env, df, dc, vi, sightHeight, vital, zAngle + step', step', tr.marks, history', tr.status,
                      trials - 1, fuel, s0);
      }
    }
  }

  /** The angle moves by exactly the recorded steps. */
  lemma {:induction false} SearchAngle(env: Env, df: DragFunction, dc: real, vi: real, sightHeight: real, vital: real,
                                   zAngle: real, step: real, m: Marks, history: seq<TrialRecord>, status: int,
                                   trials: nat, fuel: nat, z0: real)
    requires zAngle == z0 + SumSteps(history)
    ensures var se := Search(env, df, dc, vi, sightHeight, vital, zAngle, step, m, history, status, trials, fuel);
            se.zAngle == z0 + SumSteps(se.history)
    decreases trials
  {
    if trials > 0 {
      var tr := TrialAt(env, df, dc, vi, sightHeight, vital, zAngle, m, fuel);
      assert Search(env, df, dc, vi, sightHeight, vital, zAngle, step, m, history, status, trials, fuel)
          == Conclude(env, df, dc, vi, sightHeight, vital, zAngle, step, tr, history, trials - 1, fuel);
      var step' := NextStep(tr.marks.vertex.value, vital, step);
      var history' := history + [TrialRecord(step', tr.status)];
      assert history'[..|history|] == history;
      if tr.finished && Abs(step') >= StepThreshold {
        SearchAngle(env, df, dc, vi, sightHeight, vital, zAngle + step', step', tr.marks, history', tr.status,
                      trials - 1, fuel, z0);
      }
    }
  }

  /**
   * The search goes on while the step stays at or above the threshold and
   * stops at the first step below it, reporting that last trial's status.
   */
  lemma {:induction false} SearchStops(env: Env, df: DragFunction, dc: real, vi: real, sightHeight: real, vital: real,
                                   zAngle: real, step: real, m: Marks, history: seq<TrialRecord>, status: int,
                                   trials: nat, fuel: nat)
    requires AllLarge(history)
    ensures var se := Search(env, df, dc, vi, sightHeight, vital, zAngle, step, m, history, status, trials, fuel);
            !se.finished ==> AllLarge(se.history)
    ensures var se := Search(env, df, dc, vi, sightHeight, vital, zAngle, step, m, history, status, trials, fuel);
            se.finished ==> && |se.history| > |history|
                            && AllLarge(se.history[..|se.history| - 1])
                            && Abs(se.history[|se.history| - 1].step) < StepThreshold
                            && se.status == se.history[|se.history| - 1].status
    decreases trials
  {
    if trials > 0 {
      var tr := TrialAt(env, df, dc, vi, sightHeight, vital, zAngle, m, fuel);
      assert Search(env, df, dc, vi, sightHeight, vital, zAngle, step, m, history, status, trials, fuel)
          == Conclude(env, df, dc, vi, sightHeight, vital, zAngle, step, tr, history, trials - 1, fuel);
      var step' := NextStep(tr.marks.vertex.value, vital, step);
      var history' := history + [TrialRecord(step', tr.status)];
      assert history'[..|history|] == history;
      if tr.finished && Abs(step') >= StepThreshold {
        SearchStops(env, df, dc, vi, sightHeight, vital, zAngle + step', step', tr.marks, history', tr.status,
                      trials - 1, fuel);
      }
    }
  }

  /** Every trial of the search ends with status 0 or -2. */
  lemma {:induction false} SearchStatuses(env: Env, df: DragFunction, dc: real, vi: real, sightHeight: real, vital: real,
                                   zAngle: real, step: real, m: Marks, history: seq<TrialRecord>, status: int,
                                   trials: nat, fuel: nat)
    requires KnownStatuses(history)
    ensures var se := Search(env, df, dc, vi, sightHeight, vital, zAngle, step, m, history, status, trials, fuel);
            KnownStatuses(se.history)
    decreases trials
  {
    if trials > 0 {
      var tr := TrialAt(env, df, dc, vi, sightHeight, vital, zAngle, m, fuel);
      assert Search(env, df, dc, vi, sightHeight, vital, zAngle, step, m, history, status, trials, fuel)
          == Conclude(env, df, dc, vi, sightHeight, vital, zAngle, step, tr, history, trials - 1, fuel);
      var step' := NextStep(tr.marks.vertex.value, vital, step);
      var history' := history + [TrialRecord(step', tr.status)];
      if tr.finished {
        TrialStatus(env, df, dc, Gx(env, zAngle), Gy(env, zAngle), vital, Muzzle(env, vi, sightHeight, zAngle),
                    Reset(m), 0, [], fuel);
        assert KnownStatuses(history');
        if Abs(step') >= StepThreshold {
          SearchStatuses(env, df, dc, vi, sightHeight, vital, zAngle + step', step', tr.marks, history', tr.status,
                      trials - 1, fuel);
        }
      }
    }
  }

  /**
   * The whole search: each step is at most as large as the one before,
   * starting from 10 degrees; a finished search stopped at its first step
   * below the threshold; its angle is the sum of the steps; and its
   * outcome is decided by the last trial's status alone, which is never
   * the out-of-range code.
   */
  lemma PbrSearchHistory(env: Env, df: DragFunction, dc: real, vi: real, sightHeight: real, vital: real,
                         trials: nat, fuel: nat)
    ensures var se := PbrSearch(env, df, dc, vi, sightHeight, vital, trials, fuel);
            && |se.history| <= trials
            && Shrinks(InitialStep, se.history)
            && se.zAngle == SumSteps(se.history)
            && (se.finished ==> && |se.history| > 0
                                && AllLarge(se.history[..|se.history| - 1])
                                && Abs(se.history[|se.history| - 1].step) < StepThreshold
                                && Answer(se).0 == se.history[|se.history| - 1].status
                                && (Answer(se).1.Some? <==> se.history[|se.history| - 1].status == 0)
                                && Answer(se).0 != PbrOutOfRange)
  {
    SearchAppends(env, df, dc, vi, sightHeight, vital, 0.0, InitialStep, Initial, [], 0, trials, fuel);
    SearchShrinks(env, df, dc, vi, sightHeight, vital, 0.0, InitialStep, Initial, [], 0, trials, fuel, InitialStep);
    SearchAngle(env, df, dc, vi, sightHeight, vital, 0.0, InitialStep, Initial, [], 0, trials, fuel, 0.0);
    SearchStops(env, df, dc, vi, sightHeight, vital, 0.0, InitialStep, Initial, [], 0, trials, fuel);
    SearchStatuses(env, df, dc, vi, sightHeight, vital, 0.0, InitialStep, Initial, [], 0, trials, fuel);
  }
}

