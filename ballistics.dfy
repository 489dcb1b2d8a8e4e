// The trajectory table: a fixed-capacity buffer of one row per yard,
// filled in place by the integration loop, and its bounds-checked getters.

module Ballistics {
  import opened Numerics
  import opened Angle
  import opened Wind
  import opened Kinematics

  /** The nine quantities recorded per yard. */
  datatype Field = Range | Path | Moa | Time | WindageInches | WindageMoa | Velocity | Vx | Vy

  /** One row of the table, for the yard the projectile has just reached. */
  datatype Point = Point(
    rangeYards: real,
    pathInches: real,
    moaCorrection: real,
    seconds: real,
    windageInches: real,
    windageMoa: real,
    velocity: real,
    vx: real,
    vy: real)
  {
    function Get(f: Field): real
    {
      match f
      case Range => rangeYards
      case Path => pathInches
      case Moa => moaCorrection
      case Time => seconds
      case WindageInches => windageInches
      case WindageMoa => windageMoa
      case Velocity => velocity
      case Vx => vx
      case Vy => vy
    }
  }

  /** The trajectory table: a buffer of MaxYards rows of which the first maxYardage are valid. */
  class Table {
    var yardages: array<Point>
    var maxYardage: int

    ghost predicate Valid()
      reads this
    {
      yardages.Length == MaxYards && 0 <= maxYardage <= MaxYards
    }

    /** The valid rows. */
    ghost function Rows(): seq<Point>
      reads this, yardages
      requires Valid()
    {
      yardages[..maxYardage]
    }

    /** A table with room for MaxYards rows and none valid yet. */
    constructor Alloc()
      ensures Valid() && fresh(yardages) && Rows() == []
    {
      yardages := new Point[MaxYards];
      maxYardage := 0;
    }

    /** Field `f` of row `yardage`, or 0 past the valid rows. */
    function Get(yardage: int, f: Field): (r: real)
      reads this, yardages
      requires Valid() && 0 <= yardage
      ensures yardage < |Rows()| ==> r == Rows()[yardage].Get(f)
      ensures |Rows()| <= yardage ==> r == 0.0
    {
      if yardage < maxYardage then yardages[yardage].Get(f) else 0.0
    }
  }

  /** The inputs of the integration loop that stay fixed during a run. */
  datatype Launch = Launch(df: DragFunction, dc: real, vi: real, hwind: real, cwind: real, gx: real, gy: real)

  /** Why the integration loop stopped; OutOfFuel means it would still be running. */
  datatype Exit = TooSteep | Full | OutOfFuel

  /** The rows produced, the last state reached and why the loop stopped. */
  datatype Trace = Trace(rows: seq<Point>, last: Kin, exit: Exit)

  function Prepare(env: Env, df: DragFunction, dc: real, vi: real, shootingAngle: real,
                   zeroAngle: real, windSpeed: real, windAngle: real): Launch
  {
    Launch(df, dc, vi, HeadWind(env, windSpeed, windAngle), CrossWind(env, windSpeed, windAngle),
           Gravity * env.sin(DegToRad(shootingAngle + zeroAngle)),
           Gravity * env.cos(DegToRad(shootingAngle + zeroAngle)))
  }

  /** The state at the muzzle: the bore lies sightHeight inches below the line of sight. */
  function Muzzle(env: Env, vi: real, sightHeight: real, zeroAngle: real): Kin
  {
    Kin(0.0, vi * env.cos(DegToRad(zeroAngle)), vi * env.sin(DegToRad(zeroAngle)), 0.0, -sightHeight / 12.0)
  }

  /** The row recorded during step `s` from state `k`, before the position is advanced. */
  function MakeRow(env: Env, c: Launch, k: Kin, s: Step): Point
  {
    var w := Windage(env, c.cwind, c.vi, k.x, k.t + s.dt);
    Point(k.x / 3.0, k.y * 12.0, -RadToMoa(env.atan(Div(env, k.y, k.x))), k.t + s.dt,
          w, RadToMoa(env.atan(Div(env, w / 12.0, k.x))), s.v, s.next.vx, s.next.vy)
  }

  function Steep(k: Kin): bool
  {
    Abs(k.vy) > Abs(3.0 * k.vx)
  }

  /** The integration loop from state `k` with `rows` already recorded, for at most `fuel` steps. */
  function Fly(env: Env, c: Launch, k: Kin, rows: seq<Point>, fuel: nat): Trace
    decreases fuel, 0
  {
    if fuel == 0 then Trace(rows, k, OutOfFuel)
    else Continue(env, c, k, Advance(env, c.df, c.dc, c.hwind, c.gx, c.gy, k), rows, fuel - 1)
  }

  /** The rest of the loop once step `s` has been taken from state `k`. */
  function Continue(env: Env, c: Launch, k: Kin, s: Step, rows: seq<Point>, fuel: nat): Trace
    decreases fuel, 1
  {
    var rows' := if k.x / 3.0 >= |rows| as real then rows + [MakeRow(env, c, k, s)] else rows;
    if Steep(s.next) then Trace(rows', s.next, TooSteep)
    else if |rows'| >= MaxYards then Trace(rows', s.next, Full)
    else Fly(env, c, s.next, rows', fuel)
  }

  /** The whole run of the table builder for the given shot. */
  function Solution(env: Env, df: DragFunction, dc: real, vi: real, sightHeight: real, shootingAngle: real,
                    zeroAngle: real, windSpeed: real, windAngle: real, fuel: nat): Trace
  {
    Fly(env, Prepare(env, df, dc, vi, shootingAngle, zeroAngle, windSpeed, windAngle),
        Muzzle(env, vi, sightHeight, zeroAngle), [], fuel)
  }

  /**
   * Builds the trajectory table for a shot, writing row n of the buffer in
   * place on the step at which the range first reaches n yards, and returns
   * the number of valid rows.
   */
  method Solve(env: Env, df: DragFunction, dc: real, vi: real, sightHeight: real, shootingAngle: real,
               zeroAngle: real, windSpeed: real, windAngle: real, fuel: nat)
    returns (table: Table, n: int, exit: Exit)
    ensures fresh(table) && fresh(table.yardages) && table.Valid()
    ensures n == table.maxYardage && 0 <= n <= MaxYards
    ensures var tr := Solution(env, df, dc, vi, sightHeight, shootingAngle, zeroAngle, windSpeed, windAngle, fuel);
            table.Rows() == tr.rows && exit == tr.exit
  {
    var c := Prepare(env, df, dc, vi, shootingAngle, zeroAngle, windSpeed, windAngle);
    table := new Table.Alloc();
    var k := Muzzle(env, vi, sightHeight, zeroAngle);

    ghost var rows: seq<Point> := [];
    n := 0;
    exit := OutOfFuel;
    var steps := fuel;
    while steps > 0
      invariant fresh(table) && fresh(table.yardages)
      invariant 0 <= n < MaxYards && table.Valid() && table.maxYardage == 0
      invariant table.yardages[..n] == rows
      invariant Fly(env, c, k, rows, steps) == Fly(env, c, Muzzle(env, vi, sightHeight, zeroAngle), [], fuel)
      decreases steps
    {
      var s := Advance(env, c.df, c.dc, c.hwind, c.gx, c.gy, k);
      if k.x / 3.0 >= n as real {
        var row := MakeRow(env, c, k, s);
        table.yardages[n] := row;
        rows := rows + [row];
        n := n + 1;
      }
      k := s.next;
      if Steep(k) {
        exit := TooSteep;
        break;
      }
      if n >= MaxYards {
        exit := Full;
        break;
      }
      steps := steps - 1;
    }
    table.maxYardage := n;
  }

  /** Row i of a table lies at least i yards downrange. */
  ghost predicate RangesCover(rows: seq<Point>)
  {
    forall i :: 0 <= i < |rows| ==> rows[i].rangeYards >= i as real
  }

  /**
   * The loop only appends rows, so an emitted row is never overwritten; it
   * appends at most one per step and never fills more than the capacity.
   */
  lemma {:induction false} FlyAppends(env: Env, c: Launch, k: Kin, rows: seq<Point>, fuel: nat)
    requires |rows| < MaxYards
    ensures rows <= Fly(env, c, k, rows, fuel).rows
    ensures |Fly(env, c, k, rows, fuel).rows| <= |rows| + fuel
    ensures |Fly(env, c, k, rows, fuel).rows| <= MaxYards
    decreases fuel
  {
    if fuel > 0 {
      var s := Advance(env, c.df, c.dc, c.hwind, c.gx, c.gy, k);
      var rows' := if k.x / 3.0 >= |rows| as real then rows + [MakeRow(env, c, k, s)] else rows;
      assert Fly(env, c, k, rows, fuel) == Continue(env, c, k, s, rows, fuel - 1);
      if !Steep(s.next) && |rows'| < MaxYards {
        FlyAppends(env, c, s.next, rows', fuel - 1);
      }
    }
  }

  /** Every row the loop appends lies at least as many yards downrange as its index. */
  lemma {:induction false} FlyRanges(env: Env, c: Launch, k: Kin, rows: seq<Point>, fuel: nat)
    requires RangesCover(rows)
    ensures RangesCover(Fly(env, c, k, rows, fuel).rows)
    decreases fuel
  {
    if fuel > 0 {
      var s := Advance(env, c.df, c.dc, c.hwind, c.gx, c.gy, k);
      var rows' := if k.x / 3.0 >= |rows| as real then rows + [MakeRow(env, c, k, s)] else rows;
      assert RangesCover(rows');
      assert Fly(env, c, k, rows, fuel) == Continue(env, c, k, s, rows, fuel - 1);
      if !Steep(s.next) && |rows'| < MaxYards {
        FlyRanges(env, c, s.next, rows', fuel - 1);
      }
    }
  }

  /**
   * The loop stops early only for a steep trajectory or a full table, and
   * one that runs out of steps has room left.
   */
  lemma {:induction false} FlyExit(env: Env, c: Launch, k: Kin, rows: seq<Point>, fuel: nat)
    requires |rows| < MaxYards
    ensures Fly(env, c, k, rows, fuel).exit == TooSteep ==> Steep(Fly(env, c, k, rows, fuel).last)
    ensures Fly(env, c, k, rows, fuel).exit == Full ==> |Fly(env, c, k, rows, fuel).rows| == MaxYards
    ensures Fly(env, c, k, rows, fuel).exit == OutOfFuel ==> |Fly(env, c, k, rows, fuel).rows| < MaxYards
    decreases fuel
  {
    if fuel > 0 {
      var s := Advance(env, c.df, c.dc, c.hwind, c.gx, c.gy, k);
      var rows' := if k.x / 3.0 >= |rows| as real then rows + [MakeRow(env, c, k, s)] else rows;
      assert Fly(env, c, k, rows, fuel) == Continue(env, c, k, s, rows, fuel - 1);
      if !Steep(s.next) && |rows'| < MaxYards {
        FlyExit(env, c, s.next, rows', fuel - 1);
      }
    }
  }

  /** Each row is recorded later than the one before it. */
  ghost predicate TimesIncrease(rows: seq<Point>)
  {
    forall i :: 0 < i < |rows| ==> rows[i - 1].seconds < rows[i].seconds
  }

  /** No row is recorded later than time `t`. */
  ghost predicate RecordedBy(rows: seq<Point>, t: real)
  {
    forall i :: 0 <= i < |rows| ==> rows[i].seconds <= t
  }

  /** With a positive speed, a row recorded during a step is later than every earlier row, and no later than the next state. */
  lemma RowStep(env: Env, c: Launch, k: Kin, rows: seq<Point>)
    requires env.speed(k.vx, k.vy) > 0.0
    requires TimesIncrease(rows) && RecordedBy(rows, k.t)
    ensures var s := Advance(env, c.df, c.dc, c.hwind, c.gx, c.gy, k);
            var rows' := rows + [MakeRow(env, c, k, s)];
            TimesIncrease(rows') && RecordedBy(rows', s.next.t)
  {
    var s := Advance(env, c.df, c.dc, c.hwind, c.gx, c.gy, k);
    AdvanceTakesTime(env, c.df, c.dc, c.hwind, c.gx, c.gy, k);
    var rows' := rows + [MakeRow(env, c, k, s)];
    assert rows'[|rows|].seconds == s.next.t;
    forall i | 0 < i < |rows'|
      ensures rows'[i - 1].seconds < rows'[i].seconds
    {
      if i < |rows| {
        assert rows'[i] == rows[i] && rows'[i - 1] == rows[i - 1];
      }
    }
  }

  /** The speed is positive at every state the loop visits from `k` before it stops. */
  ghost predicate MovesThroughout(env: Env, c: Launch, k: Kin, rows: seq<Point>, fuel: nat)
    decreases fuel
  {
    fuel > 0 ==>
      && env.speed(k.vx, k.vy) > 0.0
      && var s := Advance(env, c.df, c.dc, c.hwind, c.gx, c.gy, k);
         var rows' := if k.x / 3.0 >= |rows| as real then rows + [MakeRow(env, c, k, s)] else rows;
         !Steep(s.next) && |rows'| < MaxYards ==> MovesThroughout(env, c, s.next, rows', fuel - 1)
  }

  /**
   * While the speed stays positive at the states the loop visits, the rows
   * it records lie strictly increasing in time of flight.
   */
  lemma {:induction false} FlyTimes(env: Env, c: Launch, k: Kin, rows: seq<Point>, fuel: nat)
    requires MovesThroughout(env, c, k, rows, fuel)
    requires TimesIncrease(rows) && RecordedBy(rows, k.t)
    ensures TimesIncrease(Fly(env, c, k, rows, fuel).rows)
    decreases fuel
  {
    if fuel > 0 {
      var s := Advance(env, c.df, c.dc, c.hwind, c.gx, c.gy, k);
      var rows' := if k.x / 3.0 >= |rows| as real then rows + [MakeRow(env, c, k, s)] else rows;
      assert Fly(env, c, k, rows, fuel) == Continue(env, c, k, s, rows, fuel - 1);
      RowStep(env, c, k, rows);
      AdvanceTakesTime(env, c.df, c.dc, c.hwind, c.gx, c.gy, k);
      assert RecordedBy(rows', s.next.t);
      if !Steep(s.next) && |rows'| < MaxYards {
        FlyTimes(env, c, s.next, rows', fuel - 1);
      }
    }
  }

  /** While the speed stays positive at the states visited, the table's rows lie strictly increasing in time of flight. */
  lemma SolutionTimesIncrease(env: Env, df: DragFunction, dc: real, vi: real, sightHeight: real,
                              shootingAngle: real, zeroAngle: real, windSpeed: real, windAngle: real, fuel: nat)
    requires MovesThroughout(env, Prepare(env, df, dc, vi, shootingAngle, zeroAngle, windSpeed, windAngle),
                             Muzzle(env, vi, sightHeight, zeroAngle), [], fuel)
    ensures TimesIncrease(Solution(env, df, dc, vi, sightHeight, shootingAngle, zeroAngle, windSpeed, windAngle, fuel).rows)
  {
    FlyTimes(env, Prepare(env, df, dc, vi, shootingAngle, zeroAngle, windSpeed, windAngle),
             Muzzle(env, vi, sightHeight, zeroAngle), [], fuel);
  }

  /** On the first step the projectile is at the muzzle, so row 0 is emitted: 0 yards, sight height below the line. */
  lemma FirstRowAtMuzzle(env: Env, df: DragFunction, dc: real, vi: real, sightHeight: real, shootingAngle: real,
                         zeroAngle: real, windSpeed: real, windAngle: real, fuel: nat)
    requires fuel >= 1
    ensures var tr := Solution(env, df, dc, vi, sightHeight, shootingAngle, zeroAngle, windSpeed, windAngle, fuel);
            && |tr.rows| >= 1
            && tr.rows[0].rangeYards == 0.0
            && tr.rows[0].pathInches == -sightHeight
  {
    var c := Prepare(env, df, dc, vi, shootingAngle, zeroAngle, windSpeed, windAngle);
    var k := Muzzle(env, vi, sightHeight, zeroAngle);
    var s := Advance(env, c.df, c.dc, c.hwind, c.gx, c.gy, k);
    var row := MakeRow(env, c, k, s);
    assert Fly(env, c, k, [], fuel) == Continue(env, c, k, s, [], fuel - 1);
    assert row.rangeYards == 0.0 && row.pathInches == -sightHeight;
    assert Solution(env, df, dc, vi, sightHeight, shootingAngle, zeroAngle, windSpeed, windAngle, fuel)
        == Fly(env, c, k, [], fuel);
    assert [] + [row] == [row];
    if !Steep(s.next) {
      FlyAppends(env, c, s.next, [row], fuel - 1);
      assert Fly(env, c, k, [], fuel) == Fly(env, c, s.next, [row], fuel - 1);
      assert Fly(env, c, s.next, [row], fuel - 1).rows[0] == row;
    }
  }
}
