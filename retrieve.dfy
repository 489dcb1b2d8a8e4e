// The legacy flat solution array: ten slots per yard, of which the first
// nine hold that yard's quantities, and the number of valid yards stored
// just past the last yard's slots.  GetRange … GetVy read one quantity each.

module Retrieve {
  import opened Numerics
  import opened Ballistics

  /** The slot of the array holding the number of valid yards. */
  const CountSlot: int := LegacyMaxRange * 10 + 1

  /** Where a quantity sits within its yard's ten slots. */
  function Offset(f: Field): (r: nat)
    ensures r < 9
  {
    match f
    case Range => 0
    case Path => 1
    case Moa => 2
    case Time => 3
    case WindageInches => 4
    case WindageMoa => 5
    case Velocity => 6
    case Vx => 7
    case Vy => 8
  }

  /** Different quantities sit in different slots. */
  lemma OffsetInjective(f: Field, g: Field)
    ensures Offset(f) == Offset(g) <==> f == g
  {
  }

  /** The number of valid yards, as stored. */
  function Size(sln: seq<real>): real
    requires CountSlot < |sln|
  {
    sln[CountSlot]
  }

  /**
   * Quantity `f` at `yardage`, or 0 at or beyond the stored number of valid
   * yards.  The array must reach the count slot, and the slots of every
   * yard below the stored count.
   */
  function Get(sln: seq<real>, yardage: int, f: Field): (r: real)
    requires CountSlot < |sln| && 0 <= yardage
    requires yardage as real < Size(sln) ==> 10 * yardage + 8 < |sln|
    ensures yardage as real < Size(sln) ==> r == sln[10 * yardage + Offset(f)]
    ensures yardage as real >= Size(sln) ==> r == 0.0
  {
    if yardage as real < Size(sln) then sln[10 * yardage + Offset(f)] else 0.0
  }

  /**
   * The flat array of a table with rows `rows`: yard r's quantity f at
   * slot 10 r + Offset(f), the count at the count slot, and zeros
   * elsewhere.
   */
  function Flatten(rows: seq<Point>): (sln: seq<real>)
    requires |rows| <= LegacyMaxRange
    ensures |sln| == CountSlot + 1
    ensures Size(sln) == |rows| as real
  {
    seq(CountSlot + 1, i requires 0 <= i <= CountSlot =>
      if i == CountSlot then |rows| as real
      else if i / 10 < |rows| && i % 10 < 9 then rows[i / 10].Get(SlotField(i % 10))
      else 0.0)
  }

  /** The quantity a slot offset below 9 holds. */
  function SlotField(k: int): (f: Field)
    requires 0 <= k < 9
    ensures Offset(f) == k
  {
    if k == 0 then Range else if k == 1 then Path else if k == 2 then Moa
    else if k == 3 then Time else if k == 4 then WindageInches else if k == 5 then WindageMoa
    else if k == 6 then Velocity else if k == 7 then Vx else Vy
  }

  /**
   * With a stored count of at most the legacy maximum range, every yard
   * below the count is read from a slot below 50000: the count slot is
   * never read as a quantity.
   */
  lemma ReadsBelowCount(sln: seq<real>, yardage: int, f: Field)
    requires CountSlot < |sln| && 0 <= yardage
    requires Size(sln) <= LegacyMaxRange as real && yardage as real < Size(sln)
    ensures 10 * yardage + Offset(f) < 10 * LegacyMaxRange < CountSlot
  {
  }

  /**
   * Reading a flattened table gives back the table's rows, and 0 past
   * them: the legacy getters agree with the table getter.
   */
  lemma GetFlatten(rows: seq<Point>, yardage: int, f: Field)
    requires |rows| <= LegacyMaxRange && 0 <= yardage
    ensures yardage < |rows| ==> Get(Flatten(rows), yardage, f) == rows[yardage].Get(f)
    ensures yardage >= |rows| ==> Get(Flatten(rows), yardage, f) == 0.0
  {
    if yardage < |rows| {
      FlattenSlot(rows, yardage, f);
    }
  }

  /** Yard r's quantity f of a flattened table is in its slot. */
  lemma FlattenSlot(rows: seq<Point>, r: int, f: Field)
    requires |rows| <= LegacyMaxRange && 0 <= r < |rows|
    ensures 10 * r + Offset(f) < CountSlot
    ensures Flatten(rows)[10 * r + Offset(f)] == rows[r].Get(f)
  {
    var i := 10 * r + Offset(f);
    assert SlotField(i % 10) == f by {
      OffsetInjective(SlotField(i % 10), f);
    }
  }
}
