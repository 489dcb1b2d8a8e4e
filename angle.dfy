// Angular unit conversions between degrees, radians and minutes of angle
// (MOA, 1/60 of a degree).  The old-name copies DegtoMOA, DegtoRad,
// MOAtoDeg, MOAtoRad, RadtoDeg and RadtoMOA are the same six functions.

module Angle {
  import opened Numerics

  function DegToMoa(deg: real): real { deg * 60.0 }
  function DegToRad(deg: real): real { deg * Pi / 180.0 }
  function MoaToDeg(moa: real): real { moa / 60.0 }
  function MoaToRad(moa: real): real { moa / 60.0 * Pi / 180.0 }
  function RadToDeg(rad: real): real { rad * 180.0 / Pi }
  function RadToMoa(rad: real): real { rad * 60.0 * 180.0 / Pi }

  /** Degrees and minutes of angle convert back and forth without loss. */
  lemma DegMoaInverse(deg: real, moa: real)
    ensures MoaToDeg(DegToMoa(deg)) == deg
    ensures DegToMoa(MoaToDeg(moa)) == moa
  {
  }

  /** Degrees and radians convert back and forth without loss. */
  lemma DegRadInverse(deg: real, rad: real)
    ensures RadToDeg(DegToRad(deg)) == deg
    ensures DegToRad(RadToDeg(rad)) == rad
  {
  }

  /** Converting MOA to radians goes through degrees. */
  lemma MoaToRadThroughDegrees(moa: real)
    ensures MoaToRad(moa) == DegToRad(MoaToDeg(moa))
  {
  }

  /** Converting radians to MOA goes through degrees. */
  lemma RadToMoaThroughDegrees(rad: real)
    ensures RadToMoa(rad) == DegToMoa(RadToDeg(rad))
  {
  }

  /** Every conversion maps zero to zero. */
  lemma ConversionsFixZero()
    ensures DegToMoa(0.0) == 0.0 && DegToRad(0.0) == 0.0 && MoaToDeg(0.0) == 0.0
    ensures MoaToRad(0.0) == 0.0 && RadToDeg(0.0) == 0.0 && RadToMoa(0.0) == 0.0
  {
  }

  /** Every conversion is strictly increasing. */
  lemma ConversionsIncreasing(a: real, b: real)
    requires a < b
    ensures DegToMoa(a) < DegToMoa(b) && DegToRad(a) < DegToRad(b) && MoaToDeg(a) < MoaToDeg(b)
    ensures MoaToRad(a) < MoaToRad(b) && RadToDeg(a) < RadToDeg(b) && RadToMoa(a) < RadToMoa(b)
  {
  }
}
