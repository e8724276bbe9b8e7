/** The three angle conversions and the needle's angle (the part of `_getPath`
    that is not trigonometry). */
module Geometry {

  /** `Math.PI` as written in JavaScript; every statement below holds for any positive value. */
  const PI: real := 3.141592653589793

  /** `percToDeg`: a fraction of a full turn to degrees. */
  function PercToDeg(perc: real): (deg: real)
    ensures deg / 360.0 == perc
  {
    perc * 360.0
  }

  /** `degToRad`. */
  function DegToRad(deg: real): (rad: real)
    ensures rad / PI * 180.0 == deg
  {
    deg * PI / 180.0
  }

  /** `percToRad`: a fraction of a turn to radians, i.e. 2·π·perc. */
  function PercToRad(perc: real): (rad: real)
    ensures rad == 2.0 * PI * perc
  {
    DegToRad(PercToDeg(perc))
  }

  /** `percToRad` is linear: the radians of a sum of turns are the sum of the radians. */
  lemma PercToRadAdditive(a: real, b: real)
    ensures PercToRad(a + b) == PercToRad(a) + PercToRad(b)
    ensures PercToRad(0.0) == 0.0
  {
  }

  /** `thetaRad` in the needle's `_getPath`: `percToRad(percent / 2)`, half a
      turn for the whole range. */
  function NeedleAngle(percent: real): (theta: real)
    ensures theta == PI * percent
    ensures 0.0 <= percent <= 1.0 ==> 0.0 <= theta <= PI
    ensures percent == 0.0 ==> theta == 0.0
    ensures percent == 1.0 ==> theta == PI
  {
    PercToRad(percent / 2.0)
  }

  /** The needle angle is strictly increasing in the percent. */
  lemma NeedleAngleMonotone(p: real, q: real)
    requires p < q
    ensures NeedleAngle(p) < NeedleAngle(q)
  {
  }
}
