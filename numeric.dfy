/** Numbers as the simulator uses them: the host maths library, angle units and rounding. */
module Numeric {

  /** `math.pi`, as the double the host library holds. */
  const Pi: real := 3.141592653589793

  /** The transcendental functions of the host maths library the simulator calls, each given
      by a table of values. They are uninterpreted: the model never looks inside a table, and
      an argument the table does not list reads as 0. */
  datatype Math = Math(
    sines: map<real, real>,
    cosines: map<real, real>,
    roots: map<real, real>,
    arctangents: map<(real, real), real>)

  /** `math.sin`. */
  function Sin(x: real, m: Math): real {
    if x in m.sines then m.sines[x] else 0.0
  }

  /** `math.cos`. */
  function Cos(x: real, m: Math): real {
    if x in m.cosines then m.cosines[x] else 0.0
  }

  /** `math.sqrt`, never negative. */
  function Sqrt(x: real, m: Math): (r: real)
    ensures r >= 0.0
  {
    if x in m.roots && m.roots[x] >= 0.0 then m.roots[x] else 0.0
  }

  /** `math.atan2(y, x)`. */
  function Atan2(y: real, x: real, m: Math): real {
    if (y, x) in m.arctangents then m.arctangents[(y, x)] else 0.0
  }

  /** Degrees to radians, as `d * math.pi / 180`. */
  function DegToRad(d: real): real {
    d * Pi / 180.0
  }

  /** Radians to degrees, as `r * 180 / math.pi`. */
  function RadToDeg(r: real): real {
    r * 180.0 / Pi
  }

  /** Converting to degrees and back gives the angle back. */
  lemma DegreesRoundTrip(r: real)
    ensures DegToRad(RadToDeg(r)) == r
  {
    calc {
      DegToRad(RadToDeg(r));
      (r * 180.0 / Pi) * Pi / 180.0;
      { assert (r * 180.0 / Pi) * Pi == r * 180.0; }
      r * 180.0 / 180.0;
    }
  }

  /** Python's `round` on a number: the nearest integer, ties to the even one. */
  function RoundHalfEven(x: real): (r: int)
    ensures -0.5 <= r as real - x <= 0.5
    ensures r as real - x == 0.5 || r as real - x == -0.5 ==> r % 2 == 0
  {
    var f := x.Floor;
    var frac := x - f as real;
    if frac < 0.5 then f
    else if frac > 0.5 then f + 1
    else if f % 2 == 0 then f
    else f + 1
  }

  /** `x ** 2`. */
  function Square(x: real): real { x * x }

  /** The square of a non-zero number is positive. */
  lemma SquarePositive(x: real)
    requires x != 0.0
    ensures Square(x) > 0.0
  {
    var y := if x > 0.0 then x else -x;
    calc {
      Square(x);
      y * y;
    >  { assert y > 0.0; }
      0.0;
    }
  }

  function Min(a: real, b: real): real { if a <= b then a else b }
  function Max(a: real, b: real): real { if a >= b then a else b }

  /** `max(min(x, 1.0), 0.0)`: the value limited to the unit interval. */
  function Clamp01(x: real): (r: real)
    ensures 0.0 <= r <= 1.0
    ensures 0.0 <= x <= 1.0 ==> r == x
    ensures x < 0.0 ==> r == 0.0
    ensures x > 1.0 ==> r == 1.0
  {
    Max(Min(x, 1.0), 0.0)
  }

  /** Integer `min`/`max`, for pixel bookkeeping. */
  function IMin(a: int, b: int): int { if a <= b then a else b }
  function IMax(a: int, b: int): int { if a >= b then a else b }
}
