/** Planar geometry shared by the player and the NPCs: the host's square root and
    arc tangent, absolute values, and the angular distance that the NPC view cone uses. */
module Geometry {

  /** Math.PI, written as the decimal literal the host prints for it. */
  const PI: real := 3.141592653589793
  const TWO_PI: real := 2.0 * PI

  /** Math.sqrt and Math.atan2. They are supplied by the caller, and nothing is assumed
      about their accuracy unless a lemma asks for it (see ExactRootAt). */
  datatype MathOps = MathOps(sqrt: real -> real, atan2: (real, real) -> real)

  /** The squared length of the planar vector (dx, dz). */
  function SquaredLength(dx: real, dz: real): real
  {
    dx * dx + dz * dz
  }

  /** True when the supplied square root is exact and non-negative at x. */
  predicate ExactRootAt(m: MathOps, x: real)
  {
    0.0 <= m.sqrt(x) && m.sqrt(x) * m.sqrt(x) == x
  }

  function Abs(x: real): (r: real)
    ensures 0.0 <= r && (r == x || r == -x)
  {
    if x < 0.0 then -x else x
  }

  function Min(a: real, b: real): (r: real)
    ensures r <= a && r <= b && (r == a || r == b)
  {
    if a <= b then a else b
  }

  function Max(a: real, b: real): (r: real)
    ensures a <= r && b <= r && (r == a || r == b)
  {
    if a >= b then a else b
  }

  /** How far the angle x is from 0 around the circle: the size of the representative
      of x modulo 2π that lies in [-π, π). Defined without any loop, so that it can serve
      as the reference for the loop-based normalisation in the NPC view cone. */
  function AngularDistance(x: real): (r: real)
    ensures 0.0 <= r <= PI
  {
    var k := ((x + PI) / TWO_PI).Floor;
    Abs(x - TWO_PI * k as real)
  }

  /** Adding whole turns to an angle does not change its angular distance. */
  lemma AngularDistancePeriodic(x: real, n: int)
    ensures AngularDistance(x + TWO_PI * n as real) == AngularDistance(x)
  {
    var q := (x + PI) / TWO_PI;
    var q' := (x + TWO_PI * n as real + PI) / TWO_PI;
    assert q' == q + n as real;
    FloorShift(q, n);
  }

  lemma FloorShift(q: real, n: int)
    ensures (q + n as real).Floor == q.Floor + n
  {
  }

  /** Any representative y of the angle x that lies in [-π, π] has size AngularDistance(x):
      either it is the representative AngularDistance uses, or the two are -π and π. */
  lemma {:induction false} RepresentativeSize(x: real, y: real, n: int)
    requires -PI <= y <= PI
    requires y == x + TWO_PI * n as real
    ensures Abs(y) == AngularDistance(x)
  {
    var k := ((x + PI) / TWO_PI).Floor;
    var r0 := x - TWO_PI * k as real;
    assert -PI <= r0 < PI by {
      assert k as real <= (x + PI) / TWO_PI < k as real + 1.0;
    }
    var j := n + k;
    assert y == r0 + TWO_PI * j as real;
    assert j == 0 || j == 1;
  }

  /** A vector divided by its exact, non-zero length has length one. */
  lemma UnitDirection(dx: real, dz: real, d: real)
    requires d > 0.0 && d * d == dx * dx + dz * dz
    ensures (dx / d) * (dx / d) + (dz / d) * (dz / d) == 1.0
  {
    var ux, uz := dx / d, dz / d;
    assert dx == ux * d && dz == uz * d;
    var t := ux * ux + uz * uz;
    var dd := d * d;
    assert t * dd == dx * dx + dz * dz;
    assert dd != 0.0 by {
      if dd == 0.0 {
        ZeroProduct(d, d);
      }
    }
    assert (t - 1.0) * dd == 0.0;
    ZeroProduct(t - 1.0, dd);
  }

  lemma ZeroProduct(a: real, b: real)
    requires a * b == 0.0
    requires b != 0.0
    ensures a == 0.0
  {
    assert a == (a * b) / b;
  }

  /** A step of length s along the direction (dx, dz) / d has squared length s². */
  lemma ScaledStep(dx: real, dz: real, d: real, s: real)
    requires d > 0.0 && d * d == dx * dx + dz * dz
    ensures (dx / d * s) * (dx / d * s) + (dz / d * s) * (dz / d * s) == s * s
  {
    UnitDirection(dx, dz, d);
    var ux, uz := dx / d, dz / d;
    assert (ux * s) * (ux * s) + (uz * s) * (uz * s) == (ux * ux + uz * uz) * (s * s);
  }
}
