/**
  Geometry utilities of the landmark SLAM estimator: the angle constant, the
  `pi_2_pi` angle wrapping and the floating-point library the estimator calls.

  Reals stand in for IEEE doubles. The library functions the estimator takes
  from `math` (sin, cos, atan2, sqrt) and the one scalar division whose divisor
  can be zero are not interpreted: they are the fields of a `MathLib` value that
  every operation receives as a parameter, so each proof holds for any choice of
  them.
 */
module Geometry {

  /** The double closest to pi, as `math.pi` and `np.pi` hold it. */
  const PI: real := 3.141592653589793

  const TWO_PI: real := 2.0 * PI

  /** The floating-point operations whose values the model leaves open. `divide`
      is the division by the squared landmark distance in the observation
      Jacobian: at distance zero IEEE arithmetic yields inf or nan, which no
      real number represents. */
  datatype MathLib = MathLib(
    sin: real -> real,
    cos: real -> real,
    atan2: (real, real) -> real,
    sqrt: real -> real,
    divide: (real, real) -> real)

  /** The number of whole turns `PiToPi` removes from `angle`. */
  function Turns(angle: real): int {
    ((angle + PI) / TWO_PI).Floor
  }

  /** `pi_2_pi`: `(angle + pi) % (2 pi) - pi`, where Python's `%` with a positive
      divisor is the floored remainder, in [0, 2 pi). */
  function PiToPi(angle: real): (r: real)
    ensures -PI <= r < PI
    ensures r == angle - Turns(angle) as real * TWO_PI
  {
    var t := (angle + PI) / TWO_PI;
    var k := t.Floor;
    assert k as real <= t < k as real + 1.0;
    (angle + PI) - k as real * TWO_PI - PI
  }

  /** An angle already in [-pi, pi) removes no turns. */
  lemma TurnsOfCanonical(angle: real)
    requires -PI <= angle < PI
    ensures Turns(angle) == 0
  {
    var t := (angle + PI) / TWO_PI;
    assert 0.0 <= t < 1.0;
  }

  /** The canonical representative is unique: any `r` in [-pi, pi) that differs
      from `angle` by a whole number of turns is `PiToPi(angle)`. */
  lemma PiToPiUnique(angle: real, r: real, k: int)
    requires -PI <= r < PI
    requires angle == r + k as real * TWO_PI
    ensures PiToPi(angle) == r
    ensures Turns(angle) == k
  {
    var t := (angle + PI) / TWO_PI;
    assert t == (r + PI) / TWO_PI + k as real;
    var u := (r + PI) / TWO_PI;
    assert 0.0 <= u < 1.0;
    assert t.Floor == k;
  }

  /** `pi_2_pi` leaves an angle already in [-pi, pi) unchanged. */
  lemma PiToPiOfCanonical(angle: real)
    requires -PI <= angle < PI
    ensures PiToPi(angle) == angle
  {
    PiToPiUnique(angle, angle, 0);
  }

  /** `pi_2_pi` is idempotent. */
  lemma PiToPiIdempotent(angle: real)
    ensures PiToPi(PiToPi(angle)) == PiToPi(angle)
  {
    PiToPiOfCanonical(PiToPi(angle));
  }

  /** Angles a whole number of turns apart wrap to the same value. */
  lemma PiToPiPeriodic(angle: real, k: int)
    ensures PiToPi(angle + k as real * TWO_PI) == PiToPi(angle)
  {
    var r := PiToPi(angle);
    PiToPiUnique(angle + k as real * TWO_PI, r, Turns(angle) + k);
  }
}
