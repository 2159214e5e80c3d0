/** Angle handling: π, the `normalizar_angulo` normalisation shared by
    TP2bruno.py and ProgramaPrincipal_FINAL.py, the single wrap that
    controlador_pendulo_FINAL.py applies before fuzzifying, and `np.degrees`. */
module Angles {

  /** `np.pi`, as the decimal that the double prints as. Proofs use only that
      it lies strictly between 3.14159 and 3.1416. */
  const PI: real := 3.141592653589793

  /** `(θ + π) % (2π) − π`, with Python's floored `%`: the remainder takes the sign
      of the divisor, `a % b == a − b·⌊a / b⌋`. */
  function Normalize(theta: real): (r: real)
    ensures -PI <= r < PI
  {
    var q := (theta + PI) / (2.0 * PI);
    (theta + PI) - 2.0 * PI * (q.Floor as real) - PI
  }

  /** The normalised angle differs from the input by a whole number of turns. */
  lemma NormalizeShift(theta: real) returns (k: int)
    ensures Normalize(theta) == theta + 2.0 * PI * (k as real)
  {
    k := -((theta + PI) / (2.0 * PI)).Floor;
  }

  /** Normalize picks the one representative of θ's class modulo 2π that lies in [−π, π). */
  lemma NormalizeUnique(theta: real, y: real, k: int)
    requires -PI <= y < PI
    requires y == theta + 2.0 * PI * (k as real)
    ensures Normalize(theta) == y
  {
    var j := NormalizeShift(theta);
    var r := Normalize(theta);
    // r − y is the whole number j − k of turns and lies strictly between −2π and 2π.
    assert r - y == 2.0 * PI * ((j - k) as real);
  }

  lemma NormalizeIdempotent(theta: real)
    ensures Normalize(Normalize(theta)) == Normalize(theta)
  {
    NormalizeUnique(Normalize(theta), Normalize(theta), 0);
  }

  /** An angle already in [−π, π) is returned unchanged. */
  lemma NormalizeFixesCanonical(theta: real)
    requires -PI <= theta < PI
    ensures Normalize(theta) == theta
  {
    NormalizeUnique(theta, theta, 0);
  }

  /** The single wrap at the top of `FuzzyController.infer` in
      controlador_pendulo_FINAL.py: one turn is removed above π or added below −π. */
  function Wrap(theta: real): (r: real)
    ensures -3.0 * PI <= theta <= 3.0 * PI ==> -PI <= r <= PI
    ensures r == theta || r == theta - 2.0 * PI || r == theta + 2.0 * PI
    ensures -PI <= theta <= PI ==> r == theta
  {
    if theta > PI then theta - 2.0 * PI
    else if theta < -PI then theta + 2.0 * PI
    else theta
  }

  /** On [−3π, 3π] the single wrap agrees with Normalize, except that it keeps π
      where Normalize gives −π. */
  lemma WrapAgreesWithNormalize(theta: real)
    requires -3.0 * PI <= theta <= 3.0 * PI
    ensures Wrap(theta) != PI ==> Wrap(theta) == Normalize(theta)
    ensures Wrap(theta) == PI ==> Normalize(theta) == -PI
  {
    var w := Wrap(theta);
    if w != PI {
      if theta > PI {
        NormalizeUnique(theta, w, -1);
      } else if theta < -PI {
        NormalizeUnique(theta, w, 1);
      } else {
        NormalizeUnique(theta, w, 0);
      }
    } else {
      if theta > PI {
        NormalizeUnique(theta, -PI, -2);
      } else {
        NormalizeUnique(theta, -PI, -1);
      }
    }
  }

  /** `np.degrees`: radians to degrees. */
  function Degrees(theta: real): (d: real)
    ensures -PI <= theta < PI ==> -180.0 <= d < 180.0
    ensures d * PI == theta * 180.0
  {
    theta * 180.0 / PI
  }

  /** `np.radians`, or `θ·π/180` as ProgramaPrincipal.py writes it: degrees to radians. */
  function Radians(deg: real): (theta: real)
    ensures Degrees(theta) == deg
    ensures -180.0 <= deg < 180.0 ==> -PI <= theta < PI
  {
    deg * PI / 180.0
  }
}
