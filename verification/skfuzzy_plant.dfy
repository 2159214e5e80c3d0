/** TP2bruno.py: the pygame simulation whose controller is built with
    scikit-fuzzy. The scikit-fuzzy inference itself is not modelled; what is
    modelled is what the program does around it: the inputs it hands over, the
    guarded pendulum update, the cart update and the rule matrix. */
module SkfuzzyPlant {
  import opened Reals
  import opened Labels
  import opened Angles
  import opened Plant

  /** `g`, `M`, `m` and `l`. */
  const Constants: Physics := Physics(9.81, 1.0, 0.1, 0.5)

  /** `dt`. */
  const Dt: real := 0.02

  /** The threshold below which `modelo_pendulo` does not divide. */
  const Guard: real := 0.000001

  /** The pair `control_difuso` hands to scikit-fuzzy: θ normalised and then
      clipped to [−π, π], a clip that never changes it, and θ' clipped to
      [−10, 10]. */
  function ControlInputs(theta: real, thetaDot: real): (r: (real, real))
    ensures r.0 == Normalize(theta)
    ensures -10.0 <= r.1 <= 10.0
    ensures -10.0 <= thetaDot <= 10.0 ==> r.1 == thetaDot
  {
    (Clamp(Normalize(theta), -PI, PI), Clamp(thetaDot, -10.0, 10.0))
  }

  /** `modelo_pendulo(θ, θ', F)`: θ is normalised first and sin/cos taken there;
      when |den| < 10⁻⁶ the normalised θ and the unchanged θ' come back,
      otherwise θ' + θ̈·dt and the normalised θ + θ'·dt + θ̈·dt²/2. */
  function Model(theta: real, thetaDot: real, f: real, t: Trig): (r: State)
    ensures -PI <= r.theta < PI
    ensures var n := Normalize(theta);
            Abs(Denominator(Constants, t.cos(n))) < Guard ==> r == State(n, thetaDot)
    ensures var n := Normalize(theta);
            var den := Denominator(Constants, t.cos(n));
            Abs(den) >= Guard ==> (r.omega - thetaDot) * den == Numerator(Constants, t.sin(n), t.cos(n), f, thetaDot) * Dt
  {
    var n := Normalize(theta);
    var den := Denominator(Constants, t.cos(n));
    if Abs(den) < Guard then State(n, thetaDot)
    else
      var accel := Numerator(Constants, t.sin(n), t.cos(n), f, thetaDot) / den;
      var moved := ExplicitStep(State(n, thetaDot), accel, Dt);
      State(Normalize(moved.theta), moved.omega)
  }

  /** With M = 1, m = 0.1, l = 0.5 and a cosine in [−1, 1] the denominator is at
      least 41/66, so the guard never fires and every step divides. */
  lemma GuardNeverFires(theta: real, t: Trig)
    requires -1.0 <= t.cos(Normalize(theta)) <= 1.0
    ensures Denominator(Constants, t.cos(Normalize(theta))) >= 41.0 / 66.0
    ensures Abs(Denominator(Constants, t.cos(Normalize(theta)))) >= Guard
  {
    DenominatorBounds(Constants, t.cos(Normalize(theta)));
  }

  /** When the step divides, the new angle is the explicit update's angle from
      the normalised θ, less a whole number of turns. */
  lemma ModelWhole(theta: real, thetaDot: real, f: real, t: Trig) returns (k: int)
    requires Abs(Denominator(Constants, t.cos(Normalize(theta)))) >= Guard
    ensures var n := Normalize(theta);
            var accel := Numerator(Constants, t.sin(n), t.cos(n), f, thetaDot) / Denominator(Constants, t.cos(n));
            Model(theta, thetaDot, f, t).theta == ExplicitStep(State(n, thetaDot), accel, Dt).theta + 2.0 * PI * (k as real)
  {
    var n := Normalize(theta);
    var accel := Numerator(Constants, t.sin(n), t.cos(n), f, thetaDot) / Denominator(Constants, t.cos(n));
    k := NormalizeShift(ExplicitStep(State(n, thetaDot), accel, Dt).theta);
  }

  /** The cart update of the main loop: acceleration F/(M + m), the velocity
      updated first and the position advanced with the new velocity, so the
      position moves by v·dt + a·dt², with no one-half. */
  function CartStep(x: real, xDot: real, f: real): (r: (real, real))
    ensures r.1 - xDot == f / (Constants.cartMass + Constants.poleMass) * Dt
    ensures r.0 - x == xDot * Dt + f / (Constants.cartMass + Constants.poleMass) * Dt * Dt
  {
    var accel := f / (Constants.cartMass + Constants.poleMass);
    var v := xDot + accel * Dt;
    (x + v * Dt, v)
  }

  /** `reglas_matrix`, with the zero label `CE` written `Z`. */
  const ReglasMatrix: seq<Rule> := [
    Rule(NG, NG, NG), Rule(NG, NP, NG), Rule(NG, Z, NG), Rule(NG, PP, NP), Rule(NG, PG, Z),
    Rule(NP, NG, NG), Rule(NP, NP, NG), Rule(NP, Z, NP), Rule(NP, PP, Z), Rule(NP, PG, PP),
    Rule(Z, NG, NG), Rule(Z, NP, NP), Rule(Z, Z, Z), Rule(Z, PP, PP), Rule(Z, PG, PG),
    Rule(PP, NG, NP), Rule(PP, NP, Z), Rule(PP, Z, PP), Rule(PP, PP, PG), Rule(PP, PG, PG),
    Rule(PG, NG, Z), Rule(PG, NP, PP), Rule(PG, Z, PG), Rule(PG, PP, PG), Rule(PG, PG, PG)
  ]

  /** The matrix is listed row by row over θ, so it has one rule for each
      (θ, θ') label pair. */
  lemma ReglasMatrixCoversEachPairOnce()
    ensures ListedByTheta(ReglasMatrix) && CoversEachPairOnce(ReglasMatrix)
  {
    forall k | 0 <= k < 25 ensures PairIndex(ReglasMatrix[k]) == k {
      TablePosition(k);
    }
    ListedByThetaCovers(ReglasMatrix);
  }
}
