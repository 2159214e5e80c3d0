/** ProgramaPrincipal_FINAL.py: the simulation driven by controlador_pendulo_FINAL.py's
    controller. Each pass of `simular`'s loop asks the controller for a force,
    computes the guarded angular acceleration, advances the state with the
    explicit update, normalises the angle and records it in degrees. */
module MainFinal {
  import opened Reals
  import opened Angles
  import opened Plant
  import ShoulderFuzzy

  /** `CONSTANTE_M`, `CONSTANTE_m` and `CONSTANTE_l`, with `scipy.constants.g`. */
  const Constants: Physics := Physics(StandardGravity, 1.0, 0.1, 0.5)

  /** The threshold below which `calcula_aceleracion` gives up on dividing. */
  const Guard: real := 0.000001

  /** `calcula_aceleracion(θ, v, f)`: θ̈ = num / den, or 0 when |den| ≤ 10⁻⁶. */
  function Acceleration(theta: real, v: real, f: real, t: Trig): (a: real)
    ensures var den := Denominator(Constants, t.cos(theta));
            && (Abs(den) > Guard ==> a * den == Numerator(Constants, t.sin(theta), t.cos(theta), f, v))
            && (Abs(den) <= Guard ==> a == 0.0)
  {
    var den := Denominator(Constants, t.cos(theta));
    if Abs(den) > Guard then Numerator(Constants, t.sin(theta), t.cos(theta), f, v) / den else 0.0
  }

  /** With M = 1, m = 0.1 and l = 0.5 the denominator is at least
      0.5·(4/3 − 1/11) = 41/66, so the zero fallback never applies. */
  lemma FallbackNeverApplies(theta: real, v: real, f: real, t: Trig)
    requires -1.0 <= t.cos(theta) <= 1.0
    ensures Denominator(Constants, t.cos(theta)) >= 41.0 / 66.0
    ensures Acceleration(theta, v, f, t) * Denominator(Constants, t.cos(theta))
            == Numerator(Constants, t.sin(theta), t.cos(theta), f, v)
  {
    DenominatorBounds(Constants, t.cos(theta));
  }

  /** One pass of `simular`'s loop from state s once the controller has given
      the force f: a from `calcula_aceleracion`, then the explicit update, then
      `normalizar_angulo`. */
  function Step(s: State, f: real, dt: real, t: Trig): (r: State)
    ensures -PI <= r.theta < PI
    ensures r.omega - s.omega == Acceleration(s.theta, s.omega, f, t) * dt
  {
    var moved := ExplicitStep(s, Acceleration(s.theta, s.omega, f, t), dt);
    State(Normalize(moved.theta), moved.omega)
  }

  /** The angle after a step is the one the explicit update reaches, less a
      whole number of turns. */
  lemma StepWhole(s: State, f: real, dt: real, t: Trig) returns (k: int)
    ensures Step(s, f, dt, t).theta == ExplicitStep(s, Acceleration(s.theta, s.omega, f, t), dt).theta + 2.0 * PI * (k as real)
  {
    k := NormalizeShift(ExplicitStep(s, Acceleration(s.theta, s.omega, f, t), dt).theta);
  }

  /** The force `controller.infer(θ, v)` of `crear_controlador()` returns. */
  function Control(theta: real, v: real): (f: real)
    ensures -30.0 <= f <= 30.0
  {
    ShoulderFuzzy.ControllerOutput(theta, v)
  }

  /** The state after k passes of the loop, with `ctl` in the controller's place. */
  function Run(s0: State, dt: real, t: Trig, ctl: (real, real) -> real, k: nat): State
  {
    if k == 0 then s0
    else
      var s := Run(s0, dt, t, ctl, k - 1);
      Step(s, ctl(s.theta, s.omega), dt, t)
  }

  /** What pass i appends: the angle after it in degrees, the velocity after
      it, and the force computed from the state before it. */
  function Record(s0: State, dt: real, t: Trig, ctl: (real, real) -> real, i: nat): (real, real, real)
  {
    var s, next := Run(s0, dt, t, ctl, i), Run(s0, dt, t, ctl, i + 1);
    (Degrees(next.theta), next.omega, ctl(s.theta, s.omega))
  }

  /** `y_theta`, `y_theta_dot` and `y_fuerza` after k passes: one entry appended
      to each per pass. */
  function History(s0: State, dt: real, t: Trig, ctl: (real, real) -> real, k: nat)
    : (h: (seq<real>, seq<real>, seq<real>))
    ensures |h.0| == |h.1| == |h.2| == k
  {
    if k == 0 then ([], [], [])
    else
      var h, e := History(s0, dt, t, ctl, k - 1), Record(s0, dt, t, ctl, k - 1);
      (h.0 + [e.0], h.1 + [e.1], h.2 + [e.2])
  }

  /** Entry i of each history is what pass i appended. */
  lemma {:induction false} HistoryPrefix(s0: State, dt: real, t: Trig, ctl: (real, real) -> real, k: nat, i: nat)
    requires i < k
    ensures var h, e := History(s0, dt, t, ctl, k), Record(s0, dt, t, ctl, i);
            h.0[i] == e.0 && h.1[i] == e.1 && h.2[i] == e.2
  {
    if i + 1 < k {
      HistoryPrefix(s0, dt, t, ctl, k - 1, i);
    }
  }

  /** Entry i of the histories is the state after pass i + 1, with the angle in
      degrees and so in [−180, 180), and the force computed during that pass. */
  lemma HistoryEntries(s0: State, dt: real, t: Trig, ctl: (real, real) -> real, k: nat, i: nat)
    requires i < k
    ensures var h, s := History(s0, dt, t, ctl, k), Run(s0, dt, t, ctl, i);
            && h.0[i] == Degrees(Run(s0, dt, t, ctl, i + 1).theta) && -180.0 <= h.0[i] < 180.0
            && h.1[i] == Run(s0, dt, t, ctl, i + 1).omega
            && h.2[i] == ctl(s.theta, s.omega)
  {
    HistoryPrefix(s0, dt, t, ctl, k, i);
  }

  /** The loop of `simular(t_max, delta_t, theta_0, v_0, a_0)` with the
      controller `ctl`: one entry per point of `np.arange(0, t_max, delta_t)` in
      each of `y_theta` (degrees), `y_theta_dot` and `y_fuerza`. `a_0` is
      overwritten before it is read. */
  method SimulateWith(tMax: real, dt: real, theta0: real, v0: real, a0: real, t: Trig, ctl: (real, real) -> real)
    returns (yTheta: seq<real>, yThetaDot: seq<real>, yForce: seq<real>)
    requires dt > 0.0
    ensures |yTheta| == |yThetaDot| == |yForce| == ArangeLength(tMax, dt)
    ensures forall i :: 0 <= i < |yTheta| ==> -180.0 <= yTheta[i] < 180.0
    ensures forall i :: 0 <= i < |yTheta| ==> yTheta[i] == Degrees(Run(State(Radians(theta0), v0), dt, t, ctl, i + 1).theta)
    ensures forall i :: 0 <= i < |yTheta| ==> yThetaDot[i] == Run(State(Radians(theta0), v0), dt, t, ctl, i + 1).omega
    ensures forall i :: 0 <= i < |yTheta| ==>
              var s := Run(State(Radians(theta0), v0), dt, t, ctl, i);
              yForce[i] == ctl(s.theta, s.omega)
  {
    var s0 := State(Radians(theta0), v0);
    var n := ArangeLength(tMax, dt);
    var s := s0;
    yTheta, yThetaDot, yForce := [], [], [];
    for k := 0 to n
      invariant s == Run(s0, dt, t, ctl, k)
      invariant (yTheta, yThetaDot, yForce) == History(s0, dt, t, ctl, k)
    {
      var f := ctl(s.theta, s.omega);
      s := Step(s, f, dt, t);
      yTheta := yTheta + [Degrees(s.theta)];
      yThetaDot := yThetaDot + [s.omega];
      yForce := yForce + [f];
    }
    forall i | 0 <= i < n
      ensures -180.0 <= yTheta[i] < 180.0
      ensures yTheta[i] == Degrees(Run(s0, dt, t, ctl, i + 1).theta)
      ensures yThetaDot[i] == Run(s0, dt, t, ctl, i + 1).omega
      ensures yForce[i] == ctl(Run(s0, dt, t, ctl, i).theta, Run(s0, dt, t, ctl, i).omega)
    {
      HistoryEntries(s0, dt, t, ctl, n, i);
    }
  }

  /** `simular` as the program runs it, with `crear_controlador()`'s controller:
      besides the angles, every recorded force lies in [−30, 30]. */
  method Simulate(tMax: real, dt: real, theta0: real, v0: real, a0: real, t: Trig)
    returns (yTheta: seq<real>, yThetaDot: seq<real>, yForce: seq<real>)
    requires dt > 0.0
    ensures |yTheta| == |yThetaDot| == |yForce| == ArangeLength(tMax, dt)
    ensures forall i :: 0 <= i < |yTheta| ==> -180.0 <= yTheta[i] < 180.0 && -30.0 <= yForce[i] <= 30.0
    ensures forall i :: 0 <= i < |yTheta| ==> yTheta[i] == Degrees(Run(State(Radians(theta0), v0), dt, t, Control, i + 1).theta)
  {
    yTheta, yThetaDot, yForce := SimulateWith(tMax, dt, theta0, v0, a0, t, Control);
  }
}
