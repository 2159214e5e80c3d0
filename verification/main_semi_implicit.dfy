/** ProgramaPrincipal.py: the simulation with the semi-implicit update. The
    controller it imports, `crear_controlador` from controlador_pendulo.py, is
    not defined there, so the controller is a parameter here; it is given the
    angle in degrees. */
module MainSemiImplicit {
  import opened Reals
  import opened Angles
  import opened Plant

  /** `CONSTANTE_M`, `CONSTANTE_m` and `CONSTANTE_l`, with `scipy.constants.g`. */
  const Constants: Physics := Physics(StandardGravity, 2.0, 1.0, 1.0)

  /** `calcula_aceleracion(θ, v, f)`, without a guard: with M = 2, m = 1 and
      l = 1 the denominator is 4/3 − cos²θ/3, which lies in [1, 4/3]. */
  function Acceleration(theta: real, v: real, f: real, t: Trig): (a: real)
    requires -1.0 <= t.cos(theta) <= 1.0
    ensures 1.0 <= Denominator(Constants, t.cos(theta)) <= 4.0 / 3.0
    ensures a * Denominator(Constants, t.cos(theta)) == Numerator(Constants, t.sin(theta), t.cos(theta), f, v)
  {
    DenominatorBounds(Constants, t.cos(theta));
    Numerator(Constants, t.sin(theta), t.cos(theta), f, v) / Denominator(Constants, t.cos(theta))
  }

  /** What one pass of `simular`'s loop produces: the next state and the three
      values it appends. */
  datatype Outcome = Outcome(next: State, thetaDeg: real, thetaDot: real, force: real)

  /** One pass from state s (θ in radians): the controller sees `np.degrees(θ)`
      and v; v is updated first and θ then moves with the new v; the recorded
      angle is the new one in degrees, the recorded velocity the old one. */
  function Step(s: State, dt: real, t: Trig, ctl: (real, real) -> real): (r: Outcome)
    requires Bounded(t)
    ensures r.force == ctl(Degrees(s.theta), s.omega)
    ensures var a := Acceleration(s.theta, s.omega, r.force, t);
            && r.next.omega - s.omega == a * dt
            && r.next.theta - s.theta == (s.omega + a * dt) * dt + a * dt * dt / 2.0
    ensures r.thetaDeg * PI == r.next.theta * 180.0
    ensures r.thetaDot == s.omega
  {
    var f := ctl(Degrees(s.theta), s.omega);
    var next := SemiImplicitStep(s, Acceleration(s.theta, s.omega, f, t), dt);
    Outcome(next, Degrees(next.theta), s.omega, f)
  }

  /** The state after k passes. */
  function Run(s0: State, dt: real, t: Trig, ctl: (real, real) -> real, k: nat): State
    requires Bounded(t)
  {
    if k == 0 then s0 else Step(Run(s0, dt, t, ctl, k - 1), dt, t, ctl).next
  }

  /** `y_theta`, `y_theta_dot` and `y_fuerza` after k passes. */
  function History(s0: State, dt: real, t: Trig, ctl: (real, real) -> real, k: nat)
    : (h: (seq<real>, seq<real>, seq<real>))
    requires Bounded(t)
    ensures |h.0| == |h.1| == |h.2| == k
  {
    if k == 0 then ([], [], [])
    else
      var h, r := History(s0, dt, t, ctl, k - 1), Pass(s0, dt, t, ctl, k - 1);
      (h.0 + [r.thetaDeg], h.1 + [r.thetaDot], h.2 + [r.force])
  }

  /** The outcome of pass i. */
  function Pass(s0: State, dt: real, t: Trig, ctl: (real, real) -> real, i: nat): Outcome
    requires Bounded(t)
  {
    Step(Run(s0, dt, t, ctl, i), dt, t, ctl)
  }

  /** Entry i of each history is what pass i appended. */
  lemma {:induction false} HistoryPrefix(s0: State, dt: real, t: Trig, ctl: (real, real) -> real, k: nat, i: nat)
    requires Bounded(t) && i < k
    ensures var h, r := History(s0, dt, t, ctl, k), Pass(s0, dt, t, ctl, i);
            h.0[i] == r.thetaDeg && h.1[i] == r.thetaDot && h.2[i] == r.force
  {
    if i + 1 < k {
      HistoryPrefix(s0, dt, t, ctl, k - 1, i);
    }
  }

  /** `simular(t_max, delta_t, theta_0, v_0, a_0)` without the plots, θ₀ in
      degrees: one entry per point of `np.arange(0, t_max, delta_t)`. Entry i
      holds the angle after pass i + 1 in degrees, the velocity before it, and
      the force the controller gave for the angle (in degrees) and velocity
      before it. `a_0` is overwritten before it is read. */
  method Simulate(tMax: real, dt: real, theta0: real, v0: real, a0: real, t: Trig, ctl: (real, real) -> real)
    returns (yTheta: seq<real>, yThetaDot: seq<real>, yForce: seq<real>)
    requires dt > 0.0 && Bounded(t)
    ensures |yTheta| == |yThetaDot| == |yForce| == ArangeLength(tMax, dt)
    ensures forall i :: 0 <= i < |yTheta| ==>
              yTheta[i] * PI == Run(State(Radians(theta0), v0), dt, t, ctl, i + 1).theta * 180.0
    ensures forall i :: 0 <= i < |yTheta| ==> yThetaDot[i] == Run(State(Radians(theta0), v0), dt, t, ctl, i).omega
    ensures forall i :: 0 <= i < |yTheta| ==>
              var s := Run(State(Radians(theta0), v0), dt, t, ctl, i);
              yForce[i] == ctl(Degrees(s.theta), s.omega)
  {
    var s0 := State(Radians(theta0), v0);
    var n := ArangeLength(tMax, dt);
    var s := s0;
    yTheta, yThetaDot, yForce := [], [], [];
    for k := 0 to n
      invariant s == Run(s0, dt, t, ctl, k)
      invariant (yTheta, yThetaDot, yForce) == History(s0, dt, t, ctl, k)
    {
      var r := Step(s, dt, t, ctl);
      yTheta := yTheta + [r.thetaDeg];
      yThetaDot := yThetaDot + [r.thetaDot];
      yForce := yForce + [r.force];
      s := r.next;
    }
    forall i | 0 <= i < n
      ensures yTheta[i] * PI == Run(s0, dt, t, ctl, i + 1).theta * 180.0
      ensures yThetaDot[i] == Run(s0, dt, t, ctl, i).omega
      ensures yForce[i] == ctl(Degrees(Run(s0, dt, t, ctl, i).theta), Run(s0, dt, t, ctl, i).omega)
    {
      HistoryPrefix(s0, dt, t, ctl, n, i);
    }
  }
}
