/** programa_principal.py: the simulation driven by controlador_pendulo.py's
    controller. The state is kept with θ in degrees; each pass clamps it, asks
    the controller for a force, computes θ̈ without a guard, records the clamped
    state and advances it with the explicit update. */
module MainClamped {
  import opened Reals
  import opened Angles
  import opened Plant
  import TriangleFuzzy

  /** `M`, `m`, `l` and `g`. */
  const Constants: Physics := Physics(9.81, 1.0, 0.3, 0.3)

  /** `dt`. */
  const Dt: real := 0.05

  /** `N = int(5 / dt)`: the number of passes, the largest whose steps fit in 5 s. */
  function Passes(): (n: nat)
    ensures (n as real) * Dt <= 5.0 < ((n + 1) as real) * Dt
  {
    (5.0 / Dt).Floor
  }

  /** The clamp at the top of each pass: θ to [−89.9, 89.9] degrees and θ' to
      [−9.9, 9.9]; values already in range are kept. */
  function Clamped(s: State): (r: State)
    ensures -89.9 <= r.theta <= 89.9 && -9.9 <= r.omega <= 9.9
    ensures -89.9 <= s.theta <= 89.9 ==> r.theta == s.theta
    ensures -9.9 <= s.omega <= 9.9 ==> r.omega == s.omega
  {
    State(Clamp(s.theta, -89.9, 89.9), Clamp(s.omega, -9.9, 9.9))
  }

  /** The force `controller.infer(θ, θ')` returns. */
  function Control(theta: real, thetaDot: real): (f: real)
    ensures -30.0 <= f <= 30.0
  {
    TriangleFuzzy.ControllerOutput(theta, thetaDot)
  }

  /** `theta_ddot = num / (l * denom)` with sin and cos taken at `np.radians(θ)`.
      There is no guard; the division is defined because l·denom ≥
      0.3·(4/3 − 0.3/1.3) for every cosine in [−1, 1]. */
  function Acceleration(s: State, f: real, t: Trig): (a: real)
    requires -1.0 <= t.cos(Radians(s.theta)) <= 1.0
    ensures Denominator(Constants, t.cos(Radians(s.theta))) >= 0.3 * (4.0 / 3.0 - 0.3 / 1.3)
    ensures a * Denominator(Constants, t.cos(Radians(s.theta)))
            == Numerator(Constants, t.sin(Radians(s.theta)), t.cos(Radians(s.theta)), f, s.omega)
  {
    var rad := Radians(s.theta);
    DenominatorBounds(Constants, t.cos(rad));
    Numerator(Constants, t.sin(rad), t.cos(rad), f, s.omega) / Denominator(Constants, t.cos(rad))
  }

  /** One pass from the unclamped state s, once the controller has given f for
      the clamped state: `theta_new` and `theta_dot_new`, both computed from the
      clamped values. */
  function Step(s: State, f: real, t: Trig): (r: State)
    requires Bounded(t)
    ensures r.omega - Clamped(s).omega == Acceleration(Clamped(s), f, t) * Dt
    ensures r.theta - Clamped(s).theta == (Clamped(s).omega + r.omega) / 2.0 * Dt
  {
    var c := Clamped(s);
    ExplicitStep(c, Acceleration(c, f, t), Dt)
  }

  /** The state at the top of pass k, before clamping, with `ctl` in the
      controller's place. */
  function Run(s0: State, t: Trig, ctl: (real, real) -> real, k: nat): State
    requires Bounded(t)
  {
    if k == 0 then s0
    else
      var c := Clamped(Run(s0, t, ctl, k - 1));
      Step(Run(s0, t, ctl, k - 1), ctl(c.theta, c.omega), t)
  }

  /** One line of `theta_hist`, `theta_dot_hist`, `force_hist` and `time`. */
  datatype Entry = Entry(theta: real, thetaDot: real, force: real, time: real)

  /** What pass k records: the clamped state, the force computed from that
      same state, and the time k·dt. */
  function Record(s0: State, t: Trig, ctl: (real, real) -> real, k: nat): Entry
    requires Bounded(t)
  {
    var c := Clamped(Run(s0, t, ctl, k));
    Entry(c.theta, c.omega, ctl(c.theta, c.omega), (k as real) * Dt)
  }

  /** The histories after k passes. */
  function History(s0: State, t: Trig, ctl: (real, real) -> real, k: nat): (h: seq<Entry>)
    requires Bounded(t)
    ensures |h| == k
  {
    if k == 0 then [] else History(s0, t, ctl, k - 1) + [Record(s0, t, ctl, k - 1)]
  }

  /** Entry i of the histories is what pass i records. */
  lemma {:induction false} HistoryEntry(s0: State, t: Trig, ctl: (real, real) -> real, k: nat, i: nat)
    requires Bounded(t) && i < k
    ensures History(s0, t, ctl, k)[i] == Record(s0, t, ctl, i)
  {
    if i + 1 < k {
      HistoryEntry(s0, t, ctl, k - 1, i);
    }
  }

  /** The loop of programa_principal.py with the controller `ctl`, starting from
      `theta` (degrees) and `theta_dot`: N passes, each recording the clamped
      pre-update state, the force from that state and the time step·dt. */
  method SimulateWith(theta0: real, thetaDot0: real, t: Trig, ctl: (real, real) -> real) returns (hist: seq<Entry>)
    requires Bounded(t)
    ensures |hist| == Passes()
    ensures forall i :: 0 <= i < |hist| ==> hist[i] == Record(State(theta0, thetaDot0), t, ctl, i)
    ensures forall i :: 0 <= i < |hist| ==>
              && -89.9 <= hist[i].theta <= 89.9 && -9.9 <= hist[i].thetaDot <= 9.9
              && hist[i].force == ctl(hist[i].theta, hist[i].thetaDot)
              && hist[i].time == (i as real) * Dt
  {
    var s0 := State(theta0, thetaDot0);
    var s := s0;
    hist := [];
    for k := 0 to Passes()
      invariant s == Run(s0, t, ctl, k)
      invariant hist == History(s0, t, ctl, k)
    {
      var c := Clamped(s);
      var f := ctl(c.theta, c.omega);
      hist := hist + [Entry(c.theta, c.omega, f, (k as real) * Dt)];
      s := Step(s, f, t);
    }
    forall i | 0 <= i < |hist| ensures hist[i] == Record(s0, t, ctl, i) {
      HistoryEntry(s0, t, ctl, |hist|, i);
    }
  }

  /** The script itself: θ = −45, θ' = 4 and controlador_pendulo.py's controller;
      every recorded force lies in [−30, 30]. */
  method Simulate(t: Trig) returns (hist: seq<Entry>)
    requires Bounded(t)
    ensures |hist| == Passes()
    ensures forall i :: 0 <= i < |hist| ==>
              && -89.9 <= hist[i].theta <= 89.9 && -9.9 <= hist[i].thetaDot <= 9.9
              && -30.0 <= hist[i].force <= 30.0
  {
    hist := SimulateWith(-45.0, 4.0, t, Control);
  }
}
