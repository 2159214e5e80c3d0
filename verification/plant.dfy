/** The cart-pole dynamics that every main program repeats: the angular
    acceleration θ̈ = num / den of the pole on a cart, and the two Euler updates
    the programs use. `np.sin` and `np.cos` are not modelled; they are given as
    functions, bounded by 1 where a proof needs it. */
module Plant {

  /** Gravity g, cart mass M, pole mass m and pole length l. */
  datatype Physics = Physics(g: real, cartMass: real, poleMass: real, length: real)

  predicate Physical(p: Physics)
  {
    p.cartMass > 0.0 && p.poleMass >= 0.0 && p.length > 0.0
  }

  /** `scipy.constants.g`, standard gravity. */
  const StandardGravity: real := 9.80665

  /** The sine and cosine a program evaluates. */
  datatype Trig = Trig(sin: real -> real, cos: real -> real)

  /** Sine and cosine stay in [−1, 1]. */
  ghost predicate Bounded(t: Trig)
  {
    forall x :: -1.0 <= t.sin(x) <= 1.0 && -1.0 <= t.cos(x) <= 1.0
  }

  /** Angle and angular velocity of the pole. */
  datatype State = State(theta: real, omega: real)

  /** `g·sin θ + cos θ·((−F − m·l·θ'²·sin θ)/(M + m))`. */
  function Numerator(p: Physics, sin: real, cos: real, force: real, omega: real): real
    requires p.cartMass + p.poleMass != 0.0
  {
    p.g * sin + cos * ((-force - p.poleMass * p.length * omega * omega * sin) / (p.cartMass + p.poleMass))
  }

  /** `l·(4/3 − m·cos²θ/(M + m))`. */
  function Denominator(p: Physics, cos: real): real
    requires p.cartMass + p.poleMass != 0.0
  {
    p.length * (4.0 / 3.0 - p.poleMass * cos * cos / (p.cartMass + p.poleMass))
  }

  /** For physical constants the denominator lies between l·(4/3 − m/(M + m))
      and l·4/3, and so above l/3: the pole's effective inertia never vanishes. */
  lemma DenominatorBounds(p: Physics, cos: real)
    requires Physical(p) && -1.0 <= cos <= 1.0
    ensures p.length * (4.0 / 3.0 - p.poleMass / (p.cartMass + p.poleMass)) <= Denominator(p, cos)
    ensures Denominator(p, cos) <= p.length * 4.0 / 3.0
    ensures p.length / 3.0 < Denominator(p, cos)
  {
    var total := p.cartMass + p.poleMass;
    var share := p.poleMass / total;
    if cos >= 0.0 {
      assert cos * cos <= cos * 1.0;
    } else {
      assert cos * cos <= -cos * 1.0;
    }
    assert share < 1.0 by {
      assert share * total == p.poleMass;
    }
    assert 0.0 <= share;
    assert p.poleMass * cos * cos / total == share * (cos * cos);
    var slack := share - share * (cos * cos);
    assert 0.0 <= share * (cos * cos) <= share;
    assert Denominator(p, cos) - p.length * (4.0 / 3.0 - share) == p.length * slack;
    assert 0.0 <= p.length * slack;
  }

  /** θ ← θ + ω·Δt + a·Δt²/2 with the pre-update ω, then ω ← ω + a·Δt. */
  function ExplicitStep(s: State, accel: real, dt: real): (r: State)
    ensures r.omega - s.omega == accel * dt
    ensures r.theta - s.theta == (s.omega + r.omega) / 2.0 * dt
  {
    State(s.theta + s.omega * dt + accel * dt * dt / 2.0, s.omega + accel * dt)
  }

  /** ω ← ω + a·Δt first, then θ ← θ + ω·Δt + a·Δt²/2 with the updated ω. */
  function SemiImplicitStep(s: State, accel: real, dt: real): (r: State)
    ensures r.omega == ExplicitStep(s, accel, dt).omega
    ensures r.theta == ExplicitStep(s, accel, dt).theta + accel * dt * dt
  {
    var omega := s.omega + accel * dt;
    State(s.theta + omega * dt + accel * dt * dt / 2.0, omega)
  }
}
