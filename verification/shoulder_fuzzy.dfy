/** controlador_pendulo_FINAL.py: 4-point sets are half trapezoids whose side is
    chosen by the sign of b, `infer` wraps θ once into [−π, π] before
    fuzzifying, and the force axis is 1000 points on [−30, 30]. */
module ShoulderFuzzy {
  import opened Reals
  import opened Labels
  import opened Angles
  import opened Shapes
  import opened Mamdani

  /** `FuzzySet.membership`: 3-point sets are triangles; a 4-point set with b < 0
      is a left shoulder (flat on [a, b], falling on (c, d)), one with b > 0 a
      right shoulder (rising on (a, b), flat on [c, d]), and one with b = 0 is
      empty. Anything no branch covers falls through to the final `return 0`. */
  function Membership(s: Shape, x: real): (r: real)
    ensures 0.0 <= r <= 1.0
  {
    match s
    case Tri(a, b, c) => TriangleDegree(a, b, c, x)
    case Quad(a, b, c, d) =>
      if b < 0.0 then
        if x >= d then 0.0
        else if a <= x <= b then 1.0
        else if c < x < d then FractionBounds(d - x, d - c); (d - x) / (d - c)
        else 0.0
      else if b > 0.0 then
        if x <= a then 0.0
        else if a < x < b then FractionBounds(x - a, b - a); (x - a) / (b - a)
        else if c <= x <= d then 1.0
        else 0.0
      else 0.0
  }

  /** Left shoulder: full membership exactly on [a, b], a falling edge on (c, d),
      and nothing below a (by the fall-through), on (b, c] or from d on. */
  lemma LeftShoulder(a: real, b: real, c: real, d: real, x: real)
    requires a <= b < 0.0 && b <= c < d
    ensures Membership(Quad(a, b, c, d), x) == 1.0 <==> a <= x <= b
    ensures Membership(Quad(a, b, c, d), x) > 0.0 <==> a <= x <= b || c < x < d
    ensures c < x < d ==> Membership(Quad(a, b, c, d), x) == (d - x) / (d - c)
  {
    if c < x < d {
      FractionBounds(d - x, d - c);
    }
  }

  /** Right shoulder: nothing up to a, a rising edge on (a, b), full membership
      exactly on [c, d], nothing on [b, c) or beyond d. */
  lemma RightShoulder(a: real, b: real, c: real, d: real, x: real)
    requires 0.0 < b && a < b <= c <= d
    ensures Membership(Quad(a, b, c, d), x) == 1.0 <==> c <= x <= d
    ensures Membership(Quad(a, b, c, d), x) > 0.0 <==> a < x < b || c <= x <= d
    ensures a < x < b ==> Membership(Quad(a, b, c, d), x) == (x - a) / (b - a)
  {
    if a < x < b {
      FractionBounds(x - a, b - a);
    }
  }

  /** A 4-point set whose second breakpoint is 0 matches no input at all. */
  lemma CentredQuadIsEmpty(a: real, c: real, d: real, x: real)
    ensures Membership(Quad(a, 0.0, c, d), x) == 0.0
  {
  }

  /** `np.linspace(-30, 30, 1000)`, the keys of `output_memberships`. */
  function ForceGrid(): (g: seq<real>)
    ensures |g| == 1000 && forall j :: 0 <= j < 1000 ==> -30.0 <= g[j] <= 30.0
  {
    Linspace(-30.0, 30.0, 1000)
  }

  /** `infer` of this file on any controller built from its sets: θ is wrapped once,
      the wrapped value is what `last_inputs` records and what gets fuzzified,
      every aggregated degree lies in [0, 1], and the returned centroid, which is
      also `last_centroid`, lies on the force axis [−30, 30]. */
  function InferWith(c: Controller<Shape>, theta: real, thetaDot: real): (r: Option<Snapshot>)
    ensures r.Some? <==> WellFormed(c)
    ensures r.Some? ==> r.value == Infer(c, Membership, ForceGrid(), Wrap(theta), thetaDot).value
    ensures r.Some? ==> r.value.inputs == (Wrap(theta), thetaDot)
    ensures r.Some? && -3.0 * PI <= theta <= 3.0 * PI ==> -PI <= r.value.inputs.0 <= PI
    ensures r.Some? ==> |r.value.outputs| == 1000
                        && forall j :: 0 <= j < 1000 ==> 0.0 <= r.value.outputs[j] <= 1.0
    ensures r.Some? ==> -30.0 <= r.value.centroid <= 30.0
  {
    OutputsWithin(c, Wrap(theta), thetaDot);
    Infer(c, Membership, ForceGrid(), Wrap(theta), thetaDot)
  }

  /** With these membership functions every aggregated degree is at most 1 and the
      centroid stays on the force axis. */
  lemma OutputsWithin(c: Controller<Shape>, theta: real, thetaDot: real)
    ensures var r := Infer(c, Membership, ForceGrid(), theta, thetaDot);
            r.Some? ==> (forall j :: 0 <= j < 1000 ==> r.value.outputs[j] <= 1.0)
                        && -30.0 <= r.value.centroid <= 30.0
  {
    var r := Infer(c, Membership, ForceGrid(), theta, thetaDot);
    if r.Some? {
      CentroidWithin(ForceGrid(), r.value.outputs, -30.0, 30.0);
      forall j | 0 <= j < 1000 ensures r.value.outputs[j] <= 1.0 {
        assert IsMaxMin(c, Membership, theta, thetaDot, ForceGrid()[j], r.value.outputs[j]);
      }
    }
  }

  /** `theta_sets` of `crear_controlador`. */
  const ThetaSets: seq<(Label, Shape)> := [
    (NG, Quad(-PI, -2.5, -2.5, -1.5)),
    (NP, Tri(-2.0, -1.0, 0.0)),
    (Z, Tri(-0.5, 0.0, 0.5)),
    (PP, Tri(0.0, 1.0, 2.0)),
    (PG, Quad(1.5, 2.5, 2.5, PI))
  ]

  /** `theta_dot_sets` of `crear_controlador`. */
  const ThetaDotSets: seq<(Label, Shape)> := [
    (NG, Quad(-10.0, -7.5, -7.5, -5.0)),
    (NP, Tri(-7.0, -4.0, -1.0)),
    (Z, Tri(-2.0, 0.0, 2.0)),
    (PP, Tri(1.0, 4.0, 7.0)),
    (PG, Quad(5.0, 7.5, 7.5, 10.0))
  ]

  /** `force_sets` of `crear_controlador`. */
  const ForceSets: seq<(Label, Shape)> := [
    (NG, Quad(-30.0, -28.0, -28.0, -20.0)),
    (NP, Tri(-25.0, -15.0, -5.0)),
    (Z, Tri(-10.0, 0.0, 10.0)),
    (PP, Tri(5.0, 15.0, 25.0)),
    (PG, Quad(20.0, 28.0, 28.0, 30.0))
  ]

  /** `rules_data` of `crear_controlador`, one source line per θ' label. */
  const Rules: seq<Rule> := [
    Rule(NG, NG, NG), Rule(NP, NG, NG), Rule(Z, NG, NP), Rule(PP, NG, NP), Rule(PG, NG, Z),
    Rule(NG, NP, NG), Rule(NP, NP, NP), Rule(Z, NP, NP), Rule(PP, NP, Z), Rule(PG, NP, PP),
    Rule(NG, Z, NG), Rule(NP, Z, NP), Rule(Z, Z, Z), Rule(PP, Z, PP), Rule(PG, Z, PG),
    Rule(NG, PP, NP), Rule(NP, PP, Z), Rule(Z, PP, PP), Rule(PP, PP, PP), Rule(PG, PP, PG),
    Rule(NG, PG, Z), Rule(NP, PG, PP), Rule(Z, PG, PG), Rule(PP, PG, PG), Rule(PG, PG, PG)
  ]

  /** The controller `crear_controlador` returns. */
  function Config(): Controller<Shape>
  {
    Controller(VariableOf(ThetaSets), VariableOf(ThetaDotSets), VariableOf(ForceSets), Rules)
  }

  /** The rule table lists 25 rules, one for each (θ, θ') label pair. */
  lemma RulesCoverEachPairOnce()
    ensures |Rules| == 25 && CoversEachPairOnce(Rules)
  {
    forall k | 0 <= k < 25 ensures PairIndex(Rules[k]) == Transposed(k) {
      TablePosition(k);
    }
    ListedByThetaDotCovers(Rules);
  }

  /** The θ variable holds one set per label, the one listed for it. */
  lemma ThetaVariable()
    ensures VariableOf(ThetaSets) == map[NG := Quad(-PI, -2.5, -2.5, -1.5), NP := Tri(-2.0, -1.0, 0.0),
      Z := Tri(-0.5, 0.0, 0.5), PP := Tri(0.0, 1.0, 2.0), PG := Quad(1.5, 2.5, 2.5, PI)]
  {
    VariableOfFive(Quad(-PI, -2.5, -2.5, -1.5), Tri(-2.0, -1.0, 0.0), Tri(-0.5, 0.0, 0.5), Tri(0.0, 1.0, 2.0), Quad(1.5, 2.5, 2.5, PI));
  }

  /** The θ' variable holds one set per label, the one listed for it. */
  lemma ThetaDotVariable()
    ensures VariableOf(ThetaDotSets) == map[NG := Quad(-10.0, -7.5, -7.5, -5.0), NP := Tri(-7.0, -4.0, -1.0),
      Z := Tri(-2.0, 0.0, 2.0), PP := Tri(1.0, 4.0, 7.0), PG := Quad(5.0, 7.5, 7.5, 10.0)]
  {
    VariableOfFive(Quad(-10.0, -7.5, -7.5, -5.0), Tri(-7.0, -4.0, -1.0), Tri(-2.0, 0.0, 2.0), Tri(1.0, 4.0, 7.0), Quad(5.0, 7.5, 7.5, 10.0));
  }

  /** The force variable holds one set per label, the one listed for it. */
  lemma ForceVariable()
    ensures VariableOf(ForceSets) == map[NG := Quad(-30.0, -28.0, -28.0, -20.0), NP := Tri(-25.0, -15.0, -5.0),
      Z := Tri(-10.0, 0.0, 10.0), PP := Tri(5.0, 15.0, 25.0), PG := Quad(20.0, 28.0, 28.0, 30.0)]
  {
    VariableOfFive(Quad(-30.0, -28.0, -28.0, -20.0), Tri(-25.0, -15.0, -5.0), Tri(-10.0, 0.0, 10.0), Tri(5.0, 15.0, 25.0), Quad(20.0, 28.0, 28.0, 30.0));
  }

  /** Every label the rules use is defined in every variable. */
  lemma ConfigWellFormed()
    ensures forall l: Label :: l in Config().theta && l in Config().thetaDot && l in Config().force
    ensures WellFormed(Config())
  {
    ThetaVariable();
    ThetaDotVariable();
    ForceVariable();
    forall l: Label ensures l in Config().theta && l in Config().thetaDot && l in Config().force {
      LabelCases(l);
    }
  }

  /** The force `crear_controlador()`'s controller returns for (θ, θ'). */
  function ControllerOutput(theta: real, thetaDot: real): (f: real)
    ensures -30.0 <= f <= 30.0
  {
    ConfigWellFormed();
    InferWith(Config(), theta, thetaDot).value.centroid
  }

  /** At θ = θ' = 0 only the Z sets of θ and θ' have a non-zero degree. */
  lemma OnlyZeroMatchesRest(l: Label)
    ensures l in Config().theta && Membership(Config().theta[l], 0.0) == if l == Z then 1.0 else 0.0
    ensures l in Config().thetaDot && Membership(Config().thetaDot[l], 0.0) == if l == Z then 1.0 else 0.0
  {
    ThetaVariable();
    ThetaDotVariable();
    LabelCases(l);
  }

  /** At θ = θ' = 0 a rule with a non-Z antecedent has strength 0. */
  lemma OffCentreRuleSilentAtRest(r: Rule)
    requires r.ante1 != Z || r.ante2 != Z
    ensures r.ante1 in Config().theta && r.ante2 in Config().thetaDot
    ensures Strength(Config(), Membership, 0.0, 0.0, r) == 0.0
  {
    OnlyZeroMatchesRest(r.ante1);
    OnlyZeroMatchesRest(r.ante2);
  }

  /** At θ = θ' = 0 every rule but Z/Z → Z, position 12 of the table, has strength 0. */
  lemma OnlyCentreRuleFiresAtRest()
    ensures WellFormed(Config())
    ensures forall i :: 0 <= i < 25 && i != 12 ==> Strength(Config(), Membership, 0.0, 0.0, Rules[i]) == 0.0
  {
    ConfigWellFormed();
    forall i | 0 <= i < 25 && i != 12 ensures Strength(Config(), Membership, 0.0, 0.0, Rules[i]) == 0.0 {
      TablePosition(i);
      OffCentreRuleSilentAtRest(Rules[i]);
    }
  }

  /** The Z force triangle takes equal degrees at mirrored points of the force axis. */
  lemma ForceTriangleEven()
    ensures Antisymmetric(ForceGrid())
    ensures forall j :: 0 <= j < 1000 ==>
              Membership(Tri(-10.0, 0.0, 10.0), ForceGrid()[1000 - 1 - j]) == Membership(Tri(-10.0, 0.0, 10.0), ForceGrid()[j])
  {
    LinspaceMirrored(30.0, 1000);
    forall j | 0 <= j < 1000
      ensures Membership(Tri(-10.0, 0.0, 10.0), ForceGrid()[1000 - 1 - j]) == Membership(Tri(-10.0, 0.0, 10.0), ForceGrid()[j])
    {
      CentredTriangleIsEven(10.0, ForceGrid()[j]);
    }
  }

  /** At the upright rest state only the rule Z/Z → Z fires, so the force is 0. */
  lemma OutputAtRest(theta: real, thetaDot: real)
    requires theta == 0.0 && thetaDot == 0.0
    ensures ControllerOutput(theta, thetaDot) == 0.0
  {
    OnlyCentreRuleFiresAtRest();
    ForceVariable();
    ForceTriangleEven();
    LoneSymmetricRuleGivesZero(Config(), Membership, ForceGrid(), Wrap(theta), thetaDot, 12);
  }

  /** Beyond ±10 rad/s no θ' set matches (the outer shoulders end at ±10), so no
      rule fires and the force is 0 whatever θ is. */
  lemma NoForceBeyondRateLimits(theta: real, thetaDot: real)
    requires thetaDot < -10.0 || thetaDot > 10.0
    ensures ControllerOutput(theta, thetaDot) == 0.0
  {
    ConfigWellFormed();
    ThetaDotVariable();
    forall i | 0 <= i < |Rules| ensures Strength(Config(), Membership, Wrap(theta), thetaDot, Rules[i]) == 0.0 {
      LabelCases(Rules[i].ante2);
    }
    SilentRulesGiveZero(Config(), Membership, ForceGrid(), Wrap(theta), thetaDot);
  }
}
