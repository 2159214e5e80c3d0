/** controlador_pendulo.py: every set is a triangle, θ is given in degrees and
    fuzzified as it comes (no wrap), and the force axis is 1000 points on
    [−30, 30]. The sets, the rules and the controller are built at module level. */
module TriangleFuzzy {
  import opened Reals
  import opened Labels
  import opened Shapes
  import opened Mamdani

  /** `FuzzySet.membership`. */
  function Membership(t: Triangle, x: real): (r: real)
    ensures 0.0 <= r <= 1.0
    ensures r > 0.0 <==> t.a < x < t.c
  {
    TriangleDegree(t.a, t.b, t.c, x)
  }

  /** The outer sets are triangles with a repeated breakpoint, (a, a, c) or (a, c, c):
      they are 0 at the repeated point itself and never reach full membership, so
      an input at or beyond ±90 belongs to no θ set at all. */
  lemma DegenerateShoulder(a: real, c: real, x: real)
    requires a < c
    ensures Membership(Triangle(a, a, c), x) < 1.0 && Membership(Triangle(a, c, c), x) < 1.0
    ensures Membership(Triangle(a, a, c), a) == 0.0 && Membership(Triangle(a, c, c), c) == 0.0
    ensures a < x < c ==> Membership(Triangle(a, a, c), x) == (c - x) / (c - a)
    ensures a < x < c ==> Membership(Triangle(a, c, c), x) == (x - a) / (c - a)
  {
  }

  /** `np.linspace(-30, 30, 1000)`, the keys of `output_memberships`. */
  function ForceGrid(): (g: seq<real>)
    ensures |g| == 1000 && forall j :: 0 <= j < 1000 ==> -30.0 <= g[j] <= 30.0
  {
    Linspace(-30.0, 30.0, 1000)
  }

  /** `infer` on any controller built from triangles: the inputs are recorded and
      fuzzified unchanged, every aggregated degree lies in [0, 1] and the
      centroid lies on the force axis [−30, 30]. */
  function InferWith(c: Controller<Triangle>, theta: real, thetaDot: real): (r: Option<Snapshot>)
    ensures r.Some? <==> WellFormed(c)
    ensures r.Some? ==> r.value == Infer(c, Membership, ForceGrid(), theta, thetaDot).value
    ensures r.Some? ==> r.value.inputs == (theta, thetaDot)
    ensures r.Some? ==> |r.value.outputs| == 1000
                        && forall j :: 0 <= j < 1000 ==> 0.0 <= r.value.outputs[j] <= 1.0
    ensures r.Some? ==> -30.0 <= r.value.centroid <= 30.0
  {
    OutputsWithin(c, theta, thetaDot);
    Infer(c, Membership, ForceGrid(), theta, thetaDot)
  }

  /** With triangle memberships every aggregated degree is at most 1 and the
      centroid stays on the force axis. */
  lemma OutputsWithin(c: Controller<Triangle>, theta: real, thetaDot: real)
    ensures var r := Infer(c, Membership, ForceGrid(), theta, thetaDot);
            r.Some? ==> (forall j :: 0 <= j < 1000 ==> r.value.outputs[j] <= 1.0)
                        && -30.0 <= r.value.centroid <= 30.0
  {
    var r := Infer(c, Membership, ForceGrid(), theta, thetaDot);
    if r.Some? {
      CentroidWithin(ForceGrid(), r.value.outputs, -30.0, 30.0);
      forall j | 0 <= j < 1000 ensures r.value.outputs[j] <= 1.0 {
        assert IsMaxMin(c, Membership, theta, thetaDot, ForceGrid()[j], r.value.outputs[j]);
      }
    }
  }

  /** `theta_sets`, in degrees. */
  const ThetaSets: seq<(Label, Triangle)> := [
    (NG, Triangle(-90.0, -90.0, -60.0)),
    (NP, Triangle(-70.0, -45.0, -20.0)),
    (Z, Triangle(-30.0, 0.0, 30.0)),
    (PP, Triangle(20.0, 45.0, 70.0)),
    (PG, Triangle(60.0, 90.0, 90.0))
  ]

  /** `theta_dot_sets`. */
  const ThetaDotSets: seq<(Label, Triangle)> := [
    (NG, Triangle(-10.0, -10.0, -6.0)),
    (NP, Triangle(-8.0, -5.0, -2.0)),
    (Z, Triangle(-3.0, 0.0, 3.0)),
    (PP, Triangle(2.0, 5.0, 8.0)),
    (PG, Triangle(6.0, 10.0, 10.0))
  ]

  /** `force_sets`. */
  const ForceSets: seq<(Label, Triangle)> := [
    (NG, Triangle(-30.0, -30.0, -20.0)),
    (NP, Triangle(-25.0, -15.0, -5.0)),
    (Z, Triangle(-10.0, 0.0, 10.0)),
    (PP, Triangle(5.0, 15.0, 25.0)),
    (PG, Triangle(20.0, 30.0, 30.0))
  ]

  /** `rules_data`, one source line per θ' label; prueba.py lists the same table. */
  const Rules: seq<Rule> := [
    Rule(NG, NG, NG), Rule(NP, NG, NP), Rule(Z, NG, NP), Rule(PP, NG, NP), Rule(PG, NG, Z),
    Rule(NG, NP, NG), Rule(NP, NP, NP), Rule(Z, NP, NP), Rule(PP, NP, Z), Rule(PG, NP, PP),
    Rule(NG, Z, NG), Rule(NP, Z, NP), Rule(Z, Z, Z), Rule(PP, Z, PP), Rule(PG, Z, PG),
    Rule(NG, PP, NP), Rule(NP, PP, Z), Rule(Z, PP, PP), Rule(PP, PP, PP), Rule(PG, PP, PG),
    Rule(NG, PG, Z), Rule(NP, PG, PP), Rule(Z, PG, PP), Rule(PP, PG, PP), Rule(PG, PG, PG)
  ]

  /** `controller`, built from the three variables and the rules. */
  function Config(): Controller<Triangle>
  {
    Controller(VariableOf(ThetaSets), VariableOf(ThetaDotSets), VariableOf(ForceSets), Rules)
  }

  /** The rule table lists 25 rules, one for each (θ, θ') label pair. */
  lemma RulesCoverEachPairOnce()
    ensures |Rules| == 25 && CoversEachPairOnce(Rules)
  {
    forall k | 0 <= k < 25 ensures PairIndex(Rules[k]) == Transposed(k) {
      TablePosition(k);
    }
    ListedByThetaDotCovers(Rules);
  }

  /** The θ variable holds one set per label, the one listed for it. */
  lemma ThetaVariable()
    ensures VariableOf(ThetaSets) == map[NG := Triangle(-90.0, -90.0, -60.0), NP := Triangle(-70.0, -45.0, -20.0),
      Z := Triangle(-30.0, 0.0, 30.0), PP := Triangle(20.0, 45.0, 70.0), PG := Triangle(60.0, 90.0, 90.0)]
  {
    VariableOfFive(Triangle(-90.0, -90.0, -60.0), Triangle(-70.0, -45.0, -20.0), Triangle(-30.0, 0.0, 30.0),
                   Triangle(20.0, 45.0, 70.0), Triangle(60.0, 90.0, 90.0));
  }

  /** The θ' variable holds one set per label, the one listed for it. */
  lemma ThetaDotVariable()
    ensures VariableOf(ThetaDotSets) == map[NG := Triangle(-10.0, -10.0, -6.0), NP := Triangle(-8.0, -5.0, -2.0),
      Z := Triangle(-3.0, 0.0, 3.0), PP := Triangle(2.0, 5.0, 8.0), PG := Triangle(6.0, 10.0, 10.0)]
  {
    VariableOfFive(Triangle(-10.0, -10.0, -6.0), Triangle(-8.0, -5.0, -2.0), Triangle(-3.0, 0.0, 3.0),
                   Triangle(2.0, 5.0, 8.0), Triangle(6.0, 10.0, 10.0));
  }

  /** The force variable holds one set per label, the one listed for it. */
  lemma ForceVariable()
    ensures VariableOf(ForceSets) == map[NG := Triangle(-30.0, -30.0, -20.0), NP := Triangle(-25.0, -15.0, -5.0),
      Z := Triangle(-10.0, 0.0, 10.0), PP := Triangle(5.0, 15.0, 25.0), PG := Triangle(20.0, 30.0, 30.0)]
  {
    VariableOfFive(Triangle(-30.0, -30.0, -20.0), Triangle(-25.0, -15.0, -5.0), Triangle(-10.0, 0.0, 10.0),
                   Triangle(5.0, 15.0, 25.0), Triangle(20.0, 30.0, 30.0));
  }

  /** Every label the rules use is defined in every variable. */
  lemma ConfigWellFormed()
    ensures forall l: Label :: l in Config().theta && l in Config().thetaDot && l in Config().force
    ensures WellFormed(Config())
  {
    ThetaVariable();
    ThetaDotVariable();
    ForceVariable();
    forall l: Label ensures l in Config().theta && l in Config().thetaDot && l in Config().force {
      LabelCases(l);
    }
  }

  /** The force `controller.infer(θ, θ')` returns. */
  function ControllerOutput(theta: real, thetaDot: real): (f: real)
    ensures -30.0 <= f <= 30.0
  {
    ConfigWellFormed();
    InferWith(Config(), theta, thetaDot).value.centroid
  }

  /** At θ = θ' = 0 only the Z sets of θ and θ' have a non-zero degree. */
  lemma OnlyZeroMatchesRest(l: Label)
    ensures l in Config().theta && Membership(Config().theta[l], 0.0) == if l == Z then 1.0 else 0.0
    ensures l in Config().thetaDot && Membership(Config().thetaDot[l], 0.0) == if l == Z then 1.0 else 0.0
  {
    ThetaVariable();
    ThetaDotVariable();
    LabelCases(l);
  }

  /** At θ = θ' = 0 a rule with a non-Z antecedent has strength 0. */
  lemma OffCentreRuleSilentAtRest(r: Rule)
    requires r.ante1 != Z || r.ante2 != Z
    ensures r.ante1 in Config().theta && r.ante2 in Config().thetaDot
    ensures Strength(Config(), Membership, 0.0, 0.0, r) == 0.0
  {
    OnlyZeroMatchesRest(r.ante1);
    OnlyZeroMatchesRest(r.ante2);
  }

  /** At θ = θ' = 0 every rule but Z/Z → Z, position 12 of the table, has strength 0. */
  lemma OnlyCentreRuleFiresAtRest()
    ensures WellFormed(Config())
    ensures forall i :: 0 <= i < 25 && i != 12 ==> Strength(Config(), Membership, 0.0, 0.0, Rules[i]) == 0.0
  {
    ConfigWellFormed();
    forall i | 0 <= i < 25 && i != 12 ensures Strength(Config(), Membership, 0.0, 0.0, Rules[i]) == 0.0 {
      TablePosition(i);
      OffCentreRuleSilentAtRest(Rules[i]);
    }
  }

  /** The Z force triangle takes equal degrees at mirrored points of the force axis. */
  lemma ForceTriangleEven()
    ensures Antisymmetric(ForceGrid())
    ensures forall j :: 0 <= j < 1000 ==>
              Membership(Triangle(-10.0, 0.0, 10.0), ForceGrid()[1000 - 1 - j]) == Membership(Triangle(-10.0, 0.0, 10.0), ForceGrid()[j])
  {
    LinspaceMirrored(30.0, 1000);
    forall j | 0 <= j < 1000
      ensures Membership(Triangle(-10.0, 0.0, 10.0), ForceGrid()[1000 - 1 - j]) == Membership(Triangle(-10.0, 0.0, 10.0), ForceGrid()[j])
    {
      CentredTriangleIsEven(10.0, ForceGrid()[j]);
    }
  }

  /** At the upright rest state only the rule Z/Z → Z fires, so the force is 0. */
  lemma OutputAtRest(theta: real, thetaDot: real)
    requires theta == 0.0 && thetaDot == 0.0
    ensures ControllerOutput(theta, thetaDot) == 0.0
  {
    OnlyCentreRuleFiresAtRest();
    ForceVariable();
    ForceTriangleEven();
    LoneSymmetricRuleGivesZero(Config(), Membership, ForceGrid(), theta, thetaDot, 12);
  }

  /** At or beyond ±90° no θ set matches, so no rule fires and the force is 0:
      past horizontal the controller stops pushing. */
  lemma NoForceBeyondHorizontal(theta: real, thetaDot: real)
    requires theta <= -90.0 || theta >= 90.0
    ensures ControllerOutput(theta, thetaDot) == 0.0
  {
    ConfigWellFormed();
    ThetaVariable();
    forall i | 0 <= i < |Rules| ensures Strength(Config(), Membership, theta, thetaDot, Rules[i]) == 0.0 {
      LabelCases(Rules[i].ante1);
    }
    SilentRulesGiveZero(Config(), Membership, ForceGrid(), theta, thetaDot);
  }
}
