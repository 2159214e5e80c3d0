/** prueba.py: 4-point sets are full trapezoids, θ is given in degrees and
    fuzzified as it comes (no wrap), the outer sets repeat a breakpoint so that
    their outer edge is vertical, and the force axis is 1000 points on [−31, 31]. */
module TrapezoidFuzzy {
  import opened Reals
  import opened Labels
  import opened Shapes
  import opened Mamdani
  import TriangleFuzzy

  /** A trapezoid with ordered breakpoints is positive exactly inside (a, d), full
      exactly on [b, c] within that, and linear on its two edges. */
  lemma TrapezoidProfile(a: real, b: real, c: real, d: real, x: real)
    requires a <= b <= c <= d
    ensures Degree(Quad(a, b, c, d), x) > 0.0 <==> a < x < d
    ensures Degree(Quad(a, b, c, d), x) == 1.0 <==> a < x < d && b <= x <= c
    ensures a < x < b ==> Degree(Quad(a, b, c, d), x) == (x - a) / (b - a)
    ensures c < x < d ==> Degree(Quad(a, b, c, d), x) == (d - x) / (d - c)
  {
    if a < x < b {
      FractionBounds(x - a, b - a);
    } else if c < x < d {
      FractionBounds(d - x, d - c);
    }
  }

  /** A repeated first breakpoint makes a vertical left edge: the degree is 0 at a
      itself and 1 at every point just above it, up to c. */
  lemma VerticalLeftEdge(a: real, c: real, d: real, x: real)
    requires a < c < d
    ensures Degree(Quad(a, a, c, d), a) == 0.0
    ensures a < x <= c ==> Degree(Quad(a, a, c, d), x) == 1.0
  {
  }

  /** A repeated last breakpoint makes a vertical right edge: the degree is 1 from b
      up to just below d and 0 at d itself. */
  lemma VerticalRightEdge(a: real, b: real, d: real, x: real)
    requires a < b < d
    ensures Degree(Quad(a, b, d, d), d) == 0.0
    ensures b <= x < d ==> Degree(Quad(a, b, d, d), x) == 1.0
  {
  }

  /** `np.linspace(-31, 31, 1000)`, the keys of `output_memberships`. */
  function ForceGrid(): (g: seq<real>)
    ensures |g| == 1000 && forall j :: 0 <= j < 1000 ==> -31.0 <= g[j] <= 31.0
  {
    Linspace(-31.0, 31.0, 1000)
  }

  /** `infer` on any controller built from these sets: the inputs are recorded and
      fuzzified unchanged, every aggregated degree lies in [0, 1] and the
      centroid lies on the force axis [−31, 31]. */
  function InferWith(c: Controller<Shape>, theta: real, thetaDot: real): (r: Option<Snapshot>)
    ensures r.Some? <==> WellFormed(c)
    ensures r.Some? ==> r.value == Infer(c, Degree, ForceGrid(), theta, thetaDot).value
    ensures r.Some? ==> r.value.inputs == (theta, thetaDot)
    ensures r.Some? ==> |r.value.outputs| == 1000
                        && forall j :: 0 <= j < 1000 ==> 0.0 <= r.value.outputs[j] <= 1.0
    ensures r.Some? ==> -31.0 <= r.value.centroid <= 31.0
  {
    OutputsWithin(c, theta, thetaDot);
    Infer(c, Degree, ForceGrid(), theta, thetaDot)
  }

  /** With these memberships every aggregated degree is at most 1 and the centroid
      stays on the force axis. */
  lemma OutputsWithin(c: Controller<Shape>, theta: real, thetaDot: real)
    ensures var r := Infer(c, Degree, ForceGrid(), theta, thetaDot);
            r.Some? ==> (forall j :: 0 <= j < 1000 ==> r.value.outputs[j] <= 1.0)
                        && -31.0 <= r.value.centroid <= 31.0
  {
    var r := Infer(c, Degree, ForceGrid(), theta, thetaDot);
    if r.Some? {
      CentroidWithin(ForceGrid(), r.value.outputs, -31.0, 31.0);
      forall j | 0 <= j < 1000 ensures r.value.outputs[j] <= 1.0 {
        assert IsMaxMin(c, Degree, theta, thetaDot, ForceGrid()[j], r.value.outputs[j]);
      }
    }
  }

  /** `theta_sets` of `crear_controlador`, in degrees. */
  const ThetaSets: seq<(Label, Shape)> := [
    (NG, Quad(-91.0, -91.0, -90.0, -45.0)),
    (NP, Tri(-90.0, -45.0, 0.0)),
    (Z, Tri(-45.0, 0.0, 45.0)),
    (PP, Tri(0.0, 45.0, 90.0)),
    (PG, Quad(45.0, 90.0, 91.0, 91.0))
  ]

  /** `theta_dot_sets` of `crear_controlador`. */
  const ThetaDotSets: seq<(Label, Shape)> := [
    (NG, Quad(-11.0, -11.0, -10.0, -5.0)),
    (NP, Tri(-10.0, -5.0, 0.0)),
    (Z, Tri(-5.0, 0.0, 5.0)),
    (PP, Tri(0.0, 5.0, 10.0)),
    (PG, Quad(5.0, 10.0, 11.0, 11.0))
  ]

  /** `force_sets` of `crear_controlador`. */
  const ForceSets: seq<(Label, Shape)> := [
    (NG, Quad(-31.0, -31.0, -30.0, -15.0)),
    (NP, Tri(-30.0, -15.0, 0.0)),
    (Z, Tri(-15.0, 0.0, 15.0)),
    (PP, Tri(0.0, 15.0, 30.0)),
    (PG, Quad(15.0, 30.0, 31.0, 31.0))
  ]

  /** The controller `crear_controlador` returns; its `rules_data` is the table of
      controlador_pendulo.py. */
  function Config(): Controller<Shape>
  {
    Controller(VariableOf(ThetaSets), VariableOf(ThetaDotSets), VariableOf(ForceSets), TriangleFuzzy.Rules)
  }

  /** The θ variable holds one set per label, the one listed for it. */
  lemma ThetaVariable()
    ensures VariableOf(ThetaSets) == map[NG := Quad(-91.0, -91.0, -90.0, -45.0), NP := Tri(-90.0, -45.0, 0.0),
      Z := Tri(-45.0, 0.0, 45.0), PP := Tri(0.0, 45.0, 90.0), PG := Quad(45.0, 90.0, 91.0, 91.0)]
  {
    VariableOfFive(Quad(-91.0, -91.0, -90.0, -45.0), Tri(-90.0, -45.0, 0.0), Tri(-45.0, 0.0, 45.0),
                   Tri(0.0, 45.0, 90.0), Quad(45.0, 90.0, 91.0, 91.0));
  }

  /** The θ' variable holds one set per label, the one listed for it. */
  lemma ThetaDotVariable()
    ensures VariableOf(ThetaDotSets) == map[NG := Quad(-11.0, -11.0, -10.0, -5.0), NP := Tri(-10.0, -5.0, 0.0),
      Z := Tri(-5.0, 0.0, 5.0), PP := Tri(0.0, 5.0, 10.0), PG := Quad(5.0, 10.0, 11.0, 11.0)]
  {
    VariableOfFive(Quad(-11.0, -11.0, -10.0, -5.0), Tri(-10.0, -5.0, 0.0), Tri(-5.0, 0.0, 5.0),
                   Tri(0.0, 5.0, 10.0), Quad(5.0, 10.0, 11.0, 11.0));
  }

  /** The force variable holds one set per label, the one listed for it. */
  lemma ForceVariable()
    ensures VariableOf(ForceSets) == map[NG := Quad(-31.0, -31.0, -30.0, -15.0), NP := Tri(-30.0, -15.0, 0.0),
      Z := Tri(-15.0, 0.0, 15.0), PP := Tri(0.0, 15.0, 30.0), PG := Quad(15.0, 30.0, 31.0, 31.0)]
  {
    VariableOfFive(Quad(-31.0, -31.0, -30.0, -15.0), Tri(-30.0, -15.0, 0.0), Tri(-15.0, 0.0, 15.0),
                   Tri(0.0, 15.0, 30.0), Quad(15.0, 30.0, 31.0, 31.0));
  }

  /** The rule table of `crear_controlador` lists 25 rules, one for each
      (θ, θ') label pair. */
  lemma RulesCoverEachPairOnce()
    ensures |Config().rules| == 25 && CoversEachPairOnce(Config().rules)
  {
    TriangleFuzzy.RulesCoverEachPairOnce();
  }

  /** Every label the rules use is defined in every variable. */
  lemma ConfigWellFormed()
    ensures forall l: Label :: l in Config().theta && l in Config().thetaDot && l in Config().force
    ensures WellFormed(Config())
  {
    ThetaVariable();
    ThetaDotVariable();
    ForceVariable();
    forall l: Label ensures l in Config().theta && l in Config().thetaDot && l in Config().force {
      LabelCases(l);
    }
  }

  /** The force `crear_controlador()`'s controller returns for (θ, θ'). */
  function ControllerOutput(theta: real, thetaDot: real): (f: real)
    ensures -31.0 <= f <= 31.0
  {
    ConfigWellFormed();
    InferWith(Config(), theta, thetaDot).value.centroid
  }

  /** At θ = θ' = 0 only the Z sets of θ and θ' have a non-zero degree. */
  lemma OnlyZeroMatchesRest(l: Label)
    ensures l in Config().theta && Degree(Config().theta[l], 0.0) == if l == Z then 1.0 else 0.0
    ensures l in Config().thetaDot && Degree(Config().thetaDot[l], 0.0) == if l == Z then 1.0 else 0.0
  {
    ThetaVariable();
    ThetaDotVariable();
    LabelCases(l);
  }

  /** At θ = θ' = 0 a rule with a non-Z antecedent has strength 0. */
  lemma OffCentreRuleSilentAtRest(r: Rule)
    requires r.ante1 != Z || r.ante2 != Z
    ensures r.ante1 in Config().theta && r.ante2 in Config().thetaDot
    ensures Strength(Config(), Degree, 0.0, 0.0, r) == 0.0
  {
    OnlyZeroMatchesRest(r.ante1);
    OnlyZeroMatchesRest(r.ante2);
  }

  /** At θ = θ' = 0 every rule but Z/Z → Z, position 12 of the table, has strength 0. */
  lemma OnlyCentreRuleFiresAtRest()
    ensures WellFormed(Config())
    ensures forall i :: 0 <= i < 25 && i != 12 ==>
              Strength(Config(), Degree, 0.0, 0.0, TriangleFuzzy.Rules[i]) == 0.0
  {
    ConfigWellFormed();
    forall i | 0 <= i < 25 && i != 12 ensures Strength(Config(), Degree, 0.0, 0.0, TriangleFuzzy.Rules[i]) == 0.0 {
      TablePosition(i);
      OffCentreRuleSilentAtRest(TriangleFuzzy.Rules[i]);
    }
  }

  /** The Z force triangle takes equal degrees at mirrored points of the force axis. */
  lemma ForceTriangleEven()
    ensures Antisymmetric(ForceGrid())
    ensures forall j :: 0 <= j < 1000 ==>
              Degree(Tri(-15.0, 0.0, 15.0), ForceGrid()[1000 - 1 - j]) == Degree(Tri(-15.0, 0.0, 15.0), ForceGrid()[j])
  {
    LinspaceMirrored(31.0, 1000);
    forall j | 0 <= j < 1000
      ensures Degree(Tri(-15.0, 0.0, 15.0), ForceGrid()[1000 - 1 - j]) == Degree(Tri(-15.0, 0.0, 15.0), ForceGrid()[j])
    {
      CentredTriangleIsEven(15.0, ForceGrid()[j]);
    }
  }

  /** At the upright rest state only the rule Z/Z → Z fires, so the force is 0. */
  lemma OutputAtRest(theta: real, thetaDot: real)
    requires theta == 0.0 && thetaDot == 0.0
    ensures ControllerOutput(theta, thetaDot) == 0.0
  {
    OnlyCentreRuleFiresAtRest();
    ForceVariable();
    ForceTriangleEven();
    LoneSymmetricRuleGivesZero(Config(), Degree, ForceGrid(), theta, thetaDot, 12);
  }

  /** At or beyond ±91° no θ set matches, so no rule fires and the force is 0. */
  lemma NoForceBeyondRange(theta: real, thetaDot: real)
    requires theta <= -91.0 || theta >= 91.0
    ensures ControllerOutput(theta, thetaDot) == 0.0
  {
    ConfigWellFormed();
    ThetaVariable();
    forall i | 0 <= i < |TriangleFuzzy.Rules|
      ensures Strength(Config(), Degree, theta, thetaDot, TriangleFuzzy.Rules[i]) == 0.0
    {
      LabelCases(TriangleFuzzy.Rules[i].ante1);
    }
    SilentRulesGiveZero(Config(), Degree, ForceGrid(), theta, thetaDot);
  }
}
