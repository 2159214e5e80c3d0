/** The Mamdani engine that the class-based controllers share: linguistic
    variables built from named sets, fuzzification, rule evaluation with `min`,
    max-of-min aggregation over a sampled force axis, and the discrete centroid
    with its zero-mass fallback. It is generic in the breakpoint type `S` and
    takes the variant's membership function `mu` and force grid as parameters. */
module Mamdani {
  import opened Reals
  import opened Labels

  /** No set after position i carries the same name as the set at i. */
  ghost predicate LastOfName<S>(sets: seq<(Label, S)>, i: int)
    requires 0 <= i < |sets|
  {
    forall j :: i < j < |sets| ==> sets[j].0 != sets[i].0
  }

  /** `FuzzyVariable(name, sets).sets`, the dictionary `{s.name: s for s in sets}`,
      built in list order so that a later set replaces an earlier one of the same name. */
  function VariableOf<S>(sets: seq<(Label, S)>): map<Label, S>
  {
    if |sets| == 0 then map[]
    else VariableOf(sets[..|sets| - 1])[sets[|sets| - 1].0 := sets[|sets| - 1].1]
  }

  /** The dictionary has one entry per distinct name, holding the last set listed under it. */
  lemma {:induction false} VariableOfLastWins<S>(sets: seq<(Label, S)>)
    ensures forall l :: l in VariableOf(sets) <==> exists i :: 0 <= i < |sets| && sets[i].0 == l
    ensures forall i :: 0 <= i < |sets| && LastOfName(sets, i) ==> VariableOf(sets)[sets[i].0] == sets[i].1
  {
    if |sets| > 0 {
      var prefix := sets[..|sets| - 1];
      VariableOfLastWins(prefix);
      assert forall i :: 0 <= i < |sets| - 1 ==> prefix[i] == sets[i];
    }
  }

  /** Five sets listed once each, in label order, give the dictionary with those five entries. */
  lemma VariableOfFive<S>(ng: S, np: S, z: S, pp: S, pg: S)
    ensures VariableOf([(NG, ng), (NP, np), (Z, z), (PP, pp), (PG, pg)])
            == map[NG := ng, NP := np, Z := z, PP := pp, PG := pg]
  {
    var s1, s2, s3, s4 := [(NG, ng)], [(NG, ng), (NP, np)], [(NG, ng), (NP, np), (Z, z)], [(NG, ng), (NP, np), (Z, z), (PP, pp)];
    var s5 := [(NG, ng), (NP, np), (Z, z), (PP, pp), (PG, pg)];
    assert s1[..0] == [] && s2[..1] == s1 && s3[..2] == s2 && s4[..3] == s3 && s5[..4] == s4;
    assert VariableOf(s1) == map[NG := ng];
    assert VariableOf(s2) == map[NG := ng, NP := np];
    assert VariableOf(s3) == map[NG := ng, NP := np, Z := z];
    assert VariableOf(s4) == map[NG := ng, NP := np, Z := z, PP := pp];
  }

  /** `FuzzyVariable.fuzzify`: the degree of x in every set of the variable, keyed by name. */
  function Fuzzify<S>(v: map<Label, S>, mu: (S, real) -> real, x: real): (d: map<Label, real>)
    ensures d.Keys == v.Keys
    ensures forall l :: l in v ==> d[l] == mu(v[l], x)
  {
    map l | l in v :: mu(v[l], x)
  }

  /** `FuzzyRule.evaluate`: the rule's firing strength, the smaller of its two
      antecedent degrees, paired with its consequent. A label missing from either
      dictionary is the `KeyError` the source raises. */
  function Evaluate(r: Rule, m1: map<Label, real>, m2: map<Label, real>): (e: Option<(real, Label)>)
    ensures e.Some? <==> r.ante1 in m1 && r.ante2 in m2
    ensures e.Some? ==> e.value.1 == r.cons
    ensures e.Some? ==> e.value.0 <= m1[r.ante1] && e.value.0 <= m2[r.ante2]
    ensures e.Some? ==> e.value.0 == m1[r.ante1] || e.value.0 == m2[r.ante2]
  {
    if r.ante1 in m1 && r.ante2 in m2 then Some((Min(m1[r.ante1], m2[r.ante2]), r.cons)) else None
  }

  /** A rule after evaluation: its firing strength and its consequent's set. */
  datatype Fired<S> = Fired(activation: real, shape: S)

  /** Every label of the rule names a set (or degree) of the matching variable. */
  predicate Resolves<S>(r: Rule, m1: map<Label, real>, m2: map<Label, real>, force: map<Label, S>)
  {
    r.ante1 in m1 && r.ante2 in m2 && r.cons in force
  }

  /** The rule loop of `infer` up to the membership computation: each rule is
      evaluated and its consequent looked up in the force variable, in order; the
      first label that is missing aborts the whole call. */
  function Fire<S>(rules: seq<Rule>, m1: map<Label, real>, m2: map<Label, real>, force: map<Label, S>)
    : (f: Option<seq<Fired<S>>>)
    ensures f.Some? <==> forall i :: 0 <= i < |rules| ==> Resolves(rules[i], m1, m2, force)
    ensures f.Some? ==> |f.value| == |rules|
    ensures f.Some? ==> forall i :: 0 <= i < |rules| ==>
              f.value[i].shape == force[rules[i].cons]
              && f.value[i].activation <= m1[rules[i].ante1]
              && f.value[i].activation <= m2[rules[i].ante2]
              && (f.value[i].activation == m1[rules[i].ante1] || f.value[i].activation == m2[rules[i].ante2])
  {
    if |rules| == 0 then Some([])
    else
      var last := rules[|rules| - 1];
      assert forall i :: 0 <= i < |rules| - 1 ==> rules[..|rules| - 1][i] == rules[i];
      match Fire(rules[..|rules| - 1], m1, m2, force)
      case None => None
      case Some(prefix) =>
        match Evaluate(last, m1, m2)
        case None => None
        case Some(e) =>
          if e.1 in force then Some(prefix + [Fired(e.0, force[e.1])]) else None
  }

  /** Mamdani implication: the consequent's degree at x, cut at the firing strength. */
  function Clipped<S>(f: Fired<S>, mu: (S, real) -> real, x: real): real
  {
    Min(f.activation, mu(f.shape, x))
  }

  /** The aggregated degree at one grid point: starting from 0, each rule in turn
      raises it to its clipped consequent with `max`. The result is the largest
      clipped value, or 0 when every clipped value is below 0. */
  function AggregateAt<S>(fired: seq<Fired<S>>, mu: (S, real) -> real, x: real): (d: real)
    ensures 0.0 <= d
    ensures forall i :: 0 <= i < |fired| ==> Clipped(fired[i], mu, x) <= d
    ensures d == 0.0 || exists i :: 0 <= i < |fired| && d == Clipped(fired[i], mu, x)
    ensures (forall i :: 0 <= i < |fired| ==> fired[i].activation <= 1.0) ==> d <= 1.0
  {
    if |fired| == 0 then 0.0
    else
      var prefix := fired[..|fired| - 1];
      assert forall i :: 0 <= i < |fired| - 1 ==> prefix[i] == fired[i];
      Max(AggregateAt(prefix, mu, x), Clipped(fired[|fired| - 1], mu, x))
  }

  /** `output_memberships`: the aggregated degree at every grid point. */
  function Aggregate<S>(fired: seq<Fired<S>>, mu: (S, real) -> real, grid: seq<real>): (out: seq<real>)
    ensures |out| == |grid|
    ensures forall j :: 0 <= j < |grid| ==> out[j] == AggregateAt(fired, mu, grid[j])
  {
    seq(|grid|, j requires 0 <= j < |grid| => AggregateAt(fired, mu, grid[j]))
  }

  /** Discrete centroid `Σ x·μ / Σ μ`, and 0 when the total mass `Σ μ` is 0. */
  function Centroid(grid: seq<real>, deg: seq<real>): (r: real)
    requires |grid| == |deg|
    ensures Sum(deg) == 0.0 ==> r == 0.0
    ensures Sum(deg) != 0.0 ==> r * Sum(deg) == WeightedSum(grid, deg)
  {
    if Sum(deg) != 0.0 then WeightedSum(grid, deg) / Sum(deg) else 0.0
  }

  /** With non-negative degrees, the centroid of a grid inside [lo, hi] stays in
      [lo, hi]; the zero-mass fallback does too, because 0 lies in [lo, hi]. */
  lemma CentroidWithin(grid: seq<real>, deg: seq<real>, lo: real, hi: real)
    requires |grid| == |deg|
    requires lo <= 0.0 <= hi
    requires forall j :: 0 <= j < |deg| ==> 0.0 <= deg[j]
    requires forall j :: 0 <= j < |grid| ==> lo <= grid[j] <= hi
    ensures lo <= Centroid(grid, deg) <= hi
  {
    SumOfNonnegative(deg);
    if Sum(deg) != 0.0 {
      WeightedSumBounds(grid, deg, lo, hi);
      QuotientBounds(WeightedSum(grid, deg), Sum(deg), lo, hi);
    }
  }

  lemma QuotientBounds(num: real, den: real, lo: real, hi: real)
    requires 0.0 < den
    requires lo * den <= num <= hi * den
    ensures lo <= num / den <= hi
  {
    var q := num / den;
    assert q * den == num;
  }

  /** A mirror-symmetric grid with mirror-symmetric degrees has its centroid at 0. */
  lemma CentroidOfSymmetric(grid: seq<real>, deg: seq<real>)
    requires |grid| == |deg|
    requires Antisymmetric(grid) && Palindromic(deg)
    ensures Centroid(grid, deg) == 0.0
  {
    WeightedSumMirrored(grid, deg);
  }

  /** `FuzzyController(theta_var, theta_dot_var, force_var, rules)`. */
  datatype Controller<S> = Controller(theta: map<Label, S>, thetaDot: map<Label, S>, force: map<Label, S>, rules: seq<Rule>)

  /** What `infer` leaves in `last_inputs`, `last_output_memberships` and
      `last_centroid`; the value `infer` returns is `centroid`. */
  datatype Snapshot = Snapshot(inputs: (real, real), outputs: seq<real>, centroid: real)

  /** Every label a rule names exists in the variable it refers to. */
  ghost predicate WellFormed<S>(c: Controller<S>)
  {
    forall i :: 0 <= i < |c.rules| ==>
      c.rules[i].ante1 in c.theta && c.rules[i].ante2 in c.thetaDot && c.rules[i].cons in c.force
  }

  /** Reference reading of a rule at grid point x, straight from the sets:
      min(μθ[a1](θ), μθ'[a2](θ'), μF[c](x)). */
  ghost function RuleOutput<S>(c: Controller<S>, mu: (S, real) -> real, theta: real, thetaDot: real, r: Rule, x: real): real
    requires r.ante1 in c.theta && r.ante2 in c.thetaDot && r.cons in c.force
  {
    Min(Strength(c, mu, theta, thetaDot, r), mu(c.force[r.cons], x))
  }

  /** A rule's firing strength: the smaller of its two antecedent degrees. */
  ghost function Strength<S>(c: Controller<S>, mu: (S, real) -> real, theta: real, thetaDot: real, r: Rule): real
    requires r.ante1 in c.theta && r.ante2 in c.thetaDot
  {
    Min(mu(c.theta[r.ante1], theta), mu(c.thetaDot[r.ante2], thetaDot))
  }

  /** d is max(0, max over rules of RuleOutput at x). */
  ghost predicate IsMaxMin<S>(c: Controller<S>, mu: (S, real) -> real, theta: real, thetaDot: real, x: real, d: real)
    requires WellFormed(c)
  {
    && 0.0 <= d
    && (forall i :: 0 <= i < |c.rules| ==> RuleOutput(c, mu, theta, thetaDot, c.rules[i], x) <= d)
    && (d == 0.0 || exists i :: 0 <= i < |c.rules| && d == RuleOutput(c, mu, theta, thetaDot, c.rules[i], x))
  }

  /** `FuzzyController.infer` on inputs already prepared by the variant (wrapped or
      not): the aggregated degree at each grid point is the max-of-min over all
      rules, and the result is its centroid. `None` is the `KeyError` of a rule
      naming a label its variable lacks. */
  function Infer<S>(c: Controller<S>, mu: (S, real) -> real, grid: seq<real>, theta: real, thetaDot: real)
    : (r: Option<Snapshot>)
    ensures r.Some? <==> WellFormed(c)
    ensures r.Some? ==> r.value.inputs == (theta, thetaDot) && |r.value.outputs| == |grid|
    ensures r.Some? ==> forall j :: 0 <= j < |grid| ==> IsMaxMin(c, mu, theta, thetaDot, grid[j], r.value.outputs[j])
    ensures r.Some? ==> r.value.centroid == Centroid(grid, r.value.outputs)
  {
    var m1 := Fuzzify(c.theta, mu, theta);
    var m2 := Fuzzify(c.thetaDot, mu, thetaDot);
    match Fire(c.rules, m1, m2, c.force)
    case None => None
    case Some(fired) =>
      var outputs := Aggregate(fired, mu, grid);
      assert forall i :: 0 <= i < |fired| ==> forall x ::
        Clipped(fired[i], mu, x) == RuleOutput(c, mu, theta, thetaDot, c.rules[i], x);
      Some(Snapshot((theta, thetaDot), outputs, Centroid(grid, outputs)))
  }

  /** Two rule lists with the same rules give the same max-of-min at every point. */
  lemma MaxMinUnique<S>(c: Controller<S>, rules': seq<Rule>, mu: (S, real) -> real,
                        theta: real, thetaDot: real, x: real, d: real, d': real)
    requires WellFormed(c)
    requires forall r :: r in rules' <==> r in c.rules
    requires WellFormed(c.(rules := rules'))
    requires IsMaxMin(c, mu, theta, thetaDot, x, d)
    requires IsMaxMin(c.(rules := rules'), mu, theta, thetaDot, x, d')
    ensures d == d'
  {
    var c' := c.(rules := rules');
    if d != 0.0 {
      var i :| 0 <= i < |c.rules| && d == RuleOutput(c, mu, theta, thetaDot, c.rules[i], x);
      assert c.rules[i] in rules';
      var i' :| 0 <= i' < |rules'| && rules'[i'] == c.rules[i];
      assert RuleOutput(c', mu, theta, thetaDot, c'.rules[i'], x) <= d';
    }
    if d' != 0.0 {
      var i' :| 0 <= i' < |rules'| && d' == RuleOutput(c', mu, theta, thetaDot, c'.rules[i'], x);
      assert rules'[i'] in c.rules;
      var i :| 0 <= i < |c.rules| && c.rules[i] == rules'[i'];
      assert RuleOutput(c, mu, theta, thetaDot, c.rules[i], x) <= d;
    }
  }

  /** Reordering the rule base does not change what `infer` returns or records. */
  lemma InferIgnoresRuleOrder<S>(c: Controller<S>, rules': seq<Rule>, mu: (S, real) -> real,
                                 grid: seq<real>, theta: real, thetaDot: real)
    requires multiset(rules') == multiset(c.rules)
    ensures Infer(c.(rules := rules'), mu, grid, theta, thetaDot) == Infer(c, mu, grid, theta, thetaDot)
  {
    var c' := c.(rules := rules');
    assert forall r :: r in rules' <==> r in c.rules by {
      forall r ensures r in rules' <==> r in c.rules {
        assert r in rules' <==> r in multiset(rules');
        assert r in c.rules <==> r in multiset(c.rules);
      }
    }
    assert WellFormed(c') <==> WellFormed(c) by {
      if WellFormed(c) {
        forall i | 0 <= i < |rules'| ensures rules'[i].ante1 in c.theta && rules'[i].ante2 in c.thetaDot && rules'[i].cons in c.force {
          assert rules'[i] in c.rules;
        }
      }
      if WellFormed(c') {
        forall i | 0 <= i < |c.rules| ensures c.rules[i].ante1 in c.theta && c.rules[i].ante2 in c.thetaDot && c.rules[i].cons in c.force {
          assert c.rules[i] in rules';
        }
      }
    }
    var r, r' := Infer(c, mu, grid, theta, thetaDot), Infer(c', mu, grid, theta, thetaDot);
    if r.Some? {
      forall j | 0 <= j < |grid| ensures r.value.outputs[j] == r'.value.outputs[j] {
        MaxMinUnique(c, rules', mu, theta, thetaDot, grid[j], r.value.outputs[j], r'.value.outputs[j]);
      }
      assert r.value.outputs == r'.value.outputs;
    }
  }

  /** When every rule but rule k has firing strength 0, the aggregated degree at
      each point is rule k's clipped consequent (or 0 where that is negative). */
  lemma OnlyRuleFires<S>(c: Controller<S>, mu: (S, real) -> real, grid: seq<real>,
                         theta: real, thetaDot: real, k: nat)
    requires WellFormed(c) && k < |c.rules|
    requires forall i :: 0 <= i < |c.rules| && i != k ==> Strength(c, mu, theta, thetaDot, c.rules[i]) == 0.0
    ensures forall j :: 0 <= j < |grid| ==>
              Infer(c, mu, grid, theta, thetaDot).value.outputs[j]
              == Max(0.0, RuleOutput(c, mu, theta, thetaDot, c.rules[k], grid[j]))
  {
    var r := Infer(c, mu, grid, theta, thetaDot).value;
    forall j | 0 <= j < |grid| ensures r.outputs[j] == Max(0.0, RuleOutput(c, mu, theta, thetaDot, c.rules[k], grid[j])) {
      assert IsMaxMin(c, mu, theta, thetaDot, grid[j], r.outputs[j]);
      if r.outputs[j] != 0.0 {
        var i :| 0 <= i < |c.rules| && r.outputs[j] == RuleOutput(c, mu, theta, thetaDot, c.rules[i], grid[j]);
        assert i == k;
      }
    }
  }

  /** When only rule k fires and its consequent set takes equal degrees at mirrored
      points of a grid that is symmetric about 0, the crisp output is 0. */
  lemma LoneSymmetricRuleGivesZero<S>(c: Controller<S>, mu: (S, real) -> real, grid: seq<real>,
                                      theta: real, thetaDot: real, k: nat)
    requires WellFormed(c) && k < |c.rules|
    requires forall i :: 0 <= i < |c.rules| && i != k ==> Strength(c, mu, theta, thetaDot, c.rules[i]) == 0.0
    requires Antisymmetric(grid)
    requires forall j :: 0 <= j < |grid| ==>
               mu(c.force[c.rules[k].cons], grid[|grid| - 1 - j]) == mu(c.force[c.rules[k].cons], grid[j])
    ensures Infer(c, mu, grid, theta, thetaDot).value.centroid == 0.0
  {
    OnlyRuleFires(c, mu, grid, theta, thetaDot, k);
    var outputs := Infer(c, mu, grid, theta, thetaDot).value.outputs;
    forall j | 0 <= j < |grid| ensures outputs[|grid| - 1 - j] == outputs[j] {
      assert RuleOutput(c, mu, theta, thetaDot, c.rules[k], grid[|grid| - 1 - j])
          == RuleOutput(c, mu, theta, thetaDot, c.rules[k], grid[j]);
    }
    CentroidOfSymmetric(grid, outputs);
  }

  /** When no rule fires at all, every aggregated degree is 0 and the centroid
      falls back to 0. */
  lemma SilentRulesGiveZero<S>(c: Controller<S>, mu: (S, real) -> real, grid: seq<real>,
                               theta: real, thetaDot: real)
    requires WellFormed(c)
    requires forall i :: 0 <= i < |c.rules| ==> Strength(c, mu, theta, thetaDot, c.rules[i]) == 0.0
    ensures forall j :: 0 <= j < |grid| ==> Infer(c, mu, grid, theta, thetaDot).value.outputs[j] == 0.0
    ensures Infer(c, mu, grid, theta, thetaDot).value.centroid == 0.0
  {
    var outputs := Infer(c, mu, grid, theta, thetaDot).value.outputs;
    forall j | 0 <= j < |grid| ensures outputs[j] == 0.0 {
      assert IsMaxMin(c, mu, theta, thetaDot, grid[j], outputs[j]);
    }
    SumOfNonnegative(outputs);
  }
}
