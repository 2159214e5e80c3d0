/** final.py: the numpy-function controller. Membership vectors are generated
    from a domain, the rules index labels by their position in `etiquetas`,
    aggregation is a pointwise `fmax` over rules of `fmin(weight, vector)` on the
    100-point force domain [−10, 10], and the result is the discrete centroid. */
module VectorFuzzy {
  import opened Reals
  import opened Labels
  import opened Shapes
  import Mamdani

  /** `triangular` at one point. */
  function Triangular(x: real, a: real, b: real, c: real): (r: real)
    requires a != b && b != c
    ensures 0.0 <= r
  {
    Max(Min((x - a) / (b - a), (c - x) / (c - b)), 0.0)
  }

  /** For a < b < c the min-of-slopes formula is the 3-point membership. */
  lemma TriangularIsTriangle(x: real, a: real, b: real, c: real)
    requires a < b < c
    ensures Triangular(x, a, b, c) == TriangleDegree(a, b, c, x)
  {
    if x <= a {
      DivideMonotone(x - a, 0.0, b - a);
    } else if x >= c {
      DivideMonotone(c - x, 0.0, c - b);
    } else if x <= b {
      TriangularRising(x, a, b, c);
    } else {
      TriangularFalling(x, a, b, c);
    }
  }

  /** On (a, b] the falling slope is at least 1, so the rising one is taken. */
  lemma TriangularRising(x: real, a: real, b: real, c: real)
    requires a < x <= b < c
    ensures Triangular(x, a, b, c) == (x - a) / (b - a) <= 1.0
  {
    DivideMonotone(c - b, c - x, c - b);
    assert (c - b) / (c - b) == 1.0;
    FractionBounds(x - a, b - a);
  }

  /** On (b, c) the rising slope exceeds 1, so the falling one is taken. */
  lemma TriangularFalling(x: real, a: real, b: real, c: real)
    requires a < b < x < c
    ensures Triangular(x, a, b, c) == (c - x) / (c - b) < 1.0
  {
    DivideMonotone(b - a, x - a, b - a);
    assert (b - a) / (b - a) == 1.0;
    FractionBounds(c - x, c - b);
  }

  /** `(x − a)/(b − a)`, with ±1 standing in for numpy's ±∞ when a = b. */
  function Rise(x: real, a: real, b: real): real
    requires a == b ==> x != a
  {
    if a == b then (if x > a then 1.0 else -1.0) else (x - a) / (b - a)
  }

  /** `(d − x)/(d − c)`, with ±1 standing in for numpy's ±∞ when c = d. */
  function Fall(x: real, c: real, d: real): real
    requires c == d ==> x != d
  {
    if c == d then (if x < d then 1.0 else -1.0) else (d - x) / (d - c)
  }

  /** `trapezoidal` at one point. When a = b or c = d numpy divides by zero and
      gets ±∞; ±1 stand in for them, and the surrounding `minimum` (whose other
      side is at most 1) and the final `maximum` with 0 treat the two alike. At
      x = a = b or x = c = d numpy gets NaN; those points are excluded. */
  function Trapezoidal(x: real, a: real, b: real, c: real, d: real): (r: real)
    requires a == b ==> x != a
    requires c == d ==> x != d
    ensures 0.0 <= r <= 1.0
  {
    Max(Min(Min(Rise(x, a, b), 1.0), Fall(x, c, d)), 0.0)
  }

  /** Left of a the rising side is not positive; right of d the falling side is not. */
  lemma SidesOutside(x: real, a: real, b: real, c: real, d: real)
    requires a <= b <= c <= d
    requires a == b ==> x != a
    requires c == d ==> x != d
    ensures x <= a ==> Rise(x, a, b) <= 0.0
    ensures x >= d ==> Fall(x, c, d) <= 0.0
  {
    if x <= a && a < b {
      DivideMonotone(x - a, 0.0, b - a);
    }
    if x >= d && c < d {
      DivideMonotone(d - x, 0.0, d - c);
    }
  }

  /** Between a and b the rising side is a fraction below 1; from b on it is at least 1. */
  lemma RiseInside(x: real, a: real, b: real)
    requires a <= b && a < x
    ensures x < b ==> 0.0 < Rise(x, a, b) < 1.0
    ensures b <= x ==> 1.0 <= Rise(x, a, b)
  {
    if x < b {
      FractionBounds(x - a, b - a);
    } else if a < b {
      DivideMonotone(b - a, x - a, b - a);
      assert (b - a) / (b - a) == 1.0;
    }
  }

  /** Between c and d the falling side is a fraction below 1; up to c it is at least 1. */
  lemma FallInside(x: real, c: real, d: real)
    requires c <= d && x < d
    ensures c < x ==> 0.0 < Fall(x, c, d) < 1.0
    ensures x <= c ==> 1.0 <= Fall(x, c, d)
  {
    if c < x {
      FractionBounds(d - x, d - c);
    } else if c < d {
      DivideMonotone(d - c, d - x, d - c);
      assert (d - c) / (d - c) == 1.0;
    }
  }

  /** For ordered breakpoints the capped formula is the full trapezoid, vertical
      edges included. */
  lemma TrapezoidalIsTrapezoid(x: real, a: real, b: real, c: real, d: real)
    requires a <= b <= c <= d
    requires a == b ==> x != a
    requires c == d ==> x != d
    ensures Trapezoidal(x, a, b, c, d) == TrapezoidDegree(a, b, c, d, x)
  {
    SidesOutside(x, a, b, c, d);
    if a < x < d {
      RiseInside(x, a, b);
      FallInside(x, c, d);
    }
  }

  /** `paso`: the distance between consecutive centres, a quarter of the domain. */
  function Step(lo: real, hi: real): real
  {
    (hi - lo) / 4.0
  }

  /** The five sets `generar_fm` builds around the centres lo + i·paso: the first
      is a trapezoid with a = b centred on lo, the last one with c = d centred on
      hi, the three inner ones are triangles of half-width paso. */
  function GeneratedShapes(lo: real, hi: real): (s: seq<Shape>)
    ensures |s| == 5
    ensures s[0].Quad? && s[0].a == s[0].b && s[0].c == lo
    ensures s[4].Quad? && s[4].c == s[4].d && s[4].b == hi
    ensures forall i :: 1 <= i < 4 ==> s[i].Tri? && s[i].b == lo + (i as real) * Step(lo, hi)
  {
    var p := Step(lo, hi);
    [Quad(lo - p, lo - p, lo, lo + p),
     Tri(lo, lo + p, lo + 2.0 * p),
     Tri(lo + p, lo + 2.0 * p, lo + 3.0 * p),
     Tri(lo + 2.0 * p, lo + 3.0 * p, lo + 4.0 * p),
     Quad(lo + 3.0 * p, lo + 4.0 * p, lo + 5.0 * p, lo + 5.0 * p)]
  }

  /** The generated sets have ordered breakpoints when the domain is increasing. */
  lemma GeneratedShapesOrdered(lo: real, hi: real, i: int)
    requires lo < hi && 0 <= i < 5
    ensures var s := GeneratedShapes(lo, hi)[i];
            (s.Tri? ==> s.a < s.b < s.c) && (s.Quad? ==> s.a <= s.b < s.c <= s.d && s.a < s.d)
  {
  }

  /** Every point of the domain has a positive degree in at least one generated set. */
  lemma GeneratedShapesCover(lo: real, hi: real, x: real) returns (i: nat)
    requires lo < hi && lo <= x <= hi
    ensures i < 5 && Degree(GeneratedShapes(lo, hi)[i], x) > 0.0
  {
    var p := Step(lo, hi);
    if x < lo + p {
      i := 0;
    } else if x < lo + 2.0 * p {
      i := 1;
    } else if x < lo + 3.0 * p {
      i := 2;
    } else if x < hi {
      i := 3;
    } else {
      i := 4;
    }
    GeneratedShapesOrdered(lo, hi, i);
  }

  /** numpy's value of a generated set at a domain point: `triangular` for the
      inner sets, `trapezoidal` for the outer ones. */
  function Sample(lo: real, hi: real, i: nat, x: real): (r: real)
    requires lo < hi && i < 5 && lo <= x <= hi
    ensures r == Degree(GeneratedShapes(lo, hi)[i], x)
  {
    var s := GeneratedShapes(lo, hi)[i];
    GeneratedShapesOrdered(lo, hi, i);
    match s
    case Tri(a, b, c) =>
      TriangularIsTriangle(x, a, b, c);
      Triangular(x, a, b, c)
    case Quad(a, b, c, d) =>
      TrapezoidalIsTrapezoid(x, a, b, c, d);
      Trapezoidal(x, a, b, c, d)
  }

  /** A domain increasing from its first point to its last, with every point in between. */
  predicate IsDomain(dominio: seq<real>)
  {
    && |dominio| > 0
    && dominio[0] < dominio[|dominio| - 1]
    && forall j :: 0 <= j < |dominio| ==> dominio[0] <= dominio[j] <= dominio[|dominio| - 1]
  }

  /** Five vectors over the domain, one per label, each entry the degree of that
      domain point in the label's generated set. */
  ghost predicate IsGeneratedFm(fms: seq<seq<real>>, dominio: seq<real>)
    requires IsDomain(dominio)
  {
    && |fms| == 5
    && (forall i :: 0 <= i < 5 ==> |fms[i]| == |dominio|)
    && forall i, j :: 0 <= i < 5 && 0 <= j < |dominio| ==>
         fms[i][j] == Degree(GeneratedShapes(dominio[0], dominio[|dominio| - 1])[i], dominio[j])
  }

  /** `generar_fm(dominio)`. */
  function GenerateFm(dominio: seq<real>): (fms: seq<seq<real>>)
    requires IsDomain(dominio)
    ensures IsGeneratedFm(fms, dominio)
  {
    var lo, hi := dominio[0], dominio[|dominio| - 1];
    seq(5, i requires 0 <= i < 5 =>
      seq(|dominio|, j requires 0 <= j < |dominio| => Sample(lo, hi, i, dominio[j])))
  }

  /** `dominio_e`, `dominio_de` and `dominio_f`. */
  function DomainE(): (d: seq<real>)
    ensures |d| == 100 && d[0] == -0.5 && d[99] == 0.5 && IsDomain(d)
  {
    Linspace(-0.5, 0.5, 100)
  }

  function DomainDe(): (d: seq<real>)
    ensures |d| == 100 && d[0] == -1.5 && d[99] == 1.5 && IsDomain(d)
  {
    Linspace(-1.5, 1.5, 100)
  }

  function DomainF(): (d: seq<real>)
    ensures |d| == 100 && d[0] == -10.0 && d[99] == 10.0 && IsDomain(d)
  {
    Linspace(-10.0, 10.0, 100)
  }

  /** `reglas`, one source line per error label. */
  const Reglas: seq<Rule> := [
    Rule(NG, NG, PG), Rule(NG, NP, PG), Rule(NG, Z, PG), Rule(NG, PP, PP), Rule(NG, PG, Z),
    Rule(NP, NG, PG), Rule(NP, NP, PG), Rule(NP, Z, PP), Rule(NP, PP, Z), Rule(NP, PG, NP),
    Rule(Z, NG, PP), Rule(Z, NP, PP), Rule(Z, Z, Z), Rule(Z, PP, NP), Rule(Z, PG, NP),
    Rule(PP, NG, NP), Rule(PP, NP, NP), Rule(PP, Z, NP), Rule(PP, PP, PG), Rule(PP, PG, PG),
    Rule(PG, NG, Z), Rule(PG, NP, NP), Rule(PG, Z, PP), Rule(PG, PP, PG), Rule(PG, PG, PG)
  ]

  /** `reglas` is listed row by row over the error label, so it has one rule for
      each (error, d_error) label pair. */
  lemma ReglasCoverEachPairOnce()
    ensures ListedByTheta(Reglas) && CoversEachPairOnce(Reglas)
  {
    forall k | 0 <= k < 25 ensures PairIndex(Reglas[k]) == k {
      TablePosition(k);
    }
    ListedByThetaCovers(Reglas);
  }

  /** Five degrees, one per label in `etiquetas` order. */
  predicate IsGrades(g: seq<real>)
  {
    |g| == 5 && forall i :: 0 <= i < 5 ==> 0.0 <= g[i] <= 1.0
  }

  /** Five vectors of n entries, one per force label. */
  predicate IsFm(fms: seq<seq<real>>, n: nat)
  {
    |fms| == 5 && forall i :: 0 <= i < 5 ==> |fms[i]| == n
  }

  /** `peso`: the smaller of the rule's error degree and d_error degree, each
      looked up by the label's position in `etiquetas`. */
  function Weight(r: Rule, gradosE: seq<real>, gradosDe: seq<real>): real
    requires IsGrades(gradosE) && IsGrades(gradosDe)
  {
    Min(gradosE[Index(r.ante1)], gradosDe[Index(r.ante2)])
  }

  /** `fmin(peso, fms_f[i_f])` at force-domain point j. */
  function Clip(r: Rule, gradosE: seq<real>, gradosDe: seq<real>, fmsF: seq<seq<real>>, n: nat, j: nat): real
    requires IsGrades(gradosE) && IsGrades(gradosDe) && IsFm(fmsF, n) && j < n
  {
    Min(Weight(r, gradosE, gradosDe), fmsF[Index(r.cons)][j])
  }

  /** `salida_agregada` after folding `fmax(salida, fmin(peso, fms_f[i_f]))` over
      the rules from `zeros_like(dominio_f)`: at each point, the largest clipped
      consequent, or 0 when none is positive. */
  function Aggregated(rules: seq<Rule>, gradosE: seq<real>, gradosDe: seq<real>, fmsF: seq<seq<real>>, n: nat)
    : (out: seq<real>)
    requires IsGrades(gradosE) && IsGrades(gradosDe) && IsFm(fmsF, n)
    ensures |out| == n
    ensures forall j :: 0 <= j < n ==> 0.0 <= out[j] <= 1.0
    ensures forall j, k :: 0 <= j < n && 0 <= k < |rules| ==>
              Clip(rules[k], gradosE, gradosDe, fmsF, n, j) <= out[j]
    ensures forall j :: 0 <= j < n ==>
              out[j] == 0.0 || exists k :: 0 <= k < |rules| && out[j] == Clip(rules[k], gradosE, gradosDe, fmsF, n, j)
  {
    if |rules| == 0 then seq(n, j => 0.0)
    else
      var init := rules[..|rules| - 1];
      var prev := Aggregated(init, gradosE, gradosDe, fmsF, n);
      var r := rules[|rules| - 1];
      assert forall k :: 0 <= k < |init| ==> init[k] == rules[k];
      seq(n, j requires 0 <= j < n => Max(prev[j], Clip(r, gradosE, gradosDe, fmsF, n, j)))
  }

  /** The tail of `inferencia_difusa` once the degrees are known: the centroid
      of the aggregated output over `dominio_f`, or 0.0 when its sum is 0. */
  function Inference(gradosE: seq<real>, gradosDe: seq<real>, fmsF: seq<seq<real>>): (f: real)
    requires IsGrades(gradosE) && IsGrades(gradosDe) && IsFm(fmsF, 100)
    ensures -10.0 <= f <= 10.0
    ensures Sum(Aggregated(Reglas, gradosE, gradosDe, fmsF, 100)) == 0.0 ==> f == 0.0
    ensures var out := Aggregated(Reglas, gradosE, gradosDe, fmsF, 100);
            Sum(out) != 0.0 ==> f == WeightedSum(DomainF(), out) / Sum(out)
  {
    var out := Aggregated(Reglas, gradosE, gradosDe, fmsF, 100);
    Mamdani.CentroidWithin(DomainF(), out, -10.0, 10.0);
    Mamdani.Centroid(DomainF(), out)
  }

  /** When no rule has positive weight, nothing is aggregated and the force is 0. */
  lemma NoWeightNoForce(gradosE: seq<real>, gradosDe: seq<real>, fmsF: seq<seq<real>>)
    requires IsGrades(gradosE) && IsGrades(gradosDe) && IsFm(fmsF, 100)
    requires forall k :: 0 <= k < |Reglas| ==> Weight(Reglas[k], gradosE, gradosDe) == 0.0
    ensures Sum(Aggregated(Reglas, gradosE, gradosDe, fmsF, 100)) == 0.0
    ensures Inference(gradosE, gradosDe, fmsF) == 0.0
  {
    var out := Aggregated(Reglas, gradosE, gradosDe, fmsF, 100);
    forall j | 0 <= j < 100 ensures out[j] == 0.0 {
    }
    SumOfNonnegative(out);
  }

  /** A rule with positive weight whose consequent is positive somewhere on the
      force domain makes the aggregated output carry mass. */
  lemma WeightGivesMass(gradosE: seq<real>, gradosDe: seq<real>, fmsF: seq<seq<real>>, k: nat, j: nat)
    requires IsGrades(gradosE) && IsGrades(gradosDe) && IsFm(fmsF, 100) && k < |Reglas| && j < 100
    requires Weight(Reglas[k], gradosE, gradosDe) > 0.0
    requires fmsF[Index(Reglas[k].cons)][j] > 0.0
    ensures Sum(Aggregated(Reglas, gradosE, gradosDe, fmsF, 100)) > 0.0
  {
    var out := Aggregated(Reglas, gradosE, gradosDe, fmsF, 100);
    assert Clip(Reglas[k], gradosE, gradosDe, fmsF, 100, j) > 0.0;
    assert out[j] > 0.0;
    SumOfNonnegative(out);
  }

  /** Every force set is positive at some point of the force domain: at the
      centres −10, 0 and 10 and at the domain points nearest −5 and 5. */
  lemma ForceSetsReachDomain(i: nat) returns (j: nat)
    requires i < 5
    ensures j < 100 && Degree(GeneratedShapes(-10.0, 10.0)[i], DomainF()[j]) > 0.0
  {
    j := [0, 25, 50, 74, 99][i];
    GeneratedShapesOrdered(-10.0, 10.0, i);
    assert DomainF()[j] == GridPoint(-10.0, 20.0 / 99.0, j);
  }

  // ---- As written: the loop variable `fm` is ignored ----

  /** `grados_e` / `grados_de` as final.py computes them: for every label the same
      triangle (d₀, (d₀ + d_mid)/2, d_mid), with d_mid = dominio[len // 2], is
      evaluated, whatever the label's own membership vector is. */
  function GradesAsWritten(x: real, dominio: seq<real>): (g: seq<real>)
    requires |dominio| > 0 && dominio[0] < dominio[|dominio| / 2]
    ensures IsGrades(g)
    ensures forall i :: 0 <= i < 5 ==> g[i] == g[0]
    ensures g[0] == TriangleDegree(dominio[0], (dominio[0] + dominio[|dominio| / 2]) / 2.0, dominio[|dominio| / 2], x)
  {
    var a, c := dominio[0], dominio[|dominio| / 2];
    var b := (a + c) / 2.0;
    TriangularIsTriangle(x, a, b, c);
    seq(5, i => Triangular(x, a, b, c))
  }

  /** `dominio_e[50]` = −0.5 + 50/99 = 1/198, and `dominio_de[50]` = 1/66. */
  lemma MidPoints()
    ensures DomainE()[50] == 1.0 / 198.0 && DomainDe()[50] == 1.0 / 66.0
  {
    assert DomainE()[50] == GridPoint(-0.5, 1.0 / 99.0, 50);
    assert DomainDe()[50] == GridPoint(-1.5, 3.0 / 99.0, 50);
  }

  /** `inferencia_difusa(error, d_error, fms_e, fms_de, fms_f)` as written:
      `fms_e` and `fms_de` are accepted and never read. */
  function InferenciaAsWritten(error: real, dError: real, fmsE: seq<seq<real>>, fmsDe: seq<seq<real>>,
                               fmsF: seq<seq<real>>): (f: real)
    requires IsFm(fmsF, 100)
    ensures -10.0 <= f <= 10.0
    ensures var out := Aggregated(Reglas, GradesAsWritten(error, DomainE()), GradesAsWritten(dError, DomainDe()), fmsF, 100);
            && (Sum(out) == 0.0 ==> f == 0.0)
            && (Sum(out) != 0.0 ==> f == WeightedSum(DomainF(), out) / Sum(out))
  {
    MidPoints();
    Inference(GradesAsWritten(error, DomainE()), GradesAsWritten(dError, DomainDe()), fmsF)
  }

  /** As written, every error at or above dominio_e[50] = 1/198 (about 0.005 rad)
      has degree 0 in all five labels, so no rule fires and the force is 0
      whatever d_error is; the simulation's own starting angle 0.2 is such an
      error. */
  lemma AsWrittenIgnoresPositiveError(error: real, dError: real, fmsE: seq<seq<real>>, fmsDe: seq<seq<real>>,
                                      fmsF: seq<seq<real>>)
    requires IsFm(fmsF, 100)
    requires error >= 1.0 / 198.0
    ensures forall i :: 0 <= i < 5 ==> GradesAsWritten(error, DomainE())[i] == 0.0
    ensures InferenciaAsWritten(error, dError, fmsE, fmsDe, fmsF) == 0.0
  {
    MidPoints();
    var ge, gd := GradesAsWritten(error, DomainE()), GradesAsWritten(dError, DomainDe());
    forall k | 0 <= k < |Reglas| ensures Weight(Reglas[k], ge, gd) == 0.0 {
    }
    NoWeightNoForce(ge, gd, fmsF);
  }

  // ---- Corrected: each label's own set is evaluated ----

  /** The degrees final.py evidently intends: the degree of x in each label's
      generated set over [lo, hi], the function that label's vector samples. */
  function GradesCorrected(x: real, lo: real, hi: real): (g: seq<real>)
    ensures IsGrades(g)
    ensures forall i :: 0 <= i < 5 ==> g[i] == Degree(GeneratedShapes(lo, hi)[i], x)
  {
    seq(5, i requires 0 <= i < 5 => Degree(GeneratedShapes(lo, hi)[i], x))
  }

  /** At a domain point the corrected degrees are exactly the entries of the
      generated membership vectors. */
  lemma GradesCorrectedMatchVectors(fms: seq<seq<real>>, dominio: seq<real>, j: nat)
    requires IsDomain(dominio) && IsGeneratedFm(fms, dominio) && j < |dominio|
    ensures forall i :: 0 <= i < 5 ==>
              GradesCorrected(dominio[j], dominio[0], dominio[|dominio| - 1])[i] == fms[i][j]
  {
  }

  /** `inferencia_difusa` with each label's own set evaluated. */
  function InferenciaCorrected(error: real, dError: real, fmsF: seq<seq<real>>): (f: real)
    requires IsFm(fmsF, 100)
    ensures -10.0 <= f <= 10.0
    ensures var out := Aggregated(Reglas, GradesCorrected(error, -0.5, 0.5), GradesCorrected(dError, -1.5, 1.5), fmsF, 100);
            && (Sum(out) == 0.0 ==> f == 0.0)
            && (Sum(out) != 0.0 ==> f == WeightedSum(DomainF(), out) / Sum(out))
  {
    Inference(GradesCorrected(error, -0.5, 0.5), GradesCorrected(dError, -1.5, 1.5), fmsF)
  }

  /** Corrected, every input inside the two domains fires a rule whose consequent
      shows up on the force domain, so the aggregated output carries mass and
      the force is a true centroid rather than the zero fallback. */
  lemma CorrectedRespondsOnDomain(error: real, dError: real, fmsF: seq<seq<real>>)
    requires -0.5 <= error <= 0.5 && -1.5 <= dError <= 1.5
    requires IsGeneratedFm(fmsF, DomainF())
    ensures Sum(Aggregated(Reglas, GradesCorrected(error, -0.5, 0.5), GradesCorrected(dError, -1.5, 1.5), fmsF, 100)) > 0.0
  {
    var ge, gd := GradesCorrected(error, -0.5, 0.5), GradesCorrected(dError, -1.5, 1.5);
    var ie := GeneratedShapesCover(-0.5, 0.5, error);
    var id := GeneratedShapesCover(-1.5, 1.5, dError);
    ReglasCoverEachPairOnce();
    var k := 5 * ie + id;
    assert PairIndex(Reglas[k]) == k;
    assert Index(Reglas[k].ante1) == ie && Index(Reglas[k].ante2) == id;
    assert Weight(Reglas[k], ge, gd) > 0.0;
    var j := ForceSetsReachDomain(Index(Reglas[k].cons));
    WeightGivesMass(ge, gd, fmsF, k, j);
  }
}
