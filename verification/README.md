# Fuzzy inverted-pendulum controller — a Dafny model

This project models the core of a student project that balances an inverted
pendulum on a cart with a Mamdani fuzzy controller. The project has two layers.

The first layer is the fuzzy inference engine, written by hand in four
variants:

- `FuzzySet` / `FuzzyVariable` / `FuzzyRule` / `FuzzyController`. Of these:
  - controlador_pendulo_FINAL.py uses half-trapezoid "shoulders" and wraps θ once;
  - prueba.py uses full trapezoids, with θ in degrees;
  - controlador_pendulo.py uses triangles only, with θ in degrees.
- The numpy-vector controller of final.py.

Each variant fuzzifies the angle θ and the angular velocity θ'. Each rule
fires with the `min` of its two antecedent degrees. The clipped consequents
are aggregated with `max` over a sampled force axis. The crisp force is the
discrete centroid, with 0 as the fallback when the total mass is 0.

The second layer is the per-step plant update of the four main programs. They
all use the same cart-pole angular acceleration `θ̈ = num / den`. They differ
in their constants, their Euler update (explicit or semi-implicit), how they
normalise or clamp the angle, and what they record:

- TP2bruno.py;
- ProgramaPrincipal_FINAL.py;
- programa_principal.py;
- ProgramaPrincipal.py.

Modules follow that structure:

- `Reals`: min, max, clip, sums, `np.linspace`, `np.arange` length.
- `Labels`: the five labels NG, NP, Z, PP, PG, and rule-table coverage.
- `Angles`: π, `normalizar_angulo`, the single wrap, degrees and radians.
- `Shapes`: the 3-point and 4-point membership formulas.
- `Mamdani`: the generic engine. It is parameterised by the variant's
  membership function and force grid.
- One module per controller variant:
  - `ShoulderFuzzy`: controlador_pendulo_FINAL.py;
  - `TrapezoidFuzzy`: prueba.py;
  - `TriangleFuzzy`: controlador_pendulo.py;
  - `VectorFuzzy`: final.py.
- `Plant`: the shared dynamics formulas.
- One module per main program:
  - `SkfuzzyPlant`: TP2bruno.py;
  - `MainFinal`: ProgramaPrincipal_FINAL.py;
  - `MainClamped`: programa_principal.py;
  - `MainSemiImplicit`: ProgramaPrincipal.py.

Reals are exact. `np.sin` and `np.cos` are parameters (`Plant.Trig`), bounded
by 1 where a proof needs it. A simulation's controller is passed as a function
value (`ctl`). The `Simulate` methods plug in the concrete controller of the
program in question.

Three behaviours of the code are worth stating plainly:

- `Angles.Normalize`: `((θ + π) % 2π) − π` with Python's floored `%` yields
  [−π, π), so π itself maps to −π.
- `SkfuzzyPlant.Model`: when |den| < 10⁻⁶, TP2bruno.py's guard returns the
  normalised θ and the unchanged θ'. The angle does not advance by θ'·dt on
  that step.
- `MainClamped`: programa_principal.py clamps θ to [−89.9, 89.9] degrees and
  θ' to [−9.9, 9.9] at the top of each pass instead of normalising. Its
  explicit update then adds θ'·dt (θ' in rad/s) to θ in degrees, and the
  model keeps that as written.

## Model

| member | source | states |
|---|---|---|
| Reals.Clamp | programa_principal.py:66-67 | the clipped value lies in [lo, hi]; it equals x inside the range and the nearer bound outside it |
| Reals.ArangeLength | ProgramaPrincipal_FINAL.py:30 | `np.arange(0, stop, step)` has exactly the points k·step below stop: every counted point is below stop, the next one is not, and the count is 0 iff stop ≤ 0 |
| Reals.Linspace | controlador_pendulo_FINAL.py:85 | n points, first lo and last hi, the i-th at lo + i·(hi − lo)/(n − 1), all inside [lo, hi] when lo ≤ hi |
| Reals.SumOfNonnegative | controlador_pendulo_FINAL.py:98-99 | a total of non-negative degrees is non-negative, and it is 0 iff every degree is 0, which is when the centroid fallback applies |
| Reals.WeightedSumBounds | controlador_pendulo_FINAL.py:97-99 | with non-negative weights, the numerator Σx·μ lies between lo·Σμ and hi·Σμ for points in [lo, hi] |
| Reals.WeightedSumMirrored | controlador_pendulo_FINAL.py:97 | points symmetric about 0 with mirrored weights give numerator 0 |
| Reals.LinspaceMirrored | controlador_pendulo_FINAL.py:85 | `np.linspace(-h, h, n)` is mirror-symmetric about 0 |
| Labels.Index | final.py:64-66 | `etiquetas.index(l)` is a position of `etiquetas` that holds l |
| Labels.ListedByThetaCovers | final.py:49-55 | a 25-rule table listed row by row over the first antecedent has exactly one rule per antecedent pair |
| Labels.ListedByThetaDotCovers | controlador_pendulo.py:142-148 | the same for a table listed row by row over the second antecedent |
| Angles.Normalize | TP2bruno.py:44-46 | the normalised angle lies in [−π, π) |
| Angles.NormalizeShift | TP2bruno.py:44-46 | the normalised angle differs from θ by a whole number of turns |
| Angles.NormalizeUnique | ProgramaPrincipal_FINAL.py:18-19 | normalisation returns the one representative of θ modulo 2π in [−π, π) |
| Angles.NormalizeIdempotent | TP2bruno.py:44-46 | normalising twice is normalising once |
| Angles.NormalizeFixesCanonical | ProgramaPrincipal_FINAL.py:18-19 | an angle already in [−π, π) is unchanged |
| Angles.Wrap | controlador_pendulo_FINAL.py:76-79 | the single wrap moves θ by at most one turn and lands in [−π, π] for θ in [−3π, 3π]; θ in [−π, π] is kept |
| Angles.WrapAgreesWithNormalize | controlador_pendulo_FINAL.py:76-81 | on [−3π, 3π] the single wrap equals the full normalisation, except that it keeps π where normalisation gives −π |
| Angles.Degrees | ProgramaPrincipal_FINAL.py:43 | degrees·π = radians·180, and [−π, π) maps into [−180, 180) |
| Angles.Radians | ProgramaPrincipal_FINAL.py:23 | converting back to degrees returns the input, and [−180, 180) maps into [−π, π) |
| Shapes.TriangleDegree | controlador_pendulo_FINAL.py:11-20 | the degree is in [0, 1]; it is positive exactly on (a, c) and 1 exactly at b; it is linear on each side |
| Shapes.TrapezoidDegree | prueba.py:20-29 | the degree is in [0, 1], and for ordered breakpoints it is positive exactly on (a, d) |
| Shapes.Degree | prueba.py:9-29 | a 3- or 4-point set read as a triangle or a full trapezoid gives a degree in [0, 1] |
| Shapes.TriangleRises | controlador_pendulo.py:15-16 | the degree does not decrease up to the peak |
| Shapes.TriangleFalls | controlador_pendulo.py:17-18 | the degree does not increase after the peak |
| Shapes.CentredTriangleIsEven | controlador_pendulo_FINAL.py:166 | a triangle (−w, 0, w) gives x and −x the same degree |
| Mamdani.VariableOfLastWins | controlador_pendulo_FINAL.py:44-47 | the name→set dictionary has exactly the listed names, each holding the last set listed under it |
| Mamdani.Fuzzify | controlador_pendulo_FINAL.py:49-50 | one degree per set name, the membership of x in that set |
| Mamdani.Evaluate | controlador_pendulo_FINAL.py:58-61 | a missing label is the KeyError; otherwise the strength is the smaller of the two antecedent degrees and the consequent is kept |
| Mamdani.Fire | controlador_pendulo_FINAL.py:87-89 | succeeds iff every rule's labels resolve; then each rule i gives its strength and its consequent's set, in order |
| Mamdani.AggregateAt | controlador_pendulo_FINAL.py:87-92 | the aggregated degree is non-negative, bounds every clipped consequent, is one of them or 0, and is at most 1 when strengths are |
| Mamdani.Aggregate | controlador_pendulo_FINAL.py:85-92 | one aggregated degree per grid point |
| Mamdani.Centroid | controlador_pendulo_FINAL.py:97-99 | zero mass gives 0; otherwise centroid·Σμ = Σx·μ |
| Mamdani.CentroidWithin | controlador_pendulo_FINAL.py:97-100 | with non-negative degrees the centroid lies inside the grid's range |
| Mamdani.CentroidOfSymmetric | controlador_pendulo_FINAL.py:97-99 | a symmetric grid with mirrored degrees has centroid 0 |
| Mamdani.Infer | controlador_pendulo_FINAL.py:81-100 | succeeds iff every rule label exists; it records the inputs; each output degree is max(0, max over rules of min(strength, consequent degree)); the result is the centroid of those degrees |
| Mamdani.MaxMinUnique | controlador_pendulo_FINAL.py:87-92 | the max-of-min degree is determined by the set of rules alone |
| Mamdani.InferIgnoresRuleOrder | controlador_pendulo_FINAL.py:87-92 | any permutation of the rule list gives the same snapshot |
| Mamdani.OnlyRuleFires | controlador_pendulo_FINAL.py:87-92 | when only rule k has positive strength, the output is rule k's clipped consequent |
| Mamdani.LoneSymmetricRuleGivesZero | controlador_pendulo_FINAL.py:85-99 | a lone firing rule with an even consequent on a symmetric grid gives force 0 |
| Mamdani.SilentRulesGiveZero | controlador_pendulo_FINAL.py:85-99 | when no rule fires, every output degree is 0 and the force is the fallback 0 |
| ShoulderFuzzy.Membership | controlador_pendulo_FINAL.py:10-42 | every degree is in [0, 1] |
| ShoulderFuzzy.LeftShoulder | controlador_pendulo_FINAL.py:22-42 | a 4-point set with b < 0 is 1 exactly on [a, b], positive exactly on [a, b] ∪ (c, d), and linear on (c, d) |
| ShoulderFuzzy.RightShoulder | controlador_pendulo_FINAL.py:33-41 | a 4-point set with b > 0 is 1 exactly on [c, d], positive exactly on (a, b) ∪ [c, d], and linear on (a, b) |
| ShoulderFuzzy.CentredQuadIsEmpty | controlador_pendulo_FINAL.py:22-42 | a 4-point set with b = 0 matches nothing |
| ShoulderFuzzy.ForceGrid | controlador_pendulo_FINAL.py:85 | 1000 points inside [−30, 30] |
| ShoulderFuzzy.InferWith | controlador_pendulo_FINAL.py:73-100 | θ is wrapped once before inference; it succeeds iff the controller is well formed; outputs lie in [0, 1] and the force in [−30, 30] |
| ShoulderFuzzy.OutputsWithin | controlador_pendulo_FINAL.py:85-100 | any controller of this file gives degrees in [0, 1] and a force in [−30, 30] |
| ShoulderFuzzy.RulesCoverEachPairOnce | controlador_pendulo_FINAL.py:172-178 | the rule table has 25 rules, one per (θ, θ') label pair |
| ShoulderFuzzy.ThetaVariable | controlador_pendulo_FINAL.py:149-155 | the θ variable holds exactly the five listed sets |
| ShoulderFuzzy.ThetaDotVariable | controlador_pendulo_FINAL.py:156-162 | the θ' variable holds exactly the five listed sets |
| ShoulderFuzzy.ForceVariable | controlador_pendulo_FINAL.py:163-169 | the force variable holds exactly the five listed sets |
| ShoulderFuzzy.ConfigWellFormed | controlador_pendulo_FINAL.py:148-182 | every label exists in every variable, so `infer` never raises KeyError |
| ShoulderFuzzy.ControllerOutput | controlador_pendulo_FINAL.py:73-100 | the force lies in [−30, 30] |
| ShoulderFuzzy.OnlyZeroMatchesRest | controlador_pendulo_FINAL.py:149-162 | at 0, only the Z sets of θ and θ' have positive degree, and it is 1 |
| ShoulderFuzzy.OnlyCentreRuleFiresAtRest | controlador_pendulo_FINAL.py:172-178 | at θ = θ' = 0, every rule but Z/Z → Z has strength 0 |
| ShoulderFuzzy.ForceTriangleEven | controlador_pendulo_FINAL.py:166 | the force grid is symmetric and the Z force set is even on it |
| ShoulderFuzzy.OutputAtRest | controlador_pendulo_FINAL.py:148-182 | the upright rest state gets force 0 |
| ShoulderFuzzy.NoForceBeyondRateLimits | controlador_pendulo_FINAL.py:156-162 | for |θ'| > 10 no rule fires and the force is 0, whatever θ is |
| TriangleFuzzy.Membership | controlador_pendulo.py:12-18 | the degree is in [0, 1] and positive exactly on (a, c) |
| TriangleFuzzy.DegenerateShoulder | controlador_pendulo.py:13-16 | a triangle with a repeated breakpoint never reaches 1, is 0 at the repeated point, and is linear between |
| TriangleFuzzy.ForceGrid | controlador_pendulo.py:54 | 1000 points inside [−30, 30] |
| TriangleFuzzy.InferWith | controlador_pendulo.py:49-69 | it succeeds iff the controller is well formed; it records the inputs; the force lies in [−30, 30] |
| TriangleFuzzy.OutputsWithin | controlador_pendulo.py:54-69 | degrees lie in [0, 1] and the force in [−30, 30] |
| TriangleFuzzy.RulesCoverEachPairOnce | controlador_pendulo.py:142-150 | 25 rules, one per label pair |
| TriangleFuzzy.ThetaVariable | controlador_pendulo.py:117-123 | the θ variable holds exactly the five listed sets |
| TriangleFuzzy.ThetaDotVariable | controlador_pendulo.py:125-131 | the θ' variable holds exactly the five listed sets |
| TriangleFuzzy.ForceVariable | controlador_pendulo.py:133-139 | the force variable holds exactly the five listed sets |
| TriangleFuzzy.ConfigWellFormed | controlador_pendulo.py:117-156 | every label exists in every variable |
| TriangleFuzzy.ControllerOutput | controlador_pendulo.py:152-156 | the force lies in [−30, 30] |
| TriangleFuzzy.OnlyZeroMatchesRest | controlador_pendulo.py:117-131 | at 0, only the Z sets have positive degree, and it is 1 |
| TriangleFuzzy.OnlyCentreRuleFiresAtRest | controlador_pendulo.py:142-148 | at rest, every rule but Z/Z → Z has strength 0 |
| TriangleFuzzy.ForceTriangleEven | controlador_pendulo.py:136 | the force grid is symmetric and the Z force set is even on it |
| TriangleFuzzy.OutputAtRest | controlador_pendulo.py:152-156 | the rest state gets force 0 |
| TriangleFuzzy.NoForceBeyondHorizontal | controlador_pendulo.py:117-123 | at or beyond ±90° no θ set matches and the force is 0 |
| TrapezoidFuzzy.TrapezoidProfile | prueba.py:20-29 | an ordered trapezoid is positive exactly on (a, d), 1 exactly on [b, c] within it, and linear on its edges |
| TrapezoidFuzzy.VerticalLeftEdge | prueba.py:22-27 | a repeated first breakpoint gives 0 at a and 1 just above it |
| TrapezoidFuzzy.VerticalRightEdge | prueba.py:22-29 | a repeated last breakpoint gives 1 just below d and 0 at d |
| TrapezoidFuzzy.ForceGrid | prueba.py:65 | 1000 points inside [−31, 31] |
| TrapezoidFuzzy.InferWith | prueba.py:60-79 | it succeeds iff the controller is well formed; it records the inputs; the force lies in [−31, 31] |
| TrapezoidFuzzy.OutputsWithin | prueba.py:65-79 | degrees lie in [0, 1] and the force in [−31, 31] |
| TrapezoidFuzzy.RulesCoverEachPairOnce | prueba.py:153-161 | 25 rules, one per label pair |
| TrapezoidFuzzy.ThetaVariable | prueba.py:129-135 | the θ variable holds exactly the five listed sets |
| TrapezoidFuzzy.ThetaDotVariable | prueba.py:137-143 | the θ' variable holds exactly the five listed sets |
| TrapezoidFuzzy.ForceVariable | prueba.py:145-151 | the force variable holds exactly the five listed sets |
| TrapezoidFuzzy.ConfigWellFormed | prueba.py:128-168 | every label exists in every variable |
| TrapezoidFuzzy.ControllerOutput | prueba.py:163-168 | the force lies in [−31, 31] |
| TrapezoidFuzzy.OnlyZeroMatchesRest | prueba.py:129-143 | at 0, only the Z sets have positive degree, and it is 1 |
| TrapezoidFuzzy.OnlyCentreRuleFiresAtRest | prueba.py:153-159 | at rest, every rule but Z/Z → Z has strength 0 |
| TrapezoidFuzzy.ForceTriangleEven | prueba.py:148 | the force grid is symmetric and the Z force set is even on it |
| TrapezoidFuzzy.OutputAtRest | prueba.py:128-168 | the rest state gets force 0 |
| TrapezoidFuzzy.NoForceBeyondRange | prueba.py:129-135 | at or beyond ±91° no θ set matches and the force is 0 |
| VectorFuzzy.Triangular | final.py:18-19 | the min-of-slopes formula is never negative |
| VectorFuzzy.TriangularIsTriangle | final.py:18-19 | for a < b < c, `triangular` equals the 3-point membership |
| VectorFuzzy.Trapezoidal | final.py:22-23 | the capped formula lies in [0, 1] |
| VectorFuzzy.TrapezoidalIsTrapezoid | final.py:22-23 | for ordered breakpoints, `trapezoidal` equals the full trapezoid, vertical edges included |
| VectorFuzzy.GeneratedShapes | final.py:26-46 | five sets: outer shoulders ending at the domain's ends, and inner triangles centred at lo + i·paso |
| VectorFuzzy.GeneratedShapesOrdered | final.py:33-42 | each generated set has ordered breakpoints |
| VectorFuzzy.GeneratedShapesCover | final.py:26-46 | every domain point has positive degree in some generated set |
| VectorFuzzy.Sample | final.py:33-42 | numpy's value at a domain point is the generated set's closed-form degree |
| VectorFuzzy.GenerateFm | final.py:26-46 | five vectors, each entry the degree of that domain point in the label's set |
| VectorFuzzy.DomainE | final.py:13 | 100 increasing points from −0.5 to 0.5 |
| VectorFuzzy.DomainDe | final.py:14 | 100 increasing points from −1.5 to 1.5 |
| VectorFuzzy.DomainF | final.py:15 | 100 increasing points from −10 to 10 |
| VectorFuzzy.ReglasCoverEachPairOnce | final.py:49-55 | `reglas` has one rule per (error, d_error) label pair |
| VectorFuzzy.Aggregated | final.py:62-68 | the aggregated vector lies in [0, 1], bounds every rule's clipped consequent, and is one of them or 0 at each point |
| VectorFuzzy.Inference | final.py:70-72 | the force is the centroid Σx·μ / Σμ of the aggregated output over `dominio_f` when the mass is nonzero, and 0 otherwise; it lies in [−10, 10] |
| VectorFuzzy.NoWeightNoForce | final.py:67-71 | when no rule has positive weight, the mass and the force are 0 |
| VectorFuzzy.WeightGivesMass | final.py:67-72 | a weighted rule whose consequent is positive somewhere gives positive mass |
| VectorFuzzy.ForceSetsReachDomain | final.py:74-77 | every force set is positive at some point of `dominio_f` |
| VectorFuzzy.GradesAsWritten | final.py:59-60 | as written, all five degrees are equal: each is the degree in the one triangle (d₀, (d₀+d₅₀)/2, d₅₀) |
| VectorFuzzy.MidPoints | final.py:13-14 | `dominio_e[50]` = 1/198 and `dominio_de[50]` = 1/66 |
| VectorFuzzy.InferenciaAsWritten | final.py:58-72 | the as-written force is the centroid of the output aggregated from the as-written degrees, or 0 at zero mass; it lies in [−10, 10] |
| VectorFuzzy.AsWrittenIgnoresPositiveError | final.py:59-60 | as written, any error ≥ 1/198 gives all-zero degrees and force 0 |
| VectorFuzzy.GradesCorrected | final.py:59-60 | corrected, degree i is x's degree in label i's own set |
| VectorFuzzy.GradesCorrectedMatchVectors | final.py:26-46 | at domain points the corrected degrees equal the entries of the generated vectors |
| VectorFuzzy.InferenciaCorrected | final.py:58-72 | the corrected force is the centroid of the output aggregated from each label's own degrees, or 0 at zero mass; it lies in [−10, 10] |
| VectorFuzzy.CorrectedRespondsOnDomain | final.py:58-72 | corrected, every input inside both domains yields positive mass, so the force is a real centroid |
| Plant.DenominatorBounds | ProgramaPrincipal_FINAL.py:78 | for physical constants, den lies in [l·(4/3 − m/(M+m)), 4l/3] and above l/3 |
| Plant.ExplicitStep | ProgramaPrincipal_FINAL.py:36-37 | Δω = a·dt, and Δθ is the average of the old and new ω times dt |
| Plant.SemiImplicitStep | ProgramaPrincipal.py:31-32 | the same ω as the explicit step, with θ ahead of it by a·dt² |
| MainFinal.Acceleration | ProgramaPrincipal_FINAL.py:74-79 | θ̈·den = num when |den| > 10⁻⁶, otherwise 0 |
| MainFinal.FallbackNeverApplies | ProgramaPrincipal_FINAL.py:74-79 | with these constants den ≥ 41/66, so the division always happens |
| MainFinal.Step | ProgramaPrincipal_FINAL.py:33-41 | the new angle is in [−π, π) and Δω = θ̈·dt |
| MainFinal.StepWhole | ProgramaPrincipal_FINAL.py:36-41 | the new angle is the explicit update's angle up to whole turns |
| MainFinal.Control | ProgramaPrincipal_FINAL.py:33 | the controller's force lies in [−30, 30] |
| MainFinal.History | ProgramaPrincipal_FINAL.py:27-45 | after k passes each history has k entries |
| MainFinal.HistoryPrefix | ProgramaPrincipal_FINAL.py:43-45 | entry i of each history is what pass i appended |
| MainFinal.HistoryEntries | ProgramaPrincipal_FINAL.py:41-45 | entry i is the state after pass i + 1 in degrees (so in [−180, 180)) and the force computed from the state before it |
| MainFinal.SimulateWith | ProgramaPrincipal_FINAL.py:22-45 | the loop runs once per `np.arange` point; the recorded angles lie in [−180, 180) and each entry matches the reference run |
| MainFinal.Simulate | ProgramaPrincipal_FINAL.py:22-45 | with the program's controller, every recorded force also lies in [−30, 30] |
| MainClamped.Passes | programa_principal.py:58 | N·dt ≤ 5 < (N + 1)·dt |
| MainClamped.Clamped | programa_principal.py:66-67 | the clamped state lies in the box, and in-range values are kept |
| MainClamped.Control | programa_principal.py:69 | the force lies in [−30, 30] |
| MainClamped.Acceleration | programa_principal.py:72-77 | den ≥ 0.3·(4/3 − 0.3/1.3) and θ̈·den = num, with sin and cos taken at the angle in radians |
| MainClamped.Step | programa_principal.py:79-81 | the explicit update is applied to the clamped state |
| MainClamped.History | programa_principal.py:83-87 | after k passes there are k entries |
| MainClamped.HistoryEntry | programa_principal.py:84-87 | entry i is what pass i records |
| MainClamped.SimulateWith | programa_principal.py:64-90 | N entries; each holds the clamped state, inside the clamp box, the force from it, and time i·dt |
| MainClamped.Simulate | programa_principal.py:13-90 | from θ = −45, θ' = 4, every recorded force lies in [−30, 30] |
| MainSemiImplicit.Acceleration | ProgramaPrincipal.py:63-68 | den lies in [1, 4/3] and θ̈·den = num |
| MainSemiImplicit.Step | ProgramaPrincipal.py:26-37 | the controller sees θ in degrees; Δv = θ̈·dt and Δθ = (v + θ̈·dt)·dt + θ̈·dt²/2, so θ moves with the updated velocity; the new angle is recorded in degrees with the old velocity |
| MainSemiImplicit.History | ProgramaPrincipal.py:20-37 | after k passes each history has k entries |
| MainSemiImplicit.HistoryPrefix | ProgramaPrincipal.py:35-37 | entry i of each history is what pass i appended |
| MainSemiImplicit.Simulate | ProgramaPrincipal.py:15-37 | one entry per `np.arange` point; each matches the reference run |
| SkfuzzyPlant.ControlInputs | TP2bruno.py:131-136 | the controller gets the normalised θ, with the clip to [−π, π] never changing it, and θ' clipped to [−10, 10] |
| SkfuzzyPlant.Model | TP2bruno.py:146-172 | the new angle is in [−π, π); when |den| < 10⁻⁶ the state is returned with the angle normalised; otherwise Δω·den = num·dt |
| SkfuzzyPlant.GuardNeverFires | TP2bruno.py:156-161 | with these constants den ≥ 41/66, so the guard never fires |
| SkfuzzyPlant.ModelWhole | TP2bruno.py:163-168 | the new angle is the explicit update's angle up to whole turns |
| SkfuzzyPlant.CartStep | TP2bruno.py:288-290 | Δv = F/(M+m)·dt and Δx = v·dt + F/(M+m)·dt², with no one-half |
| SkfuzzyPlant.ReglasMatrixCoversEachPairOnce | TP2bruno.py:80-110 | `reglas_matrix` has one rule per (θ, θ') label pair |

## Left out

- The scikit-fuzzy controller of TP2bruno.py (lines 51-123 and 138-144) is not modelled. It is a foreign library. The inputs handed to it, its rule matrix and the plant around it are modelled.
- The `try`/`except` fallbacks of TP2bruno.py are not modelled. Exceptions from scikit-fuzzy or numpy are outside the model.
- `np.sin` and `np.cos` are parameters (`Plant.Trig`). Proofs assume only that they lie in [−1, 1].
- Floating point is not modelled. Reals are exact, and `np.pi` is its decimal 3.141592653589793. The rounding of `np.arange` and `np.linspace` is ignored.
- final.py's `trapezoidal` divides by zero on a vertical edge. There, ±1 stands in for numpy's ±∞. The NaN it gets at x = a = b or x = c = d is excluded by precondition. No input the program produces is dropped: `generar_fm` puts the left shoulder's a = b at lo − paso and the right shoulder's c = d at hi + paso, both outside the domain it samples, and `VectorFuzzy.Sample` meets the precondition for every domain point.
- Plotting, pygame drawing and events, and the helpers in visualizar.py and animacion_carrito.py are left out. They are I/O.
- final.py's 400-step simulation loop and all module-level script code are left out. The model covers the operations they call.
- ProgramaPrincipal.py imports a `crear_controlador` that none of its modules define. Its controller is therefore a parameter of `MainSemiImplicit.Simulate`.
- MainSemiImplicit.Simulate: states no force bound, because the controller is a parameter.
- `scipy.constants.g` is taken as standard gravity, 9.80665.
- The cart position of TP2bruno.py is modelled one step at a time (`SkfuzzyPlant.CartStep`). Its main loop is not modelled.

## Findings

| source | as written | input that shows it | evidently intended | confidence | as-written member | corrected member |
|---|---|---|---|---|---|---|
| final.py:59-60 | `grados_e` and `grados_de` evaluate, for every label, the triangle (d₀, (d₀+d₅₀)/2, d₅₀) of the domain instead of the label's own membership vector; `fms_e` and `fms_de` are never read | error = 0.2 (any error ≥ 1/198): all five error degrees are 0, no rule fires, and the force is the fallback 0 | each label's degree is taken from its own set (`fms_e[i]`, `fms_de[i]`) | high, not executed | VectorFuzzy.AsWrittenIgnoresPositiveError | VectorFuzzy.CorrectedRespondsOnDomain |
