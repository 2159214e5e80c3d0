/** Breakpoint tuples of the fuzzy sets, and the 3-point membership rule that
    the three class-based controllers share word for word. */
module Shapes {
  import opened Reals

  /** `FuzzySet(name, *points)` with three or four breakpoints. What a 4-point
      set means differs between controlador_pendulo_FINAL.py and prueba.py. */
  datatype Shape = Tri(a: real, b: real, c: real) | Quad(a: real, b: real, c: real, d: real)

  /** `FuzzySet(name, a, b, c)` of controlador_pendulo.py: three breakpoints only. */
  datatype Triangle = Triangle(a: real, b: real, c: real)

  /** 3-point membership: 0 at and outside a and c, rising linearly up to b and
      falling linearly after it. The tests run in the source order; the branch
      for `x == b` that two of the copies keep after them is never reached,
      because `a < x < c` already puts x on one side of b or the other. */
  function TriangleDegree(a: real, b: real, c: real, x: real): (r: real)
    ensures 0.0 <= r <= 1.0
    ensures r > 0.0 <==> a < x < c
    ensures r == 1.0 <==> a < x == b < c
    ensures a < x <= b && x < c ==> r == (x - a) / (b - a)
    ensures b < x < c && a < x ==> r == (c - x) / (c - b)
  {
    if x <= a || x >= c then 0.0
    else if x <= b then FractionBounds(x - a, b - a); (x - a) / (b - a)
    else FractionBounds(c - x, c - b); (c - x) / (c - b)
  }

  /** 4-point membership as a full trapezoid: 0 at and outside a and d, rising on
      (a, b), 1 on [b, c], falling on (c, d). A repeated breakpoint gives a
      vertical edge, since the open interval next to it is empty. */
  function TrapezoidDegree(a: real, b: real, c: real, d: real, x: real): (r: real)
    ensures 0.0 <= r <= 1.0
    ensures a <= b <= c <= d ==> (r > 0.0 <==> a < x < d)
  {
    if x <= a || x >= d then 0.0
    else if a < x < b then FractionBounds(x - a, b - a); (x - a) / (b - a)
    else if b <= x <= c then 1.0
    else FractionBounds(d - x, d - c); (d - x) / (d - c)
  }

  /** The degree of a 3- or 4-point set read as a triangle or a full trapezoid:
      `FuzzySet.membership` of prueba.py, and the shape of the sets final.py generates. */
  function Degree(s: Shape, x: real): (r: real)
    ensures 0.0 <= r <= 1.0
  {
    match s
    case Tri(a, b, c) => TriangleDegree(a, b, c, x)
    case Quad(a, b, c, d) => TrapezoidDegree(a, b, c, d, x)
  }

  /** Rising edge: on [a, b] the degree does not decrease. */
  lemma TriangleRises(a: real, b: real, c: real, x: real, y: real)
    requires a < b < c
    requires x <= y <= b
    ensures TriangleDegree(a, b, c, x) <= TriangleDegree(a, b, c, y)
  {
    if a < x {
      DivideMonotone(x - a, y - a, b - a);
    }
  }

  /** Falling edge: on [b, c] the degree does not increase. */
  lemma TriangleFalls(a: real, b: real, c: real, x: real, y: real)
    requires a < b < c
    requires b <= x <= y
    ensures TriangleDegree(a, b, c, y) <= TriangleDegree(a, b, c, x)
  {
    if y < c && b < x {
      DivideMonotone(c - y, c - x, c - b);
    }
  }


  /** A triangle centred on 0 with equal half-widths is an even function. */
  lemma CentredTriangleIsEven(w: real, x: real)
    requires w > 0.0
    ensures TriangleDegree(-w, 0.0, w, -x) == TriangleDegree(-w, 0.0, w, x)
  {
  }
}
