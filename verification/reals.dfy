/** Real-valued helpers shared by every controller variant: the `min`/`max`
    pair of Python's builtins, clamping, sums over sample vectors, and the
    evenly spaced grids that `np.linspace` produces. Reals are exact here;
    floating-point rounding is not modelled. */
module Reals {

  datatype Option<+T> = None | Some(value: T)

  function Min(x: real, y: real): (r: real)
    ensures r <= x && r <= y
    ensures r == x || r == y
  {
    if y < x then y else x
  }

  function Max(x: real, y: real): (r: real)
    ensures x <= r && y <= r
    ensures r == x || r == y
  {
    if y > x then y else x
  }

  /** `max(lo, min(hi, x))`, which is also what `np.clip(x, lo, hi)` computes. */
  function Clamp(x: real, lo: real, hi: real): (r: real)
    requires lo <= hi
    ensures lo <= r <= hi
    ensures lo <= x <= hi ==> r == x
    ensures x < lo ==> r == lo
    ensures hi < x ==> r == hi
  {
    Max(lo, Min(hi, x))
  }

  /** Python's `abs`. */
  function Abs(x: real): (r: real)
    ensures 0.0 <= r && (r == x || r == -x)
  {
    if x < 0.0 then -x else x
  }

  /** `len(np.arange(0, stop, step))`: the number of points 0, step, 2·step, …
      that lie below `stop`. */
  function ArangeLength(stop: real, step: real): (n: nat)
    requires step > 0.0
    ensures forall i: nat :: i < n ==> GridPoint(0.0, step, i) < stop
    ensures n == 0 || stop <= GridPoint(0.0, step, n)
    ensures n == 0 <==> stop <= 0.0
  {
    if stop <= 0.0 then 0
    else
      var q := stop / step;
      var n := -((-q).Floor);
      assert n as real >= q > 0.0;
      assert (n - 1) as real < q;
      forall i: nat | i < n ensures GridPoint(0.0, step, i) < stop {
        assert (i as real) <= (n - 1) as real < q;
        assert (i as real) * step < q * step;
      }
      assert (n as real) * step >= q * step;
      n
  }

  /** Python's `sum` over a list of reals. */
  function Sum(s: seq<real>): real
  {
    if |s| == 0 then 0.0 else s[0] + Sum(s[1..])
  }

  /** `sum(x * w for x, w in zip(xs, ws))`, the centroid's numerator. */
  function WeightedSum(xs: seq<real>, ws: seq<real>): real
    requires |xs| == |ws|
  {
    if |xs| == 0 then 0.0 else xs[0] * ws[0] + WeightedSum(xs[1..], ws[1..])
  }

  /** A sum of non-negative terms is non-negative, and it is zero exactly when every term is. */
  lemma {:induction false} SumOfNonnegative(s: seq<real>)
    requires forall i :: 0 <= i < |s| ==> 0.0 <= s[i]
    ensures 0.0 <= Sum(s)
    ensures Sum(s) == 0.0 <==> forall i :: 0 <= i < |s| ==> s[i] == 0.0
  {
    if |s| > 0 {
      SumOfNonnegative(s[1..]);
      if Sum(s) == 0.0 {
        forall i | 0 <= i < |s| ensures s[i] == 0.0 {
          if i > 0 {
            assert s[i] == s[1..][i - 1];
          }
        }
      }
    }
  }

  /** Weights that are all non-negative keep the weighted sum between
      `lo` and `hi` times the total weight, for points inside [lo, hi]. */
  lemma {:induction false} WeightedSumBounds(xs: seq<real>, ws: seq<real>, lo: real, hi: real)
    requires |xs| == |ws|
    requires forall i :: 0 <= i < |ws| ==> 0.0 <= ws[i]
    requires forall i :: 0 <= i < |xs| ==> lo <= xs[i] <= hi
    ensures lo * Sum(ws) <= WeightedSum(xs, ws) <= hi * Sum(ws)
  {
    if |xs| > 0 {
      var xs', ws' := xs[1..], ws[1..];
      assert forall i :: 0 <= i < |ws'| ==> ws'[i] == ws[i + 1];
      assert forall i :: 0 <= i < |xs'| ==> xs'[i] == xs[i + 1];
      WeightedSumBounds(xs', ws', lo, hi);
      var x, w, rest := xs[0], ws[0], Sum(ws');
      assert Sum(ws) == w + rest;
      assert WeightedSum(xs, ws) == x * w + WeightedSum(xs', ws');
      ProductNonnegative(x - lo, w);
      ProductNonnegative(hi - x, w);
      assert lo * (w + rest) == lo * w + lo * rest;
      assert hi * (w + rest) == hi * w + hi * rest;
    }
  }

  /** Splitting off the last term, the order Python's loops add them in. */
  lemma {:induction false} WeightedSumLast(xs: seq<real>, ws: seq<real>)
    requires |xs| == |ws| > 0
    ensures WeightedSum(xs, ws)
         == WeightedSum(xs[..|xs| - 1], ws[..|ws| - 1]) + xs[|xs| - 1] * ws[|ws| - 1]
  {
    if |xs| > 1 {
      WeightedSumLast(xs[1..], ws[1..]);
      assert xs[1..][..|xs| - 2] == xs[..|xs| - 1][1..];
      assert ws[1..][..|ws| - 2] == ws[..|ws| - 1][1..];
    }
  }

  /** The points read from the right are the negated points read from the left. */
  ghost predicate Antisymmetric(xs: seq<real>)
  {
    forall i :: 0 <= i < |xs| ==> xs[|xs| - 1 - i] == -xs[i]
  }

  /** The values read from the right are the values read from the left. */
  ghost predicate Palindromic(ws: seq<real>)
  {
    forall i :: 0 <= i < |ws| ==> ws[|ws| - 1 - i] == ws[i]
  }

  /** Points placed symmetrically about 0 with mirrored weights have weighted sum 0. */
  lemma {:induction false} WeightedSumMirrored(xs: seq<real>, ws: seq<real>)
    requires |xs| == |ws|
    requires Antisymmetric(xs) && Palindromic(ws)
    ensures WeightedSum(xs, ws) == 0.0
    decreases |xs|
  {
    var n := |xs|;
    if n == 1 {
      assert xs[0] == -xs[0];
    } else if n > 1 {
      var xs', ws' := xs[1..n - 1], ws[1..n - 1];
      AntisymmetricInner(xs);
      PalindromicInner(ws);
      WeightedSumMirrored(xs', ws');
      WeightedSumLast(xs[1..], ws[1..]);
      assert xs[1..][..n - 2] == xs';
      assert ws[1..][..n - 2] == ws';
      var x, w := xs[0], ws[0];
      assert xs[n - 1] == -x && ws[n - 1] == w;
      assert WeightedSum(xs, ws) == x * w + (0.0 + (-x) * w);
    }
  }

  /** Dropping both ends keeps a sequence antisymmetric. */
  lemma AntisymmetricInner(xs: seq<real>)
    requires |xs| >= 2 && Antisymmetric(xs)
    ensures Antisymmetric(xs[1..|xs| - 1])
  {
    var n, xs' := |xs|, xs[1..|xs| - 1];
    forall i | 0 <= i < |xs'| ensures xs'[|xs'| - 1 - i] == -xs'[i] {
      assert xs'[|xs'| - 1 - i] == xs[n - 1 - (i + 1)];
    }
  }

  /** Dropping both ends keeps a sequence palindromic. */
  lemma PalindromicInner(ws: seq<real>)
    requires |ws| >= 2 && Palindromic(ws)
    ensures Palindromic(ws[1..|ws| - 1])
  {
    var n, ws' := |ws|, ws[1..|ws| - 1];
    forall i | 0 <= i < |ws'| ensures ws'[|ws'| - 1 - i] == ws'[i] {
      assert ws'[|ws'| - 1 - i] == ws[n - 1 - (i + 1)];
    }
  }

  /** The product of two non-negative numbers is non-negative. */
  lemma ProductNonnegative(a: real, b: real)
    requires 0.0 <= a && 0.0 <= b
    ensures 0.0 <= a * b
  {
    if 0.0 < a {
      assert a * b == b * a;
    }
  }

  /** Dividing by a positive number keeps the order. */
  lemma DivideMonotone(p: real, q: real, d: real)
    requires 0.0 < d && p <= q
    ensures p / d <= q / d
  {
    assert q / d - p / d == (q - p) / d;
  }

  /** A part over a positive whole lies in [0, 1], strictly below 1 when the part is smaller. */
  lemma FractionBounds(p: real, q: real)
    requires 0.0 <= p && 0.0 < q
    ensures 0.0 <= p / q
    ensures 0.0 < p ==> 0.0 < p / q
    ensures p <= q ==> p / q <= 1.0
    ensures p < q ==> p / q < 1.0
    ensures p == q ==> p / q == 1.0
  {
    var r := p / q;
    assert r * q == p;
  }

  /** `np.linspace(lo, hi, n)`: n points, the i-th at lo + i·(hi − lo)/(n − 1),
      both ends included. */
  function Linspace(lo: real, hi: real, n: nat): (g: seq<real>)
    ensures |g| == n
    ensures n >= 1 ==> g[0] == lo
    ensures n >= 2 ==> g[n - 1] == hi
    ensures lo <= hi ==> forall i :: 0 <= i < n ==> lo <= g[i] <= hi
    ensures n >= 2 ==> forall i :: 0 <= i < n ==> g[i] == GridPoint(lo, (hi - lo) / ((n - 1) as real), i)
  {
    if n == 0 then []
    else if n == 1 then [lo]
    else
      var step := (hi - lo) / ((n - 1) as real);
      StepBounds(lo, hi, n, step);
      seq(n, i requires 0 <= i < n => GridPoint(lo, step, i))
  }

  /** The i-th point of a grid starting at `lo` with spacing `step`. */
  function GridPoint(lo: real, step: real, i: nat): real
  {
    lo + (i as real) * step
  }

  lemma StepBounds(lo: real, hi: real, n: nat, step: real)
    requires n >= 2 && step == (hi - lo) / ((n - 1) as real)
    ensures ((n - 1) as real) * step == hi - lo
    ensures lo <= hi ==> 0.0 <= step && forall i :: 0 <= i < n ==> lo <= GridPoint(lo, step, i) <= hi
  {
    if lo <= hi {
      FractionBounds(hi - lo, (n - 1) as real);
      forall i | 0 <= i < n ensures lo <= GridPoint(lo, step, i) <= hi {
        var rest := ((n - 1) - i) as real;
        ProductNonnegative(i as real, step);
        ProductNonnegative(rest, step);
        assert GridPoint(lo, step, i) + rest * step == lo + ((n - 1) as real) * step;
      }
    }
  }

  /** A grid on [−h, h] is mirror-symmetric: the i-th point from the right is
      the negation of the i-th point from the left. */
  lemma LinspaceMirrored(h: real, n: nat)
    requires n >= 2
    ensures Antisymmetric(Linspace(-h, h, n))
  {
    var g := Linspace(-h, h, n);
    var step := (h - -h) / ((n - 1) as real);
    StepBounds(-h, h, n, step);
    forall i | 0 <= i < n ensures g[n - 1 - i] == -g[i] {
      assert g[n - 1 - i] == GridPoint(-h, step, n - 1 - i) == -h + ((n - 1 - i) as real) * step;
      assert ((n - 1 - i) as real) * step == ((n - 1) as real) * step - (i as real) * step;
    }
  }
}
