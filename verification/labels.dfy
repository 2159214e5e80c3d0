/** The five linguistic labels that every variable of every controller variant
    uses, and the two-antecedent, one-consequent rules written over them. */
module Labels {

  /** Large negative, small negative, zero, small positive, large positive.
      TP2bruno.py spells the zero label `CE`; it is `Z` here. */
  datatype Label = NG | NP | Z | PP | PG

  /** The label list `etiquetas` of final.py, in its order. */
  const AllLabels: seq<Label> := [NG, NP, Z, PP, PG]

  /** Every label is one of the five. */
  lemma LabelCases(l: Label)
    ensures l == NG || l == NP || l == Z || l == PP || l == PG
  {
  }

  /** `etiquetas.index(l)`: the position of a label in `AllLabels`. */
  function Index(l: Label): (i: nat)
    ensures i < |AllLabels| && AllLabels[i] == l
  {
    match l
    case NG => 0
    case NP => 1
    case Z => 2
    case PP => 3
    case PG => 4
  }

  /** `Index` undoes indexing into `AllLabels`, so no two positions hold the same label. */
  lemma IndexOfPosition(i: nat)
    requires i < |AllLabels|
    ensures Index(AllLabels[i]) == i
  {
  }

  /** IF θ is `ante1` AND θ' is `ante2` THEN force is `cons`. */
  datatype Rule = Rule(ante1: Label, ante2: Label, cons: Label)

  /** Position of a rule's antecedent pair in a 5 × 5 table whose rows are the θ labels. */
  function PairIndex(r: Rule): nat
  {
    5 * Index(r.ante1) + Index(r.ante2)
  }

  /** Position `k` of a table listed row by row over θ', read as a position of a table listed row by row over θ. */
  function Transposed(k: nat): nat
  {
    5 * (k % 5) + k / 5
  }

  /** Some rule of the table has antecedents (l1, l2). */
  ghost predicate HasPair(rules: seq<Rule>, l1: Label, l2: Label)
  {
    exists i :: 0 <= i < |rules| && rules[i].ante1 == l1 && rules[i].ante2 == l2
  }

  /** Every (θ label, θ' label) pair has a rule, and no pair has two. */
  ghost predicate CoversEachPairOnce(rules: seq<Rule>)
  {
    && (forall l1: Label, l2: Label :: HasPair(rules, l1, l2))
    && (forall i, j :: 0 <= i < j < |rules| ==>
          !(rules[i].ante1 == rules[j].ante1 && rules[i].ante2 == rules[j].ante2))
  }

  /** 25 rules listed row by row over θ: NG/NG, NG/NP, …, PG/PG (final.py, TP2bruno.py). */
  ghost predicate ListedByTheta(rules: seq<Rule>)
  {
    |rules| == 25 && forall k :: 0 <= k < 25 ==> PairIndex(rules[k]) == k
  }

  /** 25 rules listed row by row over θ': NG/NG, NP/NG, …, PG/PG (the three class-based controllers). */
  ghost predicate ListedByThetaDot(rules: seq<Rule>)
  {
    |rules| == 25 && forall k :: 0 <= k < 25 ==> PairIndex(rules[k]) == Transposed(k)
  }

  /** Equal table positions mean equal antecedents. */
  lemma PairIndexInjective(r: Rule, s: Rule)
    requires PairIndex(r) == PairIndex(s)
    ensures r.ante1 == s.ante1 && r.ante2 == s.ante2
  {
    assert Index(r.ante1) == Index(s.ante1);
  }

  lemma ListedByThetaCovers(rules: seq<Rule>)
    requires ListedByTheta(rules)
    ensures CoversEachPairOnce(rules)
  {
    forall l1: Label, l2: Label ensures HasPair(rules, l1, l2) {
      var k := 5 * Index(l1) + Index(l2);
      PairIndexInjective(rules[k], Rule(l1, l2, l1));
    }
  }

  lemma ListedByThetaDotCovers(rules: seq<Rule>)
    requires ListedByThetaDot(rules)
    ensures CoversEachPairOnce(rules)
  {
    forall l1: Label, l2: Label ensures HasPair(rules, l1, l2) {
      var k := 5 * Index(l2) + Index(l1);
      TransposedDigits(Index(l2), Index(l1));
      PairIndexInjective(rules[k], Rule(l1, l2, l1));
    }
    forall i, j | 0 <= i < j < |rules|
      ensures !(rules[i].ante1 == rules[j].ante1 && rules[i].ante2 == rules[j].ante2)
    {
      TransposedDigits(i / 5, i % 5);
      TransposedDigits(j / 5, j % 5);
    }
  }

  /** Transposing swaps the row and the column of a position. */
  lemma TransposedDigits(row: nat, col: nat)
    requires row < 5 && col < 5
    ensures Transposed(5 * row + col) == 5 * col + row
  {
    var k := 5 * row + col;
    assert k / 5 == row && k % 5 == col;
  }

  /** A position of a 25-entry table, one case per entry, so that a property of a
      literal table can be checked entry by entry. */
  lemma TablePosition(k: int)
    requires 0 <= k < 25
    ensures || k == 0 || k == 1 || k == 2 || k == 3 || k == 4
            || k == 5 || k == 6 || k == 7 || k == 8 || k == 9
            || k == 10 || k == 11 || k == 12 || k == 13 || k == 14
            || k == 15 || k == 16 || k == 17 || k == 18 || k == 19
            || k == 20 || k == 21 || k == 22 || k == 23 || k == 24
  {
  }
}
