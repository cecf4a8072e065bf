/**
 The factor space of the reform predictor: five binary situational factors,
 their assignments (the keys of the conditional probability table) and the
 marginal probabilities the Monte Carlo engine samples them from.
 */
module Factors {

  /** The five parent nodes of the network. */
  datatype Factor =
    | LegislativeMajority
    | CsjnChange
    | UnionCooperative
    | ConstitutionalChallenge
    | EconomicCrisis

  /** The canonical order: tuple positions, dictionary keys and loop order all follow it. */
  const CanonicalOrder: seq<Factor> :=
    [LegislativeMajority, CsjnChange, UnionCooperative, ConstitutionalChallenge, EconomicCrisis]

  /** One assignment of the five factors, in canonical order: a key of the table. */
  datatype Conditions = Conditions(
    legislativeMajority: bool,
    csjnChange: bool,
    unionCooperative: bool,
    constitutionalChallenge: bool,
    economicCrisis: bool)

  /** The default arguments of the posterior query and the baseline of the sensitivity analysis. */
  const BaseCase: Conditions := Conditions(true, false, false, true, true)

  function Get(c: Conditions, f: Factor): bool
  {
    match f
    case LegislativeMajority => c.legislativeMajority
    case CsjnChange => c.csjnChange
    case UnionCooperative => c.unionCooperative
    case ConstitutionalChallenge => c.constitutionalChallenge
    case EconomicCrisis => c.economicCrisis
  }

  /** Two assignments that agree on every factor are the same assignment. */
  lemma SameFactorsSameConditions(c: Conditions, d: Conditions)
    requires forall f :: Get(c, f) == Get(d, f)
    ensures c == d
  {
    assert Get(c, LegislativeMajority) == Get(d, LegislativeMajority);
    assert Get(c, CsjnChange) == Get(d, CsjnChange);
    assert Get(c, UnionCooperative) == Get(d, UnionCooperative);
    assert Get(c, ConstitutionalChallenge) == Get(d, ConstitutionalChallenge);
    assert Get(c, EconomicCrisis) == Get(d, EconomicCrisis);
  }

  /** A copy of `c` with factor `f` negated: the sensitivity analysis's `modified[var] = not modified[var]`. */
  function Flip(c: Conditions, f: Factor): (r: Conditions)
    ensures Get(r, f) == !Get(c, f)
    ensures forall g :: g != f ==> Get(r, g) == Get(c, g)
    ensures r != c
  {
    match f
    case LegislativeMajority => c.(legislativeMajority := !c.legislativeMajority)
    case CsjnChange => c.(csjnChange := !c.csjnChange)
    case UnionCooperative => c.(unionCooperative := !c.unionCooperative)
    case ConstitutionalChallenge => c.(constitutionalChallenge := !c.constitutionalChallenge)
    case EconomicCrisis => c.(economicCrisis := !c.economicCrisis)
  }

  /** Flipping the same factor twice restores the assignment. */
  lemma FlipTwice(c: Conditions, f: Factor)
    ensures Flip(Flip(c, f), f) == c
  {
    SameFactorsSameConditions(Flip(Flip(c, f), f), c);
  }

  /** The bit `w` of a product position: set when the factor is `False`, which the enumeration lists second. */
  function BitIfFalse(b: bool, w: nat): nat
  {
    if b then 0 else w
  }

  /**
   The position of `c` in `itertools.product([True, False], repeat=5)`:
   `True` comes before `False` and the first factor is the most significant.
   */
  function Code(c: Conditions): (k: nat)
    ensures k < 32
  {
    BitIfFalse(c.legislativeMajority, 16) + BitIfFalse(c.csjnChange, 8) + BitIfFalse(c.unionCooperative, 4)
    + BitIfFalse(c.constitutionalChallenge, 2) + BitIfFalse(c.economicCrisis, 1)
  }

  /** The assignment at position `k` of the product enumeration. */
  function FromCode(k: nat): (c: Conditions)
    requires k < 32
    ensures Code(c) == k
  {
    Conditions(k / 16 % 2 == 0, k / 8 % 2 == 0, k / 4 % 2 == 0, k / 2 % 2 == 0, k % 2 == 0)
  }

  /** Decoding a position recovers the assignment, so the enumeration misses no assignment. */
  lemma FromCodeOfCode(c: Conditions)
    ensures FromCode(Code(c)) == c
  {
    var d := FromCode(Code(c));
    assert Code(d) == Code(c);
    SameFactorsSameConditions(d, c);
  }

  /** All 32 assignments in `itertools.product` order, each exactly once. */
  function Product(): (ps: seq<Conditions>)
    ensures |ps| == 32
    ensures forall k :: 0 <= k < 32 ==> Code(ps[k]) == k
    ensures forall c :: c in ps
  {
    var ps := seq(32, k requires 0 <= k < 32 => FromCode(k));
    assert forall c :: c in ps by {
      forall c ensures c in ps {
        FromCodeOfCode(c);
        assert ps[Code(c)] == c;
      }
    }
    ps
  }

  /** The marginal probabilities of the five factors. */
  datatype Marginals = Marginals(
    legislativeMajority: real,
    csjnChange: real,
    unionCooperative: real,
    constitutionalChallenge: real,
    economicCrisis: real)

  /** The node probabilities set by the predictor's constructor. */
  const DefaultMarginals: Marginals := Marginals(0.60, 0.20, 0.15, 0.90, 0.65)

  function Marginal(m: Marginals, f: Factor): real
  {
    match f
    case LegislativeMajority => m.legislativeMajority
    case CsjnChange => m.csjnChange
    case UnionCooperative => m.unionCooperative
    case ConstitutionalChallenge => m.constitutionalChallenge
    case EconomicCrisis => m.economicCrisis
  }
}
