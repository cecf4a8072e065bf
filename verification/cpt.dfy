/**
 The conditional probability table P(Success | five parents): the curated
 entries, the favourability-score interpolation that fills the others, and
 the complete table the predictor builds once.
 */
module Cpt {
  import opened Factors

  /** The 26 expert-assigned entries, before interpolation. */
  function Curated(): map<Conditions, real>
  {
    map[
      // best case: everything favourable
      Conditions(true, true, true, false, true) := 0.45,
      // very good
      Conditions(true, true, true, false, false) := 0.38,
      Conditions(true, true, false, false, true) := 0.35,
      Conditions(true, false, true, false, true) := 0.31,
      // good
      Conditions(true, true, true, true, true) := 0.28,
      Conditions(true, true, false, false, false) := 0.27,
      Conditions(true, false, true, false, false) := 0.24,
      Conditions(false, true, true, false, true) := 0.22,
      // moderate
      Conditions(true, true, false, true, true) := 0.19,
      Conditions(true, false, true, true, true) := 0.18,
      Conditions(true, false, false, false, true) := 0.16,
      Conditions(false, true, true, false, false) := 0.15,
      Conditions(true, true, false, true, false) := 0.14,
      // below average
      Conditions(true, false, false, true, true) := 0.11,
      Conditions(false, true, false, false, true) := 0.10,
      Conditions(true, false, false, true, false) := 0.09,
      Conditions(false, false, true, false, true) := 0.08,
      Conditions(true, false, false, false, false) := 0.07,
      // bad
      Conditions(false, true, false, true, true) := 0.06,
      Conditions(false, false, true, true, true) := 0.05,
      Conditions(false, false, false, false, true) := 0.04,
      Conditions(true, false, true, true, false) := 0.04,
      Conditions(false, true, false, true, false) := 0.04,
      // worst cases
      Conditions(false, false, false, true, true) := 0.02,
      Conditions(false, false, false, true, false) := 0.01,
      Conditions(false, false, false, false, false) := 0.03
    ]
  }

  /** The six assignments the curated entries leave out, in enumeration order. */
  const Missing: seq<Conditions> := [
    Conditions(true, true, true, true, false),
    Conditions(false, true, true, true, true),
    Conditions(false, true, true, true, false),
    Conditions(false, true, false, false, false),
    Conditions(false, false, true, true, false),
    Conditions(false, false, true, false, false)
  ]

  /** Exactly the six assignments of `Missing` have no curated entry. */
  lemma CuratedMissesExactlySix(c: Conditions)
    ensures c !in Curated() <==> c in Missing
  {
    if c !in Curated() {
      UncuratedIsMissing(c);
    } else if c in Missing {
      MissingIsUncurated(c);
    }
  }

  /** None of the six has a curated entry. */
  lemma MissingIsUncurated(c: Conditions)
    requires c in Missing
    ensures c !in Curated()
  {
    var k :| 0 <= k < |Missing| && Missing[k] == c;
    MissingAtUncurated(k);
  }

  lemma MissingAtUncurated(k: nat)
    requires k < |Missing|
    ensures Missing[k] !in Curated()
  {
  }

  /** Every assignment without a curated entry is one of the six. */
  lemma UncuratedIsMissing(c: Conditions)
    requires c !in Curated()
    ensures c in Missing
  {
    // one concrete assignment per leaf
    var Conditions(l, j, u, ch, e) := c;
    if l {
      if j {
        if u { if ch { if e {} else {} } else { if e {} else {} } }
        else { if ch { if e {} else {} } else { if e {} else {} } }
      } else {
        if u { if ch { if e {} else {} } else { if e {} else {} } }
        else { if ch { if e {} else {} } else { if e {} else {} } }
      }
    } else {
      if j {
        if u { if ch { if e {} else {} } else { if e {} else {} } }
        else { if ch { if e {} else {} } else { if e {} else {} } }
      } else {
        if u { if ch { if e {} else {} } else { if e {} else {} } }
        else { if ch { if e {} else {} } else { if e {} else {} } }
      }
    }
  }

  /** Every curated probability lies in [0.01, 0.45]. */
  lemma CuratedBounds(c: Conditions)
    requires c in Curated()
    ensures 0.01 <= Curated()[c] <= 0.45
  {
    var Conditions(l, j, u, ch, e) := c;
    if l {
      if j { assert 0.01 <= Curated()[c] <= 0.45; }
      else { assert 0.01 <= Curated()[c] <= 0.45; }
    } else if j {
      assert 0.01 <= Curated()[c] <= 0.45;
    } else {
      assert 0.01 <= Curated()[c] <= 0.45;
    }
  }

  function Indicator(b: bool): real
  {
    if b then 1.0 else 0.0
  }

  /**
   The favourability count: one point each for a legislative majority, a
   court change and union cooperation, one for NO constitutional challenge,
   and half a point for a deepening economic crisis.
   */
  function Score(c: Conditions): (s: real)
    ensures 0.0 <= s <= 4.5
    ensures s == 4.5 <==> c == Conditions(true, true, true, false, true)
    ensures s == 0.0 <==> c == Conditions(false, false, false, true, false)
  {
    Indicator(c.legislativeMajority) + Indicator(c.csjnChange) + Indicator(c.unionCooperative)
    + Indicator(!c.constitutionalChallenge) + 0.5 * Indicator(c.economicCrisis)
  }

  /** `max(lo, min(hi, x))`. */
  function Clamp(x: real, lo: real, hi: real): (r: real)
    requires lo <= hi
    ensures lo <= r <= hi
    ensures lo <= x <= hi ==> r == x
    ensures x < lo ==> r == lo
    ensures hi < x ==> r == hi
  {
    var upper := if hi < x then hi else x;
    if lo < upper then upper else lo
  }

  /**
   The interpolated probability of an assignment without a curated entry.
   Since the score lies in [0, 4.5], the affine value lies in [0.05, 0.2075]
   and the clamp to [0.01, 0.45] never changes it.
   */
  function Interpolate(c: Conditions): (p: real)
    ensures 0.05 <= p <= 0.2075
    ensures p == 0.05 + Score(c) * 0.035
  {
    Clamp(0.05 + (Score(c) / 10.0) * 0.35, 0.01, 0.45)
  }

  /** A more favourable assignment never gets a smaller interpolated probability. */
  lemma InterpolateMonotone(c: Conditions, d: Conditions)
    requires Score(c) <= Score(d)
    ensures Interpolate(c) <= Interpolate(d)
  {
  }

  /** The six interpolated values. */
  lemma InterpolatedValues()
    ensures Interpolate(Missing[0]) == 0.155
    ensures Interpolate(Missing[1]) == 0.1375
    ensures Interpolate(Missing[2]) == 0.12
    ensures Interpolate(Missing[3]) == 0.12
    ensures Interpolate(Missing[4]) == 0.085
    ensures Interpolate(Missing[5]) == 0.12
  {
  }

  /**
   What the fill loop makes of a partial table `m`: every assignment gets an
   entry, present entries keep their value, absent ones are interpolated.
   */
  function Filled(m: map<Conditions, real>): (t: map<Conditions, real>)
    ensures forall c :: c in t
    ensures forall c :: c in m ==> t[c] == m[c]
    ensures forall c :: c !in m ==> t[c] == Interpolate(c)
  {
    map c | c in Product() :: if c in m then m[c] else Interpolate(c)
  }

  /** The table as the constructor leaves it. */
  function Table(): map<Conditions, real>
  {
    Filled(Curated())
  }

  /** Interpolation never overwrites a curated entry. */
  lemma CuratedKept(c: Conditions)
    requires c in Curated()
    ensures c in Table() && Table()[c] == Curated()[c]
  {
  }

  /** An assignment without a curated entry gets its interpolated value. */
  lemma UncuratedInterpolated(c: Conditions)
    requires c !in Curated()
    ensures c in Table() && Table()[c] == Interpolate(c)
  {
  }

  /**
   The built table is total and every value, curated or interpolated, is a
   probability in [0.01, 0.45].
   */
  lemma TableEntry(c: Conditions)
    ensures c in Table()
    ensures 0.01 <= Table()[c] <= 0.45
  {
    if c in Curated() {
      CuratedKept(c);
      CuratedBounds(c);
    } else {
      UncuratedInterpolated(c);
    }
  }

  /** Curated entries the worked examples read. */
  lemma CuratedSamples()
    ensures Conditions(true, false, false, true, true) in Curated()
    ensures Conditions(false, false, false, false, false) in Curated()
    ensures Conditions(false, false, false, true, false) in Curated()
    ensures Conditions(true, true, true, false, true) in Curated()
    ensures Curated()[Conditions(true, false, false, true, true)] == 0.11
    ensures Curated()[Conditions(false, false, false, false, false)] == 0.03
    ensures Curated()[Conditions(false, false, false, true, false)] == 0.01
    ensures Curated()[Conditions(true, true, true, false, true)] == 0.45
  {
  }

  /** Worked curated values of the built table. */
  lemma CuratedExamples()
    ensures Table()[BaseCase] == 0.11
    ensures Table()[Conditions(false, false, false, false, false)] == 0.03
    ensures Table()[Conditions(false, false, false, true, false)] == 0.01
    ensures Table()[Conditions(true, true, true, false, true)] == 0.45
  {
    CuratedSamples();
    CuratedKept(BaseCase);
    CuratedKept(Conditions(false, false, false, false, false));
    CuratedKept(Conditions(false, false, false, true, false));
    CuratedKept(Conditions(true, true, true, false, true));
  }

  /** Worked interpolated values of the built table. */
  lemma InterpolatedExamples()
    ensures Table()[Conditions(true, true, true, true, false)] == 0.155
    ensures Table()[Conditions(false, false, true, true, false)] == 0.085
  {
    MissingAtUncurated(0);
    UncuratedInterpolated(Missing[0]);
    MissingAtUncurated(4);
    UncuratedInterpolated(Missing[4]);
  }

  /** Curated entries at the baseline (T, F, F, T, T) and at its five one-factor flips. */
  lemma CuratedNeighbours()
    ensures Conditions(true, false, false, true, true) in Curated()
    ensures Conditions(false, false, false, true, true) in Curated()
    ensures Conditions(true, true, false, true, true) in Curated()
    ensures Conditions(true, false, true, true, true) in Curated()
    ensures Conditions(true, false, false, false, true) in Curated()
    ensures Conditions(true, false, false, true, false) in Curated()
    ensures Curated()[Conditions(true, false, false, true, true)] == 0.11
    ensures Curated()[Conditions(false, false, false, true, true)] == 0.02
    ensures Curated()[Conditions(true, true, false, true, true)] == 0.19
    ensures Curated()[Conditions(true, false, true, true, true)] == 0.18
    ensures Curated()[Conditions(true, false, false, false, true)] == 0.16
    ensures Curated()[Conditions(true, false, false, true, false)] == 0.09
  {
  }

  /** The built table at the baseline (T, F, F, T, T) and at its five one-factor flips. */
  lemma BaseCaseNeighbourValues()
    ensures Table()[Conditions(true, false, false, true, true)] == 0.11
    ensures Table()[Conditions(false, false, false, true, true)] == 0.02
    ensures Table()[Conditions(true, true, false, true, true)] == 0.19
    ensures Table()[Conditions(true, false, true, true, true)] == 0.18
    ensures Table()[Conditions(true, false, false, false, true)] == 0.16
    ensures Table()[Conditions(true, false, false, true, false)] == 0.09
  {
    CuratedNeighbours();
    CuratedKept(Conditions(true, false, false, true, true));
    CuratedKept(Conditions(false, false, false, true, true));
    CuratedKept(Conditions(true, true, false, true, true));
    CuratedKept(Conditions(true, false, true, true, true));
    CuratedKept(Conditions(true, false, false, false, true));
    CuratedKept(Conditions(true, false, false, true, false));
  }

  /** The all-false assignment is not the table's minimum: (F, F, F, T, F) is, at 0.01. */
  lemma TableMinimum(c: Conditions)
    ensures Table()[Conditions(false, false, false, true, false)] <= Table()[c]
    ensures Table()[Conditions(false, false, false, false, false)] > Table()[Conditions(false, false, false, true, false)]
  {
    TableEntry(c);
    CuratedExamples();
  }
}
