/**
 Scenario analysis (the posterior at five named assignments) and
 sensitivity analysis (the posterior after flipping one factor of a
 baseline, ranked by the signed change).
 */
module Analysis {
  import opened Factors
  import opened Cpt
  import opened Posterior

  /** One row of the scenario table. */
  datatype ScenarioRow = ScenarioRow(scenario: string, pSuccess: real, pFailure: real, conditions: Conditions)

  /** The five named scenarios, in the order the analysis reports them. */
  const Scenarios: seq<(string, Conditions)> := [
    ("Base Case (Most Likely)", Conditions(true, false, false, true, true)),
    ("Optimistic (Best Realistic)", Conditions(true, true, false, true, true)),
    ("Very Optimistic (Unlikely)", Conditions(true, true, true, false, true)),
    ("Pessimistic", Conditions(false, false, false, true, true)),
    ("Worst Case", Conditions(false, false, false, true, false))
  ]

  /** The row reported for one named scenario. */
  function ScenarioRowOf(table: map<Conditions, real>, named: (string, Conditions)): ScenarioRow
  {
    var posterior := PosteriorOf(table, named.1);
    ScenarioRow(named.0, posterior.success, posterior.failure, named.1)
  }

  /** The scenario rows over any table that agrees with the built one on the five scenarios. */
  lemma {:induction false} ScenarioValuesOf(t: map<Conditions, real>)
    requires Conditions(true, false, false, true, true) in t && t[Conditions(true, false, false, true, true)] == 0.11
    requires Conditions(true, true, false, true, true) in t && t[Conditions(true, true, false, true, true)] == 0.19
    requires Conditions(true, true, true, false, true) in t && t[Conditions(true, true, true, false, true)] == 0.45
    requires Conditions(false, false, false, true, true) in t && t[Conditions(false, false, false, true, true)] == 0.02
    requires Conditions(false, false, false, true, false) in t && t[Conditions(false, false, false, true, false)] == 0.01
    ensures ScenarioRowOf(t, Scenarios[0]).pSuccess == 0.11
    ensures ScenarioRowOf(t, Scenarios[1]).pSuccess == 0.19
    ensures ScenarioRowOf(t, Scenarios[2]).pSuccess == 0.45
    ensures ScenarioRowOf(t, Scenarios[3]).pSuccess == 0.02
    ensures ScenarioRowOf(t, Scenarios[4]).pSuccess == 0.01
  {
  }

  /** Over the built table the five scenarios have success 0.11, 0.19, 0.45, 0.02 and 0.01, in that order. */
  lemma ScenarioValues()
    ensures ScenarioRowOf(Table(), Scenarios[0]).pSuccess == 0.11
    ensures ScenarioRowOf(Table(), Scenarios[1]).pSuccess == 0.19
    ensures ScenarioRowOf(Table(), Scenarios[2]).pSuccess == 0.45
    ensures ScenarioRowOf(Table(), Scenarios[3]).pSuccess == 0.02
    ensures ScenarioRowOf(Table(), Scenarios[4]).pSuccess == 0.01
  {
    CuratedExamples();
    BaseCaseNeighbourValues();
    ScenarioValuesOf(Table());
  }

  /** One row of the sensitivity table. */
  datatype SensitivityRow = SensitivityRow(
    variable: Factor,
    baseValue: bool,
    modifiedValue: bool,
    baseP: real,
    modifiedP: real,
    absoluteChange: real,
    percentChange: real)

  /** The change as a percentage of the base, or 0 when the base is not positive. */
  function PercentChange(change: real, base: real): (pct: real)
    ensures base > 0.0 ==> pct * base == change * 100.0
    ensures base <= 0.0 ==> pct == 0.0
    ensures base > 0.0 ==> (pct > 0.0 <==> change > 0.0)
  {
    if base > 0.0 then (change / base) * 100.0 else 0.0
  }

  /** The row for flipping factor `f` of `base`. */
  function SensitivityRowFor(table: map<Conditions, real>, base: Conditions, f: Factor): SensitivityRow
  {
    var baseP := SuccessOf(table, base);
    var modified := Flip(base, f);
    var modifiedP := SuccessOf(table, modified);
    SensitivityRow(f, Get(base, f), Get(modified, f), baseP, modifiedP,
                   modifiedP - baseP, PercentChange(modifiedP - baseP, baseP))
  }

  /**
   Flipping back: the row for factor `f` at the flipped assignment mirrors the
   row at `base`, with the two probabilities exchanged and the change negated.
   The percentage is the change relative to the base probability.
   */
  lemma SensitivityFlipBack(table: map<Conditions, real>, base: Conditions, f: Factor)
    ensures SensitivityRowFor(table, Flip(base, f), f).modifiedValue == SensitivityRowFor(table, base, f).baseValue
    ensures SensitivityRowFor(table, Flip(base, f), f).baseP == SensitivityRowFor(table, base, f).modifiedP
    ensures SensitivityRowFor(table, Flip(base, f), f).modifiedP == SensitivityRowFor(table, base, f).baseP
    ensures SensitivityRowFor(table, Flip(base, f), f).absoluteChange == -SensitivityRowFor(table, base, f).absoluteChange
    ensures var row := SensitivityRowFor(table, base, f);
      row.baseP > 0.0 ==> row.percentChange * row.baseP == 100.0 * row.absoluteChange
  {
    FlipTwice(base, f);
  }

  /** The unsorted rows, one per factor in canonical order. */
  function SensitivityRows(table: map<Conditions, real>, base: Conditions): (rows: seq<SensitivityRow>)
    ensures |rows| == |CanonicalOrder|
    ensures forall i :: 0 <= i < |rows| ==> rows[i] == SensitivityRowFor(table, base, CanonicalOrder[i])
  {
    seq(|CanonicalOrder|, i requires 0 <= i < |CanonicalOrder| => SensitivityRowFor(table, base, CanonicalOrder[i]))
  }

  /** Rows ordered by signed change, largest first: no row's change exceeds its predecessor's. */
  ghost predicate SortedByChange(rows: seq<SensitivityRow>)
  {
    forall i :: 0 < i < |rows| ==> rows[i - 1].absoluteChange >= rows[i].absoluteChange
  }

  /** In a sorted sequence every row's change is at least that of every later row. */
  lemma {:induction false} SortedByChangePairwise(rows: seq<SensitivityRow>, i: nat, j: nat)
    requires SortedByChange(rows)
    requires i <= j < |rows|
    ensures rows[i].absoluteChange >= rows[j].absoluteChange
    decreases j - i
  {
    if i < j {
      SortedByChangePairwise(rows, i + 1, j);
    }
  }

  /** Inserts `row` before the first row whose change does not exceed its own. */
  function InsertByChange(row: SensitivityRow, rows: seq<SensitivityRow>): (r: seq<SensitivityRow>)
    ensures multiset(r) == multiset(rows) + multiset{row}
    ensures |r| == |rows| + 1
    ensures r[0] == row || (rows != [] && r[0] == rows[0])
  {
    if rows == [] || row.absoluteChange >= rows[0].absoluteChange then [row] + rows
    else
      assert rows == [rows[0]] + rows[1..];
      [rows[0]] + InsertByChange(row, rows[1..])
  }

  /** Inserting into sorted rows keeps them sorted. */
  lemma {:induction false} InsertKeepsSorted(row: SensitivityRow, rows: seq<SensitivityRow>)
    requires SortedByChange(rows)
    ensures SortedByChange(InsertByChange(row, rows))
  {
    if rows != [] && row.absoluteChange < rows[0].absoluteChange {
      var rest := InsertByChange(row, rows[1..]);
      InsertKeepsSorted(row, rows[1..]);
      var r := [rows[0]] + rest;
      assert r == InsertByChange(row, rows);
      forall i | 0 < i < |r|
        ensures r[i - 1].absoluteChange >= r[i].absoluteChange
      {
        if i > 1 {
          assert r[i - 1] == rest[i - 2] && r[i] == rest[i - 1];
        }
      }
    }
  }

  /**
   Sorts rows by signed change, descending. Rows of equal change keep their
   input order.
   */
  function SortByChange(rows: seq<SensitivityRow>): (r: seq<SensitivityRow>)
    ensures SortedByChange(r)
    ensures multiset(r) == multiset(rows)
    ensures |r| == |rows|
  {
    if rows == [] then []
    else
      assert rows == [rows[0]] + rows[1..];
      var sortedTail := SortByChange(rows[1..]);
      InsertKeepsSorted(rows[0], sortedTail);
      InsertByChange(rows[0], sortedTail)
  }

  /** The rows whose change is exactly `v`, in their order in `rows`. */
  function WithChange(rows: seq<SensitivityRow>, v: real): (r: seq<SensitivityRow>)
    ensures forall k :: 0 <= k < |r| ==> r[k].absoluteChange == v
    ensures |r| <= |rows|
  {
    if rows == [] then []
    else (if rows[0].absoluteChange == v then [rows[0]] else []) + WithChange(rows[1..], v)
  }

  /** Insertion places `row` ahead of every row of equal change and keeps their order. */
  lemma {:induction false} InsertStable(row: SensitivityRow, rows: seq<SensitivityRow>, v: real)
    ensures WithChange(InsertByChange(row, rows), v)
            == (if row.absoluteChange == v then [row] else []) + WithChange(rows, v)
  {
    if rows == [] || row.absoluteChange >= rows[0].absoluteChange {
      assert ([row] + rows)[1..] == rows;
    } else {
      var rest := InsertByChange(row, rows[1..]);
      InsertStable(row, rows[1..], v);
      assert ([rows[0]] + rest)[1..] == rest;
    }
  }

  /** The sort is stable: rows of equal change come out in the order they went in. */
  lemma {:induction false} SortStable(rows: seq<SensitivityRow>, v: real)
    ensures WithChange(SortByChange(rows), v) == WithChange(rows, v)
  {
    if rows != [] {
      SortStable(rows[1..], v);
      InsertStable(rows[0], SortByChange(rows[1..]), v);
    }
  }

  /**
   The unsorted rows for the baseline (T, F, F, T, T) over any table that
   agrees with the built one on the baseline and its five one-factor flips.
   */
  lemma {:induction false} BaseCaseRowsOf(t: map<Conditions, real>)
    requires Conditions(true, false, false, true, true) in t && t[Conditions(true, false, false, true, true)] == 0.11
    requires Conditions(false, false, false, true, true) in t && t[Conditions(false, false, false, true, true)] == 0.02
    requires Conditions(true, true, false, true, true) in t && t[Conditions(true, true, false, true, true)] == 0.19
    requires Conditions(true, false, true, true, true) in t && t[Conditions(true, false, true, true, true)] == 0.18
    requires Conditions(true, false, false, false, true) in t && t[Conditions(true, false, false, false, true)] == 0.16
    requires Conditions(true, false, false, true, false) in t && t[Conditions(true, false, false, true, false)] == 0.09
    ensures var rows := SensitivityRows(t, BaseCase);
      && rows[0].variable == LegislativeMajority && rows[0].absoluteChange == -0.09
      && rows[1].variable == CsjnChange && rows[1].absoluteChange == 0.08
      && rows[2].variable == UnionCooperative && rows[2].absoluteChange == 0.07
      && rows[3].variable == ConstitutionalChallenge && rows[3].absoluteChange == 0.05
      && rows[4].variable == EconomicCrisis && rows[4].absoluteChange == -0.02
  {
  }

  /** Sorting rows that are already in order leaves them as they are. */
  lemma {:induction false} SortKeepsSorted(rows: seq<SensitivityRow>)
    requires SortedByChange(rows)
    ensures SortByChange(rows) == rows
  {
    if rows != [] {
      SortKeepsSorted(rows[1..]);
      assert rows == [rows[0]] + rows[1..];
    }
  }

  /** A row whose change is below every other row's is inserted last. */
  lemma {:induction false} InsertSmallest(row: SensitivityRow, rows: seq<SensitivityRow>)
    requires forall k :: 0 <= k < |rows| ==> row.absoluteChange < rows[k].absoluteChange
    ensures InsertByChange(row, rows) == rows + [row]
  {
    if rows != [] {
      InsertSmallest(row, rows[1..]);
      assert rows == [rows[0]] + rows[1..];
    }
  }

  /**
   When the rows after the first are already in order and the first row's
   change is below all of theirs, sorting moves the first row to the end.
   */
  lemma SortMovesSmallestFirstRowLast(rows: seq<SensitivityRow>)
    requires |rows| > 0
    requires SortedByChange(rows[1..])
    requires forall k :: 0 <= k < |rows| - 1 ==> rows[0].absoluteChange < rows[1..][k].absoluteChange
    ensures SortByChange(rows) == rows[1..] + [rows[0]]
  {
    SortKeepsSorted(rows[1..]);
    InsertSmallest(rows[0], rows[1..]);
  }

  /**
   Over any table that agrees with the built one on the baseline and its
   flips, the ranking is court change (+0.08), union cooperation (+0.07),
   constitutional challenge (+0.05), economic crisis (-0.02), legislative
   majority (-0.09).
   */
  lemma {:induction false} BaseCaseRankingOf(t: map<Conditions, real>)
    requires Conditions(true, false, false, true, true) in t && t[Conditions(true, false, false, true, true)] == 0.11
    requires Conditions(false, false, false, true, true) in t && t[Conditions(false, false, false, true, true)] == 0.02
    requires Conditions(true, true, false, true, true) in t && t[Conditions(true, true, false, true, true)] == 0.19
    requires Conditions(true, false, true, true, true) in t && t[Conditions(true, false, true, true, true)] == 0.18
    requires Conditions(true, false, false, false, true) in t && t[Conditions(true, false, false, false, true)] == 0.16
    requires Conditions(true, false, false, true, false) in t && t[Conditions(true, false, false, true, false)] == 0.09
    ensures var ranked := SortByChange(SensitivityRows(t, BaseCase));
      && |ranked| == 5
      && ranked[0].variable == CsjnChange && ranked[0].absoluteChange == 0.08
      && ranked[1].variable == UnionCooperative && ranked[1].absoluteChange == 0.07
      && ranked[2].variable == ConstitutionalChallenge && ranked[2].absoluteChange == 0.05
      && ranked[3].variable == EconomicCrisis && ranked[3].absoluteChange == -0.02
      && ranked[4].variable == LegislativeMajority && ranked[4].absoluteChange == -0.09
  {
    var rows := SensitivityRows(t, BaseCase);
    BaseCaseRowsOf(t);
    SortMovesSmallestFirstRowLast(rows);
  }

  /**
   For the baseline (T, F, F, T, T) over the built table the ranking is by
   signed change, so legislative majority, whose flip changes the
   probability most, comes last.
   */
  lemma BaseCaseRanking()
    ensures var ranked := SortByChange(SensitivityRows(Table(), BaseCase));
      && |ranked| == 5
      && ranked[0].variable == CsjnChange && ranked[0].absoluteChange == 0.08
      && ranked[1].variable == UnionCooperative && ranked[1].absoluteChange == 0.07
      && ranked[2].variable == ConstitutionalChallenge && ranked[2].absoluteChange == 0.05
      && ranked[3].variable == EconomicCrisis && ranked[3].absoluteChange == -0.02
      && ranked[4].variable == LegislativeMajority && ranked[4].absoluteChange == -0.09
  {
    BaseCaseNeighbourValues();
    BaseCaseRankingOf(Table());
  }
}
