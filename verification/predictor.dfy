/**
 The predictor object: node probabilities and the conditional probability
 table as fields set by the constructor, and the query, simulation and
 analysis operations that read them.
 */
module Predictor {
  import opened Factors
  import opened Cpt
  import opened Posterior
  import opened MonteCarlo
  import opened Analysis

  class MileiReformPredictor {
    var historicalBaseRate: real
    var bayesianPrior: real
    var probLegislativeMajority: real
    var probCsjnChange: real
    var probUnionCooperative: real
    var probConstitutionalChallenge: real
    var probEconomicCrisis: real
    var cptSuccess: map<Conditions, real>

    /** The five node probabilities as one value. */
    function NodeMarginals(): Marginals
      reads this
    {
      Marginals(probLegislativeMajority, probCsjnChange, probUnionCooperative,
                probConstitutionalChallenge, probEconomicCrisis)
    }

    /** The state the constructor establishes and no operation changes. */
    ghost predicate Valid()
      reads this
    {
      && NodeMarginals() == DefaultMarginals
      && cptSuccess == Table()
    }

    constructor ()
      ensures Valid()
      ensures historicalBaseRate == 0.0 && bayesianPrior == 0.05
    {
      historicalBaseRate := 0.0;
      bayesianPrior := 0.05;
      probLegislativeMajority := 0.60;
      probCsjnChange := 0.20;
      probUnionCooperative := 0.15;
      probConstitutionalChallenge := 0.90;
      probEconomicCrisis := 0.65;
      new;
      BuildCpts();
    }

    /** Installs the curated entries and fills in the rest: afterwards the table is the built one. */
    method BuildCpts()
      modifies this`cptSuccess
      ensures cptSuccess == Table()
    {
      cptSuccess := Curated();
      FillMissingCptEntries();
    }

    /**
     Visits the 32 assignments in product order and gives each one without an
     entry its interpolated value; existing entries are left untouched.
     */
    method FillMissingCptEntries()
      modifies this`cptSuccess
      ensures cptSuccess == Filled(old(cptSuccess))
    {
      var all := Product();
      ghost var start := cptSuccess;
      var i := 0;
      while i < |all|
        invariant 0 <= i <= |all|
        invariant forall c :: c in cptSuccess <==> c in start || Code(c) < i
        invariant forall c :: c in cptSuccess ==> cptSuccess[c] == Filled(start)[c]
      {
        var combo := all[i];
        if combo !in cptSuccess {
          cptSuccess := cptSuccess[combo := Interpolate(combo)];
        }
        forall c | Code(c) == i
          ensures c == combo
        {
          FromCodeOfCode(c);
          FromCodeOfCode(combo);
        }
        i := i + 1;
      }
      assert cptSuccess == Filled(start);
    }

    /**
     The posterior for one assignment. The source's default arguments are
     `BaseCase`; see `Posterior.DefaultQuery` for the value they give.
     */
    function CalculatePosterior(c: Conditions): (r: PosteriorResult)
      reads this
      ensures r.success + r.failure == 1.0
      ensures r.conditions == c
      ensures c in cptSuccess ==> r.success == cptSuccess[c]
    {
      PosteriorOf(cptSuccess, c)
    }

    /**
     Runs `n` trials, reading six draws per trial from `draws` (a run of
     `n <= 0` trials is empty and reads nothing); returns the records and the
     draws left unread.
     */
    method MonteCarloSimulation(n: int, draws: seq<real>) returns (results: seq<SimulationRecord>, rest: seq<real>)
      requires DrawsPerTrial * n <= |draws|
      ensures n <= 0 ==> results == [] && rest == draws
      ensures n > 0 ==> |results| == n && rest == draws[DrawsPerTrial * n..]
      ensures results == Simulate(cptSuccess, NodeMarginals(), draws, if n > 0 then n else 0)
    {
      var count: nat := if n > 0 then n else 0;
      results := [];
      rest := draws;
      var t := 0;
      while t < count
        invariant 0 <= t <= count
        invariant rest == draws[DrawsPerTrial * t..]
        invariant results == Simulate(cptSuccess, NodeMarginals(), draws, t)
      {
        var legMaj := rest[0] < probLegislativeMajority;
        var csjn := rest[1] < probCsjnChange;
        var union := rest[2] < probUnionCooperative;
        var constChal := rest[3] < probConstitutionalChallenge;
        var econCrisis := rest[4] < probEconomicCrisis;
        var conditions := Conditions(legMaj, csjn, union, constChal, econCrisis);
        var probSuccess := SuccessOf(cptSuccess, conditions);
        var success := rest[5] < probSuccess;
        assert rest[..DrawsPerTrial] == draws[DrawsPerTrial * t .. DrawsPerTrial * (t + 1)];
        results := results + [SimulationRecord(conditions, success, probSuccess)];
        rest := rest[DrawsPerTrial..];
        t := t + 1;
      }
    }

    /** One row per named scenario, in the scenarios' order, each with complementary success and failure. */
    method AnalyzeScenarios() returns (rows: seq<ScenarioRow>)
      ensures |rows| == |Scenarios|
      ensures forall i :: 0 <= i < |rows| ==> rows[i] == ScenarioRowOf(cptSuccess, Scenarios[i])
      ensures forall i :: 0 <= i < |rows| ==> rows[i].pSuccess + rows[i].pFailure == 1.0
      ensures Valid() ==>
        && rows[0].pSuccess == 0.11 && rows[1].pSuccess == 0.19 && rows[2].pSuccess == 0.45
        && rows[3].pSuccess == 0.02 && rows[4].pSuccess == 0.01
    {
      rows := [];
      var i := 0;
      while i < |Scenarios|
        invariant 0 <= i <= |Scenarios|
        invariant |rows| == i
        invariant forall k :: 0 <= k < i ==> rows[k] == ScenarioRowOf(cptSuccess, Scenarios[k])
      {
        var (name, conditions) := Scenarios[i];
        var posterior := CalculatePosterior(conditions);
        rows := rows + [ScenarioRow(name, posterior.success, posterior.failure, conditions)];
        i := i + 1;
      }
      if Valid() {
        ScenarioValues();
      }
    }

    /**
     Flips each factor of `BaseCase` once, in canonical order, and ranks the
     rows by signed change, largest first.
     */
    method SensitivityAnalysis() returns (rows: seq<SensitivityRow>)
      ensures rows == SortByChange(SensitivityRows(cptSuccess, BaseCase))
      ensures |rows| == |CanonicalOrder|
      ensures SortedByChange(rows)
      ensures multiset(rows) == multiset(SensitivityRows(cptSuccess, BaseCase))
      ensures Valid() ==>
        && rows[0].variable == CsjnChange && rows[1].variable == UnionCooperative
        && rows[2].variable == ConstitutionalChallenge && rows[3].variable == EconomicCrisis
        && rows[4].variable == LegislativeMajority
    {
      var baseProb := CalculatePosterior(BaseCase).success;
      var unsorted: seq<SensitivityRow> := [];
      var i := 0;
      while i < |CanonicalOrder|
        invariant 0 <= i <= |CanonicalOrder|
        invariant unsorted == SensitivityRows(cptSuccess, BaseCase)[..i]
      {
        var variable := CanonicalOrder[i];
        var modified := Flip(BaseCase, variable);
        var modifiedProb := CalculatePosterior(modified).success;
        var change := modifiedProb - baseProb;
        var percentChange := PercentChange(change, baseProb);
        var row := SensitivityRow(variable, Get(BaseCase, variable), Get(modified, variable),
                                  baseProb, modifiedProb, change, percentChange);
        assert row == SensitivityRows(cptSuccess, BaseCase)[i];
        unsorted := unsorted + [row];
        i := i + 1;
      }
      assert unsorted == SensitivityRows(cptSuccess, BaseCase);
      rows := SortByChange(unsorted);
      if Valid() {
        BaseCaseRanking();
      }
    }
  }
}
