/**
 The Monte Carlo engine with its random source made explicit: a trial reads
 six uniform draws, a run of n trials reads the first 6n draws in order.
 */
module MonteCarlo {
  import opened Factors
  import opened Cpt
  import opened Posterior

  /** One simulated trial: the sampled assignment, its looked-up probability and the sampled outcome. */
  datatype SimulationRecord = SimulationRecord(conditions: Conditions, success: bool, probSuccess: real)

  /** Draws consumed by one trial: five factor draws, then one outcome draw. */
  const DrawsPerTrial: nat := 6

  /**
   One trial from its six draws `w`: factor k is true when draw k is below
   its marginal, and the outcome is a success when the sixth draw is below
   the looked-up success probability.
   */
  function Trial(table: map<Conditions, real>, m: Marginals, w: seq<real>): (r: SimulationRecord)
    requires |w| == DrawsPerTrial
    ensures forall k :: 0 <= k < 5 ==> (Get(r.conditions, CanonicalOrder[k]) <==> w[k] < Marginal(m, CanonicalOrder[k]))
    ensures r.probSuccess == SuccessOf(table, r.conditions)
    ensures r.success <==> w[5] < r.probSuccess
  {
    var c := Conditions(
      w[0] < m.legislativeMajority,
      w[1] < m.csjnChange,
      w[2] < m.unionCooperative,
      w[3] < m.constitutionalChallenge,
      w[4] < m.economicCrisis);
    var p := SuccessOf(table, c);
    SimulationRecord(c, w[5] < p, p)
  }

  /** The first `n` trials read from `draws`, trial i from draws 6i .. 6i+5. */
  function Simulate(table: map<Conditions, real>, m: Marginals, draws: seq<real>, n: nat): (rs: seq<SimulationRecord>)
    requires DrawsPerTrial * n <= |draws|
    ensures |rs| == n
    decreases n
  {
    if n == 0 then []
    else Simulate(table, m, draws, n - 1) + [Trial(table, m, draws[DrawsPerTrial * (n - 1) .. DrawsPerTrial * n])]
  }

  /** Record i of a run depends only on its own six draws. */
  lemma {:induction false} SimulateAt(table: map<Conditions, real>, m: Marginals, draws: seq<real>, n: nat, i: nat)
    requires DrawsPerTrial * n <= |draws|
    requires i < n
    ensures Simulate(table, m, draws, n)[i] == Trial(table, m, draws[DrawsPerTrial * i .. DrawsPerTrial * i + DrawsPerTrial])
    decreases n
  {
    if i < n - 1 {
      SimulateAt(table, m, draws, n - 1, i);
    }
  }

  /** Draws after the first 6n are never read by a run of n trials. */
  lemma {:induction false} SimulateReadsOnlyItsDraws(table: map<Conditions, real>, m: Marginals, draws: seq<real>, more: seq<real>, n: nat)
    requires DrawsPerTrial * n <= |draws|
    ensures Simulate(table, m, draws + more, n) == Simulate(table, m, draws, n)
    decreases n
  {
    if n > 0 {
      SimulateReadsOnlyItsDraws(table, m, draws, more, n - 1);
      assert (draws + more)[DrawsPerTrial * (n - 1) .. DrawsPerTrial * n] == draws[DrawsPerTrial * (n - 1) .. DrawsPerTrial * n];
    }
  }

  /** A shorter run over the same draws is a prefix of a longer one. */
  lemma {:induction false} SimulatePrefix(table: map<Conditions, real>, m: Marginals, draws: seq<real>, k: nat, n: nat)
    requires k <= n
    requires DrawsPerTrial * n <= |draws|
    ensures Simulate(table, m, draws, k) == Simulate(table, m, draws, n)[..k]
    decreases n
  {
    if k < n {
      SimulatePrefix(table, m, draws, k, n - 1);
      var shorter := Simulate(table, m, draws, n - 1);
      assert Simulate(table, m, draws, n)[..k] == shorter[..k];
    }
  }

  /** Over the built table every record of a run carries its assignment's table entry, a probability in [0.01, 0.45]. */
  lemma SimulatedRunProbabilities(m: Marginals, draws: seq<real>, n: nat)
    requires DrawsPerTrial * n <= |draws|
    ensures forall i :: 0 <= i < n ==>
      && Simulate(Table(), m, draws, n)[i].probSuccess == Table()[Simulate(Table(), m, draws, n)[i].conditions]
      && 0.01 <= Simulate(Table(), m, draws, n)[i].probSuccess <= 0.45
  {
    forall i | 0 <= i < n
      ensures Simulate(Table(), m, draws, n)[i].probSuccess == Table()[Simulate(Table(), m, draws, n)[i].conditions]
      ensures 0.01 <= Simulate(Table(), m, draws, n)[i].probSuccess <= 0.45
    {
      SimulatedProbabilities(m, draws, n, i);
    }
  }

  /** Over the built table every simulated record carries that assignment's table entry, a probability in [0.01, 0.45]. */
  lemma SimulatedProbabilities(m: Marginals, draws: seq<real>, n: nat, i: nat)
    requires DrawsPerTrial * n <= |draws|
    requires i < n
    ensures Simulate(Table(), m, draws, n)[i].probSuccess == Table()[Simulate(Table(), m, draws, n)[i].conditions]
    ensures 0.01 <= Simulate(Table(), m, draws, n)[i].probSuccess <= 0.45
  {
    SimulateAt(Table(), m, draws, n, i);
    TableEntry(Simulate(Table(), m, draws, n)[i].conditions);
  }
}
