/**
 The posterior evaluator: a lookup of the success probability of one
 assignment, with the failure probability and an echo of the assignment.
 */
module Posterior {
  import opened Factors
  import opened Cpt

  /** What a lookup returns for an assignment the table lacks. */
  const DefaultSuccess: real := 0.05

  datatype PosteriorResult = PosteriorResult(success: real, failure: real, conditions: Conditions)

  /** `table.get(c, 0.05)`. */
  function SuccessOf(table: map<Conditions, real>, c: Conditions): (p: real)
    ensures c in table ==> p == table[c]
    ensures c !in table ==> p == DefaultSuccess
  {
    if c in table then table[c] else DefaultSuccess
  }

  /**
   The posterior for one assignment: success and failure are complementary
   and the conditions are echoed unchanged.
   */
  function PosteriorOf(table: map<Conditions, real>, c: Conditions): (r: PosteriorResult)
    ensures r.success + r.failure == 1.0
    ensures r.conditions == c
    ensures c in table ==> r.success == table[c]
  {
    var p := SuccessOf(table, c);
    PosteriorResult(p, 1.0 - p, c)
  }

  /** Over the built table the 0.05 fallback is never reached: each lookup finds the curated or interpolated entry. */
  lemma LookupNeverDefaults(c: Conditions)
    ensures c in Table()
    ensures SuccessOf(Table(), c) == (if c in Curated() then Curated()[c] else Interpolate(c))
  {
    if c in Curated() {
      CuratedKept(c);
    } else {
      UncuratedInterpolated(c);
    }
  }

  /** Over the built table every posterior is a pair of probabilities: success in [0.01, 0.45], failure in [0.55, 0.99]. */
  lemma PosteriorIsProbability(c: Conditions)
    ensures 0.01 <= PosteriorOf(Table(), c).success <= 0.45
    ensures 0.55 <= PosteriorOf(Table(), c).failure <= 0.99
  {
    TableEntry(c);
  }

  /** The query with its default arguments (T, F, F, T, T) gives 0.11 success and 0.89 failure. */
  lemma DefaultQuery()
    ensures PosteriorOf(Table(), BaseCase) == PosteriorResult(0.11, 0.89, BaseCase)
  {
    CuratedExamples();
  }
}
