# Milei labor-reform predictor, modelled in Dafny

This project models the core of the reform predictor in `models/milei_reform_bayesian_predictor.py`: the class `MileiReformPredictor`. It is a fixed Bayesian network. Five binary parent factors feed one child, "reform success". The factors are legislative majority, change in the composition of the Supreme Court (CSJN), union cooperation, a constitutional challenge being filed, and a deepening economic crisis.

The class holds:

- the marginal probability of each factor;
- a conditional probability table (CPT) from each of the 2^5 = 32 factor assignments to a success probability. 26 entries are curated literals. The other six are filled by a favourability-score interpolation.

On this state it offers four queries: a posterior lookup, a Monte Carlo simulation, a scenario comparison and a one-factor sensitivity analysis.

Modules, one per component:

- `factors.dfy` (`Factors`): the factors, the assignment record `Conditions`, flipping one factor, and the `itertools.product([True, False], repeat=5)` enumeration as a 5-bit position (`Code`/`FromCode`). It also holds the marginals.
- `cpt.dfy` (`Cpt`): the curated entries, the score, the clamp and the interpolation. `Filled` completes a partial table. `Table()` is the table the constructor builds.
- `posterior.dfy` (`Posterior`): the `.get(conditions, 0.05)` lookup and the success/failure/conditions result.
- `montecarlo.dfy` (`MonteCarlo`): one trial and a run of trials over an explicit sequence of uniform draws.
- `analysis.dfy` (`Analysis`): the scenario rows, the sensitivity rows and the descending sort by change.
- `predictor.dfy` (`Predictor`): the class `MileiReformPredictor`. Its fields are the constructor's, including `cptSuccess` as a `map`. Its methods run the source's loops and are proved against the functions above.

Probabilities are Dafny `real`s, so `1.0 - p` and `modified - base` are exact.

Points about the code's behaviour that the model keeps:

- `monte_carlo_simulation(n)` with `n < 0` iterates `range(n)`. It returns no records and raises no error, and the model does the same.
- `sensitivity_analysis` sorts on the column named "Absolute Change". That column holds the signed change `modified - base`, not its magnitude. The model sorts by signed change, descending. For the fixed baseline, legislative majority has the largest magnitude (-0.09), yet it ranks last.
- pandas' default `sort_values` is not guaranteed to be stable. The model's sort is an insertion sort proved stable (`Analysis.SortStable`): rows with equal change keep canonical factor order. The fixed baseline has no ties, so the order is the same either way.
- Every curated literal happens to lie in [0.01, 0.45], so the bound holds for the whole table, not only for the interpolated entries.

## Model

| member | source | states |
|---|---|---|
| Factors.Flip | models/milei_reform_bayesian_predictor.py:271-274 | the modified assignment negates exactly the named factor, keeps every other factor, and differs from the base |
| Factors.FlipTwice | models/milei_reform_bayesian_predictor.py:271-274 | flipping the same factor twice restores the original assignment |
| Factors.FromCode | models/milei_reform_bayesian_predictor.py:107 | decoding position k of the product enumeration gives an assignment whose position is k |
| Factors.FromCodeOfCode | models/milei_reform_bayesian_predictor.py:107 | every assignment is recovered from its position, so the enumeration misses none |
| Factors.Product | models/milei_reform_bayesian_predictor.py:107 | the enumeration has 32 entries, entry k sits at position k, and every assignment occurs in it |
| Cpt.CuratedMissesExactlySix | models/milei_reform_bayesian_predictor.py:58-110 | an assignment lacks a curated entry if and only if it is one of TTTTF, FTTTT, FTTTF, FTFFF, FFTTF, FFTFF |
| Cpt.MissingIsUncurated | models/milei_reform_bayesian_predictor.py:58-100 | none of the six missing assignments has a curated entry |
| Cpt.MissingAtUncurated | models/milei_reform_bayesian_predictor.py:58-100 | the k-th of the six missing assignments has no curated entry |
| Cpt.UncuratedIsMissing | models/milei_reform_bayesian_predictor.py:58-100 | every assignment without a curated entry is one of the six |
| Cpt.CuratedBounds | models/milei_reform_bayesian_predictor.py:58-100 | every curated probability lies in [0.01, 0.45] |
| Cpt.Score | models/milei_reform_bayesian_predictor.py:112 | the favourability count lies in [0, 4.5]; it is 4.5 only for TTTFT and 0 only for FFFTF |
| Cpt.Clamp | models/milei_reform_bayesian_predictor.py:115 | the result lies in [lo, hi], equals x when x is in range, and is the bound x crosses otherwise |
| Cpt.Interpolate | models/milei_reform_bayesian_predictor.py:112-115 | the interpolated probability lies in [0.05, 0.2075]; the clamp never binds, so the value is 0.05 + 0.035 * score |
| Cpt.InterpolateMonotone | models/milei_reform_bayesian_predictor.py:112-115 | a higher favourability score never gives a lower interpolated probability |
| Cpt.InterpolatedValues | models/milei_reform_bayesian_predictor.py:107-115 | the six filled entries are 0.155, 0.1375, 0.12, 0.12, 0.085 and 0.12 |
| Cpt.Filled | models/milei_reform_bayesian_predictor.py:105-115 | completing a partial table gives an entry for every assignment, keeps every present entry, and interpolates exactly the absent ones |
| Cpt.CuratedKept | models/milei_reform_bayesian_predictor.py:109-110 | the built table holds each curated literal unchanged |
| Cpt.UncuratedInterpolated | models/milei_reform_bayesian_predictor.py:109-115 | the built table holds the interpolated value for each assignment without a curated entry |
| Cpt.TableEntry | models/milei_reform_bayesian_predictor.py:58-115 | the built table is total over the 32 assignments and every value lies in [0.01, 0.45] |
| Cpt.CuratedSamples | models/milei_reform_bayesian_predictor.py:62-99 | the curated literals for TFFTT, FFFFF, FFFTF and TTTFT are 0.11, 0.03, 0.01 and 0.45 |
| Cpt.CuratedExamples | models/milei_reform_bayesian_predictor.py:58-110 | built values kept from the curated literals: TFFTT 0.11, FFFFF 0.03, FFFTF 0.01, TTTFT 0.45 |
| Cpt.InterpolatedExamples | models/milei_reform_bayesian_predictor.py:107-115 | built values filled by interpolation: TTTTF 0.155, FFTTF 0.085 |
| Cpt.CuratedNeighbours | models/milei_reform_bayesian_predictor.py:76-97 | the baseline TFFTT and its five one-factor flips all have curated literals: 0.11, 0.02, 0.19, 0.18, 0.16, 0.09 |
| Cpt.BaseCaseNeighbourValues | models/milei_reform_bayesian_predictor.py:76-97 | built values at the baseline TFFTT (0.11) and at its five one-factor flips (0.02, 0.19, 0.18, 0.16, 0.09) |
| Cpt.TableMinimum | models/milei_reform_bayesian_predictor.py:97-99 | FFFTF (0.01) is the table's minimum, and the all-false assignment lies strictly above it |
| Posterior.SuccessOf | models/milei_reform_bayesian_predictor.py:141 | the lookup returns the table's entry when one is present, otherwise the 0.05 default |
| Posterior.PosteriorOf | models/milei_reform_bayesian_predictor.py:137-154 | success and failure sum to 1, the conditions echo the input, and success is the table's entry when present |
| Posterior.LookupNeverDefaults | models/milei_reform_bayesian_predictor.py:105-141 | over the built table every assignment is present, so the 0.05 default is never used: success is the curated or the interpolated value |
| Posterior.PosteriorIsProbability | models/milei_reform_bayesian_predictor.py:141-142 | over the built table success lies in [0.01, 0.45] and failure in [0.55, 0.99] |
| Posterior.DefaultQuery | models/milei_reform_bayesian_predictor.py:117-122 | the query with its default arguments (T, F, F, T, T) gives success 0.11, failure 0.89 and echoes those arguments |
| MonteCarlo.Trial | models/milei_reform_bayesian_predictor.py:170-191 | factor k is true iff draw k is below factor k's marginal (canonical order), prob_success is the lookup of those factors, and success iff the sixth draw is below it |
| MonteCarlo.Simulate | models/milei_reform_bayesian_predictor.py:166-193 | a run of n trials yields exactly n records |
| MonteCarlo.SimulateAt | models/milei_reform_bayesian_predictor.py:168-191 | record i of a run is the trial on draws 6i .. 6i+5 and on nothing else |
| MonteCarlo.SimulateReadsOnlyItsDraws | models/milei_reform_bayesian_predictor.py:168-181 | draws after the first 6n do not affect a run of n trials |
| MonteCarlo.SimulatePrefix | models/milei_reform_bayesian_predictor.py:166-193 | a run of k trials is the first k records of any longer run over the same draws |
| MonteCarlo.SimulatedProbabilities | models/milei_reform_bayesian_predictor.py:177-178 | over the built table each record's prob_success is its assignment's table entry and lies in [0.01, 0.45] |
| MonteCarlo.SimulatedRunProbabilities | models/milei_reform_bayesian_predictor.py:166-193 | the same holds for every record of a run |
| Analysis.ScenarioValuesOf | models/milei_reform_bayesian_predictor.py:202-250 | over any table with the built values at the five scenarios, the rows have success 0.11, 0.19, 0.45, 0.02, 0.01 in order |
| Analysis.ScenarioValues | models/milei_reform_bayesian_predictor.py:202-250 | over the built table the five scenarios have success 0.11, 0.19, 0.45, 0.02, 0.01 in insertion order |
| Analysis.PercentChange | models/milei_reform_bayesian_predictor.py:277 | for a positive base, percent times base is 100 times the change and has its sign; otherwise the percentage is 0 |
| Analysis.SensitivityFlipBack | models/milei_reform_bayesian_predictor.py:270-287 | the row for a factor taken from the flipped assignment mirrors the row from the base: probabilities exchanged, change negated, and the base value as its modified value; the percentage times the base probability is 100 times the change |
| Analysis.SensitivityRows | models/milei_reform_bayesian_predictor.py:269-287 | one row per factor, in canonical order |
| Analysis.SortedByChangePairwise | models/milei_reform_bayesian_predictor.py:289 | in rows sorted by change, every row's change is at least that of every later row |
| Analysis.InsertByChange | models/milei_reform_bayesian_predictor.py:289 | insertion adds exactly the one row (as a multiset) and puts either it or the old head first |
| Analysis.InsertKeepsSorted | models/milei_reform_bayesian_predictor.py:289 | inserting into rows sorted by change keeps them sorted |
| Analysis.SortByChange | models/milei_reform_bayesian_predictor.py:289 | the result is sorted by signed change, descending, and is a permutation of the input |
| Analysis.WithChange | models/milei_reform_bayesian_predictor.py:289 | the rows of one given change, a subsequence no longer than the input |
| Analysis.InsertStable | models/milei_reform_bayesian_predictor.py:289 | insertion puts the new row ahead of the rows of equal change and keeps their order |
| Analysis.SortStable | models/milei_reform_bayesian_predictor.py:289 | for every change value, the rows with that change leave the sort in the order they entered it |
| Analysis.SortKeepsSorted | models/milei_reform_bayesian_predictor.py:289 | rows that are already in order are left as they are |
| Analysis.InsertSmallest | models/milei_reform_bayesian_predictor.py:289 | a row whose change is below all others is placed last |
| Analysis.SortMovesSmallestFirstRowLast | models/milei_reform_bayesian_predictor.py:289 | if the first row's change is below the others and the others are in order, sorting moves the first row to the end |
| Analysis.BaseCaseRowsOf | models/milei_reform_bayesian_predictor.py:259-287 | for the baseline TFFTT, the unsorted changes are -0.09, +0.08, +0.07, +0.05, -0.02 in canonical order |
| Analysis.BaseCaseRankingOf | models/milei_reform_bayesian_predictor.py:259-289 | over any table with those values, the ranking is csjn (+0.08), union (+0.07), challenge (+0.05), crisis (-0.02), legislative (-0.09) |
| Analysis.BaseCaseRanking | models/milei_reform_bayesian_predictor.py:259-289 | over the built table the sensitivity ranking is csjn, union, challenge, crisis, legislative, with those changes |
| Predictor.MileiReformPredictor.constructor | models/milei_reform_bayesian_predictor.py:37-49 | sets the base rate 0.0, the prior 0.05 and the marginals 0.60, 0.20, 0.15, 0.90, 0.65, and builds the table |
| Predictor.MileiReformPredictor.BuildCpts | models/milei_reform_bayesian_predictor.py:51-103 | afterwards `cptSuccess` is the complete built table; no other field changes |
| Predictor.MileiReformPredictor.FillMissingCptEntries | models/milei_reform_bayesian_predictor.py:105-115 | the loop over the 32 assignments leaves `cptSuccess` equal to the completion of its old value: old entries kept, absent ones interpolated |
| Predictor.MileiReformPredictor.CalculatePosterior | models/milei_reform_bayesian_predictor.py:117-154 | success and failure sum to 1, the conditions are echoed, and success is the stored entry when present |
| Predictor.MileiReformPredictor.MonteCarloSimulation | models/milei_reform_bayesian_predictor.py:156-193 | n records (none for n <= 0), equal to `MonteCarlo.Simulate`; exactly the first 6n draws are consumed and the rest are returned |
| Predictor.MileiReformPredictor.AnalyzeScenarios | models/milei_reform_bayesian_predictor.py:195-250 | one row per scenario in insertion order, with success + failure = 1; on the built table the successes are 0.11, 0.19, 0.45, 0.02, 0.01 |
| Predictor.MileiReformPredictor.SensitivityAnalysis | models/milei_reform_bayesian_predictor.py:252-289 | five rows that permute the flip rows, sorted by signed change; on the built table the order is csjn, union, challenge, crisis, legislative |

## Left out

- The global Mersenne Twister (`np.random.seed(42)` and `np.random.rand()`) is not modelled. The draws are an explicit `seq<real>` given to the simulation. Which numbers a seed produces, and any statistical property of the draws, are outside the model.
- Predictor.MileiReformPredictor.MonteCarloSimulation: requires at least 6n draws, because a finite sequence stands in for an unbounded generator. Its contract does not itself restate the [0.01, 0.45] bound on each record; that bound follows from `MonteCarlo.SimulatedRunProbabilities`.
- The default `n_simulations=10000` of `monte_carlo_simulation` (line 156) is not modelled: `MonteCarloSimulation` always takes `n`, as both callers pass 10000 explicitly (lines 400 and 541).
- Statistical claims are not stated. One example: that the mean of the sampled outcomes is close to the mean of `prob_success`.
- IEEE-754 rounding is not modelled: probabilities are exact reals. For example, the interpolated 0.155 is exact here, but only approximately so in binary floating point.
- pandas DataFrames are modelled as sequences of row records. The sensitivity row's "Variable" label (the factor name, title-cased) is the `Factor` value itself, not a formatted string.
- The scenario row's five spread condition columns are held as one `Conditions` value.
- The plotting methods (`plot_scenario_comparison`, `plot_sensitivity`, `plot_monte_carlo_distribution`) are not modelled: they only render charts.
- `generate_report` is not modelled: it is text formatting. Its `np.mean`/`np.percentile` interval is floating-point statistics.
- `main` is not modelled: it writes files.
- `visualizations/interactive_dashboard.py`, `scripts/generate_labor_figures.py` and `scripts/generate_figures_v5_corrected.py` are not part of this model. They render charts from constants or from a data file that is not available.
- `historical_base_rate` and `bayesian_prior` are set by the constructor but read by no modelled operation.
