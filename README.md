# Genetic parameter optimiser of a trading bot, in Dafny

This project models the optimisation core of a small cryptocurrency trading
bot. A trading strategy exposes its tunable numbers as `Parameter`s. Each
parameter stores a normalised value and reads it out linearly between a
lower and an upper bound. The strategy turns its parameters into an `Agent`,
a list of `Gene`s. A `GeneticAlgorithm` evolves a population of agents:

- it scores every agent with a fitness function;
- it picks parents by tournament selection;
- it crosses each consecutive pair of parents over at a random point;
- it mutates the children gene by gene (a uniform reset, or a clamped
  sample from the agent's own gene distribution);
- it returns the best agent it saw with its score.

Two helpers complete the core: the half-open `clamp` and `grouper`, which
chunks a list. So does the rule the downloader uses to pick a candle size
for a historical-data request.

The modules follow the source files:

| module | file | content |
|---|---|---|
| `Wrappers` | `wrappers.dfy` | `Option`, `Result`, `Outcome` and the exceptions the code raises |
| `Utils` | `utils.dfy` | `Clamp` (with `math.nextafter`), `Grouper` |
| `Downloader` | `downloader.dfy` | `SelectGranularity` |
| `Genetic` | `genetic.dfy` | `Gene`, `Agent`, `GeneticAlgorithm` and the selection, crossover and mutation functions |
| `Strategy` | `strategy.dfy` | `Parameter` (and `IntParameter` as `NewInt` and `IntValue`), `Strategy` |

How the model is built:

- **Objects.** Genes, agents, parameters and the algorithm are classes,
  because the code updates their fields in place. `Gene.value` is written by
  mutation. The crossover slice swap rewrites `Agent.genes` in place; the model
  assigns the field the spliced sequence, which is the same as long as no
  other reference to that list exists, and none does.
  `GeneticAlgorithm.population` is replaced every iteration. `Parameter.value`
  is written back from an agent.
- **Specification on values.** What an operation does is stated on gene
  values, by functions such as `CrossoverValues`, `MutateAll`,
  `NextGeneration` and `BestIndex`. Each method's contract ties the new
  object state to those functions. Lemmas then state what the functions
  promise.
- **Randomness.** Every random draw is an argument. A `random()` draw is a
  real in [0, 1). `randint(0, n)` is `Floor(u * (n + 1))` of such a draw.
  A `random.sample` is a list of distinct positions. The Gaussian sample is
  the value drawn from it.
- **Fitness.** The fitness function is a function of an agent's gene
  values.

Behaviour of the code that the model keeps:

- `Gene(v)` and `Parameter(...)` use `x or default`. So a gene value of 0.0
  is re-randomised, even when a gene is copied. A bound given as 0 is
  treated as missing. A `mutation_chance` of 0 becomes `1 / gene count`.
- `run_single_iteration` calls the module-level `fitness`, not the stored
  `fitness_function`. The model passes it as an argument. That name exists
  only when genetic.py runs as a script (see "Left out").
- `update_parameters_from_agent` reads the name `parameters` that
  strategy.py imports from `symbol`, not `self.parameters`. The model passes
  the parameter list as an argument (see "Left out").
- `tournament_selection` raises on a population of fewer than three agents.
  `random.sample` raises `ValueError`; a tournament of size 0 raises
  `IndexError`.
- Mutating an agent with a single gene by the Gaussian branch raises
  `StatisticsError`, because a normal distribution needs two samples.
- `run` returns `None` when it runs no iteration. Among equal scores it
  keeps the last agent of a generation and the earliest generation.
- `Parameter` divides by zero when its bounds coincide. This happens, for
  example, with an initial value of 0 and default bounds. A negative initial
  value with default bounds gives `min > max`.
- `IntParameter` inherits the `Parameter` constructor, and its closeness
  assertion calls the overridden, truncating `get_value`. So an
  `IntParameter` whose initial value is not close to a whole number, such as
  2.5 or 0.5, raises `AssertionError`.

## Model

| member | source | states |
|---|---|---|
| Utils.NextAfterDown | utils.py:9 | the value `math.nextafter(max, min)` returns lies strictly between the two bounds |
| Utils.Clamp | utils.py:5-10 | the result lies in [min, max); it is the input itself inside that range, min below it, and the value just below max at or above max |
| Utils.ClampIdempotent | utils.py:5-10 | clamping twice equals clamping once |
| Utils.Grouper | utils.py:13-17 | with n <= 0 there are no chunks; otherwise every chunk has exactly n items and there are just enough chunks to hold the input |
| Utils.GrouperCount | utils.py:13-17 | the number of chunks is ceil(len / n) |
| Utils.GrouperAt | utils.py:13-17 | item j of chunk i is input item i*n + j, or the fill value past the end |
| Utils.GrouperConcat | utils.py:13-17 | the chunks laid end to end are the input followed by fewer than n fill values |
| Utils.PairsOfEven | utils.py:13-17 | for an even-length list and n = 2 there is no fill: chunk i is items 2i and 2i+1 |
| Downloader.AtLeast | downloader.py:33-35 | the comprehension keeps exactly the granularities at least the bound, in the same increasing order |
| Downloader.SelectGranularity | downloader.py:27-38 | the chosen granularity is one of the allowed ones, is at least duration / MAX_CANDLES, and is the smallest such one; "Period is too large" is raised exactly when none qualifies |
| Downloader.AtMostMaxCandles | downloader.py:29-38 | the chosen granularity never yields more than MAX_CANDLES candles |
| Downloader.SelectGranularityMonotone | downloader.py:27-38 | a longer period never gets a smaller granularity, and a period shorter than an accepted one is accepted |
| Downloader.ShortPeriodsUseMinutes | downloader.py:27-38 | any period of at most five hours uses one-minute candles |
| Genetic.Take | genetic.py:115 | `s[:k]` clips at the end of the list and keeps the first items |
| Genetic.Drop | genetic.py:115 | `s[k:]` clips at the end of the list and keeps the remaining items |
| Genetic.Gene.constructor | genetic.py:13-14 | the stored value is the given one unless it is missing or 0.0, in which case it is the `random()` draw |
| Genetic.Gene.Copy | genetic.py:16-17 | a new gene whose value is built from this one's value by the same rule |
| Genetic.CopyValuesAt | genetic.py:14-17 | a copied gene equals the original unless the original is 0.0, which is replaced by a fresh draw |
| Genetic.CopyExactWithoutZeros | genetic.py:25-26 | an agent without a 0.0 gene is copied exactly |
| Genetic.CopyKeepsUnit | genetic.py:12-26 | copying keeps every gene in [0, 1) |
| Genetic.ValuesOf | genetic.py:20-23 | the gene values of a gene list, one per gene, in order |
| Genetic.Agent.constructor | genetic.py:22-23 | the agent holds exactly the given gene list |
| Genetic.Agent.Copy | genetic.py:25-26 | `Agent.copy()` returns a new agent owning new genes whose values are `CopyValues` of the old ones: one gene per gene, each built from the original's value by the `Gene` rule |
| Genetic.LastMaxIndex | genetic.py:99 | `sorted(...)[-1]` under a stable sort: a maximum, strictly greater than every entry after it |
| Genetic.LastMaxIndexUnique | genetic.py:99 | those two properties determine the position |
| Genetic.TournamentIndex | genetic.py:89-100 | fails exactly when k <= 0 (`IndexError` for 0) or k exceeds the population (`ValueError`); otherwise it returns a sampled position with the top score, sampled after every other position with that score (the scores compared are those of the sampled positions, `SampledScores`, in sample order) |
| Genetic.TournamentSelection | genetic.py:89-100 | the winner is the agent of one of the k sampled pairs; no sampled score beats it, and every pair sampled after it scores strictly lower |
| Genetic.RandInt | genetic.py:112 | `randint(0, n)` lies in 0..n |
| Genetic.RecombineAt | genetic.py:115 | for equal-length parents and pt <= L, child 1 takes parent 2's genes before pt and its own after, and child 2 the other way round (`Recombine`, the slice swap on gene values) |
| Genetic.RecombineAtZero | genetic.py:115 | crossover point 0 changes nothing |
| Genetic.RecombineAtEnd | genetic.py:115 | crossover point L swaps the two gene lists completely |
| Genetic.RecombineKeepsGenes | genetic.py:115 | the two children together hold exactly the parents' genes (as multisets) |
| Genetic.CrossoverValuesExact | genetic.py:103-116 | without 0.0 genes, a failed gate returns the parents' values and a passed gate their recombination at the drawn point; equal-length parents give children of that length |
| Genetic.SpliceDistinct | genetic.py:115 | swapping prefixes of two disjoint gene lists gives two disjoint lists without repeated genes |
| Genetic.SpliceOneDistinct | genetic.py:115 | a prefix of one list followed by a suffix of a disjoint one repeats no gene |
| Genetic.SpliceApart | genetic.py:115 | no gene of one spliced list occurs in the other |
| Genetic.SpliceValues | genetic.py:115 | the values of the spliced gene lists are the spliced values |
| Genetic.ValuesOfSplice | genetic.py:115 | the values of two gene lists put together are their values put together |
| Genetic.SpliceMembers | genetic.py:115 | every gene of a spliced list comes from one of the two lists |
| Genetic.Crossover | genetic.py:103-116 | `crossover` returns two new agents owning new, disjoint genes; their values are `CrossoverValues` of the parents' values, and the parents are unchanged |
| Genetic.CopyPair | genetic.py:110 | both parents are copied into new agents whose new genes are disjoint |
| Genetic.SpliceChildren | genetic.py:115 | the slice swap keeps both children owning distinct, disjoint genes taken only from the two children; their values are recombined at pt |
| Genetic.SwapPrefixes | genetic.py:115 | the slice swap sets each child's gene list to the other's prefix followed by its own suffix |
| Genetic.MutatedValue | genetic.py:119-130 | the reset branch writes the uniform draw; the Gaussian branch writes `clamp` of the sample, a value in [0, 1), and raises `StatisticsError` exactly when the agent has fewer than two genes |
| Genetic.MutateGene | genetic.py:119-130 | `mutate` writes only `gene.value`, with `MutatedValue`, or raises and writes nothing |
| Genetic.MutateAllSpec | genetic.py:78-81 | mutation keeps the gene count, keeps every gene whose gate draw is at least the chance, puts every mutated gene in [0, 1), and can fail only on a one-gene agent |
| Genetic.MutateAllGatesClosed | genetic.py:78-81 | with no gate draw below the chance, mutation changes nothing |
| Genetic.GeneticAlgorithm.Mutate | genetic.py:78-81 | `self.mutate(child)` keeps the gene list and sets the gene values to `MutateAll` of the old ones, or raises and leaves them unchanged |
| Genetic.SelectIndices | genetic.py:61-64 | one parent position per slot, each inside the population; fails exactly when a tournament is held in a population smaller than 3 |
| Genetic.SelectIndicesWinners | genetic.py:61-64 | parent slot i holds the winner of tournament i, the one held with that slot's sample |
| Genetic.SelectParents | genetic.py:61-64 | the parents list is the agents at the tournament positions, one per agent; the first failing tournament raises (their gene values are `Pick` of the population's at those positions) |
| Genetic.CollectStep | genetic.py:66-70 | collecting one more pair appends its two children, or stops with its error |
| Genetic.CollectFailureSticks | genetic.py:66-70 | once a pair fails, the iteration raises that first error |
| Genetic.CollectCount | genetic.py:66-70 | every pair contributes two children |
| Genetic.CollectGeneCount | genetic.py:66-70 | children of L genes collected stay children of L genes |
| Genetic.CollectSucceeds | genetic.py:66-70 | when every pair succeeds, so does the loop |
| Genetic.Scores | genetic.py:60 | one score per agent: the fitness of its gene values |
| Genetic.BreedCount | genetic.py:66-70 | breeding p pairs gives 2p children |
| Genetic.OffspringShape | genetic.py:68-70 | two parents of L genes have two children of L genes, and with two genes or more mutation cannot fail |
| Genetic.BreedGeneCount | genetic.py:66-70 | when every parent has L genes, so does every child |
| Genetic.BreedSucceeds | genetic.py:66-70 | agents of at least two genes never make breeding fail |
| Genetic.GrouperPairs | genetic.py:67-68 | for an even number of parents, `grouper(parents, 2)` yields exactly half as many chunks, and chunk k is parents 2k and 2k+1, the pair whose offspring the model breeds |
| Genetic.NextGenerationPairs | genetic.py:59-76 | the next generation is the collected offspring of consecutive pairs of tournament winners, as many children as agents |
| Genetic.NextGenerationSpec | genetic.py:59-76 | a generation has as many agents as the previous one and keeps their gene count; fewer than 3 agents always fail; 3 or more agents of at least 2 genes always succeed |
| Genetic.CrossoverInUnit | genetic.py:103-117 | crossing over parents whose genes lie in [0, 1), with copy redraws in [0, 1), gives children whose genes lie in [0, 1) |
| Genetic.OffspringInUnit | genetic.py:66-70 | the two mutated children of parents with genes in [0, 1) have genes in [0, 1) when the reset draws do |
| Genetic.CollectInUnit | genetic.py:66-70 | collecting pairs whose children have genes in [0, 1) gives a generation whose genes lie in [0, 1) |
| Genetic.NextGenerationInUnit | genetic.py:59-76 | the `Gene` range invariant over a whole generation: a population with genes in [0, 1) and `random()` draws in [0, 1) give a next generation with genes in [0, 1) |
| Genetic.BestIndex | genetic.py:47-56 | the best pair of a run: no score of any generation beats it, every earlier generation scores strictly lower, and within its generation it is `sorted(...)[-1]` |
| Genetic.BestOf | genetic.py:47-56 | the same over the first n generations |
| Genetic.BestOfPrefix | genetic.py:49-55 | later generations do not change the best of the earlier ones |
| Genetic.BestIndexPush | genetic.py:53-55 | one more generation replaces the best only when its own best is strictly greater |
| Genetic.EvolutionPush | genetic.py:49-50 | a successful iteration extends the record of the run by the generation it bred |
| Genetic.BredExtend | genetic.py:49-50 | iterations already recorded stay recorded |
| Genetic.RunShapePush | genetic.py:49-53 | one more iteration of n agents keeps the shape of the record |
| Genetic.BestSoFarPush | genetic.py:53-55 | the loop's `best`, updated by `KeepBest` (`best is None or score > best[1]`), is always the pair at `BestIndex` of the scores so far |
| Genetic.RunRecordPush | genetic.py:49-55 | one finished iteration keeps the loop's record and its best agent's gene values |
| Genetic.PopulationValues | genetic.py:59-76 | the gene values of every agent, in population order |
| Genetic.GenesHoldValues | genetic.py:59-76 | reading gene fields one by one is the same as `PopulationValues` |
| Genetic.PickValues | genetic.py:61-64 | the chosen agents hold the gene values at the chosen positions |
| Genetic.PairValues | genetic.py:67 | the agents of pair k hold the values of pair k |
| Genetic.GenesHoldAppend | genetic.py:70 | appending children appends their gene values |
| Genetic.InitChecks | genetic.py:34-45 | raises for an empty or odd population with the source's messages; otherwise the chance is the given one, or 1 / gene count when it is missing or 0; a missing or 0 chance with a gene-less first agent raises `ZeroDivisionError` |
| Genetic.ZeroChanceIsDefault | genetic.py:45 | an explicit chance of 0 behaves as no chance |
| Genetic.GeneticAlgorithm.Init | genetic.py:43-45 | the fields hold the callback, the population and the chance |
| Genetic.GeneticAlgorithm.New | genetic.py:34-45 | the constructor raises exactly as `InitChecks` says and otherwise stores the population and the resulting chance |
| Genetic.GeneticAlgorithm.Run | genetic.py:47-56 | runs max(iterations, 0) iterations. Each generation is bred from the one before by `NextGeneration`. The first iteration that raises stops the run with its error. The result is `None` for no iteration, else the agent and score at `BestIndex` of all scores, and that agent holds the recorded gene values |
| Genetic.GeneticAlgorithm.Advance | genetic.py:49-55 | one loop iteration: either the iteration raises and nothing changes, or the record grows by one generation and `best` stays the best so far |
| Genetic.GeneticAlgorithm.Keep | genetic.py:50 | one iteration leaves every agent it returns, and the current best agent, with their gene values |
| Genetic.GeneticAlgorithm.Step | genetic.py:50 | one iteration inside `run`: the new population holds `NextGeneration` of the recorded one, or the run stalls with the error |
| Genetic.GeneticAlgorithm.RunSingleIteration | genetic.py:59-76 | returns the previous population and its scores and installs new agents holding `NextGeneration` of the previous values; on error the population is unchanged |
| Genetic.GeneticAlgorithm.Reproduce | genetic.py:60-70 | the scores, then new agents holding `NextGeneration`, or its error |
| Genetic.GeneticAlgorithm.SelectAll | genetic.py:61-64 | the parents hold the gene values of the tournament winners, or a tournament fails |
| Genetic.GeneticAlgorithm.BreedParents | genetic.py:66-70 | breeding the winners yields new agents holding `NextGeneration`, or its error |
| Genetic.GeneticAlgorithm.BreedAll | genetic.py:66-70 | the loop over `grouper(parents, 2)` yields new agents holding the collected offspring, or the first pair's error; the outcomes are `PairOutcomes`, the offspring of pair k bred from parents 2k and 2k+1 |
| Genetic.GeneticAlgorithm.BreedNext | genetic.py:67-70 | pair k yields two new agents holding that pair's offspring, or its error |
| Genetic.GeneticAlgorithm.BreedPair | genetic.py:68-70 | crossover and then mutation of both children give two new agents holding `Offspring` of the parents' values |
| Genetic.GeneticAlgorithm.MutatePair | genetic.py:68-70 | the first child is mutated, then the second; the first failure raises |
| Strategy.Bound | strategy.py:23-24 | `given or fallback`: a missing bound or a bound of 0 falls back |
| Strategy.LowerBound | strategy.py:16-23 | the stored min: the given non-zero bound, else initial - 0.5 * initial |
| Strategy.UpperBound | strategy.py:16-24 | the stored max: the given non-zero bound, else initial + 0.5 * initial |
| Strategy.Normalise | strategy.py:25 | the stored value; fails with `ZeroDivisionError` exactly when max == min |
| Strategy.NormaliseRoundTrip | strategy.py:25-32 | reading out the normalised value gives back the initial value, which is the constructor's closeness assertion holding exactly |
| Strategy.NormaliseInverse | strategy.py:25-32 | normalising a reading recovers the stored value |
| Strategy.NormaliseInUnit | strategy.py:15-25 | an initial value in [min, max) is stored as a value in [0, 1) |
| Strategy.NormaliseAtUpperBound | strategy.py:25 | an initial value equal to max is stored as 1.0 |
| Strategy.ReadOutInRange | strategy.py:15-32 | a value in [0, 1) reads out inside [min, max) |
| Strategy.DefaultBoundsNormalise | strategy.py:16-25 | with default bounds a non-zero initial value is stored as 0.5, and 0 divides by zero |
| Strategy.DefaultBoundsContainInitial | strategy.py:16-24 | a positive initial value lies strictly inside its default bounds |
| Strategy.Truncate | strategy.py:37-38 | `int(x)` truncates toward zero |
| Strategy.TruncateWhole | strategy.py:37-38 | a whole number truncates to itself |
| Strategy.Parameter.constructor | strategy.py:22-25 | the fields hold the given bounds and value |
| Strategy.Parameter.New | strategy.py:18-28 | `Parameter(...)` stores the bounds and the normalised value and reads back as the initial value; it raises `ZeroDivisionError` exactly when the bounds coincide; the closeness assertion holds |
| Strategy.Parameter.NewInt | strategy.py:18-38 | `IntParameter(...)` runs the `Parameter` constructor, whose assertion compares the initial value with the truncated reading: it raises `ZeroDivisionError` when the bounds coincide, otherwise `AssertionError` exactly when the initial value is not close to its truncation (`IsClose`, `math.isclose` with relative tolerance 1e-9 and no absolute tolerance); on success the integer reading is that truncation |
| Strategy.IsCloseSelf | strategy.py:28 | a number is close to itself, so the assertion of `Parameter(...)` never fails over the reals |
| Strategy.IntParameterCloseness | strategy.py:28 | a whole initial value passes `IntParameter`'s assertion; one strictly between -1 and 1 other than 0, or 2.5, fails it |
| Strategy.Parameter.GetValue | strategy.py:30-32 | `get_value`, the read-out `ReadOut(min, max, value) = min + value * (max - min)`, undoes the normalisation, and a value in [0, 1) reads out inside [min, max) |
| Strategy.Parameter.IntValue | strategy.py:35-38 | `IntParameter.get_value` lies within 1 of `get_value`, toward zero |
| Strategy.IntValueOfWhole | strategy.py:35-38 | a whole-number reading is returned unchanged |
| Strategy.ParameterValues | strategy.py:53 | the stored values of the parameters, in order |
| Strategy.UpdatedValues | strategy.py:55-57 | `zip` pairs the first min(#genes, #parameters) parameters with genes, which overwrite them; the rest keep their values |
| Strategy.UpdateAfterCreate | strategy.py:52-57 | making an agent from parameters without a 0.0 value and writing it back changes nothing |
| Strategy.UpdateFromFullAgent | strategy.py:55-57 | writing back an agent with one gene per parameter makes the parameter values its gene values |
| Strategy.Strategy.constructor | strategy.py:42-44 | a new strategy has no parameters |
| Strategy.Strategy.CreateAgentFromParameters | strategy.py:52-53 | a new agent with one new gene per parameter, in order, each built from the parameter's value |
| Strategy.Strategy.UpdateParametersFromAgent | strategy.py:55-57 | the parameter values become `UpdatedValues` of the old ones and the agent's gene values; bounds are unchanged |

## Left out

- Genetic.GeneticAlgorithm.Run: only the returned agent is shown to still hold its recorded gene values. The model does not state that every earlier population keeps its values, although no iteration writes to an earlier population.
- Strategy.Strategy.UpdateParametersFromAgent: requires the parameter objects to be distinct. The code would let a later gene win if one parameter object occurred twice.
- Strategy.Strategy.UpdateParametersFromAgent: as written, the method reads `parameters` from `from symbol import parameters`. That is the standard library's `symbol` module, whose `parameters` is an integer grammar constant, so `parameters.values()` raises `AttributeError`. Where that module no longer exists (Python 3.10 on), importing strategy.py fails with `ModuleNotFoundError`. The model takes the parameter list as an argument, which covers the evidently intended list of the strategy's parameters; those errors are not modelled.
- Strategy.Parameter.New: over the reals the read-out equals the initial value exactly, so the constructor's closeness assertion always holds for a `Parameter`. With floating point it could fail by rounding, and that is not modelled. For `IntParameter` the assertion is modelled (`Parameter.NewInt`).
- Floating point: all arithmetic is on reals. `math.nextafter(max, min)` is modelled as max - (max - min) / 2^53, which is exact for the default [0, 1). NaN and infinities are not modelled.
- `NormalDist.from_samples(...).samples(1)`: the fitted mean and standard deviation are not computed. The sample is a draw argument. Only the clamp applied to it and the error for fewer than two genes are modelled.
- Random draws (`random`, `randint`, `sample`) are arguments, not a generator. Their distributions are not modelled.
- `run_single_iteration` calls the module-level name `fitness`, which genetic.py binds only in its `__main__` block. When the module is imported, as strategy.py imports it, that call raises `NameError`. The model does not include that error: it passes `fitness` as an argument, which is the script case.
- The default `iterations = 1` of `run` and `k = 3`, `cross_rate = 0.9`, `reset_rate = 0.1` are constants the model passes explicitly.
- `Agent.__str__`, `create_candiate`, `random_selection` and the `__main__` block of genetic.py are not part of this model. They are printing, an unused helper and an interactive loop.
- `Strategy.download_data`, `Strategy.trade`, `print_parameters` and the start time are not part of this model. They are abstract, do printing, or read the clock.
- `avg_close_price_percent_diff` and `avg_percent_volatility` are not part of this model. They are float statistics over downloaded candles.
- downloader.py beyond the granularity rule is not part of this model: the exchange client, the disk cache and the product list.
- trader.py, api.py, main.py and the concrete strategies are not part of this model.
