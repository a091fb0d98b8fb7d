# Population optimisers on the Schwefel function

This project models the four population-based optimisers of CSCI596PROJECT:

- the genetic algorithm `GAAlgorithm`;
- the artificial bee colony `ABCAlgorithm`;
- the ant colony `ACOAlgorithm`;
- the particle swarm `PSOAlgorithm`.

Each engine keeps a fixed-size population of points in the plane and minimises the
two-dimensional Schwefel function over a box `[lo, hi]²`. Its `update` changes that
population in place, one step at a time.

The model is imperative where the source is. Each engine is a class:

- numpy arrays become Dafny `array` fields;
- scalar fields become `var` fields;
- `initialize`, `update`, the GA helpers and `get_positions` become methods with
  the source's own loops.

Every loop is proved against a value-level specification. A datatype holds the
engine's state and a fold function holds "the first `m` iterations". Inductive
lemmas prove what the loop guarantees:

- scores match the points;
- points stay in the box where the code clips;
- counters stay within the scout limit, for a non-negative limit;
- best-so-far records never get worse;
- GA selection picks distinct individuals, best first, while every score is below
  the sentinel 99999999999.

Modules:

- `Space` (space.dfy) holds what all four engines share:
  - points and the search box;
  - the objective;
  - `np.clip`, `np.argmin` and `np.argmax`;
  - the list comprehension that scores a population.
- `GA` (ga.dfy), `ABC` (abc.dfy), `ACO` (aco.dfy) and `PSO` (pso.dfy) hold one
  engine each.

How the model is set up:

- **The objective.** Real arithmetic has no sine or square root. The Schwefel
  formula `418.9829·2 − w(x) − w(y)` is kept, and the per-axis term
  `w(t) = t·sin(√|t|)` is a function value `wave` that each engine receives at
  construction. Every property proved holds for any such map.
- **Randomness.** Each `np.random` draw is a parameter of the method that consumes
  it. Its range is a precondition. Position draws are required to lie in the
  closed box `[lo, hi]²`, which contains numpy's half-open `[lo, hi)`. The other
  draws keep numpy's half-open ranges: `[-1, 1)` for velocities, mutation scalars
  and `phi`, `[-10, 10)` for ant steps, and `[0, 1)` for `r1` and `r2`.
- **numpy views.** ACO's `best_position` and PSO's `global_best_position` are
  numpy row views at first. They keep following later writes to that row. The
  model therefore records which row they view (`ACO.BestPosition`,
  `PSO.GlobalBestView`) and not a point. In ACO, `update` rebinds the record to the
  clipped array of an improving move, which nothing writes to afterwards (`Own`).
  From then on `best_score` is that point's objective (`ACO.OwnScored`, kept by
  `update`).
  In PSO, an improving particle rebinds the global view to its own row of
  `positions`. That row moves on the particle's next step, so the point shown need
  not score `global_best_score`. `PSO.BestsHold` therefore relates the global best
  score only to the personal best scores.
- **The model follows the code where a reader might expect otherwise.**
  - GA `select` writes the sentinel into `self.scores` itself, not into a working
    copy. After a bare `select` the scores no longer match the population, and
    `update` rescores afterwards.
  - Crossover at point `np.uint8(2 / 2) == 1` gives child `k` the x of parent
    `k mod P` and the y of parent `(k + 1) mod P`. The child is a mix, not wholly
    one parent.
  - No constructor validates its parameters or raises `InvalidParameter`.

## Model

| member | source | states |
|---|---|---|
| Space.Clip | algorithms/aco_algorithm.py:24 | `np.clip` of a coordinate lies in `[lo, hi]`, leaves an in-range value alone, sends a value below `lo` to `lo` and one above `hi` to `hi` |
| Space.ClipPoint | algorithms/abc_algorithm.py:72 | a clipped row lies in the box, and a row already in the box is unchanged |
| Space.ArgMin | algorithms/ga_algorithm.py:20 | `np.argmin` returns an index holding the smallest entry, strictly smaller than every earlier one (first occurrence) |
| Space.ArgMax | algorithms/abc_algorithm.py:56 | `np.argmax` returns an index holding the largest entry, strictly larger than every earlier one (first occurrence) |
| Space.NewRows | algorithms/ga_algorithm.py:13 | a uniform `(n, 2)` draw becomes a fresh array holding exactly the drawn rows |
| Space.Evaluate | algorithms/ga_algorithm.py:14 | the score array is fresh and holds the objective of every row, in row order |
| GA.SelectRounds | algorithms/ga_algorithm.py:17-22 | `m` rounds of selection pick `m` indices, each a valid row, and keep the score vector's length |
| GA.SelectMarksPicks | algorithms/ga_algorithm.py:19-22 | while every score is below the sentinel, no individual is picked twice, and the scores left are the sentinel exactly at the picks and the original elsewhere |
| GA.NextPickIsNew | algorithms/ga_algorithm.py:20 | while every score is below the sentinel and before all individuals are picked, the argmin of the overwritten scores is an individual not yet picked |
| GA.PickStep | algorithms/ga_algorithm.py:19-22 | appending a new individual that scores no higher than any unpicked one keeps the picks sorted and still beating the rest |
| GA.SelectPicksBest | algorithms/ga_algorithm.py:19-22 | while every score is below the sentinel, the picks come out in non-decreasing original score, and no individual left out scores lower than a pick |
| GA.SelectFirstIsArgMin | algorithms/ga_algorithm.py:20-21 | the first parent is the first argmin of the scores on entry |
| GA.ParentsAreTheBest | algorithms/ga_algorithm.py:16-23 | while every score is below the sentinel 99999999999: `population_size // 2` distinct parents, sorted by score, none beaten by an individual left out |
| GA.Slot | algorithms/ga_algorithm.py:30-31 | the parent slot a child reads always names a parent |
| GA.CrossoverKeepsGenes | algorithms/ga_algorithm.py:25-34 | every child takes its x from one parent and its y from one parent, so children of in-box parents are in the box |
| GA.MutationShiftsDiagonally | algorithms/ga_algorithm.py:36-40 | mutation keeps the count, and shifts each child by one scalar in `[-1, 1)` on both axes |
| GA.NextGeneration | algorithms/ga_algorithm.py:42-47 | `update` keeps the population size |
| GA.Elitism | algorithms/ga_algorithm.py:42-48 | when the smallest score is the objective of the individual holding it (in particular when the scores match the population), slot 0 of the next generation is the previous first argmin individual, and its score is at most every previous score |
| GA.GAEngine.constructor | algorithms/ga_algorithm.py:7-14 | the population is the drawn rows and the scores are their objectives; every array is fresh, so `update` can follow |
| GA.GAEngine.Initialize | algorithms/ga_algorithm.py:12-14 | fresh arrays: the drawn rows and their objectives |
| GA.GAEngine.Select | algorithms/ga_algorithm.py:16-23 | the parents are the rows picked by repeated first argmin, and `scores` is overwritten in place with the sentinel at each pick |
| GA.GAEngine.PickBest | algorithms/ga_algorithm.py:20-22 | one round: slot `i` of the parents receives the row at the first argmin, and that score becomes the sentinel; nothing else changes |
| GA.GAEngine.Crossover | algorithms/ga_algorithm.py:25-34 | `population_size - P` children, child `k` made of parent `k mod P`'s x and parent `(k+1) mod P`'s y |
| GA.GAEngine.Mutation | algorithms/ga_algorithm.py:36-40 | adds `r[k]` to both coordinates of row `k` in place and returns the same array |
| GA.GAEngine.Update | algorithms/ga_algorithm.py:42-48 | the population becomes the parents followed by the mutated children, and the scores match it afterwards; elitism: when the first smallest score on entry is its holder's objective, that individual stays in slot 0 and the new first score is at most every old score |
| GA.GAEngine.Rescore | algorithms/ga_algorithm.py:48 | the scores are a fresh array holding the objective of every row of the population |
| GA.GAEngine.Breed | algorithms/ga_algorithm.py:43-45 | select, crossover and mutation together produce the rows of the next generation, and `scores` is left with the sentinel at every pick, as `select` leaves it |
| GA.GAEngine.Reassemble | algorithms/ga_algorithm.py:46-47 | the population becomes the parents followed by the children |
| GA.GAEngine.GetPositions | algorithms/ga_algorithm.py:50-56 | the two columns and each row's objective, all of length `population_size` |
| ABC.Neighbor | algorithms/abc_algorithm.py:65-73 | a candidate always lies in the box, and a source whose partner sits on the same spot does not move |
| ABC.TryImprove | algorithms/abc_algorithm.py:24-31 | a strictly fitter candidate replaces the source, takes its fitness and resets its counter; anything else leaves the source and adds one to the counter; other sources are untouched |
| ABC.TryImproveKeepsConsistent | algorithms/abc_algorithm.py:24-31 | accepting or rejecting an in-box candidate keeps every source in the box with fitness equal to its negated objective and a non-negative counter |
| ABC.ForageStep | algorithms/abc_algorithm.py:23-46 | a bee whose gate is closed leaves the colony unchanged |
| ABC.Forage | algorithms/abc_algorithm.py:23-46 | a foraging loop keeps one source, fitness and counter per bee; what it does is stated by `ForageIsGreedy` |
| ABC.ForageStepGreedy | algorithms/abc_algorithm.py:23-46 | one turn keeps the colony consistent, leaves every other bee untouched, and makes a bee with an open gate either improve strictly with a reset counter or stay put with its counter one higher |
| ABC.ForageIsGreedy | algorithms/abc_algorithm.py:23-46 | a foraging loop keeps every source in the box with fitness equal to its negated objective and never lowers a fitness; a closed-gate bee is untouched; a bee that tried either improved strictly with its counter reset or stayed put with its counter one higher |
| ABC.Scout | algorithms/abc_algorithm.py:49-53 | sources over the limit are replaced by their draw, rescored and reset; the others are untouched; with a non-negative limit no counter stays above it |
| ABC.Memorize | algorithms/abc_algorithm.py:56-59 | the record never gets worse, ends at least as fit as every source, and changes only on strict improvement, to a current source |
| ABC.PhasesKeepConsistent | algorithms/abc_algorithm.py:21-53 | one `update` keeps sources in the box and scored, and with a non-negative limit leaves every counter within it |
| ABC.ForagingNeverWorsens | algorithms/abc_algorithm.py:23-46 | the employed and onlooker phases never lower a source's fitness |
| ABC.EvaluateFitness | algorithms/abc_algorithm.py:16 | the fitness array holds the negated objective of every source |
| ABC.ABCEngine.constructor | algorithms/abc_algorithm.py:7-19 | sources are the draws with their fitness, counters are zero, and the record is the first fittest source; every array is fresh, so `update` can follow |
| ABC.ABCEngine.Initialize | algorithms/abc_algorithm.py:13-19 | fresh sources, fitness and zero counters, and the record is a copy of the first fittest source |
| ABC.ABCEngine.GetNeighbor | algorithms/abc_algorithm.py:65-73 | the neighbour of the sources as they stand, in the box |
| ABC.ABCEngine.ForagingPhase | algorithms/abc_algorithm.py:23-46 | the loop leaves the colony exactly as the foraging fold prescribes |
| ABC.ABCEngine.ForageTurn | algorithms/abc_algorithm.py:24-31 | one iteration of a foraging loop is exactly one turn of the fold |
| ABC.ABCEngine.ScoutPhase | algorithms/abc_algorithm.py:49-53 | the loop leaves the colony exactly as the scout phase prescribes |
| ABC.ABCEngine.RunPhases | algorithms/abc_algorithm.py:21-53 | the three loops in order compose the three phases |
| ABC.ABCEngine.Update | algorithms/abc_algorithm.py:21-59 | the colony ends exactly as the three phases prescribe and stays consistent; the record is then memorised, so `best_fitness` never decreases; with a non-negative limit every counter ends within it |
| ABC.ABCEngine.MemorizeBest | algorithms/abc_algorithm.py:56-59 | the record becomes the first fittest source only on strict improvement, and ends a scored in-box point at least as fit as every source |
| ABC.ABCEngine.GetPositions | algorithms/abc_algorithm.py:61-63 | the two columns and `-fitness`, which is each source's objective |
| ACO.Move | algorithms/aco_algorithm.py:23-24 | a moved ant lies in the box, and, from an in-box point, within 10 of its old place on each axis |
| ACO.AntStep | algorithms/aco_algorithm.py:23-31 | one iteration keeps one position, score and pheromone per ant; what it does is stated by `AntStepKeeps` |
| ACO.AntStepKeeps | algorithms/aco_algorithm.py:23-31 | the ant lands in the box within 10 of where it stood and is scored there; its pheromone follows the recurrence; the record never gets worse, changes only on strict improvement to an own copy of the new point, and is no worse than the ant; an own record keeps scoring its point; other ants are untouched |
| ACO.Walk | algorithms/aco_algorithm.py:22-31 | the ants not yet reached keep their positions |
| ACO.WalkThrough | algorithms/aco_algorithm.py:22-31 | after ant `m - 1`'s turn the ants from `m` on keep their positions |
| ACO.WalkKeeps | algorithms/aco_algorithm.py:21-31 | every moved ant is in the box and scored, is no better than the record, and follows the pheromone recurrence; the record never gets worse, is replaced only on strict improvement, and when it is an own copy its score is that point's objective |
| ACO.RecordBelowEveryAnt | algorithms/aco_algorithm.py:29-31 | after `update` the best score is at most every ant's score |
| ACO.ACOEngine.constructor | algorithms/aco_algorithm.py:7-19 | in-box positions with their scores, pheromone 1.0 everywhere, and the record the smallest score, viewing its row; every array is fresh, so `update` can follow |
| ACO.ACOEngine.Initialize | algorithms/aco_algorithm.py:14-19 | the same, on fresh arrays |
| ACO.ACOEngine.Update | algorithms/aco_algorithm.py:21-31 | ants stay in the box and scored; `best_score` never increases, is at most every score, and `best_position` changes only on strict improvement; once `best_position` is an own copy, `best_score` is its objective |
| ACO.ACOEngine.MoveAll | algorithms/aco_algorithm.py:22-31 | the loop leaves the state exactly as the walk prescribes |
| ACO.ACOEngine.MoveAnt | algorithms/aco_algorithm.py:23-31 | one iteration is exactly one ant step |
| ACO.ACOEngine.GetPositions | algorithms/aco_algorithm.py:33-34 | the two columns and the stored scores, which are the objectives |
| PSO.Velocity | pso_algorithm.py:26-28 | a particle sitting on both of its bests keeps only its damped velocity |
| PSO.Advance | pso_algorithm.py:26-29 | the velocity update and the unclipped move keep one position and velocity per particle |
| PSO.Rescore | pso_algorithm.py:30-36 | the rescore and best updates keep one personal best per particle |
| PSO.FlyStep | pso_algorithm.py:25-36 | one iteration keeps the swarm's shape; what it does is stated by `FlyStepParticle`, `FlyStepOthers` and `FlyStepBests` |
| PSO.FlyStepParticle | pso_algorithm.py:25-36 | the particle moves by exactly its new velocity, unclipped; its personal best and the global best never get worse and change only on strict improvement; its personal best is no worse than where it now stands |
| PSO.FlyStepOthers | pso_algorithm.py:25-36 | one iteration leaves every other particle untouched |
| PSO.FlyStepBests | pso_algorithm.py:25-36 | one iteration keeps the invariant `pbest_score[j] == f(pbest[j]) <= f(x[j])` and `global_best_score <= pbest_score[j]` |
| PSO.Fly | pso_algorithm.py:24-36 | the particle count is unchanged; what a pass does is stated by the `FlyKeeps*`, `FlyLeavesRest` and `FlyMovesReached` lemmas |
| PSO.FlyThrough | pso_algorithm.py:24-36 | the state after particle `m - 1`'s turn keeps the particle count |
| PSO.FlyKeepsGlobal | pso_algorithm.py:24-36 | over a pass the global best score never gets worse, and the global best changes only on strict improvement |
| PSO.FlyLeavesRest | pso_algorithm.py:24-36 | the particles a pass has not reached are untouched |
| PSO.FlyKeepsPersonal | pso_algorithm.py:24-36 | over a pass no personal best score gets worse, and a personal best moves only on strict improvement |
| PSO.FlyMovesReached | pso_algorithm.py:24-36 | every particle a pass has reached moved by exactly its new velocity from where it stood, and its personal best is no worse than where it stands |
| PSO.FlyKeepsBests | pso_algorithm.py:23-36 | a pass keeps the best-score invariant |
| PSO.PSOEngine.constructor | pso_algorithm.py:7-21 | drawn positions and velocities, personal bests a copy of the positions with equal scores, and the global best the first smallest score, viewing its personal-best row; every array is fresh, so `update` can follow |
| PSO.PSOEngine.Initialize | pso_algorithm.py:15-21 | the same, on fresh arrays |
| PSO.PSOEngine.Update | pso_algorithm.py:23-36 | the invariant `pbest_score[i] == f(pbest[i]) <= f(x[i])` and `global_best_score <= pbest_score[i]` is kept; global and personal best scores never increase |
| PSO.PSOEngine.MoveAll | pso_algorithm.py:24-36 | the loop leaves the swarm exactly as the fold prescribes |
| PSO.PSOEngine.MoveParticle | pso_algorithm.py:25-36 | one iteration is exactly one particle step |
| PSO.PSOEngine.AdvanceParticle | pso_algorithm.py:26-29 | the velocity and position of particle `i` change exactly as the velocity update and move prescribe |
| PSO.PSOEngine.RescoreParticle | pso_algorithm.py:30-36 | the personal and global bests change exactly as the rescore prescribes |
| PSO.PSOEngine.GetPositions | pso_algorithm.py:38-40 | the two columns and each particle's objective, no lower than its personal best |

## Left out

- `algorithm_interface.py`, the abstract base class: it has no behaviour. The four engines expose the same three operations, and no common interface type is declared.
- `functions/objective_function.py`: the per-axis term `t·sin(√|t|)` is abstracted as the parameter `wave`. The near-zero minimum at 420.9687 is not modelled.
- Floating point: all arithmetic is exact real arithmetic. Rounding, overflow, NaN and infinities are not modelled.
- `np.random`: every draw is an argument. The distributions are not modelled, only the ranges.
- ABC.ABCEngine.Update: the onlooker gate of bee `i` is a boolean argument. The probability `0.9·fitness/max(fitness) + 0.1` that decides it is not modelled, because it divides by a maximum that may be zero or negative.
- ABC.ABCEngine.GetNeighbor: the `while k == index` retry loop is replaced by a partner argument with `k != index`. With one bee the loop never ends, so no probes exist and `update` cannot be called.
- ABC.ABCEngine.Update: the model's trial counters are unbounded integers, where the source's are numpy floats. The limit is any integer.
- ACO.ACOEngine.Update: requires `1 + new_score != 0` for every ant, where numpy would store an infinite pheromone.
- GA.GAEngine.Update: requires `population_size != 1`. With one individual there are no parents, and `k % 0` raises in `crossover`.
- ABC.ABCEngine.constructor, ACO.ACOEngine.constructor and PSO.PSOEngine.constructor require at least one member. `np.argmax`, `np.argmin` and `np.min` of an empty array raise.
- GA.GAEngine.Update: its elitism clause assumes that on entry the first smallest score is the objective of the individual holding it. The scores need not match the whole population, but after a bare `select` that picked every individual, only the sentinel is left and the clause says nothing.
- PSO: the global best point is a numpy view of a row that later moves, so no property relates that point to `global_best_score`.
- GA.GAEngine.GetPositions, ABC.ABCEngine.GetPositions, ACO.ACOEngine.GetPositions and PSO.PSOEngine.GetPositions return copied sequences. The source returns numpy column views of the live arrays.
- `main.py` and `plotting.py` (driver loop, matplotlib rendering, animation, PNG export) are I/O and are not part of this model. `2 algo.py`, an earlier monolithic variant, is not part of this model either.
- `pso_algorithm.py` imports root-level modules, while `main.py` imports a PSO module under `algorithms/` that is not among the files modelled. The root-level file is the one modelled.
