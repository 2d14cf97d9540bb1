# Grey Wolf Optimizer for decision-tree hyperparameters

This project models the Grey Wolf Optimizer (GWO) that `heart_disease_streamlit.py` uses to tune
a decision tree. It models four parts:

- the solution codec `decode_solution`;
- the population initialiser `initialize_population`;
- the move rule `update_position`;
- the driver `advanced_gwo`, with the module-level `fitness_history` list it appends to.

A wolf is a position in a 4-dimensional search space. Its components stand for:

- the split criterion;
- `max_depth`;
- `min_samples_split`;
- `min_samples_leaf`.

The driver works as follows:

- It scores every wolf and picks three leaders. Alpha comes from `np.argmax`. Beta and delta come from positions 1 and 2 of the reversed `np.argsort`.
- It runs `max_iter` iterations.
- Each iteration moves every wolf toward a snapshot of the three leaders and rescores it. Both happen in place.
- It then picks new leaders and appends alpha's fitness to the history.

The modules follow the program's structure:

- `Numeric`: Python `round` (ties to even), `abs`, `np.clip` and `random.uniform`, over exact reals.
- `Codec`: `decode_solution`.
- `Population`: `initialize_population`.
- `Update`: `update_position`.
- `Ranking`: `np.argmax` and the reversed `np.argsort`, plus properties of the selected leaders.
- `Driver`: `fitness_function` and `advanced_gwo`.

The driver is imperative. The function `After(r, k)` is the reference state after `k` iterations, and `AlphaHistory(r, k)` is the reference history. The methods keep the swarm in two arrays, and a class `Optimizer` holds the history field. Each method is proved to follow those two functions, and lemmas about them state what the program promises.

Some things the program leaves to its environment, and the model takes them as parameters:

- **Fitness.** `fitness_function` builds a decision tree from `decode_solution(wolf)` and cross-validates it on fixed data. The model takes the scorer of a tree configuration as a parameter `score`. `Driver.Fitness(score, wolf)` is `score(Decode(wolf))`, and the driver scores every wolf with it.
- **Random draws.** Every random draw is a parameter:
  - one `random.random()` value per component for the initial population;
  - six values per component per move.
- **Ranking.** The ranking `np.argsort(fitness)[::-1]` returns is a parameter `rank`. `RanksDescending(rank)` says that `rank` returns some descending ranking, and no tie-break is assumed.

## Ties and the history

- **Leader selection with tied fitness.** Beta is taken from position 1 of `np.argsort(fitness)[::-1]` (lines 172-173). With a stable ascending sort, tied indices come out in increasing order, so the reversal puts the later of two tied indices first. Take fitness values `[0.5, 0.9, 0.7, 0.9, 0.3]`:
  - A stable ascending sort gives `[4, 0, 2, 1, 3]`. Reversed, that is `[3, 1, 2, 0, 4]`.
  - `np.argmax` picks index 1, the first 0.9, as alpha.
  - The ranking also puts index 1 at position 1, so beta is the very wolf that is alpha (`Ranking.BetaMayBeAlpha`).
  - NumPy's default sort is not stable in any case. `Ranking.TiedTopSelection` proves what holds under every tie-break: alpha is index 1, beta's fitness is 0.9 and delta's is 0.7.
- **Who clears the history.** `advanced_gwo` only appends to `fitness_history` (line 195). Its caller clears the list just before each run (line 227). `Driver.Optimizer.Run` models `advanced_gwo` alone and extends whatever history it finds. `Driver.Optimizer.ClearHistory` models the caller's step.

The functions `Driver.Fitness`, `Driver.Evaluate` (lines 166 and 183) and `Driver.MoveSwarm` (lines 181-182) are helpers without contracts of their own. Their rows are those of the members that state something about them:
- `Driver.FitnessSeesOnlyConfig` and `Driver.SameConfigSameFitness` for `Fitness`;
- `Driver.StateConsistent` and `Driver.MoveAndScore` for `Evaluate` and `MoveSwarm`.

## Model

| member | source | states |
|---|---|---|
| Numeric.RoundHalfEven | heart_disease_streamlit.py:92 | `round(x)` is within 0.5 of `x`, and it is even when `x` lies exactly halfway between two integers |
| Numeric.RoundHalfEvenUnique | heart_disease_streamlit.py:92 | those two conditions determine the rounded integer, so they fully specify Python's `round` |
| Numeric.RoundOfInteger | heart_disease_streamlit.py:95-101 | rounding an integer-valued real returns that integer |
| Numeric.Abs | heart_disease_streamlit.py:137 | `abs(x)` is non-negative and is `x` or `-x` |
| Numeric.ClipInt | heart_disease_streamlit.py:96-102 | `np.clip` on an integer never exceeds `hi`; it is at least `lo` when `lo <= hi`; it keeps in-range values, raises values below `lo` to `lo`, and lowers values above `hi` to `hi` |
| Numeric.Clip | heart_disease_streamlit.py:157 | the same clipping laws for a real component |
| Numeric.ClipIdempotent | heart_disease_streamlit.py:157 | clipping an already clipped value changes nothing |
| Numeric.Uniform | heart_disease_streamlit.py:114 | `random.uniform(lo, hi)` lies in `[lo, hi]` when `lo <= hi` and the underlying draw is in [0, 1] |
| Codec.Decode | heart_disease_streamlit.py:91-109 | total on every position of length at least 4; max_depth and min_samples_split lie in [2,10] and min_samples_leaf in [1,10]; the criterion is gini exactly when -0.5 <= wolf[0] <= 0.5 |
| Codec.CriterionCodeZero | heart_disease_streamlit.py:92-93 | `round(x) == 0` exactly when -0.5 <= x <= 0.5 (ties to even) |
| Codec.DecodeEncode | heart_disease_streamlit.py:91-109 | decoding a position whose components are in-range integers, with component 0 in {0,1}, gives back exactly that configuration |
| Codec.DecodeCanonical | heart_disease_streamlit.py:91-109 | decoding is a projection: encoding a decoded configuration and decoding it again yields the same configuration |
| Population.InitialPopulation | heart_disease_streamlit.py:111-116 | `pop_size` wolves of length `dim`; with valid bounds and draws in [0,1), component i of every wolf lies in `bounds[i]` |
| Population.InitializePopulation | heart_disease_streamlit.py:111-116 | the appending loop builds exactly `InitialPopulation` |
| Update.PullWithoutExploration | heart_disease_streamlit.py:135-138 | at `a = 0` the coefficient `A` vanishes and the pull is the leader coordinate itself |
| Update.UpdatedPosition | heart_disease_streamlit.py:130-159 | the new position has the wolf's length; each of the first `dim` components is at most `bounds[i].hi`, and at least `bounds[i].lo` when that bound is valid, whatever the wolf, the leaders, `a` and the draws; the other components are the wolf's |
| Update.UpdateWithoutExploration | heart_disease_streamlit.py:135-157 | at `a = 0` component i is `clip((alpha[i]+beta[i]+delta[i])/3, bounds[i])`, independent of the wolf and the draws |
| Update.UpdatePosition | heart_disease_streamlit.py:130-159 | the copy-and-overwrite loop returns exactly `UpdatedPosition`; the wolf passed in is a value and is not changed |
| Ranking.ArgMax | heart_disease_streamlit.py:168 | `np.argmax` returns an index whose value is the maximum and before which every value is strictly smaller (the first maximum) |
| Ranking.RankedValueIsKthLargest | heart_disease_streamlit.py:172 | position k of a descending ranking holds the k-th largest fitness, counted with multiplicity |
| Ranking.KthLargestUnique | heart_disease_streamlit.py:172 | the k-th largest value is unique |
| Ranking.RankedValueIndependentOfTieBreak | heart_disease_streamlit.py:172 | any two descending rankings hold equal values at every position |
| Ranking.SelectLeaders | heart_disease_streamlit.py:168-176 | alpha is the first maximum of the fitness list; beta and delta are the wolves at positions 1 and 2 of the ranking; each leader is the wolf at its index, with that wolf's fitness |
| Ranking.LeaderFitnessRanks | heart_disease_streamlit.py:168-176 | over a descending ranking, the fitness values of alpha, beta and delta are the 1st, 2nd and 3rd largest; alpha_fitness >= beta_fitness >= delta_fitness; beta and delta are different wolves |
| Ranking.LeaderFitnessIndependentOfTieBreak | heart_disease_streamlit.py:168-176 | alpha and all three leader fitness values are the same under every tie-break of the sort |
| Ranking.TiedTopSelection | heart_disease_streamlit.py:185-193 | for fitness `[0.5, 0.9, 0.7, 0.9, 0.3]` and any descending ranking: alpha is index 1, beta's fitness is 0.9 and delta's 0.7 |
| Ranking.BetaMayBeAlpha | heart_disease_streamlit.py:172-174 | for that list the reversed stable ranking `[3, 1, 2, 0, 4]` is a descending ranking under which beta is the same wolf as alpha |
| Driver.BoundsValid | heart_disease_streamlit.py:162-163 | the driver's bounds have one valid interval per dimension |
| Driver.FitnessSeesOnlyConfig | heart_disease_streamlit.py:118-128 | `fitness_function` depends on a position only through `decode_solution`: two positions that decode to the same configuration have the same fitness |
| Driver.DescendingRanksArePickable | heart_disease_streamlit.py:172-176 | a genuine descending ranking makes `sorted_indices[1]` and `sorted_indices[2]` valid indices |
| Driver.Initial | heart_disease_streamlit.py:165-176 | the initial state keeps the population as its swarm, with aligned arrays and leaders of the right dimension |
| Driver.Coefficient | heart_disease_streamlit.py:179 | `a` lies in (0, 2] for every iteration |
| Driver.CoefficientDecreases | heart_disease_streamlit.py:179 | `a` is 2 at the first iteration and strictly decreases from one iteration to the next |
| Driver.Step | heart_disease_streamlit.py:178-193 | one iteration keeps the swarm size and leaves a well-formed state |
| Driver.After | heart_disease_streamlit.py:165-193 | after every number of iterations the state is well-formed and the swarm keeps `pop_size` wolves |
| Driver.AlphaHistory | heart_disease_streamlit.py:195 | after k iterations the history has gained exactly k entries |
| Driver.HistoryPrefix | heart_disease_streamlit.py:178-195 | the history after k iterations is the first k entries of the history after any later iteration: the list is only appended to |
| Driver.StateConsistent | heart_disease_streamlit.py:165-193 | in every state `wolves` and `fitness` have length `pop_size`, `fitness[i]` is `fitness_function(wolves[i])`, the score of its decoded configuration, and the leaders are the selection over that swarm |
| Driver.AlphaIsMaximum | heart_disease_streamlit.py:185-187 | in every state alpha is a wolf of the swarm, and its fitness is the largest value of the fitness list |
| Driver.HistoryIsPopulationMaximum | heart_disease_streamlit.py:185-195 | the entry that iteration k appends is the largest fitness of the population after that iteration, and it is the fitness of alpha, the wolf at alpha's index |
| Driver.EveryEntryIsMaximum | heart_disease_streamlit.py:178-195 | for every iteration k, entry k-1 of the final history (of length `max_iter`) is the largest fitness of the population after iteration k, and it is the fitness of that state's alpha |
| Driver.SameConfigSameFitness | heart_disease_streamlit.py:118-128 | in every state, two wolves that decode to the same tree configuration hold the same fitness |
| Driver.LeadersAreTopThree | heart_disease_streamlit.py:185-193 | with a descending ranking, in every state the leaders hold the three largest fitness values, and beta and delta are different wolves |
| Driver.RunStaysInBounds | heart_disease_streamlit.py:165-183 | starting from `initialize_population` with genuine draws, every wolf of every state lies inside the bounds |
| Driver.MoveAndScore | heart_disease_streamlit.py:181-183 | the inner loop overwrites every wolf with its move against one leader snapshot, and every fitness slot with the new wolf's score |
| Driver.Start | heart_disease_streamlit.py:165-176 | the arrays and first leaders are exactly the initial state of the population |
| Driver.Advance | heart_disease_streamlit.py:178-193 | moving, rescoring and reselecting on the arrays performs exactly one `Step` |
| Driver.Optimizer.constructor | heart_disease_streamlit.py:160 | the history starts empty |
| Driver.Optimizer.ClearHistory | heart_disease_streamlit.py:227 | the caller's `fitness_history.clear()` empties the history |
| Driver.Optimizer.Run | heart_disease_streamlit.py:161-199 | returns the final alpha and its fitness, or the initial alpha when `max_iter` is 0; the history is extended by exactly `AlphaHistory`, that is `max_iter` entries |
| Driver.Optimizer.MainLoop | heart_disease_streamlit.py:178-197 | after the loop the arrays and leaders are the state after `max_iter` iterations, and the history has gained their alpha fitness values |
| Driver.Optimizer.Iteration | heart_disease_streamlit.py:179-195 | one pass of the loop body takes the arrays from the state after k iterations to the state after k+1 and appends one history entry |

## Left out

- The Streamlit user interface, data loading, the train/test split, and the plots and `print` calls are not modelled. They are presentation and file I/O with no algorithmic content.
- `sklearn` is not modelled: the decision tree and `cross_val_score` behind `fitness_function` are foreign library calls. The scorer `score` of a decoded configuration is a parameter, and no range [0,1] is assumed for it.
- IEEE floating point is not modelled. Every value is an exact real, so rounding errors of the arithmetic, and NaN or infinite inputs, are outside the model.
- Python's random number generator is not modelled. Its values are injected; `UnitDraws` says when they are values `random.random()` can return.
- `np.argsort`'s tie-break is not modelled. `rank` is any function; `RanksPickable` and `RanksDescending` state what is known of it.
- Requires clauses stand for inputs on which the source raises an `IndexError` or a `ValueError` rather than returning. `pop_size >= 3` is one: with `pop_size` 0, `np.argmax([])` on line 168 raises `ValueError`; with 1 or 2, `sorted_indices[1]` or `sorted_indices[2]` raises `IndexError`. Wolves shorter than 4 components are another.
