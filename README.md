# Genetic-algorithm search engine for load-forecast models

This project models the search engine behind the load-forecasting tool: seven genetic-algorithm variants that tune a neural network for power-system load prediction.

- Three architecture searches:
  - strict-improvement best tracking (`structure_ga.py`);
  - a cumulative Pareto archive (`optimize_ga.py`);
  - a per-generation Pareto front over (layers, neurons) shapes (`ga_multiobjective_opt.py`).
- Two feature-mask searches: cancellable (`features_ga.py`) and uncancellable (`ga_load_features.py`).
- Two hyper-parameter searches: ranged draws (`params_ga.py`) and choice lists (`ga_model_params.py`).

Training a model on one time-series fold is an oracle `fold(candidate, f)` that returns the fold's MAE and RMSE. Everything the variants do around that oracle is modelled:
- the sentinel `1e9` guards;
- the stop-flag polls;
- stable sorting by MAE and elitism;
- crossover, mutation and anti-stagnation;
- best-so-far tracking (strict improvement or per-generation overwrite);
- Pareto filtering;
- the progress callback and its veto;
- the exceptions a run lets escape.

Randomness is explicit:
- A numpy `RandomState` is `Search.Rng`, whose k-th `randint`, `rand` or log-uniform draw is a function of k with the range numpy guarantees.
- Python's `random.choice` is `Search.Choice`: its k-th call on a list of length n returns an index below n.
- The stop flag is the sequence of answers to its polls.
- A callback is the sequence of its `False` answers.
- A run returns the trace of callback calls it made, as `Report`s.

Modules follow the source files:
- `Search`: shared evaluation loop, sorting, best tracking and filters.
- `Architecture`: layer-width tuples.
- `StructureSearch`, `ArchiveSearch`, `MultiObjective`: the three architecture searches.
- `Mask`: bit masks.
- `FeatureSearch`, `LoadFeatureSearch`: the two feature-mask searches.
- `ParamSearch`, `ModelParamSearch`: the two hyper-parameter searches.

Generation loops, evaluation loops and breeding loops are methods with loop invariants. Each is proved against specification functions (`SortByMae`, `ArchiveFront`, `Front`, `LastBest`, `RunningBest`, `Champion`), and the properties of those functions are proved as lemmas. The in-place bit flip of a child is a method on an `array<int>`.

The code and the documented behaviour disagree at one point. The docstring of `pareto_front` (`optimize_ga.py:31`) says it returns only the non-dominated solutions, so records tied on both errors, neither of which dominates the other, should survive the Pareto filter. `pareto_front` in `optimize_ga.py` instead treats any other record that is no worse on both errors as covering, so two tied records with different architectures remove each other. This model follows the code: see `ArchiveSearch.TiedRecordsDropped` and `ArchiveSearch.TiedPairFrontEmpty`.

## Model

| member | source | states |
|---|---|---|
| Search.CrossValidate | structure_ga.py:11-23 | The fold loop stops at the first raised poll before a fold. It is cancelled iff some poll among the `splits` polls is raised. Otherwise it returns exactly the MAE and RMSE of every fold, in order. |
| Search.SortByMae | structure_ga.py:55 | `scored.sort(key=mae)` gives a permutation of its input that is ordered by MAE. |
| Search.SortHeadIsFirstMin | structure_ga.py:55 | The sort is stable at the head: the first sorted entry is the earliest entry with the smallest MAE. |
| Search.SortHeadIsMinimal | features_ga.py:62-63 | The first sorted entry belongs to the list and has the smallest MAE in it. |
| Search.WindowSize | structure_ga.py:69 | `scored[:5]` has at most five entries, no more than the list, and at least one when the list is non-empty. |
| Search.Improve | structure_ga.py:57-58 | Strict-improvement update: the result is the new champion or the old best, and its MAE is no larger than either. |
| Search.RunningBest | params_ga.py:58-59 | The best of a run of champions is `None` iff there are none. Otherwise it is one of them, with a MAE no larger than any of them. |
| Search.ImproveIsRunningBest | structure_ga.py:57-58 | Folding `Improve` over the generation champions computes `RunningBest`, so the tracked MAE never increases and is at most every champion's MAE. |
| Architecture.UnitsBounds | optimize_ga.py:23 | `sum(arch)` of widths in [8,63] lies between 8 and 63 times the depth. |
| Architecture.RandomArch | optimize_ga.py:25-28 | `random_arch` yields 1 to 3 layers, each 8 to 63 units wide. |
| Architecture.InitialPopulation | optimize_ga.py:47 | The initial population has `pop_size` valid architectures. |
| Architecture.EvaluateArch | optimize_ga.py:7-23 | Polls at entry and before each fold. Any raised poll gives `(1e9,1e9,1e9)` at the poll that was raised. With no raised poll, the result is the fold means and `sum(arch)`. |
| Architecture.ScoreAll | optimize_ga.py:56-62 | One scored tuple per architecture, in population order. Each is the sentinel or the completed score, and all are completed when no poll is raised. |
| Architecture.SortKeepsValid | optimize_ga.py:74 | Sorting scored tuples keeps every architecture valid. |
| Architecture.Crossover | optimize_ga.py:87-93 | With both parents at least two layers deep, the child is `p1[:cut] + p2[cut:]` with the length of `p2`. Otherwise it is the parent that was picked. Either way it stays valid. |
| Architecture.Redraw | optimize_ga.py:97-100 | Replaces exactly the position `idx` by the new width and keeps every other position and the length. |
| Architecture.RedrawKeepsValid | optimize_ga.py:96-107 | Redrawing one width from [8,63] keeps an architecture valid and its depth unchanged. |
| ArchiveSearch.ParetoFront | optimize_ga.py:30-41 | The nested scan returns `ArchiveFront`: the records that no other record covers, in archive order. |
| ArchiveSearch.ArchiveFrontIsSublist | optimize_ga.py:30-41 | The archive front is an order-preserving sub-list of the archive. |
| ArchiveSearch.ArchiveFrontMembers | optimize_ga.py:33-40 | A record is kept iff it is archived and no different record is no worse on both errors. No two kept records cover each other. |
| ArchiveSearch.DuplicatesKept | optimize_ga.py:36 | A kept record keeps all of its exact duplicates. |
| ArchiveSearch.TiedRecordsDropped | optimize_ga.py:36 | Two records with equal MAE and RMSE and different architectures are both dropped. |
| ArchiveSearch.TiedPairFrontEmpty | optimize_ga.py:36 | An archive of two such records has an empty front. |
| ArchiveSearch.ArchiveFrontIdempotent | optimize_ga.py:30-41 | Filtering the front again returns the same front. |
| ArchiveSearch.Mutated | optimize_ga.py:86-100 | The child after crossover and the 0.6 mutation: the crossover itself, or the crossover with one position replaced. |
| ArchiveSearch.Child | optimize_ga.py:102-107 | A mutated child that equals a parent has one more position redrawn. Any other child is appended unchanged. |
| ArchiveSearch.RedrawLeavesParent | optimize_ga.py:102-107 | When the anti-stagnation redraw changes the width it replaces, the child differs from the parent it copied. |
| ArchiveSearch.RedrawMayHitOtherParent | optimize_ga.py:102-107 | The single redraw does not guarantee novelty: an input exists where the redrawn child equals the other parent. |
| ArchiveSearch.Mate | optimize_ga.py:86-109 | One child is bred from two of the five lowest-MAE entries, with draws in numpy's and `random`'s ranges, and is valid. |
| ArchiveSearch.Breed | optimize_ga.py:82-110 | The elite comes first. At most `pop_size` individuals, exactly `pop_size` when no poll is raised. Every child is bred from the ranked list. |
| ArchiveSearch.Generation | optimize_ga.py:51-110 | One generation: the stop exits, one tuple per population member scored from that member, completed in a quiet run, the champion (the sorted head) leading the next population, the `Started` and champion reports, and full sizes when nothing stops. When the poll after scoring is raised, the trace is `Started` alone. |
| ArchiveSearch.ScorePass | optimize_ga.py:51-65 | The two stop polls, the `Started` report, and one tuple scored from each population member, in order and completed when nothing stops. A raised poll leaves nothing scored. |
| ArchiveSearch.LineageStep | optimize_ga.py:67-82 | Appending a scored generation led by the previous champion keeps `Lineage` and extends the archive by exactly that generation's tuples. |
| ArchiveSearch.ArchiveSize | optimize_ga.py:70-71 | The archive holds at most `pop_size` records per generation, and exactly `pop_size` per generation in a quiet run. |
| ArchiveSearch.ConcatCompleted | optimize_ga.py:70-71 | When every archived generation holds completed scores, every record of the archive does. |
| ArchiveSearch.Generations | optimize_ga.py:50-110 | The archive is the concatenation of every archived generation's scored list, in order. Each entry is scored from its population member, every population after the first starts with the previous champion, and every entry is completed when nothing stops. |
| ArchiveSearch.Run | optimize_ga.py:43-113 | Returns `ArchiveFront` of the archive, which is the concatenation of the scored generations with the `Lineage` facts of `Generations`; when nothing stops every archived record is the completed score of its architecture. It raises `IndexError` only for an empty population and returns `[]` when the first poll is raised or `n_gen <= 0`. With nothing stopping it runs `max(n_gen,0)` generations and archives exactly `pop_size` records per generation. |
| MultiObjective.Hidden | ga_multiobjective_opt.py:18 | `(neurons,) * layers`: `layers` copies of `neurons`. |
| MultiObjective.EvaluateArchitecture | ga_multiobjective_opt.py:14-27 | The shape's fold means, with the shape attached. |
| MultiObjective.DominanceIsStrictOrder | ga_multiobjective_opt.py:29-31 | `dominates` is irreflexive, asymmetric and transitive. Records tied on both errors do not dominate each other. |
| MultiObjective.NonDominated | ga_multiobjective_opt.py:54-58 | The loop builds `Front(evals)`, which is never longer than `evals`. |
| MultiObjective.FrontIsSublist | ga_multiobjective_opt.py:54-58 | The front is an order-preserving sub-list of the generation's evaluations. |
| MultiObjective.FrontMembers | ga_multiobjective_opt.py:55-57 | A candidate is in the front iff it was evaluated and nothing evaluated dominates it. No two front members dominate each other. |
| MultiObjective.TiesSurviveTogether | ga_multiobjective_opt.py:55-57 | An evaluation tied on both errors with a front member is itself in the front. |
| MultiObjective.FrontNonEmpty | ga_multiobjective_opt.py:54-58 | A non-empty generation has a non-empty front. |
| MultiObjective.InitialShapes | ga_multiobjective_opt.py:42 | `pop_size` shapes with layers in {1,2,3} and neurons in {16,32,64,128}. |
| MultiObjective.EvaluatePopulation | ga_multiobjective_opt.py:46-51 | One evaluation per shape, in population order. |
| MultiObjective.NextPopulation | ga_multiobjective_opt.py:65-75 | The front's shapes come first, in front order. Exactly `pop_size` shapes, all within the choice lists. |
| MultiObjective.ReportFront | ga_multiobjective_opt.py:60-62 | One callback call per front member, in front order. |
| MultiObjective.ReportsStep | ga_multiobjective_opt.py:45-62 | Each generation adds its front's calls to the trace and becomes the front the run holds. A non-empty generation's front is non-empty. |
| MultiObjective.Generation | ga_multiobjective_opt.py:46-75 | Scores the population in order, keeps `Front(evals)`, reports it, and breeds `pop_size` valid shapes that start with the front. |
| MultiObjective.Optimize | ga_multiobjective_opt.py:33-77 | Runs `max(n_gen,0)` generations. Returns the last generation's front, which is non-empty when there was a generation and a population. The callback trace is every generation's front in order. |
| StructureSearch.Child | structure_ga.py:70-83 | Crossover, then with a draw below 0.3 one width replaced. The child stays valid and keeps the crossover's depth. |
| StructureSearch.Mate | structure_ga.py:69-85 | One child is bred from two of the five lowest-MAE entries, with draws in range, and is valid. |
| StructureSearch.Breed | structure_ga.py:65-86 | The elite comes first. At most `pop_size` individuals, exactly `pop_size` when no poll is raised. Every child's lineage is recorded. |
| StructureSearch.Generation | structure_ga.py:38-86 | The stop exits and the veto. A ranked generation scores each population member, its champion is the sorted head with the smallest MAE, and that champion leads the next population. `best` stays the `RunningBest` of the champions, and the reports are `Started` then the champion. When the poll after scoring is raised, the trace is `Started` alone. |
| StructureSearch.ProgressStep | structure_ga.py:54-65 | Ranking one more generation led by the previous champion keeps `Progress`: each generation ranked with its minimal sorted head, each later population led by the previous champion, all scores completed in a quiet run. |
| StructureSearch.BestScored | structure_ga.py:57-58 | The running best of ranked generations is one of their scored tuples: the sentinel or its own architecture's completed score, and the completed score in a quiet run. |
| StructureSearch.Generations | structure_ga.py:37-86 | The generation loop keeps `Progress` over the ranked generations and `best` as the `RunningBest` of their champions. It ranks nothing and reports nothing when `n_gen <= 0` or the first poll is raised; the empty-population error needs `pop_size == 0`; with nothing stopping it ranks `max(n_gen,0)` generations. |
| StructureSearch.Run | structure_ga.py:30-88 | Returns the `RunningBest` of the generation champions, `None` exactly when no generation was ranked, and `None` with no reports when `n_gen <= 0` or the first poll is raised. The returned best is the score of its own architecture (the completed score when nothing stops), and the ranked generations satisfy `Progress`. It raises `IndexError` only for an empty population, and with nothing stopping it ranks `max(n_gen,0)` generations. |
| ParamSearch.RandomInd | params_ga.py:32-33 | `hidden` is in [16,63], `lr` in [1e-4,1e-2], `alpha` in [1e-6,1e-3]. |
| ParamSearch.InitialPopulation | params_ga.py:35 | `pop_size` individuals within those ranges. |
| ParamSearch.EvaluateParams | params_ga.py:7-25 | A raised poll gives `(1e9,1e9)`. With no raised poll, the result is the fold means. |
| ParamSearch.ScoreAll | params_ga.py:44-50 | One tuple per individual, in order, each sentinel or completed. All are completed when no poll is raised. |
| ParamSearch.SortKeepsValid | params_ga.py:56 | Sorting keeps every individual within range. |
| ParamSearch.Mix | params_ga.py:70-72 | Each field of the pre-mutation child is that field of `p1` or of `p2`. |
| ParamSearch.ChildFields | params_ga.py:70-78 | An unmutated field comes from a parent. Children of in-range parents are in range. |
| ParamSearch.Mate | params_ga.py:69-79 | One child is bred from two of the five lowest-MAE entries with draws in range. It stays within range, uses five `random.choice` calls, and uses three to six numpy draws. |
| ParamSearch.Breed | params_ga.py:65-80 | The elite comes first. Exactly `pop_size` individuals when no poll is raised, all within range. |
| ParamSearch.Generation | params_ga.py:39-80 | The stop exits and the veto. A ranked generation scores each individual, its champion is the sorted head with the smallest MAE, and that champion leads the next population. `best` stays the `RunningBest` of the champions, and the reports are `Started` then the champion. When the poll after scoring is raised, the trace is `Started` alone. |
| ParamSearch.ProgressStep | params_ga.py:55-65 | Ranking one more generation led by the previous champion keeps `Progress`: each generation ranked with its minimal sorted head, each later population led by the previous champion, all scores completed in a quiet run. |
| ParamSearch.BestScored | params_ga.py:58-59 | The running best of ranked generations is one of their scored tuples: the sentinel or its own individual's completed score, and the completed score in a quiet run. |
| ParamSearch.Generations | params_ga.py:38-80 | The generation loop keeps `Progress` over the ranked generations and `best` as the `RunningBest` of their champions. It ranks nothing and reports nothing when `n_gen <= 0` or the first poll is raised; the empty-population error needs `pop_size == 0`; with nothing stopping it ranks `max(n_gen,0)` generations. |
| ParamSearch.Run | params_ga.py:27-82 | Returns the `RunningBest` of the champions, `None` exactly when no generation was ranked, and `None` with no reports when `n_gen <= 0` or the first poll is raised. The returned best is the score of its own individual (the completed score when nothing stops), and the ranked generations satisfy `Progress`. It raises `IndexError` only for an empty population, and with nothing stopping it ranks `max(n_gen,0)` generations. |
| Mask.Where | features_ga.py:10 | `np.where(mask == 1)[0]`: exactly the positions holding 1, increasing. |
| Mask.WhereCount | features_ga.py:58 | A mask selects `ind.sum()` columns. |
| Mask.WhereEmptyIffZero | features_ga.py:10-12 | No column is selected iff the mask is all zeros. |
| Mask.Features | features_ga.py:69 | One name per selected column. |
| Mask.FeaturesSelected | features_ga.py:69 | The names are `cols[i]` for exactly the selected `i`, in column order. Their number is the mask's sum, and all are in `cols`. |
| Mask.Splice | features_ga.py:83 | `p1[:cx] ++ p2[cx:]`, of the parents' length. |
| Mask.SpliceIsMask | features_ga.py:83 | Splicing two masks gives a mask. |
| Mask.Flipped | features_ga.py:84-85 | Exactly the positions whose draw is below the rate change, and a 0/1 entry stays 0/1. |
| Mask.FlipTwice | features_ga.py:85 | Flipping twice with the same draws restores the mask. |
| Mask.FlipBits | features_ga.py:85 | The in-place flip leaves the array equal to `Flipped` of its old contents. |
| Mask.Uniforms | features_ga.py:84 | `rng.rand(n)`: `n` draws in [0,1). |
| Mask.ChildIsMask | features_ga.py:82-86 | A child of two masks is a mask over the same columns. |
| Mask.Offspring | features_ga.py:82-86 | The cut is in [1, n-2]. There are `n` flip draws, and the child is their `Child`, a mask. |
| Mask.InitialMasks | features_ga.py:40 | `pop_size` masks over `n` columns. |
| Mask.MaskScore | features_ga.py:10-29 | An empty mask gives `(1e9,1e9,1e9)`. Otherwise the result is the fold means. |
| Mask.BestOf | features_ga.py:63-71 | For a mask whose count is its sum, `n_features` equals the number of selected names, and every name is taken from `cols`. |
| Mask.SortKeepsMasks | features_ga.py:62 | Sorting keeps every mask. |
| Mask.LastBest | ga_load_features.py:45-54 | `None` iff no generation was ranked. Otherwise a mask of the last generation with the smallest MAE in it and its selected names. |
| Mask.LastBestStep | ga_load_features.py:45-54 | Ranking a generation makes its sorted head the `best`. |
| FeatureSearch.EvaluateSubset | features_ga.py:6-29 | A raised entry poll or an empty mask gives the sentinel after one poll. Any raised poll gives the sentinel. With no raised poll, the result is `MaskScore`. |
| FeatureSearch.EvaluateAll | features_ga.py:50-58 | The scoring loop stops at the first raised poll. Every tuple belongs to the mask at its position, and all are exact when no poll is raised. |
| FeatureSearch.Breed | features_ga.py:76-87 | The elite mask comes first, and every individual is a mask. The breed fails iff a child is needed and `n <= 2`. Otherwise it produces exactly `pop_size` masks when no poll is raised. |
| FeatureSearch.Generation | features_ga.py:43-87 | The stop exits and both vetoes. A ranked generation holds one evaluation per scored mask, its champion leads the next population, and `best` becomes `LastBest` of the ranked generations. The reports are `Started` then the champion. Once the first poll passes, an unranked generation (a veto, a raised poll or nothing scored) leaves `Started` alone in the trace. |
| FeatureSearch.ScorePass | features_ga.py:44-60 | The stop polls, the pre-scoring callback and its veto, and one evaluation per mask in order, exact when nothing stops. A raised poll, a veto or an empty list leaves the generation unranked. |
| FeatureSearch.BreedPass | features_ga.py:73-87 | The post-ranking callback report and its veto, then breeding headed by the sorted champion. Breeding fails only when `n <= 2` and a child is needed. |
| Mask.ChampionMask | features_ga.py:62-63 | The mask at the sorted head belongs to an evaluation of the generation with the smallest MAE in it. |
| FeatureSearch.ProgressStep | features_ga.py:62-71 | Ranking one more generation keeps `Progress`: every generation is a list of masks evaluated from themselves, each later generation is led by the previous champion mask, `best` is `LastBest`, and evaluations are exact in a quiet run. |
| FeatureSearch.BestEvaluated | features_ga.py:62-71 | The `best` dictionary of the last ranked generation holds the sentinel or its mask's full score, exactly the full score in a quiet run, and `n_features` equal to the mask's sum. |
| FeatureSearch.Generations | features_ga.py:43-87 | The loop keeps `Progress`: every ranked generation evaluated from its own masks, each led by the previous champion, `best` their `LastBest`, all exact when nothing stops. A raised first poll or a first veto leaves nothing ranked, and the `ValueError` needs `n <= 2` and a ranked generation. |
| FeatureSearch.Run | features_ga.py:32-89 | Returns `LastBest` of the ranked generations, whose record carries its own mask's evaluation (exactly `MaskScore` when nothing stops) and a count equal to the mask's sum. `None` with no reports when the first poll is raised or `n_gen <= 0`, and `None` after one `Started` report when the first callback vetoes. It raises `ValueError` only when `n <= 2` and a child is needed, and with `n > 2` it always returns. With nothing stopping it runs full generations. |
| LoadFeatureSearch.EvaluateLoadFeatures | ga_load_features.py:6-25 | Exactly `MaskScore`: the sentinel for an empty mask, the fold means otherwise. |
| LoadFeatureSearch.EvaluatePopulation | ga_load_features.py:38-43 | One exact tuple per mask, in order. |
| LoadFeatureSearch.Breed | ga_load_features.py:59-68 | The elite comes first, and every individual is a mask. Fails iff `n <= 2` and `pop_size > 1`, and otherwise produces exactly `pop_size` masks. |
| LoadFeatureSearch.ChampionReportsMinimal | ga_load_features.py:45-57 | The g-th report carries `g` and the smallest MAE of generation g, with the RMSE and count of a mask that reached it. |
| LoadFeatureSearch.Generation | ga_load_features.py:45-68 | Overwrites `best` with this generation's champion and adds its report. The next population starts with the champion's mask (`ChampionMask`), and every child is bred from the sorted evaluations. |
| LoadFeatureSearch.Run | ga_load_features.py:27-70 | Every generation is a full list of exact evaluations of masks, each after the first led by the previous champion's mask, and there is one report per generation. Returns `LastBest`: `None` iff `n_gen <= 0`. It raises `IndexError` for an empty population, and `ValueError` after the first generation when `n <= 2` and `pop_size > 1`. |
| ModelParamSearch.Pick | ga_model_params.py:49-51 | Each field of an initial individual comes from its choice list. |
| ModelParamSearch.InitialPopulation | ga_model_params.py:49-51 | `pop_size` individuals within the lists. |
| ModelParamSearch.EvaluateModelParams | ga_model_params.py:16-33 | With no stop flag, the result is always the completed fold means. |
| ModelParamSearch.EvaluatePopulation | ga_model_params.py:56-60 | One completed tuple per individual, in order. |
| ModelParamSearch.ChildFields | ga_model_params.py:75-81 | A field is `p1`'s unless its draw is below the rate, and then it is a list member. A child of an in-list parent stays in the lists. |
| ModelParamSearch.Mate | ga_model_params.py:74-82 | The child is `Child` of the first parent; the second parent is drawn and unused. The child stays within the lists after three `rng.rand()` draws and two to five `random.choice` calls. |
| ModelParamSearch.Breed | ga_model_params.py:72-83 | The champion comes first, then exactly `pop_size` individuals, all within the lists. |
| ModelParamSearch.Champion | ga_model_params.py:63-64 | The sorted head is in the generation and has its smallest MAE. |
| ModelParamSearch.ChampionReports | ga_model_params.py:68-69 | One report per generation, carrying that generation's champion. |
| ModelParamSearch.LastChampion | ga_model_params.py:64-66 | `best` is `None` iff no generation ran. Otherwise it is the last generation's minimum. |
| ModelParamSearch.OverwriteIsNotRunningBest | ga_model_params.py:64-66 | A later worse generation replaces a better `best`: the overwrite is not a running minimum. |
| ModelParamSearch.Generation | ga_model_params.py:56-83 | Scores in order, takes the champion, reports it, and breeds `pop_size` in-list individuals headed by it. |
| ModelParamSearch.Run | ga_model_params.py:35-85 | Every generation has `pop_size` in-list individuals with their completed scores, and each starts with the previous champion. There is one report per generation. Returns the last champion, which lies within the lists: `None` iff `n_gen <= 0`. It raises `IndexError` iff there are generations and the population is empty, and reports exactly `n_gen` times when there is a callback and a population. |

## Left out

- Model training: `MLPRegressor`, `TimeSeriesSplit` and `mean_absolute_error` are a foreign library. Each fold's result is the oracle parameter `fold`, and the number of folds must be at least 2, as `TimeSeriesSplit` requires.
- Floating point: means, RMSE and `np.std` are exact reals. `np.std` of the fold MAEs is a parameter `std`, and the log-uniform draws are a stream with range [10^lo, 10^hi].
- Random generators: numpy `RandomState` and `random` are streams of draws with the ranges their documentation gives. The concrete seeds (123, 42, 21) and the generator algorithms are not modelled.
- Concurrency: the threaded `Parallel` map is a sequential map that keeps order. Interleaved stop polls from the worker threads are serialised in population order.
- The stop flag is any sequence of poll answers. A real `threading.Event` stays raised once set; the contracts hold for every sequence, including those.
- The callback labels `f"h={hidden}, lr={lr}, a={alpha}"` and `f"{layers}×{neurons}"` are carried as the individual's fields. String formatting of floats is not modelled.
- Parents are immutable values. numpy's in-place slicing cannot alias a parent here, and the child array in `Mask.FlipBits` is fresh.
- The user interface and I/O are not part of this model: `gui.py`, `gui_handlers.py`, `datasets.py` and the tables and plots under `static/`. `static/mode_config.py` imports a module that is not present.
- StructureSearch.Run: states the callback trace only for an absent callback, `n_gen <= 0` or a first raised poll. The calls of each generation are stated by `StructureSearch.Generation`.
- ParamSearch.Run: states the callback trace only for an absent callback, `n_gen <= 0` or a first raised poll. The calls of each generation are stated by `ParamSearch.Generation`.
- ArchiveSearch.Run: states the callback trace only for an absent callback, `n_gen <= 0` or a first raised poll. The calls of each generation are stated by `ArchiveSearch.Generation`.
- FeatureSearch.Run: states the callback trace only for an absent callback, `n_gen <= 0`, a first raised poll or a first veto. The calls of each generation are stated by `FeatureSearch.Generation`.
