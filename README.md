# Coinpress prototypes: a Dafny model

This project models the discrete logic around the private per-class mean
estimator of `dp_learning_ff.mean_estimation.coinpress`:

- the `CoinpressPrototyping` configuration object: an initialiser that stores its
  fields unchecked, setters that validate `epsilon`, `delta`, `dist`, `steps` and
  `p_sampling`, a `mechanism` slot that warns when it replaces a mechanism,
  `try_calibrate`'s choice between the explicit-budget path and the
  schedule-shape path, and `prototypes`, which needs a mechanism and resolves
  the seed;
- `give_private_prototypes`: the `sample_each_step` refusal, the split of the
  training rows by the sorted distinct labels, Poisson subsampling (row `i`
  repeated as often as its drawn count), fixed-ratio subsampling (an in-place
  Fisher-Yates shuffle of the partition, then its first `int(ratio * n)` rows),
  and one prototype per label in ascending label order;
- `private_mean`: the 2-D shape check, the default radius `3 * sqrt(d)` and
  centre `zeros(d)`, and `t = len(Ps)`.

Modules: `Wrappers` (Option, Result, Outcome), `Errors` (the exceptions raised and
their messages), `Labels` (`np.unique` and the boolean-mask partition),
`Subsampling` (the two modes, with the in-place shuffle as an array method),
`MeanEstimation` (`private_mean`), `Prototypes` (`give_private_prototypes` as a
specification function and as the imperative loop proved equal to it) and
`Prototyping` (the class).

Calls into code the model does not contain are parameters:
`calibrate_single_param` is a function from a `CalibrationRequest` to a
`Mechanism`; `CoinpressGM` is a function of `(Ps, p_sampling,
sample_each_step)`; `algos.multivariate_mean_iterative` is a function of its
`MeanCall` arguments; `np.sqrt` is a function on reals. The random generator is
replaced by its draws (`Draws`): the Poisson count for each row of each
partition, and the Fisher-Yates partner for each position of each partition.
The class method takes the generator as a function from seed to draws, so that
the seed it uses is visible in its contract.

Python floats are modelled as Dafny `real`, Python `None` as `Option`, and a
raised exception as a `Failure` (or `Fail`) carrying the exception kind and the
fixed prefix of its message; values the source formats into a message (the
rejected epsilon, an array's shape) are not carried.

Behaviour worth noting, as the code has it:

- a class that subsampling leaves empty is not refused here: the code has no
  such check and hands the estimator a `(0, d)` array, and what the estimator
  then does lies outside this model;
- invalid values are refused only by the setters; the dataclass initialiser
  stores any value, so the constructor checks nothing;
- the fixed-ratio mode is only reachable by calling `give_private_prototypes`
  directly, since `prototypes` always asks for Poisson sampling.

## Model

| member | source | states |
|---|---|---|
| Labels.Unique | src/dp_learning_ff/mean_estimation/coinpress.py:223 | `np.unique`: the result is strictly increasing and holds exactly the labels that occur |
| Labels.MatchingIndices | src/dp_learning_ff/mean_estimation/coinpress.py:225 | the positions of the mask `train_targets == target`: increasing, each labelled `target`, and every position labelled `target` is among them |
| Labels.Select | src/dp_learning_ff/mean_estimation/coinpress.py:225 | `train_preds[mask]` defined as a filter is exactly the rows at the mask's positions, in their original order |
| Labels.PartitionByLabel | src/dp_learning_ff/mean_estimation/coinpress.py:223-226 | `Partition` and `LabelPartitions` (the comprehension of lines 224-226): there is one partition per distinct label; partition `k` is non-empty and holds exactly the rows whose label is the `k`-th smallest, in original relative order |
| Labels.EachRowInOnePartition | src/dp_learning_ff/mean_estimation/coinpress.py:223-226 | every row lies in the partition of exactly one sorted label |
| Labels.PartitionCoversRows | src/dp_learning_ff/mean_estimation/coinpress.py:223-226 | the partitions' sizes add up to the number of rows: none is lost or duplicated |
| Subsampling.Trunc | src/dp_learning_ff/mean_estimation/coinpress.py:237 | Python's `int()` on a float truncates toward zero: within 1 of its argument, on the side of zero |
| Subsampling.PrefixSlice | src/dp_learning_ff/mean_estimation/coinpress.py:237 | the slice `M_x[:k]` is a prefix of length `min(k, n)`, or `max(0, n + k)` for a negative `k` |
| Subsampling.CountsFor | src/dp_learning_ff/mean_estimation/coinpress.py:232 | the counts of `rng.poisson(lam, size=n)` for partition `k`: one per row, row `i`'s being the `i`-th draw for that partition |
| Subsampling.RepeatIndices | src/dp_learning_ff/mean_estimation/coinpress.py:233 | `np.arange(n).repeat(counts)` has as many entries as the counts add up to |
| Subsampling.RepeatIndicesCounts | src/dp_learning_ff/mean_estimation/coinpress.py:233 | `np.arange(n).repeat(counts)` lists each index `i` exactly `counts[i]` times |
| Subsampling.RepeatIndicesAscending | src/dp_learning_ff/mean_estimation/coinpress.py:233 | `np.arange(n).repeat(counts)` lists the indices in ascending order |
| Subsampling.Repeat | src/dp_learning_ff/mean_estimation/coinpress.py:232-234 | the Poisson subsample of a partition holds as many rows as its counts add up to |
| Subsampling.ShuffledPermutes | src/dp_learning_ff/mean_estimation/coinpress.py:236 | `Shuffled` and `ShuffleDown`, the Fisher-Yates pass that swaps each position from `n - 1` down to 1 with its drawn partner, yield a permutation of the partition |
| Subsampling.ShuffleRows | src/dp_learning_ff/mean_estimation/coinpress.py:236 | `rng.shuffle(M_x, axis=0)` done in place on an array leaves it holding the Fisher-Yates shuffle of its old contents |
| Subsampling.FixedRatioSubset | src/dp_learning_ff/mean_estimation/coinpress.py:236-237 | `FixedRatio`, the first `int(ratio * n)` rows of the shuffled partition, repeats no row (it is a sub-multiset of the partition), is no longer than it, and for a ratio in [0, 1) holds exactly `int(ratio * n)` rows |
| Subsampling.ShuffleAndKeep | src/dp_learning_ff/mean_estimation/coinpress.py:236-237 | shuffling the copied partition in place and slicing its prefix yields the fixed-ratio subsample |
| MeanEstimation.EstimatorCall | src/dp_learning_ff/mean_estimation/coinpress.py:245-254 | only a 2-D array is accepted (ValueError otherwise); the radius defaults to `3 * sqrt(d)` and the centre to `Zeros(d)`, the length-`d` zero vector; given ones pass through unchanged; `t` is the number of budgets |
| MeanEstimation.PrivateMean | src/dp_learning_ff/mean_estimation/coinpress.py:245-255 | `private_mean` fails exactly on a non-2-D array and otherwise returns the estimator's answer on that call |
| MeanEstimation.DefaultRadius | src/dp_learning_ff/mean_estimation/coinpress.py:249-250 | when the square root is exact, the default radius is the non-negative number whose square is `9 * d` |
| Prototypes.Subsample | src/dp_learning_ff/mean_estimation/coinpress.py:227-238 | the subsampling block fails exactly for a `None` ratio or a negative Poisson mean with a partition to sample, keeps one subsample per partition, and passes the partitions through unchanged for a ratio of at least 1 |
| Prototypes.Means | src/dp_learning_ff/mean_estimation/coinpress.py:239-241 | one prototype per partition, prototype `k` being the estimator's answer on partition `k` with the default radius and centre; fails exactly when there is a partition and the rows are not vectors |
| Prototypes.PrivatePrototypes | src/dp_learning_ff/mean_estimation/coinpress.py:198-242 | `sample_each_step` is refused before anything else; the call fails exactly on a mask of the wrong length, a `None` ratio, a negative Poisson mean or non-2-D rows; otherwise it returns one prototype per distinct label |
| Prototypes.PrototypeOfEachLabel | src/dp_learning_ff/mean_estimation/coinpress.py:223-241 | without subsampling, prototype `k` is the estimator's answer on exactly the rows whose label is the `k`-th smallest |
| Prototypes.PoissonPrototypeOfEachLabel | src/dp_learning_ff/mean_estimation/coinpress.py:227-241 | in Poisson mode, prototype `k` is the estimator's answer on the `k`-th label's rows, each repeated as often as the count drawn for it |
| Prototypes.FixedPrototypeOfEachLabel | src/dp_learning_ff/mean_estimation/coinpress.py:235-241 | in fixed-ratio mode, prototype `k` is the estimator's answer on the first `int(ratio * n)` rows of the `k`-th label's rows after the shuffle drawn for partition `k` |
| Prototypes.SubsamplePartition | src/dp_learning_ff/mean_estimation/coinpress.py:231-237 | the loop body for one partition computes `SubsampleOne`: the Poisson repeat of its rows, or the fixed-ratio prefix of its in-place shuffle |
| Prototypes.SubsampleLoop | src/dp_learning_ff/mean_estimation/coinpress.py:227-238 | the loop appending each partition's subsample computes the subsampling block |
| Prototypes.GivePrivatePrototypes | src/dp_learning_ff/mean_estimation/coinpress.py:198-242 | the imperative `give_private_prototypes` returns or raises exactly what `PrivatePrototypes` says |
| Prototyping.OverwriteWarnings | src/dp_learning_ff/mean_estimation/coinpress.py:59-61 | a mechanism assignment issues at most one warning, exactly when it replaces a mechanism |
| Prototyping.ChoosePath | src/dp_learning_ff/mean_estimation/coinpress.py:128-139 | nothing is calibrated without epsilon and delta; with both, a set `Ps` always selects the explicit-budget path; the schedule path is taken exactly when `Ps` is unset and `dist`, `order` and `steps` are all set |
| Prototyping.CoinpressPrototyping.constructor | src/dp_learning_ff/mean_estimation/coinpress.py:16-35 | the initialiser stores every field unchecked with the dataclass defaults; a calibrated configuration then gets a `CoinpressGM` mechanism through the warning setter |
| Prototyping.CoinpressPrototyping.SetMechanism | src/dp_learning_ff/mean_estimation/coinpress.py:57-62 | the setter always stores the new value and warns if and only if a mechanism was stored before |
| Prototyping.CoinpressPrototyping.SetEpsilon | src/dp_learning_ff/mean_estimation/coinpress.py:68-74 | accepts exactly `None` or a positive value; on refusal the field is unchanged, on success exactly that field changes; validity of the configuration is kept |
| Prototyping.CoinpressPrototyping.SetDelta | src/dp_learning_ff/mean_estimation/coinpress.py:80-83 | accepts exactly `None` or a positive value; on refusal the field is unchanged |
| Prototyping.CoinpressPrototyping.SetDist | src/dp_learning_ff/mean_estimation/coinpress.py:89-98 | accepts exactly "lin", "exp", "log", "eq" or `None` |
| Prototyping.CoinpressPrototyping.SetOrder | src/dp_learning_ff/mean_estimation/coinpress.py:104-106 | stores any value unchecked |
| Prototyping.CoinpressPrototyping.SetSteps | src/dp_learning_ff/mean_estimation/coinpress.py:112-115 | accepts exactly `None` or a positive count; on refusal the field is unchanged |
| Prototyping.CoinpressPrototyping.SetPSampling | src/dp_learning_ff/mean_estimation/coinpress.py:121-126 | accepts exactly `None` or a ratio in (0, 1]; on refusal the field is unchanged |
| Prototyping.CoinpressPrototyping.CalibrateSteps | src/dp_learning_ff/mean_estimation/coinpress.py:141-168 | stores the mechanism the search returns for `ScheduleShapeRequest`, the request holding exactly the fields the closure of lines 148-157 captures, warning if one is replaced |
| Prototyping.CoinpressPrototyping.CalibratePs | src/dp_learning_ff/mean_estimation/coinpress.py:170-195 | stores the mechanism the search returns for `ExplicitBudgetsRequest`, the request holding exactly the fields the closure of lines 177-184 captures, warning if one is replaced |
| Prototyping.CoinpressPrototyping.TryCalibrate | src/dp_learning_ff/mean_estimation/coinpress.py:128-139 | runs the calibration `ChoosePath` selects, and otherwise changes neither the mechanism nor the warnings |
| Prototyping.CoinpressPrototyping.Prototypes | src/dp_learning_ff/mean_estimation/coinpress.py:37-51 | fails with "Mechanism not calibrated" without a mechanism; otherwise draws with `overwrite_seed` if given, else `seed`, and returns `give_private_prototypes` in Poisson mode on the mechanism's budgets and the configured ratio |

## Left out

- `calibrate_single_param`, `ScaledCoinpressGM`, `CoinpressGM` and `get_approxDP` are not part of this model: the calibration search, the budget-schedule shapes and the zCDP to (epsilon, delta) conversion live in other modules. `calibrate_single_param` applied to the `ScaledCoinpressGM` closure is the parameter `calibrate`, from a `CalibrationRequest` to a `Mechanism`; `CoinpressGM` is the parameter `coinpressGM`; `get_approxDP` is dropped, since its result is only printed. Of a mechanism only the budgets `params["Ps"]` are kept.
- `algos.multivariate_mean_iterative` is not part of this model: its clip, noise and recentre rounds are floating-point Gaussian numerics; it is a function parameter.
- Random number generation (`np.random.default_rng`, `rng.poisson`, `rng.shuffle`'s bounded draws) is replaced by explicit draws; their distributions, and so the expected subsample size, are not modelled. That a Fisher-Yates partner never exceeds its position is a precondition (numpy's bounded draw guarantees it).
- `np.sqrt` is a function parameter; float rounding, NaN and infinities are not modelled (reals are exact).
- The `print` calls, including the one in the `epsilon` setter and the achieved epsilon computed only to be printed after calibration, and the text routing of `warnings.warn` are output; a warning is recorded in the ghost log `warnings`.
- Python's dynamic typing: each setter takes a value of its field's type, so a `TypeError` from comparing, say, a string with 0 is not modelled; labels are integers.
- The `hasattr` checks in the `mechanism` setter and `try_calibrate` always hold for a dataclass instance, so they are not modelled.
- The array passed to `give_private_prototypes` is viewed along its first axis (`NdArray`); numpy's other indexing errors are not modelled beyond a mask of the wrong length.
- Errors raised inside `algos.multivariate_mean_iterative` (for example on the `(0, d)` array of a class that Poisson subsampling left empty, or on an empty `Ps`) are not modelled: the estimator is a total function parameter, so `Means` and `give_private_prototypes` succeed wherever the code around the estimator does.
- Prototyping.CoinpressPrototyping.Prototypes: does not model the `ValueError` that `np.random.default_rng` raises for a negative seed (for example `overwrite_seed=-1` with `p_sampling` below 1); the generator is a total function from seed to draws.
- Subsampling.FixedRatio: Python computes `subsampling * n` in floating point before `int()`, so `0.29 * 100` gives `28.999999999999996` and keeps 28 rows; the model truncates the exact product and keeps 29. `Trunc` and `FixedRatioSubset` speak of the exact product.
- The setters' checks are Python `assert` statements (lines 71, 82, 91, 114, 123), which `python -O` removes; the model always performs them.
- Exception messages are kept only up to the first formatted value: the rejected epsilon, the array shape of `private_mean`'s refusal and numpy's sizes in its mask and `lam` errors are not modelled.
