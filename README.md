# forestlayer estimator wrappers and layer utilities, in Dafny

This project models three pieces of the forestlayer deep-forest library:

- **The batch-size heuristic for forest models** (`forest_predict_batch_size`, module `SklearnEstimator`). From the free memory, the number of trees, the number of classes and the number of rows, it decides how many rows each `predict_proba` call receives. The result is 0 when one call should cover every row. The module also lists the scikit-learn based wrappers and which of them route their default batch size through the heuristic, with which task.
- **The estimator wrapper `BaseEstimator`** (module `Estimator`). It covers:
  - the disk cache path of a wrapper;
  - `fit`, which either keeps the fitted model in memory or pickles it to the cache;
  - `predict_proba`, which picks the cached or the in-memory model and predicts with or without batches;
  - `_batch_predict_proba`, which fills an `n x k` output buffer slice by slice while the model's `verbose` attribute is held at 0.

  The wrapper is first described on values. `FitAsWritten`, `FitIntended` and `PredictSpec` act on a `Snapshot` of the in-memory model and the cache files. The class `BaseEstimator` then does the same work on objects: a `Learner` model object, a `FileStore` for the disk, and an array for the output buffer. Each of its methods is proved to agree with those functions.
- **The layer utilities** (module `LayerUtils`):
  - `check_list_depth`, which walks the first elements of nested lists and tuples;
  - `print_summary`, which prints a fixed-width table of layers through `print_fn`;
  - `print_row`, the helper inside `print_summary` that cuts and pads each field to its column.

  `print_fn` is modelled as appending to a sequence of lines. Python's `IndexError` becomes `Err(IndexError)`.

The foreign model classes of scikit-learn, XGBoost and LightGBM (module `Learners`) are known only through what they predict. A model's prediction is a function of its hyperparameters, its training history and the rows it is given.

The source is Python 2. Integer `/` is floor division, and every operand of it here is non-negative, so Dafny's `/` gives the same result. `int(x * p)` truncates toward zero, which `LayerUtils.TruncDiv` writes out.

## Model

| member | source | states |
|---|---|---|
| SklearnEstimator.ForestPredictBatchSize | forestlayer/estimators/sklearn_estimator.py:22-50 | The heuristic fails (ZeroDivisionError) exactly when the per-row cost is 0. A nonzero batch size is max(ceil(budget / cost), 10) and lies in [10, n_rows). Above 10 it is the fewest rows whose cost reaches the budget. The answer is 0 ("no batches") exactly when n_rows is at most that clamped size. |
| SklearnEstimator.BudgetBounds | forestlayer/estimators/sklearn_estimator.py:34-37 | The memory budget is at least 8e10 bytes and at least half the free memory. Up to 1.6e11 bytes of free memory it is exactly 8e10, and raising free memory to 2e9 never changes it. |
| SklearnEstimator.RawBatchIsCeiling | forestlayer/estimators/sklearn_estimator.py:44 | `(M - 1) / c + 1` is the ceiling of M / c: the smallest row count whose cost reaches the budget. It is at least 1. |
| SklearnEstimator.NonzeroBatchMeansSeveralBatches | forestlayer/estimators/sklearn_estimator.py:46-50 | A nonzero batch size always splits the rows into at least two batches. |
| SklearnEstimator.DefaultRoutesToOwnTask | forestlayer/estimators/sklearn_estimator.py:93-191 | Only the RF and CRF classifiers and regressors override the default batch size. Each calls the heuristic with the task its constructor declares. GBDT, XGBoost and LightGBM keep the base default. |
| Estimator.JoinPath | forestlayer/estimators/base_estimator.py:85 | `os.path.join(dir, file)` ends with `file`. It starts with `dir` unless `file` is absolute. |
| Estimator.CachePath | forestlayer/estimators/base_estimator.py:82-85 | The cache path is None exactly when there is no cache directory. Otherwise it ends with `name2path(name) + '.pkl'`, and it lies under the cache directory unless that file name is absolute. |
| Estimator.DefaultPredictBatchSize | forestlayer/estimators/base_estimator.py:93-104 | A wrapper that keeps the base default answers 0. The RF and CRF wrappers answer the heuristic on the model's `n_estimators` and `n_classes_` with their own task, and fail as it fails. A None model fails for them. Any successful default is non-negative. |
| Estimator.EffectiveBatchSize | forestlayer/estimators/base_estimator.py:52 | An explicit nonzero `batch_size` is used as it is, negative values included. None or 0 yields exactly the wrapper's default, including its failures. A negative effective size can only come from the caller. |
| Estimator.FitAsWritten | forestlayer/estimators/base_estimator.py:24-40 | `fit` on values, as written. With a cache directory, the cache file exists afterwards. On a miss `self.est` becomes None and the file holds the previous `self.est`. Without a directory, `self.est` is a fresh model fitted once and the disk is unchanged. |
| Estimator.FitIntended | forestlayer/estimators/base_estimator.py:24-40 | `fit` on values with line 35 corrected: on a miss the file holds the freshly fitted model. The other cases are as in `FitAsWritten`. |
| Estimator.FitKeepsCacheFiles | forestlayer/estimators/base_estimator.py:27-37 | Neither version of `fit` overwrites or removes a cache file. The only file it can add is the one at its own cache path. |
| Estimator.ResolveModel | forestlayer/estimators/base_estimator.py:44-51 | Model resolution fails exactly when a cache directory is given and its file is missing. Otherwise it is the pickled model at the cache path, or `self.est` without a directory. |
| Estimator.BatchedRows | forestlayer/estimators/base_estimator.py:68-76 | The batched output has one row per input row. |
| Estimator.PredictWith | forestlayer/estimators/base_estimator.py:53-80 | A None model always fails. With b ≤ 0 the result is the model's one unbatched prediction. With b > 0 it succeeds exactly when there are rows and every batch fits, and then it is the batched rows, one per input row. |
| Estimator.PredictSpec | forestlayer/estimators/base_estimator.py:42-58 | `predict_proba` on values. A failed model resolution is its result. A success needs a resolved model that is not None. An explicit nonzero batch size is used directly. |
| Estimator.BaseDefaultPredictsUnbatched | forestlayer/estimators/base_estimator.py:52-56 | For a wrapper with the base default, a None or 0 batch size means one unbatched call on the resolved model. |
| Estimator.ForestDefaultBatches | forestlayer/estimators/base_estimator.py:52-56 | For an RF or CRF wrapper given no batch size, `predict_proba` predicts with the heuristic's answer for the resolved model, or fails when the heuristic fails. |
| Estimator.SliceCount | forestlayer/estimators/base_estimator.py:70 | Slice t is one of the slices of `range(0, n, b)` exactly when it starts before n. |
| Estimator.RowInItsSlice | forestlayer/estimators/base_estimator.py:70-76 | Every row i < n lies in a slice of the loop, and that slice is the only one holding it: the one starting at (i / b) * b. |
| Estimator.SliceRows | forestlayer/estimators/base_estimator.py:72 | Each slice `X[j:j+b]` of the loop starts inside X. Its length is the clamped width, and its rows are X's rows from j on. |
| Estimator.RowsDoneStep | forestlayer/estimators/base_estimator.py:76 | Copying slice t's prediction into rows t*b onward keeps every earlier row and adds the rows of slice t, each holding its own slice's prediction. |
| Estimator.MisfitSliceBreaksAlignment | forestlayer/estimators/base_estimator.py:74-76 | A single batch whose shape differs from its slice of the buffer makes the batched prediction fail. |
| Estimator.WriteRows | forestlayer/estimators/base_estimator.py:76 | `buf[lo:lo+len(rows), :] = rows` replaces exactly those rows of the buffer and keeps the others. |
| Estimator.StoreSlice | forestlayer/estimators/base_estimator.py:73-76 | One loop pass either fits its slice into the buffer, extending the finished rows by that slice, or fails. It fails only when some batch cannot fit. |
| Estimator.PredictSlices | forestlayer/estimators/base_estimator.py:68-76 | The loop does not fail exactly when every batch fits its slice. It then returns no buffer exactly when there are no rows. Otherwise it returns a fresh buffer in which row i holds the prediction of the slice containing i. The model's state is unchanged, and the calls it received are exactly the slices `X[j:j+b]` for j = 0, b, 2b, … < n, in order. |
| Estimator.BatchingPreservesRows | forestlayer/estimators/base_estimator.py:68-76 | For a row-wise model, every batch fits and the batched output equals the unbatched prediction. |
| Estimator.BatchedPredictionAgrees | forestlayer/estimators/base_estimator.py:53-56 | For a row-wise model and a non-empty input, `predict_proba` with any positive batch size returns what it returns without batches. |
| Estimator.EmptyInputBatched | forestlayer/estimators/base_estimator.py:53-80 | With no rows, the batched path returns None, so reading `y_proba.shape` fails. The wrapper adds no failure of its own on the unbatched path. |
| Estimator.CacheHitSkipsFit | forestlayer/estimators/base_estimator.py:27-29 | When the cache file exists, both versions of `fit` leave the wrapper and the disk unchanged. |
| Estimator.FitIsIdempotent | forestlayer/estimators/base_estimator.py:24-40 | Fitting twice with the same data and cache directory leaves the same state as fitting once, for both versions of `fit`. |
| Estimator.FitIntendedThenResolve | forestlayer/estimators/base_estimator.py:24-51 | After the corrected `fit` on a cache miss, `predict_proba` with the same cache directory uses the model just fitted. |
| Estimator.FitAsWrittenLosesModel | forestlayer/estimators/base_estimator.py:35 | `fit` as written, on a wrapper holding no model and with no cache file, pickles `None`. Every later `predict_proba` with that cache directory on a non-empty input then fails. |
| Estimator.FitVersionsAgree | forestlayer/estimators/base_estimator.py:27-40 | `fit` as written and the corrected `fit` agree exactly when there is no cache directory, the cache file already exists, or `self.est` already is the model this call fits. |
| Estimator.BaseEstimator.constructor | forestlayer/estimators/base_estimator.py:14-19 | A new wrapper holds no model. A missing `est_args` becomes `{}`. |
| Estimator.BaseEstimator.Fit | forestlayer/estimators/base_estimator.py:24-40 | `fit` as written agrees with `FitAsWritten` on the in-memory model and the disk. A cache hit keeps `self.est`. Without a cache directory, `self.est` becomes a fresh model fitted once. |
| Estimator.BaseEstimator.FitCorrected | forestlayer/estimators/base_estimator.py:24-40 | The corrected `fit` agrees with `FitIntended`. Without a cache directory, `self.est` becomes a fresh model fitted once. |
| Estimator.BaseEstimator.BatchPredictProba | forestlayer/estimators/base_estimator.py:60-80 | It succeeds exactly when every batch fits. It returns None exactly when there are no rows. Otherwise it returns a fresh buffer equal to the batched rows. It does not refit the model. `verbose` is 0 during every call and is restored on success. A null model fails on the first slice. |
| Estimator.BaseEstimator.PredictProba | forestlayer/estimators/base_estimator.py:42-58 | The result is `PredictSpec` of the wrapper's state before the call: the cached or the in-memory model, the explicit or default batch size, and batched or unbatched prediction with every error case. The model's training history is untouched. |
| Learners.FileStore.Save | forestlayer/estimators/sklearn_estimator.py:60-68 | Saving replaces exactly the file at the path, with the object's state or `None`. |
| Learners.FileStore.Load | forestlayer/estimators/sklearn_estimator.py:70-77 | Loading fails exactly when the file is missing. Otherwise it returns a fresh object with the saved state, or null for a saved `None`. |
| LayerUtils.CheckListDepth | forestlayer/utils/layer_utils.py:13-21 | The while loop returns the depth `Depth` defines, including the IndexError raised on an empty list. |
| LayerUtils.DepthIsFirstPathLength | forestlayer/utils/layer_utils.py:16-21 | The depth is d exactly when d steps along first elements lead to a value that is not a list or tuple. In particular None and atoms have depth 0. |
| LayerUtils.EmptyOnPathFails | forestlayer/utils/layer_utils.py:18-20 | An empty list or tuple anywhere on the path of first elements makes `check_list_depth` raise IndexError. |
| LayerUtils.NestDepth | forestlayer/utils/layer_utils.py:16-21 | A non-list wrapped in k one-element lists has depth k. |
| LayerUtils.OnlyFirstElementCounts | forestlayer/utils/layer_utils.py:18-20 | Two lists with the same first element have the same depth, so later elements never matter. The depth is one more than the first element's. |
| LayerUtils.Spaces | forestlayer/utils/layer_utils.py:39 | `' ' * n` has length max(n, 0) and holds only spaces. |
| LayerUtils.PrefixTo | forestlayer/utils/layer_utils.py:36-38 | `s[:p]` is a prefix of s. For p ≥ 0 its length is min(p, len(s)). A negative p drops -p characters from the end. |
| LayerUtils.StepLine | forestlayer/utils/layer_utils.py:35-39 | After the pass for a field with column position p ≥ 0, the line is exactly p characters long. |
| LayerUtils.PrintRow | forestlayer/utils/layer_utils.py:32-40 | `print_row` succeeds exactly when there are no more fields than positions, and otherwise raises IndexError. It prints `Row(fields, position)`, whose length is the last field's position when that is non-negative. |
| LayerUtils.FitTo | forestlayer/utils/layer_utils.py:38-39 | A field cut or padded to a column has exactly the column's width. |
| LayerUtils.ColumnsLength | forestlayer/utils/layer_utils.py:34-39 | The first m laid-out columns end exactly at position m - 1. |
| LayerUtils.CutAndPad | forestlayer/utils/layer_utils.py:37-39 | Appending a field, cutting at p and padding to p equals the field cut or padded to the columns left before p. |
| LayerUtils.StepLineOnto | forestlayer/utils/layer_utils.py:35-39 | For each later field, the last character of the previous column becomes the one-space separator, and the new field fills its column. |
| LayerUtils.FirstColumn | forestlayer/utils/layer_utils.py:37-39 | The first field alone is cut or padded to the first position. |
| LayerUtils.NextColumn | forestlayer/utils/layer_utils.py:34-39 | One pass of the loop turns a row laid out in n - 1 columns into the row laid out in n columns. |
| LayerUtils.RowLayout | forestlayer/utils/layer_utils.py:34-39 | With increasing positions, the printed row is each field cut or padded to its column, with every column but the last ending in a separating space. No field extends past its position. |
| LayerUtils.LineLength | forestlayer/utils/layer_utils.py:25 | `line_length or 65`: None or 0 becomes 65, and any nonzero line length is kept. |
| LayerUtils.SummaryPositions | forestlayer/utils/layer_utils.py:26-28 | None or an empty list becomes the default positions. Positions whose last entry exceeds 1 are used unchanged. Otherwise every entry is multiplied by L. The result is never empty. |
| LayerUtils.DefaultPositionsIncreasing | forestlayer/utils/layer_utils.py:26-28 | For a line length of 3 or more, the default columns `int(L*.45)`, `int(L*.75)`, `L` are increasing, and the last ends at L. |
| LayerUtils.Ruler | forestlayer/utils/layer_utils.py:42-58 | `c * L` has length max(L, 0) and holds only c. |
| LayerUtils.LayerBlocksLength | forestlayer/utils/layer_utils.py:52-58 | n layers print 2n lines. |
| LayerUtils.LayerBlockAt | forestlayer/utils/layer_utils.py:52-58 | Layer i's row is line 2i of the layer block. It is followed by `'='*L` after the last layer and `'_'*L` after the others. |
| LayerUtils.LayerRows | forestlayer/utils/layer_utils.py:46-50 | There is one printed row per layer. |
| LayerUtils.PrintLayers | forestlayer/utils/layer_utils.py:52-58 | The loop over the layers prints each layer's row followed by its ruler, in order. |
| LayerUtils.SummaryLayout | forestlayer/utils/layer_utils.py:42-58 | Three header lines followed by the layer blocks put layer i's row at line 3 + 2i and its ruler at line 4 + 2i. |
| LayerUtils.PrintTable | forestlayer/utils/layer_utils.py:42-58 | With fewer than three positions, only the top ruler is printed before the header row fails. Otherwise the output is the three header lines, then each layer's row and its ruler, in order. |
| LayerUtils.PrintSummary | forestlayer/utils/layer_utils.py:24-58 | The summary fails (IndexError in the header row) exactly when there are fewer than three positions, after printing only the top ruler. Otherwise it prints 3 + 2·(number of layers) lines: `'_'*L`, the header row, `'='*L`, then each layer's row followed by `'_'*L`, or `'='*L` after the last layer. |
| LayerUtils.TwoColumns | forestlayer/utils/layer_utils.py:34-39 | The first two columns of a three-field row are each field cut or padded to its column width minus one, each followed by a space. |
| LayerUtils.ThreeColumnRow | forestlayer/utils/layer_utils.py:32-40 | A three-field row at increasing positions is written out column by column. |
| LayerUtils.DefaultSummaryRow | forestlayer/utils/layer_utils.py:26-40 | With no positions given and a line length of 3 or more, every row is exactly L characters wide, with its three columns at the default positions. |

## Left out

- Free memory: `psutil.virtual_memory().free` is the parameter `freeMemory`. `int(free * 0.5)` is integer halving, which differs from the float product only above 2^53 bytes.
- The storage utilities (`is_path_exists`, `check_dir`, `name2path`) are not part of this model. `name2path` is an uninterpreted function of the wrapper. `check_dir` creates directories and is left out. `is_path_exists` is a lookup in the cache map (`Learners.FileStore.Exists`), which states nothing beyond that lookup. `is_path_exists(None)` is taken to be false.
- joblib pickling is a map from path to the saved model state, or `None`. Pickle formats and I/O errors other than a missing file are not modelled.
- The numerics of scikit-learn, XGBoost and LightGBM models are not modelled. A model class is an abstract prediction function of its hyperparameters, training history and rows. `n_classes_` is the number of distinct labels in the latest training set.
- The foreign `fit` and `predict_proba` always succeed in the model. In the source their exceptions propagate, and the model does not capture the state left behind. A failing `est.fit` (base_estimator.py:31) leaves `self.est` and the disk unchanged. A failing slice prediction (base_estimator.py:72) leaves `verbose` at 0, since lines 78-79 are skipped. scikit-learn's `predict_proba` also raises on zero rows, which the unbatched path of the model does not.
- `check_list_depth` on a list that contains itself (`a = [None]; a[0] = a`) never terminates. `Nested` values are finite, so the model cannot express such a list.
- The `float32` cast of the output buffer is not modelled. Probabilities are stored as given.
- numpy broadcasting is not modelled. A batch whose shape differs from its buffer slice is an error, so a one-row batch spread over several rows is not accepted.
- Logging and the `print` at the start of `_batch_predict_proba` are side effects only.
- `copy()` (base_estimator.py:112-113, sklearn_estimator.py:79-85) is left out. It passes the hyperparameters as keyword arguments to constructors that do not take them.
- The subclass constructors are left out. `SKlearnBaseEstimator.__init__` (sklearn_estimator.py:57-58) passes four arguments to the three-parameter `BaseEstimator.__init__`, so the wrappers are modelled as a `BaseEstimator` plus a `kind` that selects `_default_predict_batch_size`.
- `FLLGBMRegressor.fit` only calls the base `fit` and has no separate member.
- `_load_model_from_disk` and `_save_model_to_disk` of the base class only raise NotImplementedError. The model uses the joblib versions of the scikit-learn wrappers.
- Fractional positions in `print_summary` are integers here. A last entry ≤ 1 multiplies every entry by L, and the default fractions .45 and .75 become truncated divisions by 100. General float scaling is not modelled.
- `print_layer_summary` prints the literal strings `'output_shape'` and `'layer.count_params'`, and the model does the same. The layer graph appears only through its layers' class names.
- The comment at sklearn_estimator.py:36 says the budget floor is 10GB. The code uses `int(8e10)`, and the model follows the code.
- The cascade controller, the example scripts and setup.py are not part of this model.

## Findings

| source | as written | input that shows it | evidently intended | confidence | as-written member | corrected member |
|---|---|---|---|---|---|---|
| forestlayer/estimators/base_estimator.py:35 | On a cache miss, `fit` pickles `self.est`, the model held before the call, and then sets `self.est = None`. The model it has just fitted is dropped. | A new wrapper (`self.est` is None) whose cache directory has no file for it: `fit` pickles `None`, and a later `predict_proba(X, cache_dir)` on non-empty X fails on `None.predict_proba`. | Pickle the freshly fitted `est`, so a later `predict_proba` with the same cache directory loads it. | not executed | Estimator.FitAsWrittenLosesModel | Estimator.FitIntendedThenResolve |
