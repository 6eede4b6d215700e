/**
 * The prediction batch-size heuristic for tree-forest estimators and the
 * table of scikit-learn based wrappers that use it
 * (forestlayer/estimators/sklearn_estimator.py).
 *
 * Free memory, which the source queries from the operating system, is a
 * parameter here; so are the fitted forest's `n_estimators` and `n_classes_`
 * and the number of rows to predict.
 */
module SklearnEstimator {
  import opened Wrappers

  /** Free memory below this many bytes (2e9) is raised to it. */
  const FreeMemoryFloor: nat := 2_000_000_000
  /** The memory budget is never below this many bytes (8e10). */
  const BudgetFloor: nat := 80_000_000_000
  /** Bytes charged per (class, tree) pair of one predicted row. */
  const BytesPerOutput: nat := 16
  /** A batched prediction never uses fewer rows per batch than this. */
  const MinBatchSize: nat := 10

  /** The one failure of the heuristic: Python's ZeroDivisionError. */
  datatype BatchError = ZeroDivision

  /** `free_memory`, after the floor at 2e9 bytes. */
  function ClampedFreeMemory(free: nat): nat
  {
    if free < FreeMemoryFloor then FreeMemoryFloor else free
  }

  /** `max_mem_size`: half of the clamped free memory, but at least 8e10 bytes. */
  function MemoryBudget(free: nat): nat
  {
    Max(ClampedFreeMemory(free) / 2, BudgetFloor)
  }

  /** `mem_size_1`: the bytes one predicted row costs. */
  function PerRowCost(task: string, nEstimators: nat, nClasses: nat): nat
  {
    if task == "regression" then nEstimators * BytesPerOutput
    else nClasses * nEstimators * BytesPerOutput
  }

  /** The raw batch size `(max_mem_size - 1) / mem_size_1 + 1`. */
  function RawBatchSize(budget: nat, cost: nat): int
    requires cost > 0
  {
    (budget - 1) / cost + 1
  }

  /** `forest_predict_batch_size(clf, X, task)`; 0 means "predict without batches". */
  function ForestPredictBatchSize(free: nat, nEstimators: nat, nClasses: nat, task: string, nRows: nat)
    : (r: Result<nat, BatchError>)
    ensures r.Err? <==> PerRowCost(task, nEstimators, nClasses) == 0
    ensures r.Ok? && r.value != 0 ==> MinBatchSize <= r.value < nRows
    ensures r.Ok? ==> (r.value == 0 <==>
      nRows <= Max(RawBatchSize(MemoryBudget(free), PerRowCost(task, nEstimators, nClasses)), MinBatchSize))
    ensures r.Ok? && r.value != 0 ==>
      r.value == Max(RawBatchSize(MemoryBudget(free), PerRowCost(task, nEstimators, nClasses)), MinBatchSize)
    ensures r.Ok? && r.value > MinBatchSize ==>
      r.value * PerRowCost(task, nEstimators, nClasses) >= MemoryBudget(free) &&
      (r.value - 1) * PerRowCost(task, nEstimators, nClasses) < MemoryBudget(free)
  {
    var cost := PerRowCost(task, nEstimators, nClasses);
    if cost == 0 then Err(ZeroDivision)
    else
      RawBatchIsCeiling(MemoryBudget(free), cost);
      var raw := RawBatchSize(MemoryBudget(free), cost);
      var batch := if raw < MinBatchSize then MinBatchSize else raw;
      if batch >= nRows then Ok(0) else Ok(batch)
  }

  /** The memory budget is at least 8e10 bytes and at least half of the free memory;
      below 1.6e11 bytes of free memory it is exactly 8e10, so the floor at 2e9 never
      changes the outcome. */
  lemma BudgetBounds(free: nat)
    ensures MemoryBudget(free) >= BudgetFloor
    ensures MemoryBudget(free) >= free / 2
    ensures free <= 2 * BudgetFloor + 1 ==> MemoryBudget(free) == BudgetFloor
    ensures MemoryBudget(free) == MemoryBudget(ClampedFreeMemory(free))
  {
  }

  /** The raw batch size is the ceiling of budget / cost: the fewest rows whose cost
      reaches the budget. It is therefore at least 1. */
  lemma RawBatchIsCeiling(budget: nat, cost: nat)
    requires cost > 0 && budget > 0
    ensures RawBatchSize(budget, cost) >= 1
    ensures RawBatchSize(budget, cost) * cost >= budget
    ensures (RawBatchSize(budget, cost) - 1) * cost < budget
  {
    var q, m := (budget - 1) / cost, (budget - 1) % cost;
    assert budget - 1 == q * cost + m && 0 <= m < cost;
    assert (q + 1) * cost == q * cost + cost;
  }

  /** A nonzero batch size splits the rows into at least two batches: the budget,
      not the row count, decides the batch. */
  lemma NonzeroBatchMeansSeveralBatches(free: nat, nEstimators: nat, nClasses: nat, task: string, nRows: nat, b: nat)
    requires ForestPredictBatchSize(free, nEstimators, nClasses, task, nRows) == Ok(b)
    requires b != 0
    ensures (nRows + b - 1) / b >= 2
  {
  }

  /** The scikit-learn based wrappers of the library; `BaseWrapper` is a wrapper that
      keeps `BaseEstimator`'s own default. */
  datatype Wrapper =
    | BaseWrapper
    | FLRFClassifier | FLCRFClassifier | FLGBDTClassifier | FLXGBoostClassifier
    | FLRFRegressor | FLCRFRegressor | FLGBDTRegressor | FLXGBoostRegressor | FLLGBMRegressor

  /** The task each wrapper's constructor hands to its base class. */
  function ConstructorTask(w: Wrapper): Option<string>
  {
    match w
    case BaseWrapper => None
    case FLRFClassifier | FLCRFClassifier | FLGBDTClassifier | FLXGBoostClassifier => Some("classification")
    case _ => Some("regression")
  }

  /** The task with which a wrapper's `_default_predict_batch_size` calls the forest
      heuristic, or None when the wrapper does not override the default. */
  function DefaultBatchTask(w: Wrapper): Option<string>
  {
    match w
    case FLRFClassifier | FLCRFClassifier => Some("classification")
    case FLRFRegressor | FLCRFRegressor => Some("regression")
    case _ => None
  }

  /** Only the random-forest and completely-random-forest wrappers override the default,
      and each passes the same task its constructor declares. */
  lemma DefaultRoutesToOwnTask(w: Wrapper)
    ensures DefaultBatchTask(w).Some? <==> w in {FLRFClassifier, FLCRFClassifier, FLRFRegressor, FLCRFRegressor}
    ensures DefaultBatchTask(w).Some? ==> DefaultBatchTask(w) == ConstructorTask(w)
  {
  }
}
