/**
 * The estimator wrapper (forestlayer/estimators/base_estimator.py): disk caching
 * of fitted models and batched `predict_proba`.
 *
 * The wrapper's behaviour is first stated on values (the model held in memory
 * and the cache files), by `FitAsWritten`, `FitIntended` and `PredictSpec`; the
 * class `BaseEstimator` then does the same on objects, and each of its methods
 * is proved to agree with those functions.
 */
module Estimator {
  import opened Wrappers
  import opened Learners
  import SK = SklearnEstimator

  /** The exceptions `fit` and `predict_proba` can raise. */
  datatype Error =
    | CacheFileMissing(path: string)   // joblib.load of a missing file
    | NotAModel                        // an attribute of `None` was used as a model
    | BatchSizeFailed(cause: SK.BatchError)  // the forest heuristic failed (a zero per-row cost)
    | NoBatchedOutput                  // `_batch_predict_proba` returned None (no rows)
    | ShapeMismatch                    // a batch did not fit its slice of the output buffer

  /** `self.cache_suffix`. */
  const CacheSuffix := ".pkl"

  predicate EndsWith(s: string, suffix: string)
  {
    |suffix| <= |s| && s[|s| - |suffix|..] == suffix
  }

  predicate StartsWith(s: string, prefix: string)
  {
    |prefix| <= |s| && s[..|prefix|] == prefix
  }

  /** `os.path.join(dir, file)` for two components. */
  function JoinPath(dir: string, file: string): (r: string)
    ensures EndsWith(r, file)
    ensures (|file| == 0 || file[0] != '/') ==> StartsWith(r, dir)
  {
    if |file| > 0 && file[0] == '/' then file
    else if dir == [] || dir[|dir| - 1] == '/' then
      assert (dir + file)[|dir|..] == file;
      dir + file
    else
      assert (dir + "/" + file)[|dir| + 1..] == file;
      dir + "/" + file
  }

  /** The fixed configuration of a wrapper: its name, the model class and its
      hyperparameters, which scikit-learn wrapper it is, and the unseen `name2path`. */
  datatype Config = Config(
    name: string,
    estClass: EstimatorClass,
    estArgs: Args,
    kind: SK.Wrapper,
    name2path: string -> string)

  /** `_cache_path(cache_dir)`. */
  function CachePath(cfg: Config, cacheDir: Option<string>): (r: Option<string>)
    ensures r.None? <==> cacheDir.None?
    ensures r.Some? ==> EndsWith(r.value, cfg.name2path(cfg.name) + CacheSuffix)
    ensures r.Some? && (cfg.name2path(cfg.name) == [] || cfg.name2path(cfg.name)[0] != '/') ==>
      StartsWith(r.value, cacheDir.value)
  {
    match cacheDir
    case None => None
    case Some(dir) =>
      var file := cfg.name2path(cfg.name) + CacheSuffix;
      assert cfg.name2path(cfg.name) != [] ==> file[0] == cfg.name2path(cfg.name)[0];
      Some(JoinPath(dir, file))
  }

  /** The cache files: each path holds a pickled model or a pickled `None`. */
  type Disk = map<string, Option<ModelState>>

  /** The state `fit` and `predict_proba` work on: `self.est` and the disk. */
  datatype Snapshot = Snapshot(est: Option<ModelState>, disk: Disk)

  /** A freshly constructed model after one `fit` on `data`. */
  function Fitted(cfg: Config, data: TrainingSet): ModelState
  {
    Unfitted(cfg.estClass, cfg.estArgs).(fits := [data])
  }

  /** `fit` as the source writes it: on a cache miss it pickles `self.est`, which is
      the model held before this call, not the one it has just fitted. */
  function FitAsWritten(cfg: Config, s: Snapshot, data: TrainingSet, cacheDir: Option<string>): (r: Snapshot)
    ensures cacheDir.Some? ==> CachePath(cfg, cacheDir).value in r.disk
    ensures cacheDir.Some? && CachePath(cfg, cacheDir).value !in s.disk ==>
      r.est.None? && r.disk[CachePath(cfg, cacheDir).value] == s.est
    ensures cacheDir.None? ==> r.est == Some(Fitted(cfg, data)) && r.disk == s.disk
  {
    var path := CachePath(cfg, cacheDir);
    if path.Some? && path.value in s.disk then s
    else if path.Some? then Snapshot(None, s.disk[path.value := s.est])
    else Snapshot(Some(Fitted(cfg, data)), s.disk)
  }

  /** `fit` as evidently intended: a cache miss pickles the freshly fitted model. */
  function FitIntended(cfg: Config, s: Snapshot, data: TrainingSet, cacheDir: Option<string>): (r: Snapshot)
    ensures cacheDir.Some? ==> CachePath(cfg, cacheDir).value in r.disk
    ensures cacheDir.Some? && CachePath(cfg, cacheDir).value !in s.disk ==>
      r.est.None? && r.disk[CachePath(cfg, cacheDir).value] == Some(Fitted(cfg, data))
    ensures cacheDir.None? ==> r.est == Some(Fitted(cfg, data)) && r.disk == s.disk
  {
    var path := CachePath(cfg, cacheDir);
    if path.Some? && path.value in s.disk then s
    else if path.Some? then Snapshot(None, s.disk[path.value := Some(Fitted(cfg, data))])
    else Snapshot(Some(Fitted(cfg, data)), s.disk)
  }

  /** The model `predict_proba` uses: the pickle at the cache path when a cache
      directory is given, else `self.est`. */
  function ResolveModel(cfg: Config, s: Snapshot, cacheDir: Option<string>): (r: Result<Option<ModelState>, Error>)
    ensures r.Err? <==> cacheDir.Some? && CachePath(cfg, cacheDir).value !in s.disk
    ensures r.Err? ==> r.error == CacheFileMissing(CachePath(cfg, cacheDir).value)
    ensures cacheDir.None? ==> r == Ok(s.est)
    ensures r.Ok? && cacheDir.Some? ==> r.value == s.disk[CachePath(cfg, cacheDir).value]
  {
    match CachePath(cfg, cacheDir)
    case None => Ok(s.est)
    case Some(path) => if path in s.disk then Ok(s.disk[path]) else Err(CacheFileMissing(path))
  }

  /** `_default_predict_batch_size(est, X)` of the wrapper `kind`: the base class
      answers 0; the forest wrappers ask the heuristic, reading `n_estimators` and
      `n_classes_` of the model. */
  function DefaultPredictBatchSize(kind: SK.Wrapper, model: Option<ModelState>, nRows: nat, freeMemory: nat)
    : (r: Result<int, Error>)
    ensures SK.DefaultBatchTask(kind).None? ==> r == Ok(0)
    ensures SK.DefaultBatchTask(kind).Some? && model.None? ==> r == Err(NotAModel)
    ensures SK.DefaultBatchTask(kind).Some? && model.Some? ==>
      var h := SK.ForestPredictBatchSize(freeMemory, model.value.NEstimators(), model.value.NClasses(),
                                         SK.DefaultBatchTask(kind).value, nRows);
      (r.Ok? <==> h.Ok?) && (r.Ok? ==> r.value == h.value) && (r.Err? ==> r.error == BatchSizeFailed(h.error))
    ensures r.Ok? ==> r.value >= 0
  {
    match SK.DefaultBatchTask(kind)
    case None => Ok(0)
    case Some(task) =>
      match model
      case None => Err(NotAModel)
      case Some(m) =>
        match SK.ForestPredictBatchSize(freeMemory, m.NEstimators(), m.NClasses(), task, nRows)
        case Ok(b) => Ok(b)
        case Err(e) => Err(BatchSizeFailed(e))
  }

  /** `batch_size or self._default_predict_batch_size(est, X)`: an explicit nonzero
      batch size is used as it is; None and 0 fall back to the default. */
  function EffectiveBatchSize(batchSize: Option<int>, kind: SK.Wrapper, model: Option<ModelState>, nRows: nat, freeMemory: nat)
    : (r: Result<int, Error>)
    ensures batchSize.Some? && batchSize.value != 0 ==> r == Ok(batchSize.value)
    ensures batchSize.None? || batchSize.value == 0 ==> r == DefaultPredictBatchSize(kind, model, nRows, freeMemory)
    ensures r.Ok? && r.value < 0 ==> batchSize == Some(r.value)
    ensures r.Err? ==> batchSize.None? || batchSize.value == 0
  {
    if batchSize.Some? && batchSize.value != 0 then Ok(batchSize.value)
    else DefaultPredictBatchSize(kind, model, nRows, freeMemory)
  }

  /** The number of slices `range(0, n, b)` produces. */
  function NumSlices(n: nat, b: nat): nat
    requires b > 0
  {
    (n + b - 1) / b
  }

  /** `X[t*b : t*b + b]`, the rows of the slice starting at `t*b` (Python clamps both ends). */
  function SliceAt(x: seq<Row>, b: nat, t: nat): seq<Row>
  {
    var lo := Min(t * b, |x|);
    x[lo .. Min(lo + b, |x|)]
  }

  /** The class count `y_cur.shape[1]` read from the first batch. */
  function FirstWidth(f: seq<Row> -> seq<ProbaRow>, x: seq<Row>, b: nat): nat
  {
    var y0 := f(SliceAt(x, b, 0));
    if |y0| > 0 then |y0[0]| else 0
  }

  /** A batch result fits its slice of the `n x k` output buffer. */
  predicate FitsSlice(y: seq<ProbaRow>, rows: nat, k: nat)
  {
    |y| == rows && forall r :: 0 <= r < |y| ==> |y[r]| == k
  }

  /** Every batch fits its slice of the buffer, so no slice assignment raises. */
  ghost predicate SlicesAligned(f: seq<Row> -> seq<ProbaRow>, x: seq<Row>, b: nat)
    requires b > 0
  {
    forall t :: 0 <= t < NumSlices(|x|, b) ==> FitsSlice(f(SliceAt(x, b, t)), |SliceAt(x, b, t)|, FirstWidth(f, x, b))
  }

  /** Row `i` of the batched output: the prediction for the slice that holds row `i`,
      at row `i`'s offset in that slice. */
  function BatchedRow(f: seq<Row> -> seq<ProbaRow>, x: seq<Row>, b: nat, i: nat): ProbaRow
    requires b > 0
  {
    var t := i / b;
    var y := f(SliceAt(x, b, t));
    if 0 <= i - t * b < |y| then y[i - t * b] else []
  }

  /** The whole batched output, row by row. */
  function BatchedRows(f: seq<Row> -> seq<ProbaRow>, x: seq<Row>, b: nat): (r: seq<ProbaRow>)
    requires b > 0
    ensures |r| == |x|
  {
    seq(|x|, i requires 0 <= i < |x| => BatchedRow(f, x, b, i))
  }

  /** The verbose attribute in force during batched prediction: 0 when the model has one. */
  function Quieted(v: Option<int>): Option<int>
  {
    if v.Some? then Some(0) else None
  }

  /** What `predict_proba` returns for model `model`, rows `x` and batch size `b`
      (batched when `b > 0`). */
  ghost function PredictWith(model: Option<ModelState>, x: seq<Row>, b: int): (r: Result<seq<ProbaRow>, Error>)
    ensures model.None? ==> r.Err?
    ensures b <= 0 && model.Some? ==> r == Ok(model.value.Predictor()(x))
    ensures b > 0 && model.Some? ==> (r.Ok? <==> |x| > 0 && SlicesAligned(model.value.Predictor(), x, b))
    ensures b > 0 && r.Ok? ==> r.value == BatchedRows(model.value.Predictor(), x, b) && |r.value| == |x|
  {
    if b > 0 then
      match model
      case None => if |x| == 0 then Err(NoBatchedOutput) else Err(NotAModel)
      case Some(m) =>
        if !SlicesAligned(m.Predictor(), x, b) then Err(ShapeMismatch)
        else if |x| == 0 then Err(NoBatchedOutput)
        else Ok(BatchedRows(m.Predictor(), x, b))
    else
      match model
      case None => Err(NotAModel)
      case Some(m) => Ok(m.Predictor()(x))
  }

  /** `predict_proba(X, cache_dir, batch_size)` on values. */
  ghost function PredictSpec(cfg: Config, s: Snapshot, x: seq<Row>, cacheDir: Option<string>, batchSize: Option<int>, freeMemory: nat)
    : (r: Result<seq<ProbaRow>, Error>)
    ensures ResolveModel(cfg, s, cacheDir).Err? ==> r == Err(ResolveModel(cfg, s, cacheDir).error)
    ensures r.Ok? ==> ResolveModel(cfg, s, cacheDir).Ok? && ResolveModel(cfg, s, cacheDir).value.Some?
    ensures ResolveModel(cfg, s, cacheDir).Ok? && batchSize.Some? && batchSize.value != 0 ==>
      r == PredictWith(ResolveModel(cfg, s, cacheDir).value, x, batchSize.value)
  {
    match ResolveModel(cfg, s, cacheDir)
    case Err(e) => Err(e)
    case Ok(model) =>
      match EffectiveBatchSize(batchSize, cfg.kind, model, |x|, freeMemory)
      case Err(e) => Err(e)
      case Ok(b) => PredictWith(model, x, b)
  }

  // ---------------------------------------------------------------------------
  // The slices of `range(0, n, b)` partition the rows [0, n).

  lemma MulAtLeast(d: int, b: nat)
    requires d >= 1
    ensures d * b >= b
  {
    var e := d - 1;
    assert d * b == e * b + b;
  }

  /** Only the slice starting at `(i / b) * b` holds row `i`. */
  lemma SliceOfRowIsUnique(b: nat, i: nat, t: nat)
    requires b > 0 && t * b <= i < t * b + b
    ensures t == i / b
  {
    var q, r := i / b, i % b;
    assert i == q * b + r && 0 <= r < b;
    if q > t {
      assert (q - t) * b == q * b - t * b;
      MulAtLeast(q - t, b);
      assert false;
    } else if q < t {
      assert (t - q) * b == t * b - q * b;
      MulAtLeast(t - q, b);
      assert false;
    }
  }

  /** Slice `t` is one of the `NumSlices(n, b)` slices exactly when it starts before `n`. */
  lemma SliceCount(n: nat, b: nat, t: nat)
    requires b > 0
    ensures t < NumSlices(n, b) <==> t * b < n
  {
    var q, r := (n + b - 1) / b, (n + b - 1) % b;
    assert n + b - 1 == q * b + r && 0 <= r < b;
    if t < q {
      MulAtLeast(q - t, b);
      assert (q - t) * b == q * b - t * b;
    } else {
      assert t * b >= q * b by {
        if t > q {
          MulAtLeast(t - q, b);
          assert (t - q) * b == t * b - q * b;
        }
      }
    }
  }

  /** Every row `i < n` lies in exactly one slice, the one numbered `i / b`. */
  lemma RowInItsSlice(n: nat, b: nat, i: nat)
    requires b > 0 && i < n
    ensures i / b < NumSlices(n, b)
    ensures (i / b) * b <= i < (i / b) * b + b
    ensures forall t: nat :: t * b <= i < t * b + b ==> t == i / b
  {
    var q, r := i / b, i % b;
    assert i == q * b + r && 0 <= r < b;
    SliceCount(n, b, q);
    forall t: nat | t * b <= i < t * b + b
      ensures t == i / b
    {
      SliceOfRowIsUnique(b, i, t);
    }
  }

  /** The first `t` slices fit their part of the buffer. */
  ghost predicate SlicesFit(f: seq<Row> -> seq<ProbaRow>, x: seq<Row>, b: nat, t: nat)
  {
    forall i :: 0 <= i < t ==> FitsSlice(f(SliceAt(x, b, i)), |SliceAt(x, b, i)|, FirstWidth(f, x, b))
  }

  /** The first `m` rows of `rows` are those of the batched output. */
  ghost predicate RowsDone(f: seq<Row> -> seq<ProbaRow>, x: seq<Row>, b: nat, rows: seq<ProbaRow>, m: nat)
    requires b > 0
  {
    m <= |rows| && forall i :: 0 <= i < m ==> rows[i] == BatchedRow(f, x, b, i)
  }

  /** Copying the prediction of slice `t` into rows `t*b ..` extends the finished rows
      by that slice. */
  lemma {:induction false} RowsDoneStep(f: seq<Row> -> seq<ProbaRow>, x: seq<Row>, b: nat, t: nat,
                                        before: seq<ProbaRow>, after: seq<ProbaRow>)
    requires b > 0 && t * b < |x| && |before| == |x|
    requires RowsDone(f, x, b, before, t * b)
    requires |f(SliceAt(x, b, t))| == |SliceAt(x, b, t)|
    requires after == before[..t * b] + f(SliceAt(x, b, t)) + before[t * b + |SliceAt(x, b, t)|..]
    ensures RowsDone(f, x, b, after, t * b + |SliceAt(x, b, t)|)
  {
    var y := f(SliceAt(x, b, t));
    forall i | 0 <= i < t * b + |y|
      ensures after[i] == BatchedRow(f, x, b, i)
    {
      if i >= t * b {
        SliceOfRowIsUnique(b, i, t);
        assert after[i] == y[i - t * b];
      } else {
        assert after[i] == before[i];
      }
    }
  }

  /** A buffer whose every row is finished is the batched output. */
  lemma AllRowsDone(f: seq<Row> -> seq<ProbaRow>, x: seq<Row>, b: nat, rows: seq<ProbaRow>)
    requires b > 0 && |rows| == |x| && RowsDone(f, x, b, rows, |x|)
    ensures rows == BatchedRows(f, x, b)
  {
  }

  /** Slice `t` of a batch size `b`, when it starts inside `x`. */
  lemma SliceAtStart(x: seq<Row>, b: nat, t: nat, j: nat)
    requires j == t * b && j < |x|
    ensures SliceAt(x, b, t) == x[j .. Min(j + b, |x|)]
    ensures |SliceAt(x, b, t)| == Min(j + b, |x|) - j
    ensures (t + 1) * b == j + b
  {
  }

  lemma SlicesFitStep(f: seq<Row> -> seq<ProbaRow>, x: seq<Row>, b: nat, t: nat)
    requires SlicesFit(f, x, b, t)
    requires FitsSlice(f(SliceAt(x, b, t)), |SliceAt(x, b, t)|, FirstWidth(f, x, b))
    ensures SlicesFit(f, x, b, t + 1)
  {
  }

  /** Once every slice fits, the batched prediction does not fail. */
  lemma AllSlicesFit(f: seq<Row> -> seq<ProbaRow>, x: seq<Row>, b: nat, t: nat)
    requires b > 0 && SlicesFit(f, x, b, t) && t == NumSlices(|x|, b)
    ensures SlicesAligned(f, x, b)
  {
  }

  lemma SliceCallsStep(log: seq<PredictCall>, x: seq<Row>, b: nat, v: Option<int>, t: nat)
    ensures log + SliceCalls(x, b, v, t + 1) == log + SliceCalls(x, b, v, t) + [PredictCall(SliceAt(x, b, t), v)]
  {
    assert SliceCalls(x, b, v, t + 1) == SliceCalls(x, b, v, t) + [PredictCall(SliceAt(x, b, t), v)];
  }

  /** One slice that does not fit is enough to make the batched prediction fail. */
  lemma MisfitSliceBreaksAlignment(f: seq<Row> -> seq<ProbaRow>, x: seq<Row>, b: nat, t: nat)
    requires b > 0 && t * b < |x|
    requires !FitsSlice(f(SliceAt(x, b, t)), |SliceAt(x, b, t)|, FirstWidth(f, x, b))
    ensures !SlicesAligned(f, x, b)
  {
    SliceCount(|x|, b, t);
  }

  /** `buf[lo:lo+len(rows), :] = rows`. */
  method WriteRows(buf: array<ProbaRow>, lo: nat, rows: seq<ProbaRow>)
    requires lo + |rows| <= buf.Length
    modifies buf
    ensures buf[..] == old(buf[..])[..lo] + rows + old(buf[..])[lo + |rows|..]
  {
    forall i | lo <= i < lo + |rows| {
      buf[i] := rows[i - lo];
    }
    assert buf[..] == old(buf[..])[..lo] + rows + old(buf[..])[lo + |rows|..];
  }

  /** The body of the loop of `_batch_predict_proba` after the prediction `yCur` of slice
      `t`: the assignment into the buffer succeeds exactly when the slice fits. */
  method StoreSlice(ghost f: seq<Row> -> seq<ProbaRow>, x: seq<Row>, b: nat, ghost t: nat, j: nat,
                    yCur: seq<ProbaRow>, buf: array<ProbaRow>, k: nat) returns (fits: bool)
    requires b > 0 && j == t * b && j < |x| && buf.Length == |x|
    requires yCur == f(SliceAt(x, b, t)) && k == FirstWidth(f, x, b)
    requires SlicesFit(f, x, b, t) && RowsDone(f, x, b, buf[..], j)
    modifies buf
    ensures fits ==> SlicesFit(f, x, b, t + 1) && RowsDone(f, x, b, buf[..], Min(j + b, |x|))
    ensures !fits ==> !SlicesAligned(f, x, b)
  {
    var hi := Min(j + b, |x|);
    SliceAtStart(x, b, t, j);
    fits := |yCur| == hi - j && forall i :: 0 <= i < |yCur| ==> |yCur[i]| == k;
    if !fits {
      MisfitSliceBreaksAlignment(f, x, b, t);
      return;
    }
    SlicesFitStep(f, x, b, t);
    ghost var before := buf[..];
    WriteRows(buf, j, yCur);
    RowsDoneStep(f, x, b, t, before, buf[..]);
  }

  /** The `predict_proba` calls of the first `t` slices, each made with `verbose` at `v`. */
  function SliceCalls(x: seq<Row>, b: nat, v: Option<int>, t: nat): (r: seq<PredictCall>)
    ensures |r| == t
  {
    seq(t, i requires 0 <= i => PredictCall(SliceAt(x, b, i), v))
  }

  /** The loop of `_batch_predict_proba`: slice `t` covers rows `t*b .. t*b + b` (clamped
      to `n`); its prediction must have one row per input row, each as wide as the first
      batch's rows, and is copied into its rows of the buffer. `ok` is false when a
      slice does not fit, which numpy reports as a ValueError. */
  method PredictSlices(model: Learner, x: seq<Row>, b: nat) returns (ok: bool, buf: array?<ProbaRow>)
    requires b > 0
    modifies model
    ensures model.State() == old(model.State())
    ensures ok <==> SlicesAligned(model.State().Predictor(), x, b)
    ensures ok ==> (buf == null <==> |x| == 0)
    ensures ok && buf != null ==> fresh(buf) && buf[..] == BatchedRows(model.State().Predictor(), x, b)
    ensures ok ==> model.calls == old(model.calls) + SliceCalls(x, b, model.verbose, NumSlices(|x|, b))
  {
    ghost var f := model.State().Predictor();
    ghost var m0, calls0 := model.State(), model.calls;
    var n := |x|;
    buf := null;
    var k := 0;
    var j, t := 0, 0;
    while j < n
      invariant j == t * b
      invariant t > 0 ==> (t - 1) * b < n && n > 0
      invariant model.State() == m0
      invariant model.calls == calls0 + SliceCalls(x, b, m0.verbose, t)
      invariant (t == 0) == (buf == null)
      invariant buf != null ==> fresh(buf) && buf.Length == n && k == FirstWidth(f, x, b)
      invariant SlicesFit(f, x, b, t)
      invariant buf != null ==> RowsDone(f, x, b, buf[..], Min(j, n))
      decreases n - j
    {
      var hi := Min(j + b, n);
      SliceAtStart(x, b, t, j);
      var yCur := model.PredictProba(x[j..hi]);
      SliceCallsStep(calls0, x, b, m0.verbose, t);
      if j == 0 {
        k := if |yCur| > 0 then |yCur[0]| else 0;
        buf := new ProbaRow[n];
      }
      var fits := StoreSlice(f, x, b, t, j, yCur, buf, k);
      if !fits {
        return false, buf;
      }
      j, t := j + b, t + 1;
    }
    SliceCount(n, b, t);
    if t > 0 {
      SliceCount(n, b, t - 1);
    }
    AllSlicesFit(f, x, b, t);
    if buf != null {
      AllRowsDone(f, x, b, buf[..]);
    }
    return true, buf;
  }

  // ---------------------------------------------------------------------------
  // Batching does not change what is predicted.

  /** A model that predicts every row on its own, as the `k`-class row `g(row)`, as
      the forest models do. */
  ghost predicate RowWise(f: seq<Row> -> seq<ProbaRow>, g: Row -> ProbaRow, k: nat)
  {
    (forall row :: |g(row)| == k) &&
    forall rows: seq<Row> :: |f(rows)| == |rows| && forall i :: 0 <= i < |rows| ==> f(rows)[i] == g(rows[i])
  }

  /** Slice `t` starts at row `t*b`, for every slice of `range(0, n, b)`. */
  lemma SliceRows(x: seq<Row>, b: nat, t: nat)
    requires b > 0 && t < NumSlices(|x|, b)
    ensures t * b < |x|
    ensures |SliceAt(x, b, t)| == Min(t * b + b, |x|) - t * b
    ensures forall i :: 0 <= i < |SliceAt(x, b, t)| ==> SliceAt(x, b, t)[i] == x[t * b + i]
  {
    SliceCount(|x|, b, t);
    var lo := t * b;
    assert SliceAt(x, b, t) == x[lo .. Min(lo + b, |x|)];
  }

  /** Row `i` of the batched output of a row-wise model is the prediction for row `i`. */
  lemma BatchedRowOfRowWise(f: seq<Row> -> seq<ProbaRow>, g: Row -> ProbaRow, k: nat, x: seq<Row>, b: nat, i: nat)
    requires b > 0 && RowWise(f, g, k) && i < |x|
    ensures BatchedRow(f, x, b, i) == g(x[i])
  {
    var t := i / b;
    RowInItsSlice(|x|, b, i);
    SliceRows(x, b, t);
    var sl := SliceAt(x, b, t);
    assert i - t * b < |sl|;
    assert f(sl)[i - t * b] == g(sl[i - t * b]);
  }

  /** A row-wise model's prediction for any rows fits an `n x k` block. */
  lemma RowWiseFits(f: seq<Row> -> seq<ProbaRow>, g: Row -> ProbaRow, k: nat, rows: seq<Row>)
    requires RowWise(f, g, k)
    ensures FitsSlice(f(rows), |rows|, k)
  {
    forall r | 0 <= r < |f(rows)| ensures |f(rows)[r]| == k {
      assert f(rows)[r] == g(rows[r]);
    }
  }

  /** For a row-wise model every batch fits its slice. */
  lemma RowWiseSlicesAligned(f: seq<Row> -> seq<ProbaRow>, g: Row -> ProbaRow, k: nat, x: seq<Row>, b: nat)
    requires b > 0 && RowWise(f, g, k)
    ensures SlicesAligned(f, x, b)
  {
    if |x| == 0 {
      SliceCount(0, b, 0);
    } else {
      SliceRows(x, b, 0);
      RowWiseFits(f, g, k, SliceAt(x, b, 0));
      assert FirstWidth(f, x, b) == k;
      forall t | 0 <= t < NumSlices(|x|, b)
        ensures FitsSlice(f(SliceAt(x, b, t)), |SliceAt(x, b, t)|, k)
      {
        RowWiseFits(f, g, k, SliceAt(x, b, t));
      }
    }
  }

  /** For a row-wise model every batch fits, and the batched output equals the
      prediction of all rows at once, whatever the batch size. */
  lemma BatchingPreservesRows(f: seq<Row> -> seq<ProbaRow>, g: Row -> ProbaRow, k: nat, x: seq<Row>, b: nat)
    requires b > 0 && RowWise(f, g, k)
    ensures SlicesAligned(f, x, b)
    ensures BatchedRows(f, x, b) == f(x)
  {
    RowWiseSlicesAligned(f, g, k, x, b);
    forall i | 0 <= i < |x|
      ensures BatchedRows(f, x, b)[i] == f(x)[i]
    {
      BatchedRowOfRowWise(f, g, k, x, b, i);
    }
  }

  /** For a row-wise model and a non-empty input, `predict_proba` with a positive
      batch size answers what it answers without batches. */
  lemma BatchedPredictionAgrees(m: ModelState, g: Row -> ProbaRow, k: nat, x: seq<Row>, b: nat)
    requires b > 0 && |x| > 0 && RowWise(m.Predictor(), g, k)
    ensures PredictWith(Some(m), x, b) == PredictWith(Some(m), x, 0) == Ok(m.Predictor()(x))
  {
    BatchingPreservesRows(m.Predictor(), g, k, x, b);
  }

  /** With no rows, batched prediction returns None and reading its shape fails,
      while unbatched prediction succeeds. */
  lemma EmptyInputBatched(m: ModelState, b: nat)
    requires b > 0
    ensures PredictWith(Some(m), [], b) == Err(NoBatchedOutput)
    ensures PredictWith(Some(m), [], 0).Ok?
  {
  }

  // ---------------------------------------------------------------------------
  // The default batch size.

  /** A wrapper that keeps the base default predicts in one unbatched call when no
      batch size (or 0) is given. */
  lemma BaseDefaultPredictsUnbatched(cfg: Config, s: Snapshot, x: seq<Row>, cacheDir: Option<string>,
                                     batchSize: Option<int>, freeMemory: nat)
    requires SK.DefaultBatchTask(cfg.kind).None? && (batchSize.None? || batchSize.value == 0)
    requires ResolveModel(cfg, s, cacheDir).Ok?
    ensures PredictSpec(cfg, s, x, cacheDir, batchSize, freeMemory) == PredictWith(ResolveModel(cfg, s, cacheDir).value, x, 0)
  {
  }

  /** A forest wrapper given no batch size predicts with the heuristic's answer for the
      resolved model, or fails as the heuristic does. */
  lemma ForestDefaultBatches(cfg: Config, s: Snapshot, x: seq<Row>, cacheDir: Option<string>, freeMemory: nat, m: ModelState)
    requires SK.DefaultBatchTask(cfg.kind).Some? && ResolveModel(cfg, s, cacheDir) == Ok(Some(m))
    ensures var h := SK.ForestPredictBatchSize(freeMemory, m.NEstimators(), m.NClasses(), SK.DefaultBatchTask(cfg.kind).value, |x|);
      (h.Ok? ==> PredictSpec(cfg, s, x, cacheDir, None, freeMemory) == PredictWith(Some(m), x, h.value)) &&
      (h.Err? ==> PredictSpec(cfg, s, x, cacheDir, None, freeMemory) == Err(BatchSizeFailed(h.error)))
  {
  }

  // ---------------------------------------------------------------------------
  // Caching.

  /** A cache hit leaves the wrapper and the disk as they were. */
  lemma CacheHitSkipsFit(cfg: Config, s: Snapshot, data: TrainingSet, cacheDir: Option<string>)
    requires CachePath(cfg, cacheDir).Some? && CachePath(cfg, cacheDir).value in s.disk
    ensures FitAsWritten(cfg, s, data, cacheDir) == s
    ensures FitIntended(cfg, s, data, cacheDir) == s
  {
  }

  /** Storing at a path not yet on disk keeps every other file and adds only that one. */
  lemma StoreAtNewPath(d: Disk, path: string, v: Option<ModelState>, d': Disk)
    requires path !in d && d' == d[path := v]
    ensures forall p :: p in d ==> p in d' && d'[p] == d[p]
    ensures forall p :: p in d' ==> p in d || p == path
  {
  }

  /** Neither version of `fit` overwrites or removes a cache file: the only file it
      can add is the one at its own cache path. */
  lemma FitKeepsCacheFiles(cfg: Config, s: Snapshot, data: TrainingSet, cacheDir: Option<string>)
    ensures var d := FitAsWritten(cfg, s, data, cacheDir).disk;
      (forall p :: p in s.disk ==> p in d && d[p] == s.disk[p]) &&
      (forall p :: p in d ==> p in s.disk || CachePath(cfg, cacheDir) == Some(p))
    ensures var d := FitIntended(cfg, s, data, cacheDir).disk;
      (forall p :: p in s.disk ==> p in d && d[p] == s.disk[p]) &&
      (forall p :: p in d ==> p in s.disk || CachePath(cfg, cacheDir) == Some(p))
  {
    var path := CachePath(cfg, cacheDir);
    var w, i := FitAsWritten(cfg, s, data, cacheDir).disk, FitIntended(cfg, s, data, cacheDir).disk;
    if path.Some? && path.value !in s.disk {
      StoreAtNewPath(s.disk, path.value, s.est, w);
      StoreAtNewPath(s.disk, path.value, Some(Fitted(cfg, data)), i);
    } else {
      assert w == s.disk && i == s.disk;
    }
  }

  /** Fitting twice with the same arguments leaves what fitting once left. */
  lemma FitIsIdempotent(cfg: Config, s: Snapshot, data: TrainingSet, cacheDir: Option<string>)
    ensures FitAsWritten(cfg, FitAsWritten(cfg, s, data, cacheDir), data, cacheDir) == FitAsWritten(cfg, s, data, cacheDir)
    ensures FitIntended(cfg, FitIntended(cfg, s, data, cacheDir), data, cacheDir) == FitIntended(cfg, s, data, cacheDir)
  {
  }

  /** The corrected `fit` followed by `predict_proba` with the same cache directory
      uses the model just fitted, unless a cache file was already there. */
  lemma FitIntendedThenResolve(cfg: Config, s: Snapshot, data: TrainingSet, cacheDir: Option<string>)
    requires cacheDir.Some? ==> CachePath(cfg, cacheDir).value !in s.disk
    ensures ResolveModel(cfg, FitIntended(cfg, s, data, cacheDir), cacheDir) == Ok(Some(Fitted(cfg, data)))
  {
  }

  /** `fit` as written, on a wrapper that holds no model and a cache directory with
      no file for it, saves `None`: every later `predict_proba` with that cache
      directory on a non-empty input fails. */
  lemma FitAsWrittenLosesModel(cfg: Config, s: Snapshot, data: TrainingSet, dir: string, x: seq<Row>,
                               batchSize: Option<int>, freeMemory: nat)
    requires s.est.None? && CachePath(cfg, Some(dir)).value !in s.disk && |x| > 0
    ensures ResolveModel(cfg, FitAsWritten(cfg, s, data, Some(dir)), Some(dir)) == Ok(None)
    ensures PredictSpec(cfg, FitAsWritten(cfg, s, data, Some(dir)), x, Some(dir), batchSize, freeMemory) == Err(NotAModel)
  {
  }

  /** The two versions of `fit` agree exactly when the model they would save is
      the same: on a cache hit, without a cache directory, or when the wrapper
      already held the model this call fits. */
  lemma {:induction false} FitVersionsAgree(cfg: Config, s: Snapshot, data: TrainingSet, cacheDir: Option<string>)
    ensures FitAsWritten(cfg, s, data, cacheDir) == FitIntended(cfg, s, data, cacheDir) <==>
      (cacheDir.None? || CachePath(cfg, cacheDir).value in s.disk || s.est == Some(Fitted(cfg, data)))
  {
    var path := CachePath(cfg, cacheDir);
    if path.Some? && path.value !in s.disk && FitAsWritten(cfg, s, data, cacheDir) == FitIntended(cfg, s, data, cacheDir) {
      assert FitAsWritten(cfg, s, data, cacheDir).disk[path.value] == s.est;
      assert FitIntended(cfg, s, data, cacheDir).disk[path.value] == Some(Fitted(cfg, data));
    }
  }

  // ---------------------------------------------------------------------------
  // The wrapper object.

  class BaseEstimator {
    const name: string
    const estClass: EstimatorClass
    const estArgs: Args
    /** Which scikit-learn wrapper this is; it decides `_default_predict_batch_size`. */
    const kind: SK.Wrapper
    /** `name2path` of the storage utilities, which are not part of this model. */
    const name2path: string -> string
    /** `self.est`: the fitted model kept in memory, or null. */
    var est: Learner?

    function Cfg(): Config
    {
      Config(name, estClass, estArgs, kind, name2path)
    }

    /** The in-memory model as a value. */
    ghost function EstState(): Option<ModelState>
      reads this, est
    {
      if est == null then None else Some(est.State())
    }

    /** `BaseEstimator(est_class, name, est_args)`; missing arguments become `{}`. */
    constructor (estClass: EstimatorClass, name: string, estArgs: Option<Args>, kind: SK.Wrapper, name2path: string -> string)
      ensures est == null
      ensures Cfg() == Config(name, estClass, if estArgs.Some? then estArgs.value else map[], kind, name2path)
    {
      this.name, this.estClass, this.kind, this.name2path := name, estClass, kind, name2path;
      this.estArgs := if estArgs.Some? then estArgs.value else map[];
      est := null;
    }

    /** `fit(X, y, cache_dir)` as written: a cache miss pickles `self.est`, not the
        model it has just fitted. */
    method Fit(data: TrainingSet, cacheDir: Option<string>, store: FileStore)
      modifies this, store
      ensures Snapshot(EstState(), store.files) == FitAsWritten(Cfg(), old(Snapshot(EstState(), store.files)), data, cacheDir)
      ensures CachePath(Cfg(), cacheDir).Some? && CachePath(Cfg(), cacheDir).value in old(store.files) ==>
        est == old(est)
      ensures cacheDir.None? ==> est != null && fresh(est) && est.calls == []
    {
      var path := CachePath(Cfg(), cacheDir);
      var cached := store.Exists(path);
      if cached {
        return;
      }
      var model := new Learner(estClass, estArgs);
      model.Fit(data);
      assert model.State() == Fitted(Cfg(), data);
      if path.Some? {
        store.Save(est, path.value);
        est := null;
      } else {
        est := model;
      }
    }

    /** `fit` as evidently intended: a cache miss pickles the freshly fitted model. */
    method FitCorrected(data: TrainingSet, cacheDir: Option<string>, store: FileStore)
      modifies this, store
      ensures Snapshot(EstState(), store.files) == FitIntended(Cfg(), old(Snapshot(EstState(), store.files)), data, cacheDir)
      ensures cacheDir.None? ==> est != null && fresh(est) && est.calls == []
    {
      var path := CachePath(Cfg(), cacheDir);
      var cached := store.Exists(path);
      if cached {
        return;
      }
      var model := new Learner(estClass, estArgs);
      model.Fit(data);
      assert model.State() == Fitted(Cfg(), data);
      if path.Some? {
        store.Save(model, path.value);
        est := null;
      } else {
        est := model;
      }
    }

    /** `_batch_predict_proba(est, X, batch_size)`: with the model's `verbose` attribute
        at 0, predicts the slices `X[j:j+b]` for `j` in `range(0, n, b)` into an `n`-row
        buffer, then restores `verbose`. Returns None when there are no rows. */
    method BatchPredictProba(model: Learner?, x: seq<Row>, b: nat) returns (r: Result<Option<array<ProbaRow>>, Error>)
      requires b > 0
      modifies model
      ensures model == null ==> r == if |x| == 0 then Ok(None) else Err(NotAModel)
      ensures model != null ==> model.fits == old(model.fits)
      ensures model != null ==> (r.Ok? <==> SlicesAligned(old(model.State()).Predictor(), x, b))
      ensures model != null && r.Err? ==> r.error == ShapeMismatch && model.verbose == Quieted(old(model.verbose))
      ensures model != null && r.Ok? ==> model.verbose == old(model.verbose)
      ensures model != null && r.Ok? ==> (r.value.None? <==> |x| == 0)
      ensures model != null && r.Ok? && r.value.Some? ==>
        fresh(r.value.value) && r.value.value[..] == BatchedRows(old(model.State()).Predictor(), x, b)
      ensures model != null && r.Ok? ==> model.calls == old(model.calls) + SliceCalls(x, b, Quieted(old(model.verbose)), NumSlices(|x|, b))
    {
      if model == null {
        // `hasattr(None, "verbose")` is false, and `None.predict_proba` fails on the first slice.
        if |x| == 0 {
          return Ok(None);
        }
        return Err(NotAModel);
      }
      var verboseBackup := 0;
      if model.verbose.Some? {
        verboseBackup := model.verbose.value;
        model.verbose := Some(0);
      }
      var ok, buf := PredictSlices(model, x, b);
      if !ok {
        return Err(ShapeMismatch);
      }
      if model.verbose.Some? {
        model.verbose := Some(verboseBackup);
      }
      if buf == null {
        return Ok(None);
      }
      return Ok(Some(buf));
    }

    /** `predict_proba(X, cache_dir, batch_size)`; the free memory the forest heuristic
        reads from the operating system is the parameter `freeMemory`. */
    method PredictProba(x: seq<Row>, cacheDir: Option<string>, batchSize: Option<int>, freeMemory: nat, store: FileStore)
      returns (r: Result<seq<ProbaRow>, Error>)
      modifies est
      ensures r == PredictSpec(Cfg(), Snapshot(old(EstState()), store.files), x, cacheDir, batchSize, freeMemory)
      ensures est != null ==> est.fits == old(est.fits)
      ensures est != null && r.Ok? ==> est.verbose == old(est.verbose)
    {
      var path := CachePath(Cfg(), cacheDir);
      var model: Learner?;
      if path.Some? {
        var found;
        found, model := store.Load(path.value);
        if !found {
          return Err(CacheFileMissing(path.value));
        }
      } else {
        model := est;
      }
      var resolved := if model == null then None else Some(model.State());
      assert ResolveModel(Cfg(), Snapshot(old(EstState()), store.files), cacheDir) == Ok(resolved);
      var b: int;
      if batchSize.Some? && batchSize.value != 0 {
        b := batchSize.value;
      } else {
        var d := DefaultPredictBatchSize(kind, resolved, |x|, freeMemory);
        if d.Err? {
          return Err(d.error);
        }
        b := d.value;
      }
      assert EffectiveBatchSize(batchSize, kind, resolved, |x|, freeMemory) == Ok(b);
      if b > 0 {
        var out := BatchPredictProba(model, x, b);
        match out
        case Err(e) => return Err(e);
        case Ok(None) => return Err(NoBatchedOutput);  // `y_proba.shape` of None
        case Ok(Some(buf)) => return Ok(buf[..]);
      } else {
        if model == null {
          return Err(NotAModel);
        }
        var y := model.PredictProba(x);
        return Ok(y);
      }
    }
  }
}
