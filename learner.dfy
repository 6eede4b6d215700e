/**
 * The external collaborators of the estimator wrapper: the model objects of
 * scikit-learn, XGBoost and LightGBM, and the files that joblib writes.
 * Their numerics are not modelled: a model class is known only through what
 * it predicts for given hyperparameters, training history and input rows.
 */
module Learners {
  import opened Wrappers

  /** One row of the input matrix `X`. */
  type Row = seq<real>
  /** A class label of `y`. */
  type Label = int
  /** One row of a `predict_proba` result, one entry per class. */
  type ProbaRow = seq<real>

  /** A hyperparameter value, passed unchanged to the model constructor. */
  datatype Param = IntParam(i: int) | RealParam(r: real) | StrParam(s: string) | BoolParam(b: bool) | NoneParam

  /** The keyword arguments `est_args` of a model constructor. */
  type Args = map<string, Param>

  /** The arguments of one `fit(X, y)` call. */
  datatype TrainingSet = TrainingSet(x: seq<Row>, y: seq<Label>)

  /** An estimator class of an external library, as the wrapper observes it: what a
      model with these hyperparameters, fitted on these training sets, predicts for some
      rows; its `n_estimators`; and its `verbose` attribute, None when it has none. */
  datatype EstimatorClass = EstimatorClass(
    className: string,
    predict: (Args, seq<TrainingSet>, seq<Row>) -> seq<ProbaRow>,
    nEstimators: Args -> nat,
    verbose: Args -> Option<int>)

  /** Everything a pickled model object preserves. */
  datatype ModelState = ModelState(estClass: EstimatorClass, args: Args, fits: seq<TrainingSet>, verbose: Option<int>)
  {
    /** The model's `predict_proba`. */
    function Predictor(): seq<Row> -> seq<ProbaRow>
    {
      var c, a, h := estClass, args, fits;
      rows => c.predict(a, h, rows)
    }

    /** `n_classes_`: the number of distinct labels of the latest training set. */
    function NClasses(): nat
    {
      if fits == [] then 0
      else var y := fits[|fits| - 1].y; |set i | 0 <= i < |y| :: y[i]|
    }

    function NEstimators(): nat
    {
      estClass.nEstimators(args)
    }
  }

  /** `est_class(**est_args)`: a model that has not been fitted. */
  function Unfitted(c: EstimatorClass, args: Args): (m: ModelState)
  {
    ModelState(c, args, [], c.verbose(args))
  }

  /** One `predict_proba` call, with the `verbose` attribute in force while it ran. */
  datatype PredictCall = PredictCall(rows: seq<Row>, verbose: Option<int>)

  /** A model object, which `fit` and `predict_proba` use in place. */
  class Learner {
    const estClass: EstimatorClass
    const args: Args
    var fits: seq<TrainingSet>
    var verbose: Option<int>
    /** The `predict_proba` calls made on this object, oldest first. */
    ghost var calls: seq<PredictCall>

    function State(): ModelState
      reads this
    {
      ModelState(estClass, args, fits, verbose)
    }

    /** `est_class(**est_args)`. */
    constructor (c: EstimatorClass, a: Args)
      ensures State() == Unfitted(c, a) && calls == []
    {
      estClass, args, fits, verbose := c, a, [], c.verbose(a);
      calls := [];
    }

    /** Unpickling: a new object with the saved state. */
    constructor FromState(s: ModelState)
      ensures State() == s && calls == []
    {
      estClass, args, fits, verbose := s.estClass, s.args, s.fits, s.verbose;
      calls := [];
    }

    /** `est.fit(X, y)`. */
    method Fit(data: TrainingSet)
      modifies this
      ensures fits == old(fits) + [data]
      ensures verbose == old(verbose) && calls == old(calls)
    {
      fits := fits + [data];
    }

    /** `est.predict_proba(X)`. */
    method PredictProba(x: seq<Row>) returns (y: seq<ProbaRow>)
      modifies this
      ensures y == State().Predictor()(x)
      ensures fits == old(fits) && verbose == old(verbose)
      ensures calls == old(calls) + [PredictCall(x, verbose)]
    {
      y := estClass.predict(args, fits, x);
      calls := calls + [PredictCall(x, verbose)];
    }
  }

  /** The cache files on disk: each path holds a pickled model, or a pickled `None`. */
  class FileStore {
    var files: map<string, Option<ModelState>>

    constructor (initial: map<string, Option<ModelState>>)
      ensures files == initial
    {
      files := initial;
    }

    /** `is_path_exists(path)`; a missing path (None) does not exist. */
    method Exists(path: Option<string>) returns (b: bool)
      ensures b <==> path.Some? && path.value in files
    {
      b := path.Some? && path.value in files;
    }

    /** `joblib.dump(est, path)`; a null object pickles as `None`. */
    method Save(est: Learner?, path: string)
      modifies this
      ensures files == old(files)[path := if est == null then None else Some(est.State())]
    {
      files := files[path := if est == null then None else Some(est.State())];
    }

    /** `joblib.load(path)`: `found` is false when the file is missing (an IOError);
        otherwise `est` is a new object with the saved state, or null for a saved `None`. */
    method Load(path: string) returns (found: bool, est: Learner?)
      ensures found <==> path in files
      ensures found && files[path].Some? ==> est != null && fresh(est) && est.State() == files[path].value && est.calls == []
      ensures found && files[path].None? ==> est == null
    {
      found := path in files;
      est := null;
      if found && files[path].Some? {
        est := new Learner.FromState(files[path].value);
      }
    }
  }
}
