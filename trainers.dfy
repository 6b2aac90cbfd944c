/** The twelve `create_*` trainers of the model builder (easyml/helpers/model_builder.py:125-434).
    Each reads its hyperparameters from the parameter bag with defaults, fits a configured
    estimator on a training split, records the held-out score and its kind in the SAME bag,
    refits the configuration on the full data and returns that model. The learning library is an
    oracle (`Library`); what the model fixes is which estimator each bag configures, the depth
    search of the tree and forest trainers, and the bag updates. */
module Trainers {
  import opened Results
  import opened PyValues
  import opened Store

  /** The caller's `parameters` dict, which every trainer updates in place. */
  class ParameterBag {
    var entries: Bag

    constructor (initial: Bag)
      ensures entries == initial
    {
      entries := initial;
    }
  }

  /** How the logistic-regression trainer sets the inverse regularisation strength C. */
  datatype CSelection =
    | FixedC(c: int)                           // LogisticRegression(C=c)
    | GridSearchC(grid: seq<real>, folds: nat) // StandardScaler + LogisticRegression in a GridSearchCV

  /** A configured estimator, as handed to the learning library. */
  datatype Estimator =
    | LinearRegressor(fitIntercept: bool, normalize: bool)
    | LogisticClassifier(penalty: Value, fitIntercept: bool, solver: string, regularization: CSelection)
    | DiscriminantAnalysis(ldaSolver: Value)
    | TreeRegressor(maxDepth: Value, presort: bool, criterion: Value)
    | NaiveBayes
    | ForestClassifier(nEstimators: int, maxDepth: Value, criterion: Value, oobScore: bool)
    | ForestRegressor(nEstimators: int, maxDepth: Value, criterion: Value, oobScore: bool)
    | NeighborsClassifier(nNeighbors: int, algorithm: Value, weights: Value, p: int)
    | NeighborsRegressor(nNeighbors: int, algorithm: Value, weights: Value, p: int)
    | CentroidClassifier
    | VectorClassifier(kernel: Value, degree: int, penaltyC: Value)
    | VectorRegressor(kernel: Value, degree: int)

  /** The learning library as an oracle. `draw` identifies the random train/test split a trainer
      call makes. `heldOutScore` fits on the training part and scores on the held-out part (match
      rate for classifiers, coefficient of determination for regressors); `oobScore` is a forest's
      out-of-bag score after fitting on the training part; `fitFull` fits on all the data. Each of
      them may raise, as a fit with an unusable hyperparameter (C = 0, an unknown kernel) does. */
  datatype Library = Library(
    heldOutScore: (Estimator, nat) -> Result<real, PyError>,
    oobScore: (Estimator, nat) -> Result<real, PyError>,
    fitFull: Estimator -> Result<Handle, PyError>)

  /** A library whose fitting and scoring never raise. */
  ghost predicate NeverRaises(lib: Library) {
    && (forall e, d :: lib.heldOutScore(e, d).Success?)
    && (forall e, d :: lib.oobScore(e, d).Success?)
    && (forall e :: lib.fitFull(e).Success?)
  }

  const ACCURACY := "accuracy"
  const ACCURACY_TYPE := "accuracy_type"
  const R_SQUARED := "R^2"
  const MATCH_RATE := "Accuracy [%]"
  const C_GRID: seq<real> := [0.0001, 0.001, 0.01, 0.1, 1.0, 10.0, 100.0, 1000.0]
  const CV_FOLDS: nat := 5
  const DEPTH_ITER: nat := 5
  const DEPTH_START: nat := 10

  /** `bool(parameters.get(key, False))`. */
  predicate Flag(bag: Bag, key: string) {
    Truthy(Get(bag, key, PyBool(false)))
  }

  // ---------------------------------------------------------------------------------------------
  // Hyperparameters read by each trainer.

  function LinearRegressionSettings(bag: Bag): (e: Estimator)
    ensures e.LinearRegressor?
    ensures e.fitIntercept <==> Flag(bag, "linreg_fit_intercept")
    ensures "linreg_fit_intercept" !in bag ==> !e.fitIntercept
    ensures "linreg_normalize" !in bag ==> !e.normalize
    ensures "linreg_fit_intercept" in bag ==> (e.fitIntercept <==> Truthy(bag["linreg_fit_intercept"]))
    ensures "linreg_normalize" in bag ==> (e.normalize <==> Truthy(bag["linreg_normalize"]))
  {
    LinearRegressor(Flag(bag, "linreg_fit_intercept"), Flag(bag, "linreg_normalize"))
  }

  /** The solver follows the penalty; the 'custom' C selection (the default) truncates C with
      `int`, any other selection grid-searches C over the fixed list with 5-fold validation. */
  function LogisticRegressionSettings(bag: Bag): (r: Result<Estimator, PyError>)
    ensures r.Success? ==> r.value.LogisticClassifier?
    ensures r.Success? ==> (r.value.solver == "liblinear" <==> Get(bag, "logreg_penalty", PyStr("l2")) == PyStr("l1"))
    ensures r.Success? ==> (r.value.solver == "lbfgs" <==> Get(bag, "logreg_penalty", PyStr("l2")) != PyStr("l1"))
    ensures Get(bag, "logreg_C_select", PyStr("custom")) != PyStr("custom") ==>
      r.Success? && r.value.regularization == GridSearchC(C_GRID, CV_FOLDS)
    ensures Get(bag, "logreg_C_select", PyStr("custom")) == PyStr("custom") ==>
      (r.Success? <==> ToInt(Get(bag, "logreg_C", PyFloat(1.0))).Success?) &&
      (r.Success? ==> r.value.regularization == FixedC(ToInt(Get(bag, "logreg_C", PyFloat(1.0))).value))
    ensures "logreg_penalty" !in bag && "logreg_C_select" !in bag && "logreg_C" !in bag && "logreg_fit_intercept" !in bag ==>
      r == Success(LogisticClassifier(PyStr("l2"), false, "lbfgs", FixedC(1)))
    ensures r.Success? && "logreg_penalty" in bag ==> r.value.penalty == bag["logreg_penalty"]
    ensures r.Success? && "logreg_fit_intercept" in bag ==>
      (r.value.fitIntercept <==> Truthy(bag["logreg_fit_intercept"]))
    ensures "logreg_C_select" !in bag && "logreg_C" in bag ==>
      (r.Success? <==> ToInt(bag["logreg_C"]).Success?) &&
      (r.Success? ==> r.value.regularization == FixedC(ToInt(bag["logreg_C"]).value))
  {
    var penalty := Get(bag, "logreg_penalty", PyStr("l2"));
    var cSelect := Get(bag, "logreg_C_select", PyStr("custom"));
    var fitIntercept := Flag(bag, "logreg_fit_intercept");
    var solver := if penalty == PyStr("l1") then "liblinear" else "lbfgs";
    if cSelect == PyStr("custom") then
      var c :- ToInt(Get(bag, "logreg_C", PyFloat(1.0)));
      Success(LogisticClassifier(penalty, fitIntercept, solver, FixedC(c)))
    else
      Success(LogisticClassifier(penalty, fitIntercept, solver, GridSearchC(C_GRID, CV_FOLDS)))
  }

  function DiscriminantAnalysisSettings(bag: Bag): (e: Estimator)
    ensures e.DiscriminantAnalysis?
    ensures "lda_solver" !in bag ==> e.ldaSolver == PyStr("svd")
    ensures "lda_solver" in bag ==> e.ldaSolver == bag["lda_solver"]
  {
    DiscriminantAnalysis(Get(bag, "lda_solver", PyStr("svd")))
  }

  /** The three `max_depth` choices of the tree and forest trainers. */
  datatype DepthMode = Unlimited | Custom(depth: Value) | Search

  /** 'none' (the default) means no limit, 'custom' reads the custom depth (default None),
      any other value searches the depth ladder. */
  function DepthModeOf(bag: Bag, modeKey: string, customKey: string): (m: DepthMode)
    ensures modeKey !in bag ==> m == Unlimited
    ensures m.Search? <==> Get(bag, modeKey, PyStr("none")) !in {PyStr("none"), PyStr("custom")}
    ensures m.Custom? ==> Get(bag, modeKey, PyStr("none")) == PyStr("custom") && m.depth == Get(bag, customKey, PyNone)
    ensures m.Custom? && customKey in bag ==> m.depth == bag[customKey]
  {
    var choice := Get(bag, modeKey, PyStr("none"));
    if choice == PyStr("none") then Unlimited
    else if choice == PyStr("custom") then Custom(Get(bag, customKey, PyNone))
    else Search
  }

  datatype TreeSettings = TreeSettings(criterion: Value, presort: bool, mode: DepthMode)

  function DecisionTreeSettings(bag: Bag): (s: TreeSettings)
    ensures "dtr_criterion" !in bag ==> s.criterion == PyStr("mse")
    ensures "dtr_presort" !in bag ==> !s.presort
    ensures "dtr_max_depth" !in bag ==> s.mode == Unlimited
    ensures "dtr_criterion" in bag ==> s.criterion == bag["dtr_criterion"]
    ensures "dtr_presort" in bag ==> (s.presort <==> Truthy(bag["dtr_presort"]))
    ensures s.mode == DepthModeOf(bag, "dtr_max_depth", "dtr_custom_depth")
  {
    TreeSettings(Get(bag, "dtr_criterion", PyStr("mse")), Flag(bag, "dtr_presort"),
                 DepthModeOf(bag, "dtr_max_depth", "dtr_custom_depth"))
  }

  datatype ForestSettings = ForestSettings(nEstimators: int, criterion: Value, mode: DepthMode)

  /** Both forest trainers read the same `rfc_*` keys; only the default criterion differs. */
  function ForestSettingsOf(bag: Bag, defaultCriterion: string): (r: Result<ForestSettings, PyError>)
    ensures r.Success? <==> ToInt(Get(bag, "rfc_n_estimators", PyInt(100))).Success?
    ensures "rfc_n_estimators" !in bag ==> r.Success? && r.value.nEstimators == 100
    ensures r.Success? && "rfc_criterion" !in bag ==> r.value.criterion == PyStr(defaultCriterion)
    ensures r.Success? && "rfc_max_depth" !in bag ==> r.value.mode == Unlimited
    ensures "rfc_n_estimators" in bag ==>
      (r.Success? <==> ToInt(bag["rfc_n_estimators"]).Success?) &&
      (r.Success? ==> r.value.nEstimators == ToInt(bag["rfc_n_estimators"]).value)
    ensures r.Success? && "rfc_criterion" in bag ==> r.value.criterion == bag["rfc_criterion"]
    ensures r.Success? ==> r.value.mode == DepthModeOf(bag, "rfc_max_depth", "rfc_custom_depth")
  {
    var criterion := Get(bag, "rfc_criterion", PyStr(defaultCriterion));
    var n :- ToInt(Get(bag, "rfc_n_estimators", PyInt(100)));
    Success(ForestSettings(n, criterion, DepthModeOf(bag, "rfc_max_depth", "rfc_custom_depth")))
  }

  datatype NeighborsSettings = NeighborsSettings(k: int, weights: Value, algorithm: Value, p: int)

  /** Both neighbour trainers read the same keys. */
  function NeighborsSettingsOf(bag: Bag): (r: Result<NeighborsSettings, PyError>)
    ensures r.Success? <==> ToInt(Get(bag, "nnc_k", PyInt(5))).Success? && ToInt(Get(bag, "nnc_p", PyInt(2))).Success?
    ensures "nnc_k" !in bag && "nnc_p" !in bag && "weights" !in bag && "algorithm" !in bag ==>
      r == Success(NeighborsSettings(5, PyStr("uniform"), PyStr("auto"), 2))
    ensures r.Success? && "nnc_k" in bag ==> r.value.k == ToInt(bag["nnc_k"]).value
    ensures r.Success? && "nnc_p" in bag ==> r.value.p == ToInt(bag["nnc_p"]).value
    ensures r.Success? && "weights" in bag ==> r.value.weights == bag["weights"]
    ensures r.Success? && "algorithm" in bag ==> r.value.algorithm == bag["algorithm"]
  {
    var k :- ToInt(Get(bag, "nnc_k", PyInt(5)));
    var weights := Get(bag, "weights", PyStr("uniform"));
    var algorithm := Get(bag, "algorithm", PyStr("auto"));
    var p :- ToInt(Get(bag, "nnc_p", PyInt(2)));
    Success(NeighborsSettings(k, weights, algorithm, p))
  }

  function VectorClassifierSettings(bag: Bag): (r: Result<Estimator, PyError>)
    ensures r.Success? <==> ToInt(Get(bag, "svc_degree", PyInt(3))).Success?
    ensures "svc_kernel" !in bag && "svc_degree" !in bag && "svc_C" !in bag ==>
      r == Success(VectorClassifier(PyStr("rbf"), 3, PyFloat(1.0)))
    ensures r.Success? ==> r.value.VectorClassifier?
    ensures r.Success? && "svc_kernel" in bag ==> r.value.kernel == bag["svc_kernel"]
    ensures r.Success? && "svc_degree" in bag ==> r.value.degree == ToInt(bag["svc_degree"]).value
    ensures r.Success? && "svc_C" in bag ==> r.value.penaltyC == bag["svc_C"]
  {
    var kernel := Get(bag, "svc_kernel", PyStr("rbf"));
    var degree :- ToInt(Get(bag, "svc_degree", PyInt(3)));
    Success(VectorClassifier(kernel, degree, Get(bag, "svc_C", PyFloat(1.0))))
  }

  function VectorRegressorSettings(bag: Bag): (r: Result<Estimator, PyError>)
    ensures r.Success? <==> ToInt(Get(bag, "svr_degree", PyInt(3))).Success?
    ensures "svr_kernel" !in bag && "svr_degree" !in bag ==> r == Success(VectorRegressor(PyStr("rbf"), 3))
    ensures r.Success? ==> r.value.VectorRegressor?
    ensures r.Success? && "svr_kernel" in bag ==> r.value.kernel == bag["svr_kernel"]
    ensures r.Success? && "svr_degree" in bag ==> r.value.degree == ToInt(bag["svr_degree"]).value
  {
    var kernel := Get(bag, "svr_kernel", PyStr("rbf"));
    var degree :- ToInt(Get(bag, "svr_degree", PyInt(3)));
    Success(VectorRegressor(kernel, degree))
  }

  // ---------------------------------------------------------------------------------------------
  // The depth search shared by the decision-tree and both random-forest trainers.

  function Pow(b: nat, e: nat): nat
    decreases e
  {
    if e == 0 then 1 else b * Pow(b, e - 1)
  }

  /** `[depth_start**i for i in range(depth_iter)]`. */
  function DepthLadder(): (ladder: seq<nat>)
    ensures ladder == [1, 10, 100, 1000, 10000]
  {
    assert Pow(DEPTH_START, 4) == 10000 by {
      assert Pow(DEPTH_START, 2) == 100;
    }
    seq(DEPTH_ITER, i requires 0 <= i < DEPTH_ITER => Pow(DEPTH_START, i))
  }

  /** `abs(score - 1)`, the distance of a score from a perfect 1.0. */
  function Gap(score: real): real {
    if score >= 1.0 then score - 1.0 else 1.0 - score
  }

  /** `min(enumerate(scores), key=lambda x: abs(x[1] - 1))[0]`: the first index whose score is
      closest to 1. */
  function FirstClosestToOne(scores: seq<real>): (k: nat)
    requires |scores| > 0
    ensures k < |scores|
    ensures forall j :: 0 <= j < |scores| ==> Gap(scores[k]) <= Gap(scores[j])
    ensures forall j :: 0 <= j < k ==> Gap(scores[k]) < Gap(scores[j])
    decreases |scores|
  {
    if |scores| == 1 then 0
    else
      var k := FirstClosestToOne(scores[..|scores| - 1]);
      if Gap(scores[|scores| - 1]) < Gap(scores[k]) then |scores| - 1 else k
  }

  /** What scoring one depth gives: a score, or the exception the fit raised. */
  type Probe = nat -> Result<real, PyError>

  /** The first position whose outcome is an exception, if any. */
  function FirstRaising(outcomes: seq<Result<real, PyError>>): (k: Option<nat>)
    ensures k.None? <==> forall j :: 0 <= j < |outcomes| ==> outcomes[j].Success?
    ensures k.Some? ==> k.value < |outcomes| && outcomes[k.value].Failure?
    ensures k.Some? ==> forall j :: 0 <= j < k.value ==> outcomes[j].Success?
    decreases |outcomes|
  {
    if |outcomes| == 0 then None
    else if outcomes[0].Failure? then Some(0)
    else
      match FirstRaising(outcomes[1..])
      case None => None
      case Some(k) => Some(k + 1)
  }

  /** A failing position preceded by successes only is the first raising one. */
  lemma {:induction false} FirstRaisingAt(outcomes: seq<Result<real, PyError>>, j: nat)
    requires j < |outcomes| && outcomes[j].Failure?
    requires forall i :: 0 <= i < j ==> outcomes[i].Success?
    ensures FirstRaising(outcomes) == Some(j)
    decreases j
  {
    if j > 0 {
      var rest := outcomes[1..];
      assert forall i :: 0 <= i < j - 1 ==> rest[i] == outcomes[i + 1];
      FirstRaisingAt(rest, j - 1);
    }
  }

  /** The depth a search whose fits all succeed picks, given the score each depth earns: no ladder
      depth is closer to 1, and every shallower depth is strictly farther. */
  function ClosestDepth(score: nat -> real): (d: nat)
    ensures d in DepthLadder()
    ensures forall j :: 0 <= j < |DepthLadder()| ==> Gap(score(d)) <= Gap(score(DepthLadder()[j]))
    ensures forall j :: 0 <= j < |DepthLadder()| && DepthLadder()[j] < d ==> Gap(score(d)) < Gap(score(DepthLadder()[j]))
  {
    var ladder := DepthLadder();
    var scores := seq(|ladder|, i requires 0 <= i < |ladder| => score(ladder[i]));
    var k := FirstClosestToOne(scores);
    assert forall j :: 0 <= j < |ladder| ==> scores[j] == score(ladder[j]);
    assert forall j :: 0 <= j < |ladder| && ladder[j] < ladder[k] ==> j < k;
    ladder[k]
  }

  /** The score a probe gives, where it gives one. */
  function ScoreOf(probe: Probe): nat -> real {
    (d: nat) => if probe(d).Success? then probe(d).value else 0.0
  }

  /** The outcome of the search, given what each ladder depth's fit gives: the first exception in
      ladder order escapes; otherwise every fit succeeded and the depth is `ClosestDepth`. */
  function ChosenDepth(probe: Probe): (r: Result<nat, PyError>)
    ensures r.Failure? <==> exists j :: 0 <= j < |DepthLadder()| && probe(DepthLadder()[j]).Failure?
    ensures r.Failure? ==>
      exists j :: (0 <= j < |DepthLadder()| && probe(DepthLadder()[j]) == Failure(r.error) &&
                   forall i :: 0 <= i < j ==> probe(DepthLadder()[i]).Success?)
    ensures r.Success? ==> r == Success(ClosestDepth(ScoreOf(probe)))
  {
    var ladder := DepthLadder();
    var outcomes := seq(|ladder|, i requires 0 <= i < |ladder| => probe(ladder[i]));
    assert forall j :: 0 <= j < |ladder| ==> outcomes[j] == probe(ladder[j]);
    match FirstRaising(outcomes)
    case Some(k) => Failure(outcomes[k].error)
    case None => Success(ClosestDepth(ScoreOf(probe)))
  }

  /** When the search succeeds, every ladder fit succeeded, and the chosen depth has the score
      closest to 1, strictly closer than every shallower depth's. */
  lemma ChosenDepthIsClosest(probe: Probe)
    requires ChosenDepth(probe).Success?
    ensures var d := ChosenDepth(probe).value;
      && d in DepthLadder() && probe(d).Success?
      && (forall j :: 0 <= j < |DepthLadder()| ==>
            probe(DepthLadder()[j]).Success? && Gap(probe(d).value) <= Gap(probe(DepthLadder()[j]).value))
      && (forall j :: 0 <= j < |DepthLadder()| && DepthLadder()[j] < d ==>
            Gap(probe(d).value) < Gap(probe(DepthLadder()[j]).value))
  {
    var d := ChosenDepth(probe).value;
    var score := ScoreOf(probe);
    assert forall j :: 0 <= j < |DepthLadder()| ==> probe(DepthLadder()[j]).Success?;
    assert forall j :: 0 <= j < |DepthLadder()| ==> score(DepthLadder()[j]) == probe(DepthLadder()[j]).value;
  }

  /** Lines 207-222 (and their copies in the forest trainers): build the ladder, score each
      depth, keep the first depth closest to 1. */
  method SearchDepth(probe: Probe) returns (r: Result<nat, PyError>)
    ensures r == ChosenDepth(probe)
  {
    var depthList: seq<nat> := [];
    var i := 0;
    while i < DEPTH_ITER
      invariant 0 <= i <= DEPTH_ITER
      invariant depthList == DepthLadder()[..i]
    {
      depthList := depthList + [Pow(DEPTH_START, i)];
      i := i + 1;
    }
    assert depthList == DepthLadder();
    ghost var outcomes := seq(|depthList|, k requires 0 <= k < |depthList| => probe(depthList[k]));
    var scores: seq<real> := [];
    var j := 0;
    while j < |depthList|
      invariant 0 <= j <= |depthList|
      invariant |scores| == j
      invariant forall k :: 0 <= k < j ==> outcomes[k].Success? && scores[k] == outcomes[k].value
    {
      var score := probe(depthList[j]);
      if score.Failure? {
        FirstRaisingAt(outcomes, j);
        return Failure(score.error);
      }
      scores := scores + [score.value];
      j := j + 1;
    }
    assert FirstRaising(outcomes).None?;
    assert forall k :: 0 <= k < |depthList| ==> scores[k] == ScoreOf(probe)(depthList[k]) by {
      forall k | 0 <= k < |depthList| ensures scores[k] == ScoreOf(probe)(depthList[k]) {
        assert outcomes[k] == probe(depthList[k]);
      }
    }
    assert scores == seq(|depthList|, k requires 0 <= k < |depthList| => ScoreOf(probe)(depthList[k]));
    r := Success(depthList[FirstClosestToOne(scores)]);
  }

  /** The search criterion of the decision tree: its held-out score on the same split. */
  function TreeProbe(s: TreeSettings, lib: Library, draw: nat): Probe {
    d => lib.heldOutScore(TreeRegressor(PyInt(d), s.presort, s.criterion), draw)
  }

  /** The search criterion of the forests: the out-of-bag score of a forest fitted with
      `oob_score=True` on the training part of the same split. */
  function ForestClassifierProbe(s: ForestSettings, lib: Library, draw: nat): Probe {
    d => lib.oobScore(ForestClassifier(s.nEstimators, PyInt(d), s.criterion, true), draw)
  }

  function ForestRegressorProbe(s: ForestSettings, lib: Library, draw: nat): Probe {
    d => lib.oobScore(ForestRegressor(s.nEstimators, PyInt(d), s.criterion, true), draw)
  }

  function ResolveDepth(mode: DepthMode, probe: Probe): Result<Value, PyError> {
    match mode
    case Unlimited => Success(PyNone)
    case Custom(v) => Success(v)
    case Search =>
      var d :- ChosenDepth(probe);
      Success(PyInt(d))
  }

  // ---------------------------------------------------------------------------------------------
  // The shared trainer contract.

  predicate HasTrainer(alg: Algorithm) {
    !alg.Automatic? && !alg.Other?
  }

  predicate IsRegressor(alg: Algorithm) {
    alg in {LinearRegression, KNearestNeighborsRegressor, DecisionTreeRegressor,
            RandomForestRegressor, SupportVectorMachineRegressor}
  }

  function AccuracyKind(alg: Algorithm): string {
    if IsRegressor(alg) then R_SQUARED else MATCH_RATE
  }

  /** The estimator a trainer scores and refits, for the bag it is given. */
  function Configure(alg: Algorithm, bag: Bag, lib: Library, draw: nat): Result<Estimator, PyError>
    requires HasTrainer(alg)
  {
    match alg
    case LinearRegression => Success(LinearRegressionSettings(bag))
    case KNearestNeighborsClassifier =>
      var s :- NeighborsSettingsOf(bag);
      Success(NeighborsClassifier(s.k, s.algorithm, s.weights, s.p))
    case KNearestNeighborsRegressor =>
      var s :- NeighborsSettingsOf(bag);
      Success(NeighborsRegressor(s.k, s.algorithm, s.weights, s.p))
    case LogisticRegression => LogisticRegressionSettings(bag)
    case NearestCentroid => Success(CentroidClassifier)
    case LinearDiscriminantAnalysis => Success(DiscriminantAnalysisSettings(bag))
    case DecisionTreeRegressor =>
      var s := DecisionTreeSettings(bag);
      var depth :- ResolveDepth(s.mode, TreeProbe(s, lib, draw));
      Success(TreeRegressor(depth, s.presort, s.criterion))
    case GaussianNaiveBayes => Success(NaiveBayes)
    case RandomForestClassifier =>
      var s :- ForestSettingsOf(bag, "gini");
      var depth :- ResolveDepth(s.mode, ForestClassifierProbe(s, lib, draw));
      Success(ForestClassifier(s.nEstimators, depth, s.criterion, false))
    case RandomForestRegressor =>
      var s :- ForestSettingsOf(bag, "mse");
      var depth :- ResolveDepth(s.mode, ForestRegressorProbe(s, lib, draw));
      Success(ForestRegressor(s.nEstimators, depth, s.criterion, false))
    case SupportVectorMachineClassifier => VectorClassifierSettings(bag)
    case SupportVectorMachineRegressor => VectorRegressorSettings(bag)
  }

  /** Every key a trainer reads. */
  const READ_KEYS: set<string> := {
    "linreg_fit_intercept", "linreg_normalize",
    "logreg_penalty", "logreg_C_select", "logreg_fit_intercept", "logreg_C",
    "lda_solver",
    "dtr_criterion", "dtr_presort", "dtr_max_depth", "dtr_custom_depth",
    "rfc_criterion", "rfc_n_estimators", "rfc_max_depth", "rfc_custom_depth",
    "nnc_k", "weights", "algorithm", "nnc_p",
    "svc_kernel", "svc_degree", "svc_C",
    "svr_kernel", "svr_degree"}

  /** No trainer reads a key that trainers write. */
  lemma ReadKeysExcludeRecord()
    ensures ACCURACY !in READ_KEYS && ACCURACY_TYPE !in READ_KEYS
  {
  }

  ghost predicate AgreeOnReadKeys(a: Bag, b: Bag) {
    forall k, d :: k in READ_KEYS ==> Get(a, k, d) == Get(b, k, d)
  }

  /** A trainer's configuration depends on the read keys alone. */
  lemma ConfigureReadsOnlyReadKeys(alg: Algorithm, a: Bag, b: Bag, lib: Library, draw: nat)
    requires HasTrainer(alg) && AgreeOnReadKeys(a, b)
    ensures Configure(alg, a, lib, draw) == Configure(alg, b, lib, draw)
  {
    match alg {
      case LinearRegression =>
        assert LinearRegressionSettings(a) == LinearRegressionSettings(b);
      case KNearestNeighborsClassifier =>
        assert NeighborsSettingsOf(a) == NeighborsSettingsOf(b);
      case KNearestNeighborsRegressor =>
        assert NeighborsSettingsOf(a) == NeighborsSettingsOf(b);
      case LogisticRegression =>
        assert LogisticRegressionSettings(a) == LogisticRegressionSettings(b);
      case NearestCentroid =>
      case LinearDiscriminantAnalysis =>
        assert DiscriminantAnalysisSettings(a) == DiscriminantAnalysisSettings(b);
      case DecisionTreeRegressor =>
        assert DecisionTreeSettings(a) == DecisionTreeSettings(b);
      case GaussianNaiveBayes =>
      case RandomForestClassifier =>
        assert ForestSettingsOf(a, "gini") == ForestSettingsOf(b, "gini");
      case RandomForestRegressor =>
        assert ForestSettingsOf(a, "mse") == ForestSettingsOf(b, "mse");
      case SupportVectorMachineClassifier =>
        assert VectorClassifierSettings(a) == VectorClassifierSettings(b);
      case SupportVectorMachineRegressor =>
        assert VectorRegressorSettings(a) == VectorRegressorSettings(b);
    }
  }

  /** Recording a score leaves every read key as it was. */
  lemma RecordKeepsReadKeys(bag: Bag, score: real, kind: string)
    ensures AgreeOnReadKeys(Recorded(bag, score, kind), bag)
  {
    ReadKeysExcludeRecord();
  }

  /** The bag after a trainer has recorded its score. */
  function Recorded(bag: Bag, score: real, kind: string): Bag {
    bag[ACCURACY := PyFloat(score)][ACCURACY_TYPE := PyStr(kind)]
  }

  datatype Trained = Trained(bag: Bag, model: Handle)

  /** An exception raised by a trainer, with the caller's bag as the trainer left it. */
  datatype Raised = Raised(bag: Bag, error: PyError)

  /** The common tail of every trainer: fit on the training split and score on the held-out
      split, write `accuracy` and `accuracy_type` into the caller's bag, refit on all the data. */
  function ScoreAndRefit(est: Estimator, kind: string, bag: Bag, lib: Library, draw: nat): Result<Trained, Raised> {
    match lib.heldOutScore(est, draw)
    case Failure(e) => Failure(Raised(bag, e))
    case Success(score) =>
      match lib.fitFull(est)
      case Failure(e) => Failure(Raised(Recorded(bag, score, kind), e))
      case Success(model) => Success(Trained(Recorded(bag, score, kind), model))
  }

  /** What one trainer call does to the bag and returns. */
  function Train(alg: Algorithm, bag: Bag, lib: Library, draw: nat): Result<Trained, Raised>
    requires HasTrainer(alg)
  {
    match Configure(alg, bag, lib, draw)
    case Failure(e) => Failure(Raised(bag, e))
    case Success(est) => ScoreAndRefit(est, AccuracyKind(alg), bag, lib, draw)
  }

  /** The trainer contract. A trainer fails exactly when a hyperparameter does not convert or the
      library raises while configuring, scoring or refitting. Until the score is written a failure
      leaves no trace; a failing refit comes after the write and leaves the new `accuracy` and
      `accuracy_type` behind. On success the bag gains exactly those two entries and keeps every
      other one, and the trainer returns the refit of the very configuration it scored. */
  lemma TrainContract(alg: Algorithm, bag: Bag, lib: Library, draw: nat)
    requires HasTrainer(alg)
    ensures var c := Configure(alg, bag, lib, draw);
      var r := Train(alg, bag, lib, draw);
      && (r.Failure? <==>
            c.Failure? || lib.heldOutScore(c.value, draw).Failure? || lib.fitFull(c.value).Failure?)
      && (c.Failure? ==> r == Failure(Raised(bag, c.error)))
      && (c.Success? && lib.heldOutScore(c.value, draw).Failure? ==>
            r == Failure(Raised(bag, lib.heldOutScore(c.value, draw).error)))
      && (c.Success? && lib.heldOutScore(c.value, draw).Success? && lib.fitFull(c.value).Failure? ==>
            r == Failure(Raised(Recorded(bag, lib.heldOutScore(c.value, draw).value, AccuracyKind(alg)),
                                lib.fitFull(c.value).error)))
      && (r.Success? ==> r.value.bag.Keys == bag.Keys + {ACCURACY, ACCURACY_TYPE})
      && (r.Success? ==> forall k :: k in bag && k != ACCURACY && k != ACCURACY_TYPE ==> r.value.bag[k] == bag[k])
      && (r.Success? ==> r.value.bag[ACCURACY_TYPE] == PyStr(if IsRegressor(alg) then "R^2" else "Accuracy [%]"))
      && (r.Success? ==>
            r.value.bag[ACCURACY] == PyFloat(lib.heldOutScore(c.value, draw).value) &&
            r.value.model == lib.fitFull(c.value).value)
  {
  }

  /** With a library that never raises, a trainer fails exactly when a hyperparameter does not
      convert, and then with TypeError or ValueError, leaving the bag as it was. */
  lemma TrainWithNeverRaisingLibrary(alg: Algorithm, bag: Bag, lib: Library, draw: nat)
    requires HasTrainer(alg) && NeverRaises(lib)
    ensures var r := Train(alg, bag, lib, draw);
      && (r.Failure? <==> Configure(alg, bag, lib, draw).Failure?)
      && (r.Failure? ==> r.error.bag == bag && (r.error.error == TypeError || r.error.error == ValueError))
  {
    match alg {
      case DecisionTreeRegressor =>
        var s := DecisionTreeSettings(bag);
        ProbesSucceed(TreeProbe(s, lib, draw), lib, draw, s.mode);
      case RandomForestClassifier =>
        if ForestSettingsOf(bag, "gini").Success? {
          var s := ForestSettingsOf(bag, "gini").value;
          ProbesSucceed(ForestClassifierProbe(s, lib, draw), lib, draw, s.mode);
        }
      case RandomForestRegressor =>
        if ForestSettingsOf(bag, "mse").Success? {
          var s := ForestSettingsOf(bag, "mse").value;
          ProbesSucceed(ForestRegressorProbe(s, lib, draw), lib, draw, s.mode);
        }
      case _ =>
    }
  }

  /** A depth resolved with probes that all succeed succeeds. */
  lemma ProbesSucceed(probe: Probe, lib: Library, draw: nat, mode: DepthMode)
    requires forall d :: probe(d).Success?
    ensures ResolveDepth(mode, probe).Success?
  {
  }

  /** A trainer run on a bag that agrees with `b` on the read keys scores and refits what `b`
      configures, and records into the bag it was given. */
  lemma TrainOnAgreeingBag(alg: Algorithm, a: Bag, b: Bag, lib: Library, draw: nat)
    requires HasTrainer(alg) && AgreeOnReadKeys(a, b) && Configure(alg, b, lib, draw).Success?
    ensures Train(alg, a, lib, draw) == ScoreAndRefit(Configure(alg, b, lib, draw).value, AccuracyKind(alg), a, lib, draw)
  {
    ConfigureReadsOnlyReadKeys(alg, a, b, lib, draw);
  }

  /** A trainer method did what `Train` says, leaving the bag `after`: on success the model and the
      new bag; on an exception the error and the bag as the trainer left it. */
  ghost predicate Reports(spec: Result<Trained, Raised>, after: Bag, r: Result<Handle, PyError>) {
    match spec
    case Success(t) => r == Success(t.model) && after == t.bag
    case Failure(x) => r == Failure(x.error) && after == x.bag
  }

  method FitScoreRefit(bag: ParameterBag, est: Estimator, kind: string, lib: Library, draw: nat)
    returns (r: Result<Handle, PyError>)
    modifies bag
    ensures Reports(ScoreAndRefit(est, kind, old(bag.entries), lib, draw), bag.entries, r)
  {
    var score := lib.heldOutScore(est, draw);
    if score.Failure? {
      return Failure(score.error);
    }
    bag.entries := bag.entries[ACCURACY := PyFloat(score.value)];
    bag.entries := bag.entries[ACCURACY_TYPE := PyStr(kind)];
    var model := lib.fitFull(est);
    if model.Failure? {
      return Failure(model.error);
    }
    r := Success(model.value);
  }

  /** The depth the tree and forest trainers use: none, the custom value, or the search's pick. */
  method DepthOf(mode: DepthMode, probe: Probe) returns (r: Result<Value, PyError>)
    ensures r == ResolveDepth(mode, probe)
  {
    match mode {
      case Unlimited => r := Success(PyNone);
      case Custom(v) => r := Success(v);
      case Search =>
        var d := SearchDepth(probe);
        if d.Failure? {
          return Failure(d.error);
        }
        r := Success(PyInt(d.value));
    }
  }

  // ---------------------------------------------------------------------------------------------
  // The trainers.

  method CreateLinearRegressionModel(bag: ParameterBag, lib: Library, draw: nat) returns (r: Result<Handle, PyError>)
    modifies bag
    ensures Reports(Train(LinearRegression, old(bag.entries), lib, draw), bag.entries, r)
  {
    var est := LinearRegressionSettings(bag.entries);
    r := FitScoreRefit(bag, est, R_SQUARED, lib, draw);
  }

  method CreateLogisticRegressionModel(bag: ParameterBag, lib: Library, draw: nat) returns (r: Result<Handle, PyError>)
    modifies bag
    ensures Reports(Train(LogisticRegression, old(bag.entries), lib, draw), bag.entries, r)
  {
    var est := LogisticRegressionSettings(bag.entries);
    if est.Failure? {
      return Failure(est.error);
    }
    r := FitScoreRefit(bag, est.value, MATCH_RATE, lib, draw);
  }

  method CreateLinearDiscriminantAnalysis(bag: ParameterBag, lib: Library, draw: nat) returns (r: Result<Handle, PyError>)
    modifies bag
    ensures Reports(Train(LinearDiscriminantAnalysis, old(bag.entries), lib, draw), bag.entries, r)
  {
    var est := DiscriminantAnalysisSettings(bag.entries);
    r := FitScoreRefit(bag, est, MATCH_RATE, lib, draw);
  }

  method CreateDecisionTreeRegressor(bag: ParameterBag, lib: Library, draw: nat) returns (r: Result<Handle, PyError>)
    modifies bag
    ensures Reports(Train(DecisionTreeRegressor, old(bag.entries), lib, draw), bag.entries, r)
  {
    var s := DecisionTreeSettings(bag.entries);
    var depth := DepthOf(s.mode, TreeProbe(s, lib, draw));
    if depth.Failure? {
      return Failure(depth.error);
    }
    r := FitScoreRefit(bag, TreeRegressor(depth.value, s.presort, s.criterion), R_SQUARED, lib, draw);
  }

  method CreateGaussianNaiveBayes(bag: ParameterBag, lib: Library, draw: nat) returns (r: Result<Handle, PyError>)
    modifies bag
    ensures Reports(Train(GaussianNaiveBayes, old(bag.entries), lib, draw), bag.entries, r)
  {
    r := FitScoreRefit(bag, NaiveBayes, MATCH_RATE, lib, draw);
  }

  method CreateRandomForestClassifier(bag: ParameterBag, lib: Library, draw: nat) returns (r: Result<Handle, PyError>)
    modifies bag
    ensures Reports(Train(RandomForestClassifier, old(bag.entries), lib, draw), bag.entries, r)
  {
    var settings := ForestSettingsOf(bag.entries, "gini");
    if settings.Failure? {
      return Failure(settings.error);
    }
    var s := settings.value;
    var depth := DepthOf(s.mode, ForestClassifierProbe(s, lib, draw));
    if depth.Failure? {
      return Failure(depth.error);
    }
    r := FitScoreRefit(bag, ForestClassifier(s.nEstimators, depth.value, s.criterion, false), MATCH_RATE, lib, draw);
  }

  method CreateRandomForestRegressor(bag: ParameterBag, lib: Library, draw: nat) returns (r: Result<Handle, PyError>)
    modifies bag
    ensures Reports(Train(RandomForestRegressor, old(bag.entries), lib, draw), bag.entries, r)
  {
    var settings := ForestSettingsOf(bag.entries, "mse");
    if settings.Failure? {
      return Failure(settings.error);
    }
    var s := settings.value;
    var depth := DepthOf(s.mode, ForestRegressorProbe(s, lib, draw));
    if depth.Failure? {
      return Failure(depth.error);
    }
    r := FitScoreRefit(bag, ForestRegressor(s.nEstimators, depth.value, s.criterion, false), R_SQUARED, lib, draw);
  }

  method CreateKNearestNeighborsClassifier(bag: ParameterBag, lib: Library, draw: nat) returns (r: Result<Handle, PyError>)
    modifies bag
    ensures Reports(Train(KNearestNeighborsClassifier, old(bag.entries), lib, draw), bag.entries, r)
  {
    var settings := NeighborsSettingsOf(bag.entries);
    if settings.Failure? {
      return Failure(settings.error);
    }
    var s := settings.value;
    r := FitScoreRefit(bag, NeighborsClassifier(s.k, s.algorithm, s.weights, s.p), MATCH_RATE, lib, draw);
  }

  method CreateKNearestNeighborsRegressor(bag: ParameterBag, lib: Library, draw: nat) returns (r: Result<Handle, PyError>)
    modifies bag
    ensures Reports(Train(KNearestNeighborsRegressor, old(bag.entries), lib, draw), bag.entries, r)
  {
    var settings := NeighborsSettingsOf(bag.entries);
    if settings.Failure? {
      return Failure(settings.error);
    }
    var s := settings.value;
    r := FitScoreRefit(bag, NeighborsRegressor(s.k, s.algorithm, s.weights, s.p), R_SQUARED, lib, draw);
  }

  method CreateNearestCentroid(bag: ParameterBag, lib: Library, draw: nat) returns (r: Result<Handle, PyError>)
    modifies bag
    ensures Reports(Train(NearestCentroid, old(bag.entries), lib, draw), bag.entries, r)
  {
    r := FitScoreRefit(bag, CentroidClassifier, MATCH_RATE, lib, draw);
  }

  method CreateSupportVectorMachineClassifier(bag: ParameterBag, lib: Library, draw: nat) returns (r: Result<Handle, PyError>)
    modifies bag
    ensures Reports(Train(SupportVectorMachineClassifier, old(bag.entries), lib, draw), bag.entries, r)
  {
    var est := VectorClassifierSettings(bag.entries);
    if est.Failure? {
      return Failure(est.error);
    }
    r := FitScoreRefit(bag, est.value, MATCH_RATE, lib, draw);
  }

  method CreateSupportVectorMachineRegressor(bag: ParameterBag, lib: Library, draw: nat) returns (r: Result<Handle, PyError>)
    modifies bag
    ensures Reports(Train(SupportVectorMachineRegressor, old(bag.entries), lib, draw), bag.entries, r)
  {
    var est := VectorRegressorSettings(bag.entries);
    if est.Failure? {
      return Failure(est.error);
    }
    r := FitScoreRefit(bag, est.value, R_SQUARED, lib, draw);
  }
}
