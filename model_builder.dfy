/** The training orchestrator `create_model` and the record writer `save_model`
    (easyml/helpers/model_builder.py:21-122): choose the candidate algorithm codes, send each to
    its trainer, keep a running best with the test `not best_acc or acc > best_acc`, label the
    winner, and save it under a display name derived from the file's display name. */
module ModelBuilder {
  import opened Results
  import opened PyValues
  import opened Store
  import opened Trainers
  import Text

  const AUTO_ALG_TYPE := "auto_alg_type"
  const AUTO_CLASSIFICATION := "auto_classification"
  const AUTOMATIC_PREFIX := "Automatic_"

  /** The two algorithm families an automatic request can try. */
  datatype Families = Families(classification: seq<Algorithm>, regression: seq<Algorithm>)

  /** What `create_model` takes from outside the core: the algorithm-name map (which may lack a
      code), the two families, and the learning library. */
  datatype Context = Context(names: map<Algorithm, string>, families: Families, lib: Library)

  // ---------------------------------------------------------------------------------------------
  // Candidates (lines 39-45).

  function Candidates(requested: Algorithm, bag: Bag, families: Families): (r: Result<seq<Algorithm>, PyError>)
    ensures requested != Automatic ==> r == Success([requested])
    ensures requested == Automatic && AUTO_ALG_TYPE !in bag ==> r == Failure(KeyError)
    ensures requested == Automatic && Get(bag, AUTO_ALG_TYPE, PyNone) == PyStr(AUTO_CLASSIFICATION) ==>
      r == Success(families.classification)
    ensures requested == Automatic && AUTO_ALG_TYPE in bag && bag[AUTO_ALG_TYPE] != PyStr(AUTO_CLASSIFICATION) ==>
      r == Success(families.regression)
  {
    if requested != Automatic then Success([requested])
    else
      var mode :- Lookup(bag, AUTO_ALG_TYPE);
      if mode == PyStr(AUTO_CLASSIFICATION) then Success(families.classification)
      else Success(families.regression)
  }

  // ---------------------------------------------------------------------------------------------
  // The loop state and one iteration of the loop (lines 47-96).

  /** `best_acc`, `best_acc_type`, `best_model` and `best_alg_type`. */
  datatype Best = Best(acc: Value, accType: Value, model: Option<Handle>, algType: string)

  /** The loop state: the caller's bag, the running best, and `temp_model`. */
  datatype Progress = Progress(bag: Bag, best: Best, current: Option<Handle>)

  /** An exception escaping `create_model`, with the bag as it stood when it was raised. */
  datatype Halt = Halt(bag: Bag, error: PyError)

  /** The state before the first candidate: nothing recorded, the label of the requested code. */
  function Initial(bag: Bag, algType: string): Progress {
    Progress(bag, Best(PyNone, PyNone, None, algType), None)
  }

  /** The if-chain of lines 53-87: a code with a trainer runs it; any other code leaves the bag
      and `temp_model` as they were. */
  function Dispatched(alg: Algorithm, bag: Bag, current: Option<Handle>, lib: Library, draw: nat):
    Result<(Bag, Option<Handle>), Halt>
  {
    if HasTrainer(alg) then
      match Train(alg, bag, lib, draw)
      case Success(t) => Success((t.bag, Some(t.model)))
      case Failure(x) => Failure(Halt(x.bag, x.error))
    else
      Success((bag, current))
  }

  /** `not best_acc or parameters['accuracy'] > best_acc`. */
  function Replaces(bag: Bag, bestAcc: Value): (r: Result<bool, PyError>)
    ensures !Truthy(bestAcc) ==> r == Success(true)
    ensures Truthy(bestAcc) && ACCURACY !in bag ==> r == Failure(KeyError)
    ensures Truthy(bestAcc) && ACCURACY in bag ==> r == Greater(bag[ACCURACY], bestAcc)
  {
    if !Truthy(bestAcc) then Success(true)
    else
      var acc :- Lookup(bag, ACCURACY);
      Greater(acc, bestAcc)
  }

  /** The label of a winning code: prefixed with `Automatic_` exactly in automatic mode. */
  function WinnerLabel(requested: Algorithm, names: map<Algorithm, string>, alg: Algorithm): (r: Result<string, PyError>)
    ensures r.Success? <==> alg in names
    ensures alg in names && requested == Automatic ==> r.value == AUTOMATIC_PREFIX + names[alg]
    ensures alg in names && requested != Automatic ==> r.value == names[alg]
  {
    if alg !in names then Failure(KeyError)
    else if requested == Automatic then Success(AUTOMATIC_PREFIX + names[alg])
    else Success(names[alg])
  }

  /** Lines 89-96: the running-best update after a candidate has run. */
  function Consider(p: Progress, alg: Algorithm, requested: Algorithm, names: map<Algorithm, string>): (r: Result<Progress, Halt>)
    ensures r.Success? ==> r.value.bag == p.bag && r.value.current == p.current
    ensures r.Failure? ==> r.error.bag == p.bag
    ensures Replaces(p.bag, p.best.acc) == Success(false) ==> r == Success(p)
    ensures Replaces(p.bag, p.best.acc).Failure? ==> r == Failure(Halt(p.bag, Replaces(p.bag, p.best.acc).error))
    ensures Replaces(p.bag, p.best.acc) == Success(true) ==>
      && (r.Success? <==> ACCURACY in p.bag && ACCURACY_TYPE in p.bag && alg in names)
      && (r.Success? ==>
            r.value.best == Best(p.bag[ACCURACY], p.bag[ACCURACY_TYPE], p.current, WinnerLabel(requested, names, alg).value))
  {
    match Replaces(p.bag, p.best.acc)
    case Failure(e) => Failure(Halt(p.bag, e))
    case Success(replace) =>
      if !replace then Success(p)
      else if ACCURACY !in p.bag || ACCURACY_TYPE !in p.bag then Failure(Halt(p.bag, KeyError))
      else
        match WinnerLabel(requested, names, alg)
        case Failure(e) => Failure(Halt(p.bag, e))
        case Success(algType) =>
          Success(p.(best := Best(p.bag[ACCURACY], p.bag[ACCURACY_TYPE], p.current, algType)))
  }

  /** The if-chain as a value: candidate, bag, `temp_model` and draw in; the new bag and
      `temp_model` out, or the exception a trainer raised. */
  type Dispatcher = (Algorithm, Bag, Option<Handle>, nat) -> Result<(Bag, Option<Handle>), Halt>

  /** The if-chain over the twelve trainers of the library. */
  function DispatchChain(lib: Library): Dispatcher {
    (alg, bag, current, draw) => Dispatched(alg, bag, current, lib, draw)
  }

  /** One iteration of the loop, for the candidate at position `draw`. */
  function Step(p: Progress, alg: Algorithm, requested: Algorithm, names: map<Algorithm, string>,
                dispatch: Dispatcher, draw: nat): Result<Progress, Halt>
  {
    var (bag, current) :- dispatch(alg, p.bag, p.current, draw);
    Consider(Progress(bag, p.best, current), alg, requested, names)
  }

  /** An iteration of the loop as a value: state, candidate and position in, new state out. */
  type Stepper = (Progress, Algorithm, nat) -> Result<Progress, Halt>

  function LoopBody(requested: Algorithm, names: map<Algorithm, string>, dispatch: Dispatcher): Stepper {
    (p: Progress, alg: Algorithm, draw: nat) => Step(p, alg, requested, names, dispatch, draw)
  }

  /** The rest of the loop, from the candidate at position `draw` on. */
  function Run(cands: seq<Algorithm>, p: Progress, step: Stepper, draw: nat): Result<Progress, Halt>
    decreases |cands|
  {
    if |cands| == 0 then Success(p)
    else
      var q :- step(p, cands[0], draw);
      Run(cands[1..], q, step, draw + 1)
  }

  function StepAfter(r: Result<Progress, Halt>, alg: Algorithm, step: Stepper, draw: nat): Result<Progress, Halt> {
    match r
    case Success(p) => step(p, alg, draw)
    case Failure(h) => Failure(h)
  }

  /** Running one more candidate is one more step after the others. */
  lemma {:induction false} RunSnoc(cands: seq<Algorithm>, alg: Algorithm, p: Progress, step: Stepper, draw: nat)
    ensures Run(cands + [alg], p, step, draw) == StepAfter(Run(cands, p, step, draw), alg, step, draw + |cands|)
    decreases |cands|
  {
    if |cands| == 0 {
      assert cands + [alg] == [alg];
      assert [alg][1..] == [];
    } else {
      assert (cands + [alg])[0] == cands[0];
      assert (cands + [alg])[1..] == cands[1..] + [alg];
      match step(p, cands[0], draw) {
        case Success(q) =>
          RunSnoc(cands[1..], alg, q, step, draw + 1);
        case Failure(h) =>
      }
    }
  }

  /** The whole loop, preceded by the name lookup of line 32 and the candidate choice. */
  function Training(requested: Algorithm, bag: Bag, ctx: Context): (r: Result<Progress, Halt>)
    ensures requested !in ctx.names ==> r == Failure(Halt(bag, KeyError))
  {
    if requested !in ctx.names then Failure(Halt(bag, KeyError))
    else
      match Candidates(requested, bag, ctx.families)
      case Failure(e) => Failure(Halt(bag, e))
      case Success(cands) =>
        Run(cands, Initial(bag, ctx.names[requested]), LoopBody(requested, ctx.names, DispatchChain(ctx.lib)), 0)
  }

  // ---------------------------------------------------------------------------------------------
  // The selection rule on the recorded accuracies.

  /** The position the running best ends on when the candidates record the float accuracies
      `scores` in order: a later score replaces the best when the best is still unset, is 0.0,
      or is strictly smaller. */
  function Select(scores: seq<real>): (w: Option<nat>)
    ensures w.Some? <==> |scores| > 0
    ensures w.Some? ==> w.value < |scores|
    decreases |scores|
  {
    if |scores| == 0 then None
    else
      var prev := Select(scores[..|scores| - 1]);
      var x := scores[|scores| - 1];
      if prev.None? || scores[prev.value] == 0.0 || x > scores[prev.value] then Some(|scores| - 1)
      else prev
  }

  /** With no zero score, the winner is the FIRST maximum: ties keep the earlier candidate. */
  lemma {:induction false} SelectFirstMaximum(scores: seq<real>)
    requires |scores| > 0
    requires forall i :: 0 <= i < |scores| ==> scores[i] != 0.0
    ensures var w := Select(scores).value;
      && (forall j :: 0 <= j < |scores| ==> scores[j] <= scores[w])
      && (forall j :: 0 <= j < w ==> scores[j] < scores[w])
    decreases |scores|
  {
    if |scores| > 1 {
      var init := scores[..|scores| - 1];
      assert forall i :: 0 <= i < |init| ==> init[i] == scores[i];
      SelectFirstMaximum(init);
    }
  }

  /** Strictly increasing accuracies select the last candidate. */
  lemma {:induction false} StrictlyIncreasingSelectsLast(scores: seq<real>)
    requires |scores| > 0
    requires forall i, j :: 0 <= i < j < |scores| ==> scores[i] < scores[j]
    ensures Select(scores) == Some(|scores| - 1)
  {
    if |scores| > 1 {
      var prev := Select(scores[..|scores| - 1]);
      assert prev.value < |scores| - 1;
      assert scores[..|scores| - 1][prev.value] == scores[prev.value];
    }
  }

  /** A best of exactly 0.0 counts as unset: the next candidate replaces it even when it is worse. */
  lemma ZeroBestIsReplaced(scores: seq<real>, x: real)
    requires |scores| > 0 && scores[Select(scores).value] == 0.0
    ensures Select(scores + [x]) == Some(|scores|)
  {
    assert (scores + [x])[..|scores|] == scores;
  }

  lemma ZeroThenNegativeSelectsNegative()
    ensures Select([0.0, -0.5]) == Some(1)
  {
    assert [0.0, -0.5][..1] == [0.0];
    assert [0.0][..0] == [];
  }

  // ---------------------------------------------------------------------------------------------
  // The loop when every candidate trains: what it computes.

  /** The bag candidate `i` sees: the caller's, or the one the previous candidate recorded into. */
  function BagBefore(bag: Bag, scores: seq<real>, kinds: seq<string>, i: nat): Bag
    requires i <= |scores| && i <= |kinds|
  {
    if i == 0 then bag else Recorded(bag, scores[i - 1], kinds[i - 1])
  }

  /** `dispatch` trains candidate `i`: it records `scores[i]` of kind `kinds[i]` and returns
      `models[i]`. */
  ghost predicate TrainsAs(dispatch: Dispatcher, cands: seq<Algorithm>, bag: Bag,
                           scores: seq<real>, kinds: seq<string>, models: seq<Handle>)
  {
    && |scores| == |cands| && |kinds| == |cands| && |models| == |cands|
    && forall i, current :: 0 <= i < |cands| ==>
         dispatch(cands[i], BagBefore(bag, scores, kinds, i), current, i) ==
           Success((Recorded(bag, scores[i], kinds[i]), Some(models[i])))
  }

  /** The loop state after the first `n` candidates. */
  function Reached(cands: seq<Algorithm>, bag: Bag, scores: seq<real>, kinds: seq<string>, models: seq<Handle>,
                   requested: Algorithm, names: map<Algorithm, string>, n: nat): Progress
    requires 0 < n <= |cands| && |scores| == |cands| && |kinds| == |cands| && |models| == |cands|
    requires forall i :: 0 <= i < |cands| ==> cands[i] in names
  {
    var w := Select(scores[..n]).value;
    Progress(
      Recorded(bag, scores[n - 1], kinds[n - 1]),
      Best(PyFloat(scores[w]), PyStr(kinds[w]), Some(models[w]), WinnerLabel(requested, names, cands[w]).value),
      Some(models[n - 1]))
  }

  lemma RecordedTwice(bag: Bag, s1: real, k1: string, s2: real, k2: string)
    ensures Recorded(Recorded(bag, s1, k1), s2, k2) == Recorded(bag, s2, k2)
  {
  }

  /** The first candidate always becomes the running best. */
  lemma FirstStepReaches(cands: seq<Algorithm>, bag: Bag, scores: seq<real>, kinds: seq<string>,
                         models: seq<Handle>, algType: string, requested: Algorithm,
                         names: map<Algorithm, string>, dispatch: Dispatcher)
    requires TrainsAs(dispatch, cands, bag, scores, kinds, models)
    requires forall i :: 0 <= i < |cands| ==> cands[i] in names
    requires 0 < |cands|
    ensures LoopBody(requested, names, dispatch)(Initial(bag, algType), cands[0], 0) ==
            Success(Reached(cands, bag, scores, kinds, models, requested, names, 1))
  {
    var p := Initial(bag, algType);
    assert p.bag == BagBefore(bag, scores, kinds, 0);
    assert dispatch(cands[0], p.bag, p.current, 0) == Success((Recorded(bag, scores[0], kinds[0]), Some(models[0])));
    assert scores[..1] == [scores[0]];
    assert [scores[0]][..0] == [];
  }

  /** Candidate `n` replaces the running best exactly as `Select` says. */
  lemma NextStepReaches(cands: seq<Algorithm>, bag: Bag, scores: seq<real>, kinds: seq<string>,
                        models: seq<Handle>, requested: Algorithm, names: map<Algorithm, string>,
                        dispatch: Dispatcher, n: nat)
    requires TrainsAs(dispatch, cands, bag, scores, kinds, models)
    requires forall i :: 0 <= i < |cands| ==> cands[i] in names
    requires 0 < n < |cands|
    ensures LoopBody(requested, names, dispatch)(Reached(cands, bag, scores, kinds, models, requested, names, n), cands[n], n) ==
            Success(Reached(cands, bag, scores, kinds, models, requested, names, n + 1))
  {
    var p := Reached(cands, bag, scores, kinds, models, requested, names, n);
    assert p.bag == BagBefore(bag, scores, kinds, n);
    assert dispatch(cands[n], p.bag, p.current, n) == Success((Recorded(bag, scores[n], kinds[n]), Some(models[n])));
    assert scores[..n + 1][..n] == scores[..n];
    var w := Select(scores[..n]).value;
    assert scores[..n][w] == scores[w];
    assert scores[..n + 1][n] == scores[n];
  }

  lemma {:induction false} RunPrefix(cands: seq<Algorithm>, bag: Bag, scores: seq<real>, kinds: seq<string>,
                                     models: seq<Handle>, algType: string, requested: Algorithm,
                                     names: map<Algorithm, string>, dispatch: Dispatcher, n: nat)
    requires TrainsAs(dispatch, cands, bag, scores, kinds, models)
    requires forall i :: 0 <= i < |cands| ==> cands[i] in names
    requires 0 < n <= |cands|
    ensures Run(cands[..n], Initial(bag, algType), LoopBody(requested, names, dispatch), 0) ==
            Success(Reached(cands, bag, scores, kinds, models, requested, names, n))
    decreases n
  {
    var step := LoopBody(requested, names, dispatch);
    assert cands[..n] == cands[..n - 1] + [cands[n - 1]];
    RunSnoc(cands[..n - 1], cands[n - 1], Initial(bag, algType), step, 0);
    if n == 1 {
      assert cands[..0] == [];
      FirstStepReaches(cands, bag, scores, kinds, models, algType, requested, names, dispatch);
    } else {
      RunPrefix(cands, bag, scores, kinds, models, algType, requested, names, dispatch, n - 1);
      NextStepReaches(cands, bag, scores, kinds, models, requested, names, dispatch, n - 1);
    }
  }

  /** The theorem of the loop: when every candidate trains, the running best is the candidate
      `Select` picks from the recorded accuracies, with that candidate's accuracy, kind, model and
      label; the bag ends with the LAST candidate's accuracy. */
  lemma RunSelectsWinner(cands: seq<Algorithm>, bag: Bag, scores: seq<real>, kinds: seq<string>,
                         models: seq<Handle>, algType: string, requested: Algorithm,
                         names: map<Algorithm, string>, dispatch: Dispatcher)
    requires TrainsAs(dispatch, cands, bag, scores, kinds, models)
    requires forall i :: 0 <= i < |cands| ==> cands[i] in names
    requires |cands| > 0
    ensures var w := Select(scores).value;
      var r := Run(cands, Initial(bag, algType), LoopBody(requested, names, dispatch), 0);
      && r.Success?
      && r.value.best == Best(PyFloat(scores[w]), PyStr(kinds[w]), Some(models[w]), WinnerLabel(requested, names, cands[w]).value)
      && r.value.bag == Recorded(bag, scores[|cands| - 1], kinds[|cands| - 1])
  {
    RunPrefix(cands, bag, scores, kinds, models, algType, requested, names, dispatch, |cands|);
    assert cands[..|cands|] == cands;
    assert scores[..|cands|] == scores;
  }

  /** Every candidate has a trainer and a name, its hyperparameters convert, and the library
      scores and refits its configuration without raising. */
  ghost predicate Trainable(cands: seq<Algorithm>, bag: Bag, ctx: Context) {
    forall i :: 0 <= i < |cands| ==>
      && HasTrainer(cands[i]) && cands[i] in ctx.names && Configure(cands[i], bag, ctx.lib, i).Success?
      && ctx.lib.heldOutScore(Configure(cands[i], bag, ctx.lib, i).value, i).Success?
      && ctx.lib.fitFull(Configure(cands[i], bag, ctx.lib, i).value).Success?
  }

  /** The estimator candidate `i` configures. */
  function Fit(cands: seq<Algorithm>, bag: Bag, ctx: Context, i: nat): Estimator
    requires Trainable(cands, bag, ctx) && i < |cands|
  {
    Configure(cands[i], bag, ctx.lib, i).value
  }

  /** The accuracy each candidate records, its kind, and the model each returns. */
  function Scores(cands: seq<Algorithm>, bag: Bag, ctx: Context): (s: seq<real>)
    requires Trainable(cands, bag, ctx)
  {
    seq(|cands|, i requires 0 <= i < |cands| => ctx.lib.heldOutScore(Fit(cands, bag, ctx, i), i).value)
  }

  function Kinds(cands: seq<Algorithm>): seq<string> {
    seq(|cands|, i requires 0 <= i < |cands| => AccuracyKind(cands[i]))
  }

  function ModelOf(cands: seq<Algorithm>, bag: Bag, ctx: Context, i: nat): Handle
    requires Trainable(cands, bag, ctx) && i < |cands|
  {
    ctx.lib.fitFull(Fit(cands, bag, ctx, i)).value
  }

  function Models(cands: seq<Algorithm>, bag: Bag, ctx: Context): seq<Handle>
    requires Trainable(cands, bag, ctx)
  {
    seq(|cands|, i requires 0 <= i < |cands| => ModelOf(cands, bag, ctx, i))
  }

  /** The if-chain trains every trainable candidate as `TrainsAs` requires. */
  lemma ChainTrainsAs(cands: seq<Algorithm>, bag: Bag, ctx: Context)
    requires Trainable(cands, bag, ctx)
    ensures TrainsAs(DispatchChain(ctx.lib), cands, bag, Scores(cands, bag, ctx), Kinds(cands), Models(cands, bag, ctx))
  {
    var scores, kinds, models := Scores(cands, bag, ctx), Kinds(cands), Models(cands, bag, ctx);
    forall i, current | 0 <= i < |cands|
      ensures DispatchChain(ctx.lib)(cands[i], BagBefore(bag, scores, kinds, i), current, i) ==
                Success((Recorded(bag, scores[i], kinds[i]), Some(models[i])))
    {
      var before := BagBefore(bag, scores, kinds, i);
      if i > 0 {
        RecordKeepsReadKeys(bag, scores[i - 1], kinds[i - 1]);
        RecordedTwice(bag, scores[i - 1], kinds[i - 1], scores[i], kinds[i]);
      }
      TrainOnAgreeingBag(cands[i], before, bag, ctx.lib, i);
      assert scores[i] == ctx.lib.heldOutScore(Fit(cands, bag, ctx, i), i).value;
      assert kinds[i] == AccuracyKind(cands[i]);
      assert models[i] == ctx.lib.fitFull(Fit(cands, bag, ctx, i)).value;
      assert Recorded(before, scores[i], kinds[i]) == Recorded(bag, scores[i], kinds[i]);
      assert DispatchChain(ctx.lib)(cands[i], before, current, i) == Dispatched(cands[i], before, current, ctx.lib, i);
    }
  }

  /** The quirk of an unmatched code: no trainer runs, yet the bag's existing `accuracy` is
      compared and adopted, with no model behind it. */
  lemma UnmatchedCodeReadsStaleAccuracy(code: int, bag: Bag, ctx: Context)
    requires Other(code) in ctx.names
    ensures ACCURACY !in bag ==> Training(Other(code), bag, ctx) == Failure(Halt(bag, KeyError))
    ensures ACCURACY in bag && ACCURACY_TYPE in bag ==>
      Training(Other(code), bag, ctx) ==
        Success(Progress(bag, Best(bag[ACCURACY], bag[ACCURACY_TYPE], None, ctx.names[Other(code)]), None))
  {
    var p := Initial(bag, ctx.names[Other(code)]);
    assert Candidates(Other(code), bag, ctx.families) == Success([Other(code)]);
    assert [Other(code)][1..] == [];
    assert DispatchChain(ctx.lib)(Other(code), bag, None, 0) == Success((bag, None));
    assert LoopBody(Other(code), ctx.names, DispatchChain(ctx.lib))(p, Other(code), 0) ==
           Step(p, Other(code), Other(code), ctx.names, DispatchChain(ctx.lib), 0);
    assert Step(p, Other(code), Other(code), ctx.names, DispatchChain(ctx.lib), 0) ==
           Consider(p, Other(code), Other(code), ctx.names);
    assert Replaces(bag, PyNone) == Success(true);
    if ACCURACY in bag && ACCURACY_TYPE in bag {
      var q := Progress(bag, Best(bag[ACCURACY], bag[ACCURACY_TYPE], None, ctx.names[Other(code)]), None);
      assert Consider(p, Other(code), Other(code), ctx.names) == Success(q);
      assert Run([Other(code)], p, LoopBody(Other(code), ctx.names, DispatchChain(ctx.lib)), 0) ==
             Run([], q, LoopBody(Other(code), ctx.names, DispatchChain(ctx.lib)), 1);
    }
  }

  /** The other half of that quirk, at any point of a family: an unmatched code leaves the bag and
      `temp_model` as the previous candidate left them, so when it replaces the best, the previous
      candidate's model is adopted under the unmatched code's label. */
  lemma UnmatchedCodeKeepsPreviousModel(p: Progress, code: int, requested: Algorithm, ctx: Context, draw: nat)
    requires Other(code) in ctx.names
    requires Replaces(p.bag, p.best.acc) == Success(true)
    requires ACCURACY in p.bag && ACCURACY_TYPE in p.bag
    ensures Step(p, Other(code), requested, ctx.names, DispatchChain(ctx.lib), draw) ==
      Success(Progress(p.bag, Best(p.bag[ACCURACY], p.bag[ACCURACY_TYPE], p.current,
                                   WinnerLabel(requested, ctx.names, Other(code)).value), p.current))
  {
    assert DispatchChain(ctx.lib)(Other(code), p.bag, p.current, draw) == Success((p.bag, p.current));
  }

  /** A trainer whose hyperparameters do not convert raises out of the loop: the exception
      escapes with the bag as the trainer found it. */
  lemma FailingTrainerHalts(requested: Algorithm, bag: Bag, ctx: Context)
    requires requested in ctx.names && HasTrainer(requested)
    requires Configure(requested, bag, ctx.lib, 0).Failure?
    ensures Training(requested, bag, ctx) == Failure(Halt(bag, Configure(requested, bag, ctx.lib, 0).error))
  {
    var e := Configure(requested, bag, ctx.lib, 0).error;
    var p := Initial(bag, ctx.names[requested]);
    var step := LoopBody(requested, ctx.names, DispatchChain(ctx.lib));
    assert Candidates(requested, bag, ctx.families) == Success([requested]);
    assert Train(requested, bag, ctx.lib, 0) == Failure(Raised(bag, e));
    assert DispatchChain(ctx.lib)(requested, bag, None, 0) == Failure(Halt(bag, e));
    assert step(p, requested, 0) == Step(p, requested, requested, ctx.names, DispatchChain(ctx.lib), 0);
  }

  /** A refit that raises after scoring (line 136 and its copies) ends `create_model` with that
      error, and the bag keeps the `accuracy` and `accuracy_type` the trainer had already written. */
  lemma FailingRefitKeepsAccuracy(requested: Algorithm, bag: Bag, ctx: Context)
    requires requested in ctx.names && HasTrainer(requested)
    requires Configure(requested, bag, ctx.lib, 0).Success?
    requires ctx.lib.heldOutScore(Configure(requested, bag, ctx.lib, 0).value, 0).Success?
    requires ctx.lib.fitFull(Configure(requested, bag, ctx.lib, 0).value).Failure?
    ensures var est := Configure(requested, bag, ctx.lib, 0).value;
      Training(requested, bag, ctx) ==
        Failure(Halt(Recorded(bag, ctx.lib.heldOutScore(est, 0).value, AccuracyKind(requested)), ctx.lib.fitFull(est).error))
  {
    var est := Configure(requested, bag, ctx.lib, 0).value;
    var after := Recorded(bag, ctx.lib.heldOutScore(est, 0).value, AccuracyKind(requested));
    var e := ctx.lib.fitFull(est).error;
    var p := Initial(bag, ctx.names[requested]);
    var step := LoopBody(requested, ctx.names, DispatchChain(ctx.lib));
    assert Candidates(requested, bag, ctx.families) == Success([requested]);
    assert Train(requested, bag, ctx.lib, 0) == Failure(Raised(after, e));
    assert DispatchChain(ctx.lib)(requested, bag, None, 0) == Failure(Halt(after, e));
    assert step(p, requested, 0) == Step(p, requested, requested, ctx.names, DispatchChain(ctx.lib), 0);
  }

  // ---------------------------------------------------------------------------------------------
  // save_model (lines 102-122).

  /** The display name of a new model record: `<file>_<label>`, then ` (n)` when n > 0, then every
      space turned into `_`. */
  function ModelDisplayName(fileName: string, algType: string, count: nat): (r: string)
    ensures ' ' !in r
    ensures count == 0 ==> r == Text.ReplaceSpaces(fileName + "_" + algType)
    ensures count > 0 ==> r == Text.ReplaceSpaces(fileName + "_" + algType) + "_(" + Text.NatToString(count) + ")"
  {
    var r := Text.ReplaceSpaces(Text.WithCountSuffix(fileName + "_" + algType, count));
    Text.ReplaceSpacesRemovesSpaces(Text.WithCountSuffix(fileName + "_" + algType, count));
    if count > 0 then
      Text.ReplaceSpacesInCountSuffix(fileName + "_" + algType, count);
      r
    else
      r
  }

  /** `MLModel.objects.filter(name=..., type=...).count()`, over all model records. */
  function SameNameCount(models: seq<ModelRecord>, name: string, algType: string): (n: nat)
    ensures n <= |models|
    ensures n > 0 <==> exists i :: 0 <= i < |models| && models[i].name == name && models[i].typeLabel == algType
    decreases |models|
  {
    if |models| == 0 then 0
    else
      var last := models[|models| - 1];
      var init := models[..|models| - 1];
      assert forall i :: 0 <= i < |init| ==> init[i] == models[i];
      SameNameCount(init, name, algType) + (if last.name == name && last.typeLabel == algType then 1 else 0)
  }

  /** The record `save_model` writes, or `DoesNotExist` when the file is gone. */
  function SaveRecord(files: seq<CsvFile>, models: seq<ModelRecord>, model: Handle, algType: string,
                      requested: Algorithm, fileId: FileId, parameters: Bag, acc: Value, accType: Value):
    (r: Result<ModelRecord, PyError>)
    ensures r.Failure? <==> FindFile(files, fileId).None?
    ensures r.Failure? ==> r.error == DoesNotExist
    ensures r.Success? ==>
      var parent := files[FindFile(files, fileId).value];
      && r.value.name == parent.displayName
      && r.value.displayName == ModelDisplayName(parent.displayName, algType, SameNameCount(models, parent.displayName, algType))
      && r.value.typeLabel == algType && r.value.typeNum == requested && r.value.data == model
      && r.value.parameters == parameters && r.value.parentFile == fileId
      && r.value.accuracy == acc && r.value.accuracyType == accType
  {
    match FindFile(files, fileId)
    case None => Failure(DoesNotExist)
    case Some(i) =>
      var parent := files[i];
      Success(ModelRecord(algType, requested, model, parent.displayName,
                          ModelDisplayName(parent.displayName, algType, SameNameCount(models, parent.displayName, algType)),
                          parameters, fileId, acc, accType))
  }

  method SaveModel(db: Database, model: Handle, algType: string, requested: Algorithm, fileId: FileId,
                   parameters: Bag, acc: Value, accType: Value) returns (r: Result<ModelRecord, PyError>)
    modifies db
    ensures r == SaveRecord(old(db.files), old(db.models), model, algType, requested, fileId, parameters, acc, accType)
    ensures db.models == if r.Success? then old(db.models) + [r.value] else old(db.models)
    ensures db.files == old(db.files) && db.cells == old(db.cells) && db.nextFileId == old(db.nextFileId)
  {
    var found := FindFile(db.files, fileId);
    if found.None? {
      return Failure(DoesNotExist);
    }
    var parent := db.files[found.value];
    var displayName := parent.displayName + "_" + algType;
    var count := SameNameCount(db.models, parent.displayName, algType);
    if count > 0 {
      displayName := displayName + " (" + Text.NatToString(count) + ")";
    }
    displayName := Text.ReplaceSpaces(displayName);
    var record := ModelRecord(algType, requested, model, parent.displayName, displayName, parameters, fileId, acc, accType);
    db.models := db.models + [record];
    r := Success(record);
  }

  // ---------------------------------------------------------------------------------------------
  // create_model (lines 21-99).

  /** Some cell of the file is not in an ignored column (lines 22-27). */
  predicate HasEligibleData(cells: seq<CellRecord>, fileId: FileId) {
    exists i :: 0 <= i < |cells| && cells[i].parentFile == fileId && cells[i].role != Ignore
  }

  datatype TrainOutcome = NoEligibleData | Failed(error: PyError) | NothingSaved | Saved(record: ModelRecord)

  /** What `create_model` returns, leaves in the caller's bag, and leaves in the model table. */
  datatype Effect = Effect(outcome: TrainOutcome, bag: Bag, models: seq<ModelRecord>)

  function CreateModelEffect(files: seq<CsvFile>, cells: seq<CellRecord>, models: seq<ModelRecord>,
                             requested: Algorithm, fileId: FileId, bag: Bag, ctx: Context): (e: Effect)
    ensures !HasEligibleData(cells, fileId) ==> e == Effect(NoEligibleData, bag, models)
    ensures e.outcome.Saved? ==>
      && e.models == models + [e.outcome.record]
      && e.outcome.record.typeNum == requested
      && e.outcome.record.parentFile == fileId
      && e.outcome.record.parameters == e.bag
    ensures !e.outcome.Saved? ==> e.models == models
    ensures e.outcome.Saved? <==>
      HasEligibleData(cells, fileId) && Training(requested, bag, ctx).Success? &&
      Training(requested, bag, ctx).value.best.model.Some? && FindFile(files, fileId).Some?
  {
    if !HasEligibleData(cells, fileId) then Effect(NoEligibleData, bag, models)
    else
      match Training(requested, bag, ctx)
      case Failure(h) => Effect(Failed(h.error), h.bag, models)
      case Success(p) =>
        match p.best.model
        case None => Effect(NothingSaved, p.bag, models)
        case Some(m) =>
          match SaveRecord(files, models, m, p.best.algType, requested, fileId, p.bag, p.best.acc, p.best.accType)
          case Failure(err) => Effect(Failed(err), p.bag, models)
          case Success(rec) => Effect(Saved(rec), p.bag, models + [rec])
  }

  /** The if-chain of lines 53-87. */
  method Dispatch(alg: Algorithm, bag: ParameterBag, lib: Library, draw: nat, current: Option<Handle>)
    returns (r: Result<Option<Handle>, PyError>)
    modifies bag
    ensures Dispatched(alg, old(bag.entries), current, lib, draw) ==
      if r.Success? then Success((bag.entries, r.value)) else Failure(Halt(bag.entries, r.error))
  {
    var trained: Result<Handle, PyError>;
    if alg == LinearRegression {
      trained := CreateLinearRegressionModel(bag, lib, draw);
    } else if alg == KNearestNeighborsClassifier {
      trained := CreateKNearestNeighborsClassifier(bag, lib, draw);
    } else if alg == KNearestNeighborsRegressor {
      trained := CreateKNearestNeighborsRegressor(bag, lib, draw);
    } else if alg == LogisticRegression {
      trained := CreateLogisticRegressionModel(bag, lib, draw);
    } else if alg == NearestCentroid {
      trained := CreateNearestCentroid(bag, lib, draw);
    } else if alg == LinearDiscriminantAnalysis {
      trained := CreateLinearDiscriminantAnalysis(bag, lib, draw);
    } else if alg == DecisionTreeRegressor {
      trained := CreateDecisionTreeRegressor(bag, lib, draw);
    } else if alg == GaussianNaiveBayes {
      trained := CreateGaussianNaiveBayes(bag, lib, draw);
    } else if alg == RandomForestClassifier {
      trained := CreateRandomForestClassifier(bag, lib, draw);
    } else if alg == RandomForestRegressor {
      trained := CreateRandomForestRegressor(bag, lib, draw);
    } else if alg == SupportVectorMachineClassifier {
      trained := CreateSupportVectorMachineClassifier(bag, lib, draw);
    } else if alg == SupportVectorMachineRegressor {
      trained := CreateSupportVectorMachineRegressor(bag, lib, draw);
    } else {
      return Success(current);
    }
    match trained {
      case Success(m) => r := Success(Some(m));
      case Failure(e) => r := Failure(e);
    }
  }

  /** Lines 89-96 on the loop variables: keep or replace the running best. */
  method UpdateBest(bag: Bag, best: Best, current: Option<Handle>, alg: Algorithm, requested: Algorithm,
                    names: map<Algorithm, string>) returns (r: Result<Best, PyError>)
    ensures Consider(Progress(bag, best, current), alg, requested, names) ==
      if r.Success? then Success(Progress(bag, r.value, current)) else Failure(Halt(bag, r.error))
  {
    ghost var p := Progress(bag, best, current);
    var replace := Replaces(bag, best.acc);
    if replace.Failure? {
      assert Consider(p, alg, requested, names) == Failure(Halt(bag, replace.error));
      return Failure(replace.error);
    }
    if !replace.value {
      assert Consider(p, alg, requested, names) == Success(p);
      return Success(best);
    }
    if ACCURACY !in bag || ACCURACY_TYPE !in bag {
      assert Consider(p, alg, requested, names) == Failure(Halt(bag, KeyError));
      return Failure(KeyError);
    }
    var algType := WinnerLabel(requested, names, alg);
    if algType.Failure? {
      assert Consider(p, alg, requested, names) == Failure(Halt(bag, algType.error));
      return Failure(algType.error);
    }
    r := Success(Best(bag[ACCURACY], bag[ACCURACY_TYPE], current, algType.value));
    assert Consider(p, alg, requested, names) == Success(Progress(bag, r.value, current));
  }

  /** The loop of lines 53-96 over the candidate codes. */
  method RunCandidates(bag: ParameterBag, algorithms: seq<Algorithm>, initial: Best, requested: Algorithm, ctx: Context)
    returns (r: Result<Progress, Halt>)
    modifies bag
    ensures r == Run(algorithms, Progress(old(bag.entries), initial, None), LoopBody(requested, ctx.names, DispatchChain(ctx.lib)), 0)
    ensures bag.entries == if r.Success? then r.value.bag else r.error.bag
  {
    ghost var step := LoopBody(requested, ctx.names, DispatchChain(ctx.lib));
    ghost var start := Progress(bag.entries, initial, None);
    var best, current := initial, None;
    var i := 0;
    while i < |algorithms|
      invariant 0 <= i <= |algorithms|
      invariant Run(algorithms, start, step, 0) == Run(algorithms[i..], Progress(bag.entries, best, current), step, i)
      modifies bag
    {
      var alg := algorithms[i];
      ghost var before := Progress(bag.entries, best, current);
      assert algorithms[i..][0] == alg && algorithms[i..][1..] == algorithms[i + 1..];
      assert step(before, alg, i) == Step(before, alg, requested, ctx.names, DispatchChain(ctx.lib), i);
      assert DispatchChain(ctx.lib)(alg, before.bag, before.current, i) == Dispatched(alg, before.bag, current, ctx.lib, i);
      var trained := Dispatch(alg, bag, ctx.lib, i, current);
      if trained.Failure? {
        return Failure(Halt(bag.entries, trained.error));
      }
      current := trained.value;
      var updated := UpdateBest(bag.entries, best, current, alg, requested, ctx.names);
      if updated.Failure? {
        return Failure(Halt(bag.entries, updated.error));
      }
      best := updated.value;
      i := i + 1;
    }
    r := Success(Progress(bag.entries, best, current));
  }

  method CreateModel(db: Database, requested: Algorithm, fileId: FileId, bag: ParameterBag, ctx: Context)
    returns (outcome: TrainOutcome)
    modifies db, bag
    ensures Effect(outcome, bag.entries, db.models) ==
      CreateModelEffect(old(db.files), old(db.cells), old(db.models), requested, fileId, old(bag.entries), ctx)
    ensures db.files == old(db.files) && db.cells == old(db.cells) && db.nextFileId == old(db.nextFileId)
  {
    if !HasEligibleData(db.cells, fileId) {
      return NoEligibleData;
    }
    if requested !in ctx.names {
      return Failed(KeyError);
    }
    var candidates := Candidates(requested, bag.entries, ctx.families);
    if candidates.Failure? {
      return Failed(candidates.error);
    }
    var run := RunCandidates(bag, candidates.value, Best(PyNone, PyNone, None, ctx.names[requested]), requested, ctx);
    if run.Failure? {
      return Failed(run.error.error);
    }
    var best := run.value.best;
    if best.model.None? {
      return NothingSaved;
    }
    var saved := SaveModel(db, best.model.value, best.algType, requested, fileId, bag.entries, best.acc, best.accType);
    match saved {
      case Success(rec) => outcome := Saved(rec);
      case Failure(e) => outcome := Failed(e);
    }
  }

  /** End to end: with eligible data, an existing file and trainable candidates, `create_model`
      saves the candidate `Select` picks, under the requested code, with the final bag. */
  lemma CreateModelSavesWinner(files: seq<CsvFile>, cells: seq<CellRecord>, models: seq<ModelRecord>,
                               requested: Algorithm, fileId: FileId, bag: Bag, ctx: Context)
    requires HasEligibleData(cells, fileId) && FindFile(files, fileId).Some?
    requires requested in ctx.names && Candidates(requested, bag, ctx.families).Success?
    requires var cands := Candidates(requested, bag, ctx.families).value;
      |cands| > 0 && Trainable(cands, bag, ctx)
    ensures var cands := Candidates(requested, bag, ctx.families).value;
      var s := Scores(cands, bag, ctx);
      var w := Select(s).value;
      var e := CreateModelEffect(files, cells, models, requested, fileId, bag, ctx);
      && e.outcome.Saved?
      && e.outcome.record.data == ctx.lib.fitFull(Fit(cands, bag, ctx, w)).value
      && e.outcome.record.accuracy == PyFloat(s[w])
      && e.outcome.record.accuracyType == PyStr(AccuracyKind(cands[w]))
      && e.outcome.record.typeLabel == WinnerLabel(requested, ctx.names, cands[w]).value
      && e.outcome.record.typeNum == requested
      && e.bag == Recorded(bag, s[|cands| - 1], AccuracyKind(cands[|cands| - 1]))
  {
    var cands := Candidates(requested, bag, ctx.families).value;
    ChainTrainsAs(cands, bag, ctx);
    RunSelectsWinner(cands, bag, Scores(cands, bag, ctx), Kinds(cands), Models(cands, bag, ctx),
                     ctx.names[requested], requested, ctx.names, DispatchChain(ctx.lib));
  }
}
