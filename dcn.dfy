/** The DCN estimator: construction, the feeds of `fit_on_batch` and `predict`, and the training
    loop of `fit` over the four training lists. */
module Dcn {
  import opened Common
  import opened Hyper
  import opened Shapes
  import opened Weights
  import opened Graph
  import opened Batching
  import opened Shuffle

  /** A constructed estimator: its hyperparameters and the shapes of its parameter dictionary. */
  datatype Model = Model(h: Hyper, weights: map<Param, Shape>)

  /** Why the constructor raises: the `loss_type` assertion, or `_initialize_weights`. */
  datatype ModelError = InvalidLossType | InitFailed(cause: InitError)

  /** `DCN.__init__`: the loss-type assertion first, then the graph's parameter dictionary. */
  method NewModel(h: Hyper) returns (r: Result<Model, ModelError>)
    ensures r == Err(InvalidLossType) <==> !ValidLossType(h.lossType)
    ensures ValidLossType(h.lossType) ==> (r.Ok? <==> GlorotDefined(h))
    ensures ValidLossType(h.lossType) && |h.deepLayers| == 0 ==> r == Err(InitFailed(DeepLayersEmpty))
    ensures ValidLossType(h.lossType) && r.Err? ==>
      && r.error.InitFailed?
      && (r.error.cause.GlorotDivisionByZero? ==>
            var i := r.error.cause.layer;
            && i < |h.deepLayers|
            && FanIn(h, i) + h.deepLayers[i] == 0
            && forall k {:trigger FanIn(h, k)} :: 0 <= k < i ==> FanIn(h, k) + h.deepLayers[k] > 0)
    ensures r.Ok? ==> r.value.h == h && ValidTable(h, r.value.weights)
  {
    if !ValidLossType(h.lossType) {
      return Err(InvalidLossType);
    }
    var table := InitializeWeights(h);
    match table {
      case Err(e) => r := Err(InitFailed(e));
      case Ok(w) => r := Ok(Model(h, w));
    }
  }

  /** With the constructor's defaults the loss-type assertion holds, every deep layer's Glorot
      scale is defined, so `__init__` succeeds, and both keep vectors have an entry for x0 and
      for each deep layer. */
  lemma DefaultsConstruct(cateFeatureSize: nat, fieldSize: nat, numericFeatureSize: nat)
    ensures var h := DefaultHyper(cateFeatureSize, fieldSize, numericFeatureSize);
      && ValidLossType(h.lossType) && GlorotDefined(h)
      && KeepCovers(h, |FitKeep(h)|) && KeepCovers(h, |PredictKeep(h)|)
  {
    var h := DefaultHyper(cateFeatureSize, fieldSize, numericFeatureSize);
    assert FanIn(h, 1) == 32;
  }

  /** The keep vector `predict` feeds: `[1.0] * len(self.dropout_deep)`, no unit dropped. */
  function PredictKeep(h: Hyper): (keep: seq<real>)
    ensures |keep| == |h.dropoutDeep|
    ensures forall i :: 0 <= i < |keep| ==> keep[i] == 1.0
  {
    seq(|h.dropoutDeep|, _ => 1.0)
  }

  /** The keep vector `fit_on_batch` feeds: `self.dropout_deep` as given. */
  function FitKeep(h: Hyper): seq<real> {
    h.dropoutDeep
  }

  /** The shape numpy gives a fed list of rows, when it is one the placeholders take: a non-empty
      list of rows of one common width. */
  function MatrixShape<X>(rows: seq<seq<X>>): Result<Shape, GraphError> {
    if |rows| > 0 && forall k :: 0 <= k < |rows| ==> |rows[k]| == |rows[0]|
    then Ok([|rows|, |rows[0]|])
    else Err(FeedRejected)
  }

  /** Every row has `width` entries. */
  predicate RowsOfWidth<X>(rows: seq<seq<X>>, width: nat) {
    forall k :: 0 <= k < |rows| ==> |rows[k]| == width
  }

  /** Every id is a row of an embeddings table with `c` rows, as `embedding_lookup` demands. */
  predicate IdsInRange(rows: seq<seq<int>>, c: nat) {
    forall k, j :: 0 <= k < |rows| && 0 <= j < |rows[k]| ==> 0 <= rows[k][j] < c
  }

  /** The `feed_dict` a batch makes for the four data placeholders. `feat_index`, `feat_value`
      and `numeric_value` are declared `[None, None]` and take any matrix; `label` is declared
      `[None, 1]` and refuses a matrix of any other width. */
  function BatchFeed(b: Batch<seq<int>, seq<real>, seq<real>, real>): Result<Feed, GraphError> {
    var featIndex :- MatrixShape(b.xi);
    var featValue :- MatrixShape(b.xv);
    var numericValue :- MatrixShape(b.xv2);
    var labels :- MatrixShape(b.y);
    if labels[1] != 1 then Err(FeedRejected)
    else Ok(Feed(featIndex, featValue, numericValue, labels))
  }

  /** A fed batch has one label per row, as the `[None, 1]` label placeholder demands: a batch
      whose label rows have another width is refused by `predict` and `fit_on_batch` alike. */
  lemma BatchFeedLabels(m: Model, b: Batch<seq<int>, seq<real>, seq<real>, real>)
    ensures BatchFeed(b).Ok? ==> BatchFeed(b).value.labels == [|b.y|, 1] && RowsOfWidth(b.y, 1)
    ensures |b.y| > 0 && |b.y[0]| != 1 ==>
      BatchFeed(b) == Err(FeedRejected) && FitOnBatch(m, b) == Err(FeedRejected) && Predict(m, b) == Err(FeedRejected)
  {
  }

  /** `fit_on_batch`: one `sess.run` of the loss and the optimizer with `dropout_deep` fed. The
      first operation, `embedding_lookup`, raises on an id outside the `cate_feature_size` rows
      of the embeddings table. */
  function FitOnBatch(m: Model, b: Batch<seq<int>, seq<real>, seq<real>, real>): Result<GraphShapes, GraphError> {
    var f :- BatchFeed(b);
    if !IdsInRange(b.xi, m.h.cateFeatureSize) then Err(IdOutOfRange)
    else BuildGraph(m.h, m.weights, f, |FitKeep(m.h)|)
  }

  /** `predict`: one `sess.run` of the loss with every keep probability 1.0. */
  function Predict(m: Model, b: Batch<seq<int>, seq<real>, seq<real>, real>): Result<GraphShapes, GraphError> {
    var f :- BatchFeed(b);
    if !IdsInRange(b.xi, m.h.cateFeatureSize) then Err(IdOutOfRange)
    else BuildGraph(m.h, m.weights, f, |PredictKeep(m.h)|)
  }

  /** A batch whose lists are rows of `field_size` ids and values, `numeric_feature_size` numbers
      and one label is fed as a well-shaped batch of `len(y)` samples. */
  lemma BatchFeedShape(h: Hyper, b: Batch<seq<int>, seq<real>, seq<real>, real>)
    requires |b.y| > 0 && |b.xi| == |b.xv| == |b.xv2| == |b.y|
    requires RowsOfWidth(b.xi, h.fieldSize) && RowsOfWidth(b.xv, h.fieldSize)
    requires RowsOfWidth(b.xv2, h.numericFeatureSize) && RowsOfWidth(b.y, 1)
    ensures BatchFeed(b).Ok? && WellShaped(h, BatchFeed(b).value) && BatchFeed(b).value.featIndex[0] == |b.y|
  {
  }

  /** A training step on a well-formed batch of `n` samples whose ids are rows of the embeddings
      table fits the graph exactly when `dropout_deep` has an entry for x0 and one per deep layer,
      and then yields the shapes that `BuildGraphShapes` gives: one score per sample and a scalar
      loss. */
  lemma FitOnBatchShapes(m: Model, b: Batch<seq<int>, seq<real>, seq<real>, real>)
    requires ValidTable(m.h, m.weights) && m.h.fieldSize > 0 && m.h.embeddingSize > 0
    requires |b.y| > 0 && |b.xi| == |b.xv| == |b.xv2| == |b.y| && IdsInRange(b.xi, m.h.cateFeatureSize)
    requires RowsOfWidth(b.xi, m.h.fieldSize) && RowsOfWidth(b.xv, m.h.fieldSize)
    requires RowsOfWidth(b.xv2, m.h.numericFeatureSize) && RowsOfWidth(b.y, 1)
    ensures FitOnBatch(m, b).Ok? <==> |m.h.dropoutDeep| >= |m.h.deepLayers| + 1
    ensures |m.h.dropoutDeep| >= |m.h.deepLayers| + 1 ==>
      var n := |b.y|;
      var t := TotalSize(m.h);
      var last := LastWidth(m.h);
      FitOnBatch(m, b) == Ok(GraphShapes([n, t], [n, last], [n, t], [n, t + last], [n, 1], []))
  {
    BatchFeedShape(m.h, b);
    FitOnBatchNeedsKeep(m, b);
    if |m.h.dropoutDeep| >= |m.h.deepLayers| + 1 {
      FitOnBatchFits(m, b, BatchFeed(b).value);
    }
  }

  lemma FitOnBatchFits(m: Model, b: Batch<seq<int>, seq<real>, seq<real>, real>, f: Feed)
    requires ValidTable(m.h, m.weights) && m.h.fieldSize > 0 && m.h.embeddingSize > 0
    requires BatchFeed(b) == Ok(f) && WellShaped(m.h, f) && f.featIndex[0] == |b.y|
    requires IdsInRange(b.xi, m.h.cateFeatureSize) && |m.h.dropoutDeep| >= |m.h.deepLayers| + 1
    ensures var n := |b.y|;
      var t := TotalSize(m.h);
      var last := LastWidth(m.h);
      FitOnBatch(m, b) == Ok(GraphShapes([n, t], [n, last], [n, t], [n, t + last], [n, 1], []))
  {
    BuildGraphShapes(m.h, m.weights, f, |m.h.dropoutDeep|);
  }

  /** Whatever the batch, a training step that fits the graph had a `dropout_deep` entry for x0
      and for every deep layer. */
  lemma FitOnBatchNeedsKeep(m: Model, b: Batch<seq<int>, seq<real>, seq<real>, real>)
    ensures FitOnBatch(m, b).Ok? ==> |m.h.dropoutDeep| >= |m.h.deepLayers| + 1
  {
    if BatchFeed(b).Ok? {
      BuildGraphNeedsKeep(m.h, m.weights, BatchFeed(b).value, |m.h.dropoutDeep|);
    }
  }

  /** A training step that fits had only ids the embeddings table has rows for; so with an
      empty table (`cate_feature_size == 0`) every batch with an id raises. */
  lemma FitOnBatchNeedsIds(m: Model, b: Batch<seq<int>, seq<real>, seq<real>, real>)
    ensures FitOnBatch(m, b).Ok? ==> IdsInRange(b.xi, m.h.cateFeatureSize)
    ensures m.h.cateFeatureSize == 0 && BatchFeed(b).Ok? && |b.xi[0]| > 0 ==> FitOnBatch(m, b) == Err(IdOutOfRange)
  {
    if m.h.cateFeatureSize == 0 && BatchFeed(b).Ok? && |b.xi[0]| > 0 {
      assert !(0 <= b.xi[0][0] < m.h.cateFeatureSize);
    }
  }

  /** Whatever the batch, `fit_on_batch` and `predict` fail and succeed together and give the same
      shapes: their keep vectors differ in values, never in length. */
  lemma PredictMatchesFit(m: Model, b: Batch<seq<int>, seq<real>, seq<real>, real>)
    ensures Predict(m, b) == FitOnBatch(m, b)
    ensures Predict(m, b).Ok? ==> KeepCovers(m.h, |PredictKeep(m.h)|)
  {
    if BatchFeed(b).Ok? {
      BuildGraphNeedsKeep(m.h, m.weights, BatchFeed(b).value, |m.h.dropoutDeep|);
    }
  }

  /** Why `fit` raises: `int(len(y_train) / self.batch_size)` with a zero batch size, or the
      `fit_on_batch` of batch `batch` in epoch `epoch`. */
  datatype FitError = BatchSizeZero | StepFailed(epoch: nat, batch: nat, cause: GraphError)

  /** The batches and training lists `fit` works on. */
  type TrainBatch = Batch<seq<int>, seq<real>, seq<real>, real>
  type TrainData = Data<seq<int>, seq<real>, seq<real>, real>

  /** The first training step of a run that raises, counted over all epochs, and why it raised. */
  datatype StepFailure = StepFailure(step: nat, cause: GraphError)

  /** One training step, `fit_on_batch` on a batch. */
  function TrainStep(m: Model): TrainBatch -> Result<GraphShapes, GraphError> {
    b => FitOnBatch(m, b)
  }

  /** The steps `step` run in order over the batches `bs`; the first step that raises ends the run. */
  function RunSteps<B, G>(step: B -> Result<G, GraphError>, bs: seq<B>): (r: Result<(), StepFailure>)
    ensures r.Err? ==> r.error.step < |bs|
    decreases |bs|
  {
    if |bs| == 0 then Ok(())
    else
      var prev := RunSteps(step, bs[..|bs| - 1]);
      if prev.Err? then prev
      else match step(bs[|bs| - 1])
        case Err(e) => Err(StepFailure(|bs| - 1, e))
        case Ok(_) => Ok(())
  }

  /** A run succeeds exactly when every step succeeds; a failing run names the first step that
      fails and the error that step raises. */
  lemma {:induction false} RunStepsFirstFailure<B, G>(step: B -> Result<G, GraphError>, bs: seq<B>)
    ensures RunSteps(step, bs).Ok? <==> forall j :: 0 <= j < |bs| ==> step(bs[j]).Ok?
    ensures RunSteps(step, bs).Err? ==>
      var f := RunSteps(step, bs).error;
      && f.step < |bs| && step(bs[f.step]) == Err(f.cause)
      && forall j :: 0 <= j < f.step ==> step(bs[j]).Ok?
    decreases |bs|
  {
    if |bs| > 0 {
      var prefix := bs[..|bs| - 1];
      RunStepsFirstFailure(step, prefix);
      assert forall j :: 0 <= j < |prefix| ==> prefix[j] == bs[j];
    }
  }

  /** Once a run has raised, later batches change nothing. */
  lemma {:induction false} RunStepsStops<B, G>(step: B -> Result<G, GraphError>, bs: seq<B>, cs: seq<B>)
    requires RunSteps(step, bs).Err?
    ensures RunSteps(step, bs + cs) == RunSteps(step, bs)
    decreases |cs|
  {
    if |cs| == 0 {
      assert bs + cs == bs;
    } else {
      var front := cs[..|cs| - 1];
      RunStepsStops(step, bs, front);
      assert (bs + cs)[..|bs + cs| - 1] == bs + front;
    }
  }

  /** Running the steps one batch further: while every step so far succeeded, the run goes on
      exactly when step `i` succeeds, and when step `i` raises the whole run raises there. */
  lemma {:induction false} RunStepsUpTo<B, G>(step: B -> Result<G, GraphError>, bs: seq<B>, i: nat)
    requires i < |bs| && RunSteps(step, bs[..i]).Ok?
    ensures bs[..i + 1] == bs[..i] + [bs[i]]
    ensures step(bs[i]).Ok? ==> RunSteps(step, bs[..i + 1]).Ok?
    ensures step(bs[i]).Err? ==> RunSteps(step, bs) == Err(StepFailure(i, step(bs[i]).error))
  {
    var pre := bs[..i + 1];
    assert pre[..i] == bs[..i];
    assert pre[|pre| - 1] == bs[i];
    if step(bs[i]).Err? {
      RunStepsPrefix(step, pre, bs);
    }
  }

  /** Steps run after a run that succeeded: the combined run succeeds exactly when the second
      one does, and otherwise raises at the same step, counted after the first run's steps. */
  lemma {:induction false} RunStepsConcat<B, G>(step: B -> Result<G, GraphError>, bs: seq<B>, cs: seq<B>)
    requires RunSteps(step, bs).Ok?
    ensures RunSteps(step, bs + cs).Ok? <==> RunSteps(step, cs).Ok?
    ensures RunSteps(step, cs).Err? ==>
      RunSteps(step, bs + cs) == Err(StepFailure(|bs| + RunSteps(step, cs).error.step, RunSteps(step, cs).error.cause))
    decreases |cs|
  {
    if |cs| == 0 {
      assert bs + cs == bs;
    } else {
      var front := cs[..|cs| - 1];
      RunStepsConcat(step, bs, front);
      assert (bs + cs)[..|bs + cs| - 1] == bs + front;
    }
  }

  /** A run that raises within a prefix of the batches raises there on all of them. */
  lemma RunStepsPrefix<B, G>(step: B -> Result<G, GraphError>, pre: seq<B>, full: seq<B>)
    requires |pre| <= |full| && full[..|pre|] == pre && RunSteps(step, pre).Err?
    ensures RunSteps(step, full) == RunSteps(step, pre)
  {
    var rest := full[|pre|..];
    assert full == pre + rest;
    RunStepsStops(step, pre, rest);
  }

  /** The four training lists after one call of `shuffle_in_unison_scary` with the draws `draws`. */
  function ShuffleData<I, V, N, Y>(d: Data<I, V, N, Y>, draws: seq<nat>): (r: Data<I, V, N, Y>)
    requires Parallel(d) && WellFormedDraws(draws, |d.y|)
    ensures Parallel(r) && |r.y| == |d.y|
  {
    ShuffledIsPermutation(d.xi, draws);
    ShuffledIsPermutation(d.xv, draws);
    ShuffledIsPermutation(d.xv2, draws);
    ShuffledIsPermutation(d.y, draws);
    Data(Shuffled(d.xi, draws), Shuffled(d.xv, draws), Shuffled(d.xv2, draws), Shuffled(d.y, draws))
  }

  /** One table of draws per epoch, each for lists of length `n`. */
  predicate DrawsFor(draws: seq<seq<nat>>, n: nat) {
    forall e :: 0 <= e < |draws| ==> WellFormedDraws(draws[e], n)
  }

  /** The training lists after the shuffles of the first `e` epochs. */
  function AfterEpochs<I, V, N, Y>(d: Data<I, V, N, Y>, draws: seq<seq<nat>>, e: nat): (r: Data<I, V, N, Y>)
    requires Parallel(d) && DrawsFor(draws, |d.y|) && e <= |draws|
    ensures Parallel(r) && |r.y| == |d.y|
  {
    if e == 0 then d else ShuffleData(AfterEpochs(d, draws, e - 1), draws[e - 1])
  }

  /** The batches handed to `fit_on_batch` during the first `e` epochs, epoch after epoch. */
  function FitTrace<I, V, N, Y>(d: Data<I, V, N, Y>, draws: seq<seq<nat>>, e: nat, batchSize: nat): seq<Batch<I, V, N, Y>>
    requires Parallel(d) && DrawsFor(draws, |d.y|) && e <= |draws| && batchSize > 0
  {
    if e == 0 then [] else FitTrace(d, draws, e - 1, batchSize) + Schedule(AfterEpochs(d, draws, e), batchSize)
  }

  /** The batches of each of the first `e` epochs: epoch `j` cuts the lists as shuffled at
      its start. */
  function EpochSchedules<I, V, N, Y>(d: Data<I, V, N, Y>, draws: seq<seq<nat>>, e: nat, batchSize: nat)
    : (epochs: seq<seq<Batch<I, V, N, Y>>>)
    requires Parallel(d) && DrawsFor(draws, |d.y|) && e <= |draws| && batchSize > 0
    ensures |epochs| == e
    ensures forall j :: 0 <= j < e ==> |epochs[j]| == TotalBatch(|d.y|, batchSize)
  {
    seq(e, j requires 0 <= j < e => Schedule(AfterEpochs(d, draws, j + 1), batchSize))
  }

  /** The number, counted over all of training, of batch `batch` of epoch `epoch` when every
      epoch has `t` batches. */
  function StepNumber(epoch: nat, batch: nat, t: nat): nat {
    epoch * t + batch
  }

  /** How the epochs `epochs` of `fit` end with training step `step`: normally, or at the first
      step that raises, named by its epoch and by its batch within that epoch. */
  function EpochsOutcome<B, G>(step: B -> Result<G, GraphError>, epochs: seq<seq<B>>): (r: Result<(), FitError>)
    ensures r.Err? ==> r.error.StepFailed? && r.error.epoch < |epochs| && r.error.batch < |epochs[r.error.epoch]|
    decreases |epochs|
  {
    if |epochs| == 0 then Ok(())
    else
      var prev := EpochsOutcome(step, epochs[..|epochs| - 1]);
      if prev.Err? then prev
      else match RunSteps(step, epochs[|epochs| - 1])
        case Err(f) => Err(StepFailed(|epochs| - 1, f.step, f.cause))
        case Ok(_) => Ok(())
  }

  /** Once an epoch has raised, later epochs change nothing: `fit` has stopped. */
  lemma {:induction false} EpochsOutcomePrefix<B, G>(step: B -> Result<G, GraphError>, epochs: seq<seq<B>>, k: nat)
    requires k <= |epochs| && EpochsOutcome(step, epochs[..k]).Err?
    ensures EpochsOutcome(step, epochs) == EpochsOutcome(step, epochs[..k])
    decreases |epochs|
  {
    if k == |epochs| {
      assert epochs[..k] == epochs;
    } else {
      var front := epochs[..|epochs| - 1];
      assert front[..k] == epochs[..k];
      EpochsOutcomePrefix(step, front, k);
    }
  }

  /** Running one epoch further: while every epoch so far ended normally, the epochs go on
      exactly when epoch `i` does, and when a step of epoch `i` raises, all epochs end there. */
  lemma EpochsOutcomeUpTo<B, G>(step: B -> Result<G, GraphError>, epochs: seq<seq<B>>, i: nat)
    requires i < |epochs| && EpochsOutcome(step, epochs[..i]).Ok?
    ensures RunSteps(step, epochs[i]).Ok? ==> EpochsOutcome(step, epochs[..i + 1]).Ok?
    ensures RunSteps(step, epochs[i]).Err? ==>
      EpochsOutcome(step, epochs) ==
        Err(StepFailed(i, RunSteps(step, epochs[i]).error.step, RunSteps(step, epochs[i]).error.cause))
  {
    var pre := epochs[..i + 1];
    assert pre[..i] == epochs[..i];
    if RunSteps(step, epochs[i]).Err? {
      EpochsOutcomePrefix(step, epochs, i + 1);
    }
  }

  /** Epoch by epoch is the same as step by step over all epochs, one after another: the
      epochs end normally exactly when every step succeeds, and the step at which they raise is
      step `epoch * t + batch` of the whole run when every epoch has `t` batches. */
  lemma {:induction false} EpochsOutcomeIsRun<B, G>(step: B -> Result<G, GraphError>, epochs: seq<seq<B>>, t: nat)
    requires forall j :: 0 <= j < |epochs| ==> |epochs[j]| == t
    ensures var outcome := EpochsOutcome(step, epochs);
      var run := RunSteps(step, Flatten(epochs));
      && (outcome.Ok? <==> run.Ok?)
      && (outcome.Err? ==>
            run == Err(StepFailure(StepNumber(outcome.error.epoch, outcome.error.batch, t), outcome.error.cause)))
    ensures |Flatten(epochs)| == |epochs| * t
    decreases |epochs|
  {
    if |epochs| > 0 {
      var front := epochs[..|epochs| - 1];
      var last := epochs[|epochs| - 1];
      EpochsOutcomeIsRun(step, front, t);
      NextStart(|front|, t);
      if RunSteps(step, Flatten(front)).Err? {
        RunStepsStops(step, Flatten(front), last);
      } else {
        RunStepsConcat(step, Flatten(front), last);
      }
    }
  }

  /** The batches of all training steps are the epochs' batches, one epoch after another. */
  lemma {:induction false} FitTraceFlat<I, V, N, Y>(d: Data<I, V, N, Y>, draws: seq<seq<nat>>, e: nat, batchSize: nat)
    requires Parallel(d) && DrawsFor(draws, |d.y|) && e <= |draws| && batchSize > 0
    ensures FitTrace(d, draws, e, batchSize) == Flatten(EpochSchedules(d, draws, e, batchSize))
  {
    if e > 0 {
      var epochs := EpochSchedules(d, draws, e, batchSize);
      assert epochs[..e - 1] == EpochSchedules(d, draws, e - 1, batchSize);
      FitTraceFlat(d, draws, e - 1, batchSize);
    }
  }

  /** `fit` raising at batch `batch` of epoch `epoch` is training step
      `epoch * total_batch + batch` raising, every earlier step having succeeded. */
  lemma FitOutcomeIsRun<I, V, N, Y, G>(step: Batch<I, V, N, Y> -> Result<G, GraphError>, d: Data<I, V, N, Y>,
                                       draws: seq<seq<nat>>, e: nat, batchSize: nat)
    requires Parallel(d) && DrawsFor(draws, |d.y|) && e <= |draws| && batchSize > 0
    ensures var outcome := EpochsOutcome(step, EpochSchedules(d, draws, e, batchSize));
      var run := RunSteps(step, FitTrace(d, draws, e, batchSize));
      && (outcome.Ok? <==> run.Ok?)
      && (outcome.Err? ==>
            run == Err(StepFailure(StepNumber(outcome.error.epoch, outcome.error.batch, TotalBatch(|d.y|, batchSize)),
                                   outcome.error.cause)))
  {
    FitTraceFlat(d, draws, e, batchSize);
    EpochsOutcomeIsRun(step, EpochSchedules(d, draws, e, batchSize), TotalBatch(|d.y|, batchSize));
  }

  /** Where the rows of the lists come from after the shuffles of the first `e` epochs: position
      `j` holds the row that stood at index `EpochIndex(draws, e, n)[j]` before `fit` began. */
  function EpochIndex(draws: seq<seq<nat>>, e: nat, n: nat): (idx: seq<nat>)
    requires DrawsFor(draws, n) && e <= |draws|
    ensures |idx| == n && Indexes(idx, n)
  {
    if e == 0 then Iota(n)
    else
      var prev := EpochIndex(draws, e - 1, n);
      PermutationOfIndices(draws[e - 1]);
      Gather(prev, Permutation(draws[e - 1]))
  }

  /** After any number of epochs the four lists are still aligned: each is the original list read
      through the same index list, so a sample's ids, values, numeric values and label stay
      together. */
  lemma {:induction false} AfterEpochsAligned<I, V, N, Y>(d: Data<I, V, N, Y>, draws: seq<seq<nat>>, e: nat)
    requires Parallel(d) && DrawsFor(draws, |d.y|) && e <= |draws|
    ensures var idx := EpochIndex(draws, e, |d.y|);
      var r := AfterEpochs(d, draws, e);
      && r.xi == Gather(d.xi, idx) && r.xv == Gather(d.xv, idx)
      && r.xv2 == Gather(d.xv2, idx) && r.y == Gather(d.y, idx)
  {
    var n := |d.y|;
    if e == 0 {
      GatherIota(d.xi);
      GatherIota(d.xv);
      GatherIota(d.xv2);
      GatherIota(d.y);
    } else {
      AfterEpochsAligned(d, draws, e - 1);
      var prev := EpochIndex(draws, e - 1, n);
      ShuffleGathered(d.xi, prev, draws[e - 1]);
      ShuffleGathered(d.xv, prev, draws[e - 1]);
      ShuffleGathered(d.xv2, prev, draws[e - 1]);
      ShuffleGathered(d.y, prev, draws[e - 1]);
    }
  }

  lemma GatherIota<T>(s: seq<T>)
    ensures Gather(s, Iota(|s|)) == s
  {
  }

  /** Shuffling a list read through `prev` is reading it through `prev` permuted by the draws. */
  lemma ShuffleGathered<T>(s: seq<T>, prev: seq<nat>, draws: seq<nat>)
    requires Indexes(prev, |s|) && WellFormedDraws(draws, |prev|)
    ensures Indexes(Permutation(draws), |prev|)
    ensures Shuffled(Gather(s, prev), draws) == Gather(s, Gather(prev, Permutation(draws)))
  {
    ShuffledIsGather(Gather(s, prev), draws);
    GatherGather(s, prev, Permutation(draws));
  }

  /** The index list of every epoch is a permutation of `0 .. n - 1`: no sample is lost or
      repeated by the shuffles. */
  lemma {:induction false} EpochIndexPermutes(draws: seq<seq<nat>>, e: nat, n: nat)
    requires DrawsFor(draws, n) && e <= |draws|
    ensures multiset(EpochIndex(draws, e, n)) == multiset(Iota(n))
  {
    if e > 0 {
      EpochIndexPermutes(draws, e - 1, n);
      var prev := EpochIndex(draws, e - 1, n);
      ShuffledIsGather(prev, draws[e - 1]);
      ShuffledIsPermutation(prev, draws[e - 1]);
    }
  }

  /** `fit` runs `total_batch` steps per epoch. */
  lemma {:induction false} FitTraceLength<I, V, N, Y>(d: Data<I, V, N, Y>, draws: seq<seq<nat>>, e: nat, batchSize: nat)
    requires Parallel(d) && DrawsFor(draws, |d.y|) && e <= |draws| && batchSize > 0
    ensures |FitTrace(d, draws, e, batchSize)| == e * TotalBatch(|d.y|, batchSize)
  {
    if e > 0 {
      FitTraceLength(d, draws, e - 1, batchSize);
      NextStart(e - 1, TotalBatch(|d.y|, batchSize));
    }
  }

  /** Step `j * total_batch + i` of training is batch `i` of epoch `j`, cut from the lists as
      shuffled at the start of that epoch. */
  lemma {:induction false} FitTraceAt<I, V, N, Y>(d: Data<I, V, N, Y>, draws: seq<seq<nat>>, e: nat, batchSize: nat, j: nat, i: nat)
    requires Parallel(d) && DrawsFor(draws, |d.y|) && e <= |draws| && batchSize > 0
    requires j < e && i < TotalBatch(|d.y|, batchSize)
    ensures j * TotalBatch(|d.y|, batchSize) + i < |FitTrace(d, draws, e, batchSize)|
    ensures FitTrace(d, draws, e, batchSize)[j * TotalBatch(|d.y|, batchSize) + i] ==
      Schedule(AfterEpochs(d, draws, j + 1), batchSize)[i]
  {
    var t := TotalBatch(|d.y|, batchSize);
    var pre := FitTrace(d, draws, e - 1, batchSize);
    var cur := Schedule(AfterEpochs(d, draws, e), batchSize);
    assert FitTrace(d, draws, e, batchSize) == pre + cur;
    FitTraceLength(d, draws, e - 1, batchSize);
    StepIndexBounds(j, e, t, i);
    if j < e - 1 {
      FitTraceAt(d, draws, e - 1, batchSize, j, i);
    }
  }

  lemma StepIndexBounds(j: nat, e: nat, t: nat, i: nat)
    requires j < e && i < t
    ensures (e - 1) * t + t == e * t
    ensures j == e - 1 ==> j * t + i == (e - 1) * t + i
    ensures j < e - 1 ==> j * t + i < (e - 1) * t
  {
    NextStart(e - 1, t);
    if j < e - 1 {
      NextStart(j, t);
      MulMonotone(j + 1, e - 1, t);
    }
  }

  /** Training step `k` is batch `k % total_batch` of epoch `k / total_batch`. */
  lemma FitStepSource<I, V, N, Y>(d: Data<I, V, N, Y>, draws: seq<seq<nat>>, e: nat, batchSize: nat, k: nat)
    requires Parallel(d) && DrawsFor(draws, |d.y|) && e <= |draws| && batchSize > 0
    requires k < |FitTrace(d, draws, e, batchSize)|
    ensures var t := TotalBatch(|d.y|, batchSize);
      && t > 0 && 0 <= k / t < e && k % t < t
      && FitTrace(d, draws, e, batchSize)[k] == Schedule(AfterEpochs(d, draws, k / t + 1), batchSize)[k % t]
  {
    var t := TotalBatch(|d.y|, batchSize);
    FitTraceLength(d, draws, e, batchSize);
    SplitIndex(k, e, t);
    FitTraceAt(d, draws, e, batchSize, k / t, k % t);
  }

  lemma SplitIndex(k: nat, e: nat, t: nat)
    requires k < e * t
    ensures t > 0 && 0 <= k / t < e && k % t < t && k == (k / t) * t + k % t
  {
    if k / t >= e {
      MulMonotone(e, k / t, t);
    }
  }

  /** With the initializer's table, non-zero field and embedding sizes, a `dropout_deep` entry
      for x0 and for every deep layer, and training lists whose rows have `field_size` ids, all
      below `cate_feature_size`, `field_size` values and `numeric_feature_size` numbers, every step `fit` takes feeds exactly
      `batch_size` samples and fits the graph: one score per sample and a scalar loss. */
  lemma FitTraceTrains(m: Model, d: Data<seq<int>, seq<real>, seq<real>, real>, draws: seq<seq<nat>>, k: nat)
    requires ValidTable(m.h, m.weights) && m.h.fieldSize > 0 && m.h.embeddingSize > 0
    requires KeepCovers(m.h, |m.h.dropoutDeep|) && m.h.batchSize > 0
    requires Parallel(d) && DrawsFor(draws, |d.y|) && |draws| == m.h.epoch
    requires RowsOfWidth(d.xi, m.h.fieldSize) && RowsOfWidth(d.xv, m.h.fieldSize)
    requires RowsOfWidth(d.xv2, m.h.numericFeatureSize) && IdsInRange(d.xi, m.h.cateFeatureSize)
    requires k < |FitTrace(d, draws, m.h.epoch, m.h.batchSize)|
    ensures var n := m.h.batchSize;
      var t := TotalSize(m.h);
      var last := LastWidth(m.h);
      FitOnBatch(m, FitTrace(d, draws, m.h.epoch, m.h.batchSize)[k]) ==
        Ok(GraphShapes([n, t], [n, last], [n, t], [n, t + last], [n, 1], []))
  {
    FitStepRows(d, draws, m.h.epoch, m.h.batchSize, k, m.h.fieldSize, m.h.numericFeatureSize);
    FitStepIds(d, draws, m.h.epoch, m.h.batchSize, k, m.h.cateFeatureSize);
    FitOnBatchShapes(m, FitTrace(d, draws, m.h.epoch, m.h.batchSize)[k]);
  }

  /** Under the conditions of `FitTraceTrains` no training step raises, so `fit` runs to the end. */
  lemma FitTraceRuns(m: Model, d: TrainData, draws: seq<seq<nat>>)
    requires ValidTable(m.h, m.weights) && m.h.fieldSize > 0 && m.h.embeddingSize > 0
    requires KeepCovers(m.h, |m.h.dropoutDeep|) && m.h.batchSize > 0
    requires Parallel(d) && DrawsFor(draws, |d.y|) && |draws| == m.h.epoch
    requires RowsOfWidth(d.xi, m.h.fieldSize) && RowsOfWidth(d.xv, m.h.fieldSize)
    requires RowsOfWidth(d.xv2, m.h.numericFeatureSize) && IdsInRange(d.xi, m.h.cateFeatureSize)
    ensures RunSteps(TrainStep(m), FitTrace(d, draws, m.h.epoch, m.h.batchSize)).Ok?
  {
    var trace := FitTrace(d, draws, m.h.epoch, m.h.batchSize);
    forall k | 0 <= k < |trace|
      ensures TrainStep(m)(trace[k]).Ok?
    {
      FitTraceTrains(m, d, draws, k);
    }
    RunStepsFirstFailure(TrainStep(m), trace);
  }

  /** Every training step is handed `batch_size` rows of the widths the training lists have. */
  lemma FitStepRows(d: Data<seq<int>, seq<real>, seq<real>, real>, draws: seq<seq<nat>>, e: nat,
                    b: nat, k: nat, f: nat, num: nat)
    requires Parallel(d) && DrawsFor(draws, |d.y|) && e <= |draws| && b > 0
    requires RowsOfWidth(d.xi, f) && RowsOfWidth(d.xv, f) && RowsOfWidth(d.xv2, num)
    requires k < |FitTrace(d, draws, e, b)|
    ensures FullBatch(FitTrace(d, draws, e, b)[k], b, f, num)
  {
    var total := TotalBatch(|d.y|, b);
    FitStepSource(d, draws, e, b, k);
    var j, i := k / total, k % total;
    BatchRowsOfWidth(d, draws, j + 1, b, i, f, num);
  }

  /** A batch of `b` samples whose rows have `f` ids, `f` values, `num` numbers and one label. */
  predicate FullBatch<I, V, N, Y>(batch: Batch<seq<I>, seq<V>, seq<N>, Y>, b: nat, f: nat, num: nat) {
    && |batch.xi| == |batch.xv| == |batch.xv2| == |batch.y| == b
    && RowsOfWidth(batch.xi, f) && RowsOfWidth(batch.xv, f) && RowsOfWidth(batch.xv2, num)
    && RowsOfWidth(batch.y, 1)
  }

  /** Every batch `fit` cuts in epoch `e` has `batch_size` rows of the widths the training
      lists have, and one-entry label rows. */
  lemma BatchRowsOfWidth(d: Data<seq<int>, seq<real>, seq<real>, real>, draws: seq<seq<nat>>, e: nat,
                         b: nat, i: nat, f: nat, num: nat)
    requires Parallel(d) && DrawsFor(draws, |d.y|) && e <= |draws| && b > 0
    requires i < TotalBatch(|d.y|, b)
    requires RowsOfWidth(d.xi, f) && RowsOfWidth(d.xv, f) && RowsOfWidth(d.xv2, num)
    ensures FullBatch(Schedule(AfterEpochs(d, draws, e), b)[i], b, f, num)
  {
    var shuffled := AfterEpochs(d, draws, e);
    var idx := EpochIndex(draws, e, |d.y|);
    AfterEpochsAligned(d, draws, e);
    ScheduleFullBatches(shuffled, b, i);
    var lo := i * b;
    RowsOfWidthGatherSlice(d.xi, idx, lo, lo + b, f);
    RowsOfWidthGatherSlice(d.xv, idx, lo, lo + b, f);
    RowsOfWidthGatherSlice(d.xv2, idx, lo, lo + b, num);
  }

  lemma RowsOfWidthGatherSlice<X>(rows: seq<seq<X>>, idx: seq<nat>, lo: nat, hi: nat, w: nat)
    requires RowsOfWidth(rows, w) && Indexes(idx, |rows|) && lo <= hi <= |idx|
    ensures RowsOfWidth(Gather(rows, idx)[lo..hi], w)
  {
  }

  /** Every training step is handed only ids the training lists hold, so the ids of the
      training lists bound those of every batch. */
  lemma FitStepIds(d: TrainData, draws: seq<seq<nat>>, e: nat, b: nat, k: nat, c: nat)
    requires Parallel(d) && DrawsFor(draws, |d.y|) && e <= |draws| && b > 0
    requires IdsInRange(d.xi, c) && k < |FitTrace(d, draws, e, b)|
    ensures IdsInRange(FitTrace(d, draws, e, b)[k].xi, c)
  {
    var total := TotalBatch(|d.y|, b);
    FitStepSource(d, draws, e, b, k);
    var j, i := k / total, k % total;
    BatchIds(d, draws, j + 1, b, i, c);
  }

  /** Batch `i` of epoch `e` holds only ids of the training lists. */
  lemma BatchIds(d: TrainData, draws: seq<seq<nat>>, e: nat, b: nat, i: nat, c: nat)
    requires Parallel(d) && DrawsFor(draws, |d.y|) && e <= |draws| && b > 0
    requires i < TotalBatch(|d.y|, b) && IdsInRange(d.xi, c)
    ensures IdsInRange(Schedule(AfterEpochs(d, draws, e), b)[i].xi, c)
  {
    var shuffled := AfterEpochs(d, draws, e);
    var idx := EpochIndex(draws, e, |d.y|);
    AfterEpochsAligned(d, draws, e);
    ScheduleFullBatches(shuffled, b, i);
    IdsInRangeGatherSlice(d.xi, idx, i * b, i * b + b, c);
  }

  lemma IdsInRangeGatherSlice(rows: seq<seq<int>>, idx: seq<nat>, lo: nat, hi: nat, c: nat)
    requires IdsInRange(rows, c) && Indexes(idx, |rows|) && lo <= hi <= |idx|
    ensures IdsInRange(Gather(rows, idx)[lo..hi], c)
  {
  }

  /** One epoch's inner loop of `fit`: `get_batch(..., i)` and `fit_on_batch` on it for
      `i in range(total_batch)`, on the lists as they are, with
      `total_batch = int(len(y_train) / self.batch_size)`. The loop ends at the first step that
      raises; `batches` are the batches handed to `fit_on_batch` up to that point. */
  method TrainEpoch(m: Model, xi: array<seq<int>>, xv: array<seq<real>>, xv2: array<seq<real>>, y: array<real>)
    returns (batches: seq<TrainBatch>, r: Result<(), StepFailure>)
    requires m.h.batchSize > 0
    ensures var s := Schedule(Data(xi[..], xv[..], xv2[..], y[..]), m.h.batchSize);
      && r == RunSteps(TrainStep(m), s)
      && (r.Ok? ==> batches == s)
      && (r.Err? ==> batches == s[..r.error.step + 1])
  {
    ghost var s := Schedule(Data(xi[..], xv[..], xv2[..], y[..]), m.h.batchSize);
    var totalBatch := y.Length / m.h.batchSize;
    batches := [];
    var i := 0;
    while i < totalBatch
      invariant 0 <= i <= totalBatch
      invariant batches == s[..i] && RunSteps(TrainStep(m), s[..i]).Ok?
    {
      var batch := GetBatch(Data(xi[..], xv[..], xv2[..], y[..]), m.h.batchSize, i);
      var step := FitOnBatch(m, batch);
      RunStepsUpTo(TrainStep(m), s, i);
      batches := batches + [batch];
      if step.Err? {
        return batches, Err(StepFailure(i, step.error));
      }
      i := i + 1;
    }
    assert s[..totalBatch] == s;
    r := Ok(());
  }

  /** Epoch `e` of `fit` with a non-zero batch size, the lists holding what the earlier epochs
      left: `shuffle_in_unison_scary` on the four lists with the epoch's draws, then the
      epoch's training steps on the shuffled lists, which are the epoch's batches. */
  method FitEpoch(m: Model, xi: array<seq<int>>, xv: array<seq<real>>, xv2: array<seq<real>>, y: array<real>,
                  draws: seq<seq<nat>>, e: nat, ghost start: TrainData)
    returns (batches: seq<TrainBatch>, r: Result<(), StepFailure>)
    requires Parallel(start) && DrawsFor(draws, |start.y|) && e < |draws| == m.h.epoch && m.h.batchSize > 0
    requires Data(xi[..], xv[..], xv2[..], y[..]) == AfterEpochs(start, draws, e)
    requires xi as object != xv as object && xi as object != xv2 as object && xi as object != y as object
    requires xv as object != xv2 as object && xv as object != y as object && xv2 as object != y as object
    modifies xi, xv, xv2, y
    ensures var s := EpochSchedules(start, draws, m.h.epoch, m.h.batchSize)[e];
      && Data(xi[..], xv[..], xv2[..], y[..]) == AfterEpochs(start, draws, e + 1)
      && r == RunSteps(TrainStep(m), s)
      && (r.Ok? ==> batches == s
                    && FitTrace(start, draws, e + 1, m.h.batchSize) == FitTrace(start, draws, e, m.h.batchSize) + batches)
  {
    ShuffleInUnison(xi, xv, xv2, y, draws[e]);
    EpochStep(start, draws, m.h.epoch, m.h.batchSize, e);
    batches, r := TrainEpoch(m, xi, xv, xv2, y);
  }

  /** Epoch `e` shuffles the lists left by the earlier epochs, and its batches follow theirs. */
  lemma EpochStep<I, V, N, Y>(d: Data<I, V, N, Y>, draws: seq<seq<nat>>, epochs: nat, batchSize: nat, e: nat)
    requires Parallel(d) && DrawsFor(draws, |d.y|) && e < epochs <= |draws| && batchSize > 0
    ensures AfterEpochs(d, draws, e + 1) == ShuffleData(AfterEpochs(d, draws, e), draws[e])
    ensures EpochSchedules(d, draws, epochs, batchSize)[e] == Schedule(AfterEpochs(d, draws, e + 1), batchSize)
    ensures FitTrace(d, draws, e + 1, batchSize) ==
      FitTrace(d, draws, e, batchSize) + Schedule(AfterEpochs(d, draws, e + 1), batchSize)
  {
  }

  /** `fit` on the four training lists, which it shuffles in place. Every epoch shuffles them in
      unison with that epoch's draws and hands `fit_on_batch` the whole batches of the shuffled
      lists, in order. A zero batch size raises right after the first shuffle; a training step
      that raises ends `fit` at that step, batch `batch` of epoch `epoch`, with the lists as
      shuffled at the start of that epoch. On success the result is the sequence of batches
      trained on. */
  method Fit(m: Model, xi: array<seq<int>>, xv: array<seq<real>>, xv2: array<seq<real>>, y: array<real>,
             draws: seq<seq<nat>>)
    returns (r: Result<seq<TrainBatch>, FitError>)
    requires xi.Length == xv.Length == xv2.Length == y.Length
    requires xi as object != xv as object && xi as object != xv2 as object && xi as object != y as object
    requires xv as object != xv2 as object && xv as object != y as object && xv2 as object != y as object
    requires |draws| == m.h.epoch && DrawsFor(draws, y.Length)
    modifies xi, xv, xv2, y
    ensures var start := Data(old(xi[..]), old(xv[..]), old(xv2[..]), old(y[..]));
      var now := Data(xi[..], xv[..], xv2[..], y[..]);
      && (m.h.epoch == 0 ==> r == Ok([]) && now == start)
      && (m.h.epoch > 0 && m.h.batchSize == 0 ==> r == Err(BatchSizeZero) && now == AfterEpochs(start, draws, 1))
      && (m.h.batchSize > 0 ==>
            var outcome := EpochsOutcome(TrainStep(m), EpochSchedules(start, draws, m.h.epoch, m.h.batchSize));
            && (r.Ok? <==> outcome.Ok?)
            && (r.Ok? ==> r.value == FitTrace(start, draws, m.h.epoch, m.h.batchSize)
                          && now == AfterEpochs(start, draws, m.h.epoch))
            && (r.Err? ==> r.error == outcome.error && now == AfterEpochs(start, draws, r.error.epoch + 1)))
  {
    ghost var start := Data(xi[..], xv[..], xv2[..], y[..]);
    ghost var epochs := if m.h.batchSize > 0 then EpochSchedules(start, draws, m.h.epoch, m.h.batchSize) else [];
    var trace: seq<TrainBatch> := [];
    var e := 0;
    while e < m.h.epoch
      invariant 0 <= e <= m.h.epoch
      invariant Data(xi[..], xv[..], xv2[..], y[..]) == AfterEpochs(start, draws, e)
      invariant m.h.batchSize > 0 ==>
        trace == FitTrace(start, draws, e, m.h.batchSize) && EpochsOutcome(TrainStep(m), epochs[..e]).Ok?
      invariant m.h.batchSize == 0 ==> e == 0 && trace == []
    {
      if m.h.batchSize == 0 {
        ShuffleInUnison(xi, xv, xv2, y, draws[e]);
        return Err(BatchSizeZero);
      }
      var batches, outcome := FitEpoch(m, xi, xv, xv2, y, draws, e, start);
      EpochsOutcomeUpTo(TrainStep(m), epochs, e);
      if outcome.Err? {
        return Err(StepFailed(e, outcome.error.step, outcome.error.cause));
      }
      trace := trace + batches;
      e := e + 1;
    }
    if m.h.batchSize > 0 {
      assert epochs[..e] == epochs;
    }
    r := Ok(trace);
  }
}
