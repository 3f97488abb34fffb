# DCN (Deep & Cross Network) estimator — a shape-level model

`DCN.py` defines a scikit-learn style estimator. It builds a TensorFlow graph of three parts:

- an embedding layer over categorical fields, concatenated with numeric features into `x0`;
- a deep part made of dense layers with dropout;
- a cross part that repeatedly combines `x0` with the current cross vector.

Both outputs are concatenated, projected to one score per sample and compared with the labels. A training loop (`fit`) shuffles the four parallel training lists in unison every epoch and feeds them batch by batch to `fit_on_batch`.

This project models that estimator at the level where its logic lives:

- **Shapes.** `Shapes` gives TensorFlow's shape rules for the operations the graph uses: embedding lookup, reshape with `-1`, broadcasting, concat on axis 1, matmul with and without `transpose_b`, and `tensordot`. An operation whose operands do not fit yields a `GraphError`.
- **Parameter table.** `Weights.InitializeWeights` builds the parameter dictionary of `_initialize_weights` in the source's order, as a map from parameter name to shape. It raises where the source raises: `deep_layers[0]` on an empty list, and a glorot scale whose denominator is zero. The finished table is characterised in closed form (`ValidTable`).
- **Forward pass.** `Graph` evaluates `_init_graph` on the shapes of a feed. A failed lookup of a parameter name is a `KeyError`. A too-short `dropout_keep_deep` vector is an index error. `Graph.BuildGraphShapes` proves the shape of every named tensor for a well-shaped batch.
- **Batching.** `Batching` models `get_batch` with Python's slicing semantics, and the per-epoch schedule `get_batch(..., i) for i in range(total_batch)`.
- **Shuffling.** `Shuffle` models `np.random.shuffle` as Fisher–Yates driven by an explicit table of draws. `shuffle_in_unison_scary` saves the generator state and restores it before each shuffle, which means the same draws for all four lists. `Shuffle.ShuffleInPlace` and `Shuffle.ShuffleInUnison` work on arrays in place.
- **Estimator.** `Dcn` has the constructor, the keep vectors fed by `predict` and `fit_on_batch`, and the feed of a batch. It also has `Dcn.Fit`, the epoch loop over arrays. Each epoch (`Dcn.FitEpoch`, `Dcn.TrainEpoch`) shuffles the arrays and calls `Dcn.FitOnBatch` on every scheduled batch, and the first step that raises ends `fit`. The outcome of `Dcn.Fit` is the function `Dcn.EpochsOutcome` of the epochs' batches (`Dcn.EpochSchedules`). On success its result is `Dcn.FitTrace`, the batches of all steps in order. `Dcn.FitOutcomeIsRun` shows that a failure of epoch `e`, batch `i` is the first failing step `e * total_batch + i` of the whole run over `Dcn.FitTrace`. `Dcn.FitTraceTrains` connects the two halves: when the training lists are uniform and their ids are rows of the embeddings table, every step of training feeds exactly `batch_size` samples and fits the graph. So under its conditions no step raises (`Dcn.FitTraceRuns`).

## Model

| member | source | states |
|---|---|---|
| `Shapes.MatMulAgreement` | DCN.py:104-105 | a 2-D matmul succeeds iff the inner dimensions agree, and then has the outer dimensions |
| `Shapes.BroadcastInto` | DCN.py:104-105 | adding a tensor whose right-aligned dimensions are 1 or equal (bias row, column, scalar, same shape) leaves the shape unchanged |
| `Shapes.ReshapeColumnRoundTrip` | DCN.py:110-117 | reshaping `n x t` to `(-1, t, 1)` gives `n x t x 1`, and reshaping back to `(-1, t)` restores `n x t` |
| `Shapes.LookupStep` | DCN.py:84 | looking up `n x F` ids in a `C x K` table gives `n x F x K` |
| `Shapes.ScaleStep` | DCN.py:86-87 | `feat_value` reshaped to `(-1, F, 1)` is `n x F x 1`, and multiplying the embeddings by it keeps `n x F x K` |
| `Shapes.FlattenStep` | DCN.py:90 | reshaping `n x F x K` to `(-1, F*K)` gives `n x F*K` |
| `Shapes.ConcatStep` | DCN.py:89-91 | concatenating `n x a` and `n x b` on axis 1 gives `n x (a+b)` |
| `Shapes.AffineStep` | DCN.py:121 | `n x k` times `k x m` plus a `1 x m` bias is `n x m` |
| `Shapes.ScalarBiasStep` | DCN.py:121-128 | adding a scalar, or a tensor of the same shape, keeps the shape |
| `Shapes.CrossOuterStep` | DCN.py:113 | `matmul(_x0, x_l, transpose_b=True)` on two `n x t x 1` columns is `n x t x t` |
| `Shapes.CrossContractStep` | DCN.py:113 | `tensordot` of `n x t x t` with a `t x 1` weight over one axis is `n x t x 1` |
| `Shapes.CrossShiftStep` | DCN.py:113-114 | adding the `t x 1` cross weight to `n x t x 1` keeps `n x t x 1` |
| `Shapes.CrossResidualStep` | DCN.py:114 | adding `x_l` to an `n x t x 1` tensor keeps `n x t x 1` |
| `Hyper.TotalSize` | DCN.py:35 | `self.total_size`, the width of x0; the shapes it fixes are stated by `Weights.DeepWeightsChain`, `Weights.CrossParamsAreColumns`, `Weights.ProjectionFitsConcat` and `Graph.EmbedShape` |
| `Weights.InitializeWeights` | DCN.py:172-218 | succeeds exactly when `deep_layers` is non-empty and every glorot denominator of the deep layers is non-zero; fails with `DeepLayersEmpty` exactly when `deep_layers` is empty; a zero-denominator failure names the first such layer; on success the table is exactly `ValidTable`: the keys of the embeddings, feature bias, every deep and cross layer and the projection, each with its closed-form shape |
| `Weights.DeepWeightsChain` | DCN.py:190-200 | the first deep weight has `total_size` rows, and every later deep weight has as many rows as the previous one has columns |
| `Weights.DeepBiasesAreRows` | DCN.py:192-202 | every deep bias is a `1 x deep_layers[i]` row matching its weight's columns |
| `Weights.CrossParamsAreColumns` | DCN.py:204-208 | every cross weight and cross bias is a `total_size x 1` column |
| `Weights.ProjectionFitsConcat` | DCN.py:211-215 | the projection has `total_size + deep_layers[-1]` rows and one column |
| `Graph.ValidTableReady` | DCN.py:81-121 | the initializer's table offers, under their names, every weight the forward pass reads, with the shape it reads |
| `Graph.Embed` | DCN.py:84-91 | the model of the embedding lookup, the scaling by `feat_value` and the concat into x0; its contract is `Graph.EmbedShape` |
| `Graph.EmbedShape` | DCN.py:84-91 | with a `C x K` embeddings table, on a well-shaped batch of `n` samples with `F, K > 0`, `x0` is `n x total_size`, where `total_size = F*K + N` |
| `Graph.DenseLayer` | DCN.py:104-105 | the model of one deep layer, matmul plus bias; its contract is `Graph.DenseLayerShape` |
| `Graph.DeepFrom` | DCN.py:102-107 | the model of the deep loop from layer `i` on, with dropout index `i + 1`; its contracts are `Graph.DeepFromShape` and `Graph.DeepFromNeedsKeep` |
| `Graph.DeepBranch` | DCN.py:100-107 | the model of the deep part, dropout `[0]` then the loop; its contracts are `Graph.DeepBranchShape` and `Graph.DeepBranchNeedsKeep` |
| `Graph.DenseLayerShape` | DCN.py:104-105 | a deep layer with a `k x m` weight and a `1 x m` bias maps `n x k` to `n x m` |
| `Graph.DeepFromShape` | DCN.py:102-107 | the deep layers from `i` on map the width feeding layer `i` to `n x deep_layers[-1]`, when the keep vector covers them |
| `Graph.DeepBranchShape` | DCN.py:100-107 | the deep part maps `n x total_size` to `n x deep_layers[-1]` |
| `Graph.DeepFromNeedsKeep` | DCN.py:107 | if the deep layers from `i` succeed (and there is at least one), the keep vector has more than `len(deep_layers)` entries |
| `Graph.DeepBranchNeedsKeep` | DCN.py:100-107 | for any input, the deep part succeeds only if the keep vector has at least `len(deep_layers) + 1` entries |
| `Graph.CrossLayerStep` | DCN.py:113-114 | the model of one cross layer as written, `cross_layer_l` added twice and `cross_bias_l` never read; its contract is `Graph.CrossLayerShape` |
| `Graph.CrossFrom` | DCN.py:112-114 | the model of the cross loop from layer `l` on; its contract is `Graph.CrossFromShape` |
| `Graph.CrossBranch` | DCN.py:110-117 | the model of the cross part, reshape, loop and reshape back; its contracts are `Graph.CrossBranchShape` and `Graph.NoCrossLayersIsIdentity` |
| `Graph.CrossLayerShape` | DCN.py:113-114 | one cross layer with a `t x 1` weight maps `n x t x 1` to `n x t x 1` |
| `Graph.CrossFromShape` | DCN.py:111-114 | every remaining cross layer keeps `n x total_size x 1` |
| `Graph.CrossBranchShape` | DCN.py:110-117 | the cross part returns x0's shape `n x total_size` |
| `Graph.NoCrossLayersIsIdentity` | DCN.py:110-117 | with `cross_layer_num == 0` the cross loop returns its input, and the cross output has exactly x0's shape |
| `Graph.Fuse` | DCN.py:119-128 | the model of the concat, the projection and the loss's elementwise combination of the labels with the output (either loss type); its contract is `Graph.FuseShape` |
| `Graph.FuseShape` | DCN.py:119-128 | the concat is `n x (total_size + deep_layers[-1])`, the output is `n x 1`, and combining it with `n x 1` labels fits |
| `Graph.BuildGraph` | DCN.py:83-128 | the model of `_init_graph` on a feed: embedding, deep part, cross part and fusion in order, the first failure ending it; its contracts are `Graph.BuildGraphShapes` and `Graph.BuildGraphNeedsKeep` |
| `Graph.BuildGraphShapes` | DCN.py:83-128 | with the initializer's table, a well-shaped batch of `n`, `F, K > 0` and a keep vector of at least `len(deep_layers) + 1` entries, the pass succeeds with exactly these shapes: x0 `[n, T]`, deep `[n, last]`, cross `[n, T]`, concat `[n, T+last]`, out `[n, 1]`, loss scalar |
| `Graph.BuildGraphNeedsKeep` | DCN.py:100-107 | for any table and feed, a successful pass implies the keep vector had `len(deep_layers) + 1` entries |
| `Batching.PySlice` | DCN.py:226 | Python slice: the length is `min(end, len) - start` when non-empty, else 0, and element `k` is `s[start + k]` |
| `Batching.Column` | DCN.py:226 | `[[y_] for y_ in ys]` has one row `[ys[k]]` per label |
| `Batching.GetBatch` | DCN.py:221-226 | each of the four returned lists has at most `batch_size` entries |
| `Batching.GetBatchRow` | DCN.py:222-226 | position `k` of each returned list is row `index*batch_size + k` of its input, and the label is wrapped as `[y]` |
| `Batching.GetBatchParallel` | DCN.py:221-226 | on parallel lists, all four returned lists have the same length: `min(batch_size, len(y) - start)` rows, or none past the end |
| `Batching.TotalBatch` | DCN.py:284 | `total_batch`, the number of whole batches; its properties are stated by `Batching.Schedule`, `Batching.ScheduleCoverage` and `Batching.DroppedTail` |
| `Batching.Schedule` | DCN.py:284-288 | one epoch asks for `int(len(y) / batch_size)` batches |
| `Batching.ScheduleFullBatches` | DCN.py:284-288 | scheduled batch `i` holds exactly rows `[i*B, i*B + B)` of every list, all within range |
| `Batching.ScheduleAdjacent` | DCN.py:222-224 | batch `i + 1` starts on the row where batch `i` ends |
| `Batching.ScheduleRowOwner` | DCN.py:284-288 | row `k` below `total_batch * B` of every list is what scheduled batch `k / B` holds at position `k % B`, the label as `[y[k]]`, in a batch of exactly `B` rows; no other batch and position is cut at row `k` (disjointness) |
| `Batching.ScheduleCoverage` | DCN.py:284-288 | the scheduled batches, read one after another, are exactly the first `total_batch * B` rows of each list, in order |
| `Batching.DroppedTail` | DCN.py:284 | the unscheduled tail has `len(y) % B` rows, fewer than one batch |
| `Shuffle.Swap` | DCN.py:231 | the swap exchanges positions `i` and `j` and leaves every other position unchanged |
| `Shuffle.Shuffled` | DCN.py:231 | the model of `np.random.shuffle` with given draws; its contracts are `Shuffle.ShuffledIsPermutation`, `Shuffle.ShuffledIsGather` and `Shuffle.ShuffleInPlace` |
| `Shuffle.ShuffledIsPermutation` | DCN.py:231 | a shuffled list has the same length and the same multiset of elements |
| `Shuffle.PermutationOfIndices` | DCN.py:229-237 | the draws' permutation holds every index `0 .. n-1` exactly once |
| `Shuffle.ShuffledIsGather` | DCN.py:231 | shuffling a list with the draws is reading it through the draws' permutation |
| `Shuffle.UnisonAligned` | DCN.py:229-237 | after the four shuffles, position `j` of every list holds the entry that list had at the same original index |
| `Shuffle.ShuffleInPlace` | DCN.py:231 | the array afterwards is the Fisher–Yates shuffle of its old contents with the given draws |
| `Shuffle.ShuffleInUnison` | DCN.py:229-237 | all four arrays are shuffled with the same draws |
| `Dcn.NewModel` | DCN.py:26-81 | construction fails with `InvalidLossType` exactly when `loss_type` is neither `"logloss"` nor `"mse"`; otherwise it succeeds exactly when the glorot scales are defined, any failure is the initializer's, an empty `deep_layers` fails with `DeepLayersEmpty`, and a zero glorot denominator names the first deep layer that has one; a built model carries the initializer's table |
| `Dcn.DefaultsConstruct` | DCN.py:16-27 | with the constructor's defaults the loss-type assertion holds, every glorot scale is defined, and both keep vectors cover x0 and every deep layer |
| `Dcn.PredictKeep` | DCN.py:250 | `predict` feeds `len(dropout_deep)` keep probabilities, all `1.0` |
| `Dcn.FitKeep` | DCN.py:263 | the keep vector `fit_on_batch` feeds, `dropout_deep` itself; its length is what `Dcn.FitOnBatchShapes` and `Dcn.FitOnBatchNeedsKeep` constrain |
| `Dcn.BatchFeed` | DCN.py:259-262 | the model of the data part of `feed_dict` (the same in `predict`, DCN.py:246-249); its contracts are `Dcn.BatchFeedLabels` and `Dcn.BatchFeedShape` |
| `Dcn.BatchFeedLabels` | DCN.py:77 | a fed batch has exactly one label per row, and a batch whose label rows have another width is refused by `BatchFeed`, `fit_on_batch` and `predict` |
| `Dcn.BatchFeedShape` | DCN.py:72-77 | a batch whose rows have `field_size` ids and values, `numeric_feature_size` numbers and one label is fed as a well-shaped batch of `len(y)` samples |
| `Dcn.FitOnBatch` | DCN.py:258-267 | the model of `fit_on_batch`: the feed, the id check of the lookup, and the forward pass with `dropout_deep`; its contracts are `Dcn.FitOnBatchShapes`, `Dcn.FitOnBatchFits`, `Dcn.FitOnBatchNeedsIds`, `Dcn.FitOnBatchNeedsKeep` and `Dcn.BatchFeedLabels` |
| `Dcn.FitOnBatchShapes` | DCN.py:258-267 | on a well-formed batch of `n` samples whose ids are all below `cate_feature_size`, a training step fits the graph iff `len(dropout_deep) >= len(deep_layers) + 1`, and then yields the shapes of `BuildGraphShapes` |
| `Dcn.FitOnBatchFits` | DCN.py:258-267 | when the feed is well-shaped, its ids are rows of the embeddings table and the keep vector covers the deep layers, the training step yields one score per sample and a scalar loss |
| `Dcn.FitOnBatchNeedsIds` | DCN.py:84 | a training step that fits had only ids in `[0, cate_feature_size)`, as `embedding_lookup` demands; with `cate_feature_size == 0` every fed batch with an id raises `IdOutOfRange` |
| `Dcn.FitOnBatchNeedsKeep` | DCN.py:263 | whatever the batch, a training step that fits had a `dropout_deep` entry for x0 and for every deep layer |
| `Dcn.Predict` | DCN.py:240-255 | the model of `predict`: the same feed and id check, with every keep probability `1.0`; its contracts are `Dcn.PredictMatchesFit`, `Dcn.PredictKeep` and `Dcn.BatchFeedLabels` |
| `Dcn.PredictMatchesFit` | DCN.py:240-269 | on shapes, `predict` and `fit_on_batch` succeed and fail together with the same shapes: their keep vectors differ only in values |
| `Dcn.ShuffleData` | DCN.py:283 | one epoch's shuffle keeps the four lists parallel and of the same length |
| `Dcn.AfterEpochs` | DCN.py:281-283 | after any number of epochs the lists are still parallel and of the original length |
| `Dcn.EpochIndex` | DCN.py:281-283 | the accumulated index list of the shuffles has `n` entries, all below `n` |
| `Dcn.AfterEpochsAligned` | DCN.py:281-283 | after `e` epochs every list is the original read through one common index list, so each sample's ids, values, numbers and label stay together |
| `Dcn.EpochIndexPermutes` | DCN.py:281-283 | that index list is a permutation of `0 .. n-1`: no sample is lost or repeated |
| `Dcn.FitTraceLength` | DCN.py:281-290 | training runs `epoch * total_batch` steps |
| `Dcn.FitTraceAt` | DCN.py:281-290 | step `j * total_batch + i` is batch `i` of the lists as shuffled in epoch `j` |
| `Dcn.FitStepSource` | DCN.py:281-290 | step `k` is batch `k % total_batch` of epoch `k / total_batch` |
| `Dcn.BatchRowsOfWidth` | DCN.py:284-288 | every batch of a shuffled epoch has `batch_size` rows of the widths of the training lists, and one-element label rows |
| `Dcn.FitStepRows` | DCN.py:284-290 | every training step is handed `batch_size` rows of the training lists' widths |
| `Dcn.FitStepIds` | DCN.py:281-290 | every training step is handed only ids below a bound that holds for all ids of the training lists |
| `Dcn.BatchIds` | DCN.py:283-288 | every batch of a shuffled epoch holds only ids below a bound that holds for all ids of the training lists |
| `Dcn.FitTraceTrains` | DCN.py:281-290 | with the initializer's table, `F, K > 0`, a covering `dropout_deep`, uniform training rows and ids below `cate_feature_size`, every training step feeds `batch_size` samples and fits the graph: `[B, 1]` scores and a scalar loss |
| `Dcn.FitTraceRuns` | DCN.py:281-290 | under the conditions of `FitTraceTrains` the run of `fit_on_batch` over all training steps succeeds |
| `Dcn.RunSteps` | DCN.py:285-290 | a run of training steps that raises names one of its own steps |
| `Dcn.RunStepsFirstFailure` | DCN.py:285-290 | a run succeeds iff every step succeeds; a run that raises names the first step that raises and that step's error, every earlier step having succeeded |
| `Dcn.RunStepsStops` | DCN.py:285-290 | once a step has raised, further batches do not change the run's outcome |
| `Dcn.RunStepsPrefix` | DCN.py:285-290 | a run that raises within a prefix of the batches raises at the same step on all of them |
| `Dcn.RunStepsUpTo` | DCN.py:285-290 | after steps `0 .. i-1` succeeded, the run goes on iff step `i` succeeds, and if step `i` raises the whole run raises at `i` with its error |
| `Dcn.RunStepsConcat` | DCN.py:281-290 | after a run that succeeded, running more batches succeeds iff they succeed on their own, and otherwise raises at their failing step counted after the first run's steps |
| `Dcn.EpochSchedules` | DCN.py:281-288 | one batch list per epoch, each of `total_batch` batches |
| `Dcn.EpochsOutcome` | DCN.py:281-290 | the epochs raise only with a `StepFailed` naming an epoch among them and a batch within that epoch |
| `Dcn.EpochsOutcomePrefix` | DCN.py:281-290 | once an epoch has raised, later epochs do not change the outcome |
| `Dcn.EpochsOutcomeUpTo` | DCN.py:281-290 | after epochs `0 .. i-1` ended normally, the epochs go on iff epoch `i`'s steps succeed, and if a step of epoch `i` raises, all epochs end there with that batch and error |
| `Dcn.EpochsOutcomeIsRun` | DCN.py:281-290 | epoch by epoch equals step by step over the flattened epochs: both succeed together, and batch `b` of epoch `j` raising is step `j * t + b` raising with the same error |
| `Dcn.FitTraceFlat` | DCN.py:281-290 | the batches of all training steps are the epochs' batches, one epoch after another |
| `Dcn.FitOutcomeIsRun` | DCN.py:281-290 | `fit`'s epochs end normally iff every step of `FitTrace` succeeds, and raising at batch `b` of epoch `j` is the run over `FitTrace` raising first at step `j * total_batch + b` with the same error |
| `Dcn.TrainEpoch` | DCN.py:284-290 | the inner loop's outcome is the run of `fit_on_batch` over the epoch's `Schedule` of the lists as they are; it hands over the whole schedule on success and the batches up to and including the one that raised otherwise |
| `Dcn.FitEpoch` | DCN.py:281-290 | epoch `e` leaves the lists as `AfterEpochs(e + 1)`, its outcome is the run over the epoch's batches, and on success those batches extend `FitTrace(e)` to `FitTrace(e + 1)` |
| `Dcn.Fit` | DCN.py:272-290 | with no epochs: no batches and the lists unchanged; with a zero batch size: `ZeroDivisionError` after the first shuffle; otherwise `fit` succeeds exactly when `EpochsOutcome` does, returning `FitTrace` with the lists shuffled by every epoch's draws, and raises with `EpochsOutcome`'s epoch, batch and error, with the lists as shuffled at the start of that epoch |

## Left out

- Floating-point values of the forward pass are not modelled: embeddings, activations, dropout masks, the sigmoid and the losses. Only shapes, the range of the ids looked up, and failures are; dropout, the activation and the sigmoid keep the shape.
- Random values are not modelled. The initial weights (`tf.random_normal`, `np.random.normal`, the glorot scales as numbers) are represented by shapes only. `np.random.shuffle`'s generator is represented by explicit draw tables, one per epoch, passed in as parameters; saving and restoring its state corresponds to reusing one table.
- The optimizer, the l2 regularisation, `tf.train.Saver`, the session and its initialisation, and the parameter count (DCN.py:131-170) are not modelled. These sit under `if self.l2_reg > 0`, so with the default `l2_reg = 0` no session or optimizer exists for `fit_on_batch` to run. The `self.optimizer +=` on a never-assigned attribute for the `gd` and `momentum` optimizers is also left out.
- `Dcn.FitOnBatch` and `Dcn.Predict` describe the `l2_reg > 0` configuration, where `self.sess` and `self.optimizer` exist. With `l2_reg == 0` the source's `fit_on_batch` and `predict` raise `AttributeError` on `self.sess` at their first call; the model does not.
- `Dcn.PredictMatchesFit` compares `predict` and `fit_on_batch` on shapes only. With `l2_reg > 0` and an `optimizer_type` other than `adam`, `adagrad`, `gd` or `momentum`, `self.optimizer` is never assigned, so `fit_on_batch` raises `AttributeError` while `predict` runs.
- Printing, the `time()` calls and `sess.close()` are I/O. They are left out.
- `Dcn.Fit` models `fit` called without a validation set. With one, the batch loop also calls `predict` on the validation lists after every step (DCN.py:293-296), a second `sess.run` that can raise and end `fit`; that call is not modelled.
- `config.py` is not part of this model.
- The placeholders' declared shapes (DCN.py:72-78) are modelled only where they refuse a feed. `Dcn.BatchFeed` rejects a fed list that is empty or ragged, and a label list whose rows do not have exactly one entry (`label` is declared `[None, 1]`); the other three are declared `[None, None]` and take a matrix of any width.
- `Dcn.FitOnBatch` models a training step by its shapes and its ids: it raises exactly when the fed batch is not a matrix, its label rows do not have one entry each, an id lies outside `[0, cate_feature_size)`, or the forward pass fails on the fed shapes. The id check follows the CPU kernel of `embedding_lookup`, which raises on an out-of-range id; on a GPU such an id yields a row of zeros and no error, which is not modelled. When a batch has both an out-of-range id and a shape that does not fit, the model reports the id; which of the two TensorFlow reports first is not modelled. The optimizer's update of the weights is not modelled, so no step depends on the steps before it, and `Dcn.Fit` returns the batches trained on rather than the losses.
- `Dcn.Fit`: `int(len(y_train) / batch_size)` is floating-point division truncated to an integer. It is modelled as integer division, which agrees for list lengths below 2^53.
- `Shuffle.ShuffleInUnison` and `Dcn.Fit` require the four lists to have equal lengths and to be four distinct arrays. The source's `np.random.shuffle` also accepts unequal lengths, and then the rows no longer correspond.
- `Graph.CrossLayerStep` adds `cross_layer_l` a second time where a bias would be expected, and never reads `cross_bias_l`. This is the source's behaviour and is modelled as written; the bias keys are still created (`Weights.CrossParamsAreColumns`).
- `Hyper`: sizes, `epoch`, `batch_size` and `cross_layer_num` are natural numbers. The source accepts negative integers: TensorFlow rejects a negative dimension with `ValueError`, and a negative `batch_size` gives a negative `total_batch` and so no batches. Neither is modelled. The constructor's defaults are `Hyper.DefaultHyper`.
- `batch_norm`, `train_phase`, `verbose`, `learning_rate`, `random_seed`, `eval_metric` and `greater_is_better` do not affect the modelled logic and are not fields of `Hyper`.
