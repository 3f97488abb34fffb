/** The constructor arguments of the DCN estimator and the names of its parameters. */
module Hyper {

  /** The arguments of `DCN.__init__` that fix shapes, the batch schedule and the dropout feed.
      Float-valued training settings (learning rate, l2_reg, ...) do not affect shapes and are left out. */
  datatype Hyper = Hyper(
    cateFeatureSize: nat,
    fieldSize: nat,
    numericFeatureSize: nat,
    embeddingSize: nat,
    deepLayers: seq<nat>,
    dropoutDeep: seq<real>,
    crossLayerNum: nat,
    epoch: nat,
    batchSize: nat,
    lossType: string)

  /** The constructor's defaults, given the three sizes it has no default for: embedding size 8,
      deep layers `[32, 32]`, `dropout_deep` `[0.5, 0.5, 0.5]`, 10 epochs, batches of 512,
      log loss and 3 cross layers. */
  function DefaultHyper(cateFeatureSize: nat, fieldSize: nat, numericFeatureSize: nat): Hyper {
    Hyper(cateFeatureSize, fieldSize, numericFeatureSize, 8, [32, 32], [0.5, 0.5, 0.5], 3, 10, 512, "logloss")
  }

  /** `self.total_size`: width of x0, the flattened F x K embedding block plus the numeric block. */
  function TotalSize(h: Hyper): nat {
    h.fieldSize * h.embeddingSize + h.numericFeatureSize
  }

  /** The keys of the parameter dictionary; `DeepLayer(i)` stands for the key "deep_layer_%d" % i. */
  datatype Param =
    | FeatureEmbeddings
    | FeatureBias
    | DeepLayer(index: nat)
    | DeepBias(index: nat)
    | CrossLayer(index: nat)
    | CrossBias(index: nat)
    | ConcateProjection
    | ConcateBias

  /** The loss types the constructor's assertion accepts. */
  predicate ValidLossType(name: string) {
    name == "logloss" || name == "mse"
  }
}
