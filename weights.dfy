/** The parameter dictionary built by `_initialize_weights`, at the level of shapes:
    which keys it holds and the shape of each tensor. Random values are not modelled. */
module Weights {
  import opened Common
  import opened Hyper
  import opened Shapes

  /** Why `_initialize_weights` raises: `deep_layers[0]` on an empty list (IndexError),
      or a glorot scale `sqrt(2.0 / (fan_in + fan_out))` whose denominator is zero. */
  datatype InitError = DeepLayersEmpty | GlorotDivisionByZero(layer: nat)

  /** The width feeding deep layer `i`: x0 for the first layer, the previous layer's width after. */
  function FanIn(h: Hyper, i: nat): nat
    requires i < |h.deepLayers|
  {
    if i == 0 then TotalSize(h) else h.deepLayers[i - 1]
  }

  /** The keys present once the first `deep` deep layers, the first `cross` cross layers and,
      when `final`, the projection have been added (embedding table and feature bias come first). */
  predicate Present(p: Param, deep: nat, cross: nat, final: bool) {
    match p
    case FeatureEmbeddings => true
    case FeatureBias => true
    case DeepLayer(i) => i < deep
    case DeepBias(i) => i < deep
    case CrossLayer(i) => i < cross
    case CrossBias(i) => i < cross
    case ConcateProjection => final
    case ConcateBias => final
  }

  /** The keys of the finished dictionary: one weight/bias pair per deep and per cross layer besides
      the embedding table, the per-feature bias and the final projection with its bias. */
  predicate IsParam(h: Hyper, p: Param) {
    Present(p, |h.deepLayers|, h.crossLayerNum, true)
  }

  /** The shape of each parameter, in closed form in the hyperparameters. */
  function ExpectedShape(h: Hyper, p: Param): Shape
    requires |h.deepLayers| > 0 && IsParam(h, p)
  {
    var last := h.deepLayers[|h.deepLayers| - 1];
    match p
    case FeatureEmbeddings => [h.cateFeatureSize, h.embeddingSize]
    case FeatureBias => [h.cateFeatureSize, 1]
    case DeepLayer(i) => [FanIn(h, i), h.deepLayers[i]]
    case DeepBias(i) => [1, h.deepLayers[i]]
    case CrossLayer(_) => [TotalSize(h), 1]
    case CrossBias(_) => [TotalSize(h), 1]
    case ConcateProjection => [TotalSize(h) + last, 1]
    case ConcateBias => []
  }

  /** `w` holds exactly the keys present after the given stage of the initializer, each with its
      closed-form shape. */
  ghost predicate Stage(h: Hyper, w: map<Param, Shape>, deep: nat, cross: nat, final: bool) {
    && |h.deepLayers| > 0
    && (forall p :: p in w <==> Present(p, deep, cross, final))
    && (forall p :: p in w ==> IsParam(h, p) && w[p] == ExpectedShape(h, p))
  }

  /** `w` is exactly the dictionary of shapes the initializer promises for `h`. */
  ghost predicate ValidTable(h: Hyper, w: map<Param, Shape>) {
    Stage(h, w, |h.deepLayers|, h.crossLayerNum, true)
  }

  /** Every glorot scale computed for the deep layers has a non-zero denominator. */
  predicate GlorotDefined(h: Hyper) {
    |h.deepLayers| > 0 && forall i {:trigger FanIn(h, i)} :: 0 <= i < |h.deepLayers| ==> FanIn(h, i) + h.deepLayers[i] > 0
  }

  /** `_initialize_weights`: builds the dictionary key by key in the source's order, raising where
      the source raises; on success the dictionary is exactly `ValidTable`'s. */
  method InitializeWeights(h: Hyper) returns (r: Result<map<Param, Shape>, InitError>)
    ensures r.Ok? <==> GlorotDefined(h)
    ensures r.Ok? ==> ValidTable(h, r.value)
    ensures r == Err(DeepLayersEmpty) <==> |h.deepLayers| == 0
    ensures r.Err? && r.error.GlorotDivisionByZero? ==>
      var i := r.error.layer;
      && i < |h.deepLayers|
      && FanIn(h, i) + h.deepLayers[i] == 0
      && forall k {:trigger FanIn(h, k)} :: 0 <= k < i ==> FanIn(h, k) + h.deepLayers[k] > 0
  {
    var layers := h.deepLayers;
    var total := TotalSize(h);
    var w: map<Param, Shape> := map[];
    w := w[FeatureEmbeddings := [h.cateFeatureSize, h.embeddingSize]];
    w := w[FeatureBias := [h.cateFeatureSize, 1]];

    if |layers| == 0 {
      return Err(DeepLayersEmpty);
    }
    StageStart(h);
    if total + layers[0] == 0 {
      assert FanIn(h, 0) + layers[0] == 0;
      return Err(GlorotDivisionByZero(0));
    }
    StageDeep(h, w, 0);
    w := w[DeepLayer(0) := [total, layers[0]]];
    w := w[DeepBias(0) := [1, layers[0]]];

    var i := 1;
    while i < |layers|
      invariant 1 <= i <= |layers|
      invariant forall k {:trigger FanIn(h, k)} :: 0 <= k < i ==> FanIn(h, k) + layers[k] > 0
      invariant Stage(h, w, i, 0, false)
    {
      if layers[i - 1] + layers[i] == 0 {
        return Err(GlorotDivisionByZero(i));
      }
      StageDeep(h, w, i);
      w := w[DeepLayer(i) := [layers[i - 1], layers[i]]];
      w := w[DeepBias(i) := [1, layers[i]]];
      i := i + 1;
    }

    var l := 0;
    while l < h.crossLayerNum
      invariant 0 <= l <= h.crossLayerNum
      invariant Stage(h, w, |layers|, l, false)
    {
      StageCross(h, w, l);
      w := w[CrossLayer(l) := [total, 1]];
      w := w[CrossBias(l) := [total, 1]];
      l := l + 1;
    }

    StageFinal(h, w);
    var inputSize := total + layers[|layers| - 1];
    w := w[ConcateProjection := [inputSize, 1]];
    w := w[ConcateBias := []];
    r := Ok(w);
  }

  lemma StageStart(h: Hyper)
    requires |h.deepLayers| > 0
    ensures Stage(h, map[FeatureEmbeddings := [h.cateFeatureSize, h.embeddingSize], FeatureBias := [h.cateFeatureSize, 1]], 0, 0, false)
  {
  }

  lemma StageDeep(h: Hyper, w: map<Param, Shape>, i: nat)
    requires Stage(h, w, i, 0, false) && i < |h.deepLayers|
    ensures Stage(h, w[DeepLayer(i) := [FanIn(h, i), h.deepLayers[i]]][DeepBias(i) := [1, h.deepLayers[i]]], i + 1, 0, false)
  {
  }

  lemma StageCross(h: Hyper, w: map<Param, Shape>, l: nat)
    requires Stage(h, w, |h.deepLayers|, l, false) && l < h.crossLayerNum
    ensures Stage(h, w[CrossLayer(l) := [TotalSize(h), 1]][CrossBias(l) := [TotalSize(h), 1]], |h.deepLayers|, l + 1, false)
  {
  }

  lemma StageFinal(h: Hyper, w: map<Param, Shape>)
    requires Stage(h, w, |h.deepLayers|, h.crossLayerNum, false)
    ensures ValidTable(h, w[ConcateProjection := [TotalSize(h) + h.deepLayers[|h.deepLayers| - 1], 1]][ConcateBias := []])
  {
  }

  /** In a table built by the initializer the first deep weight takes x0's width and each later
      one takes the width the previous one produces. */
  lemma DeepWeightsChain(h: Hyper, w: map<Param, Shape>)
    requires ValidTable(h, w)
    ensures DeepLayer(0) in w && w[DeepLayer(0)][0] == TotalSize(h)
    ensures forall i {:trigger w[DeepLayer(i)]} :: 0 <= i < |h.deepLayers| - 1 ==>
      DeepLayer(i) in w && DeepLayer(i + 1) in w && w[DeepLayer(i + 1)][0] == w[DeepLayer(i)][1]
  {
  }

  /** Each deep bias is a single row as wide as its layer's output. */
  lemma DeepBiasesAreRows(h: Hyper, w: map<Param, Shape>)
    requires ValidTable(h, w)
    ensures forall i :: 0 <= i < |h.deepLayers| ==>
      DeepBias(i) in w && DeepLayer(i) in w && w[DeepBias(i)] == [1, w[DeepLayer(i)][1]]
  {
  }

  /** Every cross weight and cross bias is a `total_size x 1` column. */
  lemma CrossParamsAreColumns(h: Hyper, w: map<Param, Shape>)
    requires ValidTable(h, w)
    ensures forall l :: 0 <= l < h.crossLayerNum ==>
      CrossLayer(l) in w && CrossBias(l) in w && w[CrossLayer(l)] == w[CrossBias(l)] == [TotalSize(h), 1]
  {
  }

  /** The projection has one row per column of the cross output and the last deep output side by side. */
  lemma ProjectionFitsConcat(h: Hyper, w: map<Param, Shape>)
    requires ValidTable(h, w)
    ensures ConcateProjection in w && DeepLayer(|h.deepLayers| - 1) in w
    ensures w[ConcateProjection] == [TotalSize(h) + w[DeepLayer(|h.deepLayers| - 1)][1], 1]
  {
  }
}
