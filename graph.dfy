/** The forward computation of `_init_graph`, evaluated on shapes: what shape every intermediate
    tensor has when a batch is fed, or which shape rule the feed breaks. */
module Graph {
  import opened Common
  import opened Hyper
  import opened Shapes
  import opened Weights

  /** The shapes of the tensors fed to the placeholders `feat_index`, `feat_value`,
      `numeric_value` and `label`. */
  datatype Feed = Feed(featIndex: Shape, featValue: Shape, numericValue: Shape, labels: Shape)

  /** The shapes of the graph's named intermediate tensors. */
  datatype GraphShapes = GraphShapes(
    x0: Shape, deepOut: Shape, crossOut: Shape, concat: Shape, out: Shape, loss: Shape)

  /** A batch fed as the placeholders expect: `field_size` ids and values and
      `numeric_feature_size` numbers per sample, one label per sample. */
  predicate WellShaped(h: Hyper, f: Feed) {
    && |f.featIndex| == 2
    && var n := f.featIndex[0];
    && f.featIndex == [n, h.fieldSize]
    && f.featValue == [n, h.fieldSize]
    && f.numericValue == [n, h.numericFeatureSize]
    && f.labels == [n, 1]
  }

  /** The forward pass reads `dropout_keep_deep[0]` .. `dropout_keep_deep[len(deep_layers)]`. */
  predicate KeepCovers(h: Hyper, keepLen: nat) {
    keepLen >= |h.deepLayers| + 1
  }

  /** The width of the last deep layer, `deep_layers[-1]`. */
  function LastWidth(h: Hyper): nat
    requires |h.deepLayers| > 0
  {
    h.deepLayers[|h.deepLayers| - 1]
  }

  /** A dictionary lookup `self.weights[p]`, raising KeyError on a missing name. */
  function Weight(w: map<Param, Shape>, p: Param): Result<Shape, GraphError> {
    if p in w then Ok(w[p]) else Err(MissingWeight(p))
  }

  /** The deep weights and biases a table offers, as the deep loop reads them. */
  predicate DeepReady(h: Hyper, w: map<Param, Shape>) {
    && |h.deepLayers| > 0
    && forall i {:trigger Weight(w, DeepLayer(i))} :: 0 <= i < |h.deepLayers| ==>
         Weight(w, DeepLayer(i)) == Ok([FanIn(h, i), h.deepLayers[i]]) &&
         Weight(w, DeepBias(i)) == Ok([1, h.deepLayers[i]])
  }

  /** The cross weights a table offers, as the cross loop reads them. */
  predicate CrossReady(h: Hyper, w: map<Param, Shape>) {
    forall l :: 0 <= l < h.crossLayerNum ==> Weight(w, CrossLayer(l)) == Ok([TotalSize(h), 1])
  }

  /** The embedding table and the final projection a table offers. */
  predicate EndsReady(h: Hyper, w: map<Param, Shape>) {
    && |h.deepLayers| > 0
    && Weight(w, FeatureEmbeddings) == Ok([h.cateFeatureSize, h.embeddingSize])
    && Weight(w, ConcateProjection) == Ok([TotalSize(h) + LastWidth(h), 1])
    && Weight(w, ConcateBias) == Ok([])
  }

  /** The initializer's table offers every weight the forward pass reads, with the shape it needs. */
  lemma ValidTableReady(h: Hyper, w: map<Param, Shape>)
    requires ValidTable(h, w)
    ensures DeepReady(h, w) && CrossReady(h, w) && EndsReady(h, w)
  {
    ValidTableDeepReady(h, w);
    ValidTableCrossReady(h, w);
    assert FeatureEmbeddings in w && ConcateProjection in w && ConcateBias in w;
  }

  lemma ValidTableDeepReady(h: Hyper, w: map<Param, Shape>)
    requires ValidTable(h, w)
    ensures DeepReady(h, w)
  {
    forall i | 0 <= i < |h.deepLayers|
      ensures Weight(w, DeepLayer(i)) == Ok([FanIn(h, i), h.deepLayers[i]])
      ensures Weight(w, DeepBias(i)) == Ok([1, h.deepLayers[i]])
    {
      assert DeepLayer(i) in w && DeepBias(i) in w;
    }
  }

  lemma ValidTableCrossReady(h: Hyper, w: map<Param, Shape>)
    requires ValidTable(h, w)
    ensures CrossReady(h, w)
  {
    forall l | 0 <= l < h.crossLayerNum
      ensures Weight(w, CrossLayer(l)) == Ok([TotalSize(h), 1])
    {
      assert CrossLayer(l) in w;
    }
  }

  /** The embedding lookup scaled by `feat_value` and `x0 = concat([numeric_value, flattened
      embeddings], axis=1)`. */
  function Embed(h: Hyper, w: map<Param, Shape>, f: Feed): Result<Shape, GraphError> {
    var table :- Weight(w, FeatureEmbeddings);
    var emb :- EmbeddingLookup(table, f.featIndex);
    var values :- ReshapeInfer(f.featValue, [h.fieldSize, 1]);
    var scaled :- Broadcast(emb, values);
    var flat :- ReshapeInfer(scaled, [h.fieldSize * h.embeddingSize]);
    Concat1(f.numericValue, flat)
  }

  /** One deep layer, `tf.add(tf.matmul(y_deep, weights["deep_layer_i"]), weights["deep_bias_i"])`;
      the activation and the dropout that follow keep the shape. */
  function DenseLayer(w: map<Param, Shape>, i: nat, y: Shape): Result<Shape, GraphError> {
    var weight :- Weight(w, DeepLayer(i));
    var product :- MatMul(y, weight, false);
    var bias :- Weight(w, DeepBias(i));
    Broadcast(product, bias)
  }

  /** Deep layers `i ..` applied to `y`, each followed by dropout with `keep[i + 1]`. */
  function DeepFrom(h: Hyper, w: map<Param, Shape>, keepLen: nat, i: nat, y: Shape): Result<Shape, GraphError>
    requires i <= |h.deepLayers|
    decreases |h.deepLayers| - i
  {
    if i == |h.deepLayers| then Ok(y)
    else
      var next :- DenseLayer(w, i, y);
      if keepLen <= i + 1 then Err(KeepIndexOutOfRange(i + 1))
      else DeepFrom(h, w, keepLen, i + 1, next)
  }

  /** The deep part: dropout of x0 with `keep[0]`, then every deep layer. */
  function DeepBranch(h: Hyper, w: map<Param, Shape>, x0: Shape, keepLen: nat): Result<Shape, GraphError> {
    if keepLen == 0 then Err(KeepIndexOutOfRange(0)) else DeepFrom(h, w, keepLen, 0, x0)
  }

  /** One cross layer, `tensordot(matmul(_x0, x_l, transpose_b=True), cross_layer_l, 1)
      + cross_layer_l + x_l`. The layer adds its cross weight a second time; the cross bias is
      never read. */
  function CrossLayerStep(w: map<Param, Shape>, l: nat, x0Column: Shape, xl: Shape): Result<Shape, GraphError> {
    var weight :- Weight(w, CrossLayer(l));
    var outer :- MatMul(x0Column, xl, true);
    var contracted :- Tensordot(outer, weight);
    var shifted :- Broadcast(contracted, weight);
    Broadcast(shifted, xl)
  }

  /** Cross layers `l ..` applied to `xl`. */
  function CrossFrom(h: Hyper, w: map<Param, Shape>, l: nat, x0Column: Shape, xl: Shape): Result<Shape, GraphError>
    requires l <= h.crossLayerNum
    decreases h.crossLayerNum - l
  {
    if l == h.crossLayerNum then Ok(xl)
    else
      var next :- CrossLayerStep(w, l, x0Column, xl);
      CrossFrom(h, w, l + 1, x0Column, next)
  }

  /** The cross part: x0 reshaped to `(-1, total_size, 1)`, every cross layer, reshaped back to
      `(-1, total_size)`. */
  function CrossBranch(h: Hyper, w: map<Param, Shape>, x0: Shape): Result<Shape, GraphError> {
    var x0Column :- ReshapeInfer(x0, [TotalSize(h), 1]);
    var xl :- CrossFrom(h, w, 0, x0Column, x0Column);
    ReshapeInfer(xl, [TotalSize(h)])
  }

  /** The concat part, `matmul(concat([cross_network_out, y_deep], axis=1), concate_projection)
      + concate_bias`, and the loss against the labels: the sigmoid keeps the shape and both
      `log_loss(label, out)` and `l2_loss(label - out)` combine the two elementwise and reduce
      to a scalar. Yields the concat input and the output. */
  function Fuse(w: map<Param, Shape>, crossOut: Shape, deepOut: Shape, labels: Shape): Result<(Shape, Shape), GraphError> {
    var concat :- Concat1(crossOut, deepOut);
    var projection :- Weight(w, ConcateProjection);
    var product :- MatMul(concat, projection, false);
    var bias :- Weight(w, ConcateBias);
    var out :- Broadcast(product, bias);
    var residual :- Broadcast(labels, out);
    Ok((concat, out))
  }

  /** `_init_graph` followed by one `sess.run` on a feed, on shapes. */
  function BuildGraph(h: Hyper, w: map<Param, Shape>, f: Feed, keepLen: nat): Result<GraphShapes, GraphError> {
    var x0 :- Embed(h, w, f);
    var deepOut :- DeepBranch(h, w, x0, keepLen);
    var crossOut :- CrossBranch(h, w, x0);
    var fused :- Fuse(w, crossOut, deepOut, f.labels);
    Ok(GraphShapes(x0, deepOut, crossOut, fused.0, fused.1, []))
  }

  /** On a well-shaped batch of `n` samples x0 is `n x (N + F * K)`, the numeric block first. */
  lemma EmbedShape(h: Hyper, w: map<Param, Shape>, f: Feed)
    requires Weight(w, FeatureEmbeddings) == Ok([h.cateFeatureSize, h.embeddingSize])
    requires WellShaped(h, f) && h.fieldSize > 0 && h.embeddingSize > 0
    ensures Embed(h, w, f) == Ok([f.featIndex[0], TotalSize(h)])
  {
    var n := f.featIndex[0];
    LookupStep(h.cateFeatureSize, h.embeddingSize, n, h.fieldSize);
    ScaleStep(n, h.fieldSize, h.embeddingSize);
    FlattenStep(n, h.fieldSize, h.embeddingSize);
    ConcatStep(n, h.numericFeatureSize, h.fieldSize * h.embeddingSize);
  }

  /** A `k x m` weight with a `1 x m` bias maps an `n x k` input to `n x m`: the matmul's inner
      dimensions agree and the bias row broadcasts over the batch. */
  lemma DenseLayerShape(w: map<Param, Shape>, i: nat, n: nat, k: nat, m: nat)
    requires Weight(w, DeepLayer(i)) == Ok([k, m]) && Weight(w, DeepBias(i)) == Ok([1, m])
    ensures DenseLayer(w, i, [n, k]) == Ok([n, m])
  {
    AffineStep(n, k, m);
  }

  /** Layers `i ..` map the width feeding layer `i` to the width of the last layer. */
  lemma {:induction false} DeepFromShape(h: Hyper, w: map<Param, Shape>, keepLen: nat, i: nat, n: nat)
    requires DeepReady(h, w) && i < |h.deepLayers| && keepLen > |h.deepLayers|
    ensures DeepFrom(h, w, keepLen, i, [n, FanIn(h, i)]) == Ok([n, LastWidth(h)])
    decreases |h.deepLayers| - i
  {
    DenseLayerShape(w, i, n, FanIn(h, i), h.deepLayers[i]);
    if i + 1 < |h.deepLayers| {
      DeepFromShape(h, w, keepLen, i + 1, n);
    }
  }

  /** The deep part maps `n x total_size` to `n x deep_layers[-1]`. */
  lemma DeepBranchShape(h: Hyper, w: map<Param, Shape>, n: nat, keepLen: nat)
    requires DeepReady(h, w) && keepLen > |h.deepLayers|
    ensures DeepBranch(h, w, [n, TotalSize(h)], keepLen) == Ok([n, LastWidth(h)])
  {
    DeepFromShape(h, w, keepLen, 0, n);
  }

  /** Deep layers reached with too short a keep vector fail: dropout reads past its end. */
  lemma {:induction false} DeepFromNeedsKeep(h: Hyper, w: map<Param, Shape>, keepLen: nat, i: nat, y: Shape)
    requires i <= |h.deepLayers|
    ensures DeepFrom(h, w, keepLen, i, y).Ok? && i < |h.deepLayers| ==> keepLen > |h.deepLayers|
    decreases |h.deepLayers| - i
  {
    if i < |h.deepLayers| && DenseLayer(w, i, y).Ok? && keepLen > i + 1 {
      DeepFromNeedsKeep(h, w, keepLen, i + 1, DenseLayer(w, i, y).value);
    }
  }

  /** The deep part succeeds only when the keep vector has `len(deep_layers) + 1` entries. */
  lemma DeepBranchNeedsKeep(h: Hyper, w: map<Param, Shape>, x0: Shape, keepLen: nat)
    ensures DeepBranch(h, w, x0, keepLen).Ok? ==> keepLen > |h.deepLayers|
  {
    DeepFromNeedsKeep(h, w, keepLen, 0, x0);
  }

  /** With a `t x 1` weight a cross layer maps the `n x t x 1` column to itself. */
  lemma CrossLayerShape(w: map<Param, Shape>, l: nat, n: nat, t: nat)
    requires Weight(w, CrossLayer(l)) == Ok([t, 1])
    ensures CrossLayerStep(w, l, [n, t, 1], [n, t, 1]) == Ok([n, t, 1])
  {
    CrossOuterStep(n, t);
    CrossContractStep(n, t);
    CrossShiftStep(n, t);
    CrossResidualStep(n, t);
  }

  /** Every remaining cross layer keeps the `n x total_size x 1` shape. */
  lemma {:induction false} CrossFromShape(h: Hyper, w: map<Param, Shape>, l: nat, n: nat)
    requires CrossReady(h, w) && l <= h.crossLayerNum
    ensures CrossFrom(h, w, l, [n, TotalSize(h), 1], [n, TotalSize(h), 1]) == Ok([n, TotalSize(h), 1])
    decreases h.crossLayerNum - l
  {
    if l < h.crossLayerNum {
      CrossLayerShape(w, l, n, TotalSize(h));
      CrossFromShape(h, w, l + 1, n);
    }
  }

  /** The cross part gives back x0's shape, whatever the number of cross layers. */
  lemma CrossBranchShape(h: Hyper, w: map<Param, Shape>, n: nat)
    requires CrossReady(h, w) && TotalSize(h) > 0
    ensures CrossBranch(h, w, [n, TotalSize(h)]) == Ok([n, TotalSize(h)])
  {
    ReshapeColumnRoundTrip(n, TotalSize(h));
    CrossFromShape(h, w, 0, n);
  }

  /** Without cross layers the cross output is x0 itself: the two reshapes undo each other. */
  lemma NoCrossLayersIsIdentity(h: Hyper, w: map<Param, Shape>, x0: Shape)
    requires h.crossLayerNum == 0 && |x0| == 2 && x0[1] == TotalSize(h) && TotalSize(h) > 0
    ensures CrossFrom(h, w, 0, [x0[0], TotalSize(h), 1], [x0[0], TotalSize(h), 1]) == Ok([x0[0], TotalSize(h), 1])
    ensures CrossBranch(h, w, x0) == Ok(x0)
  {
    ReshapeColumnRoundTrip(x0[0], TotalSize(h));
    assert x0 == [x0[0], TotalSize(h)];
  }

  /** The concat width is the projection's row count, so each sample gets exactly one score and
      the loss is a scalar. */
  lemma FuseShape(h: Hyper, w: map<Param, Shape>, n: nat)
    requires EndsReady(h, w)
    ensures Fuse(w, [n, TotalSize(h)], [n, LastWidth(h)], [n, 1]) ==
      Ok(([n, TotalSize(h) + LastWidth(h)], [n, 1]))
  {
    ConcatStep(n, TotalSize(h), LastWidth(h));
    AffineStep(n, TotalSize(h) + LastWidth(h), 1);
    ScalarBiasStep([n, 1]);
  }

  /** With the initializer's table, a well-shaped batch of `n` samples, non-zero field and
      embedding sizes (so every reshape can infer its leading dimension) and a keep vector of
      `len(deep_layers) + 1` entries, every step of the graph fits: x0 is `n x total_size`, the
      deep output `n x deep_layers[-1]`, the cross output `n x total_size`, their concat
      `n x (total_size + deep_layers[-1])`, the output one score per sample and the loss a scalar. */
  lemma BuildGraphShapes(h: Hyper, w: map<Param, Shape>, f: Feed, keepLen: nat)
    requires ValidTable(h, w) && WellShaped(h, f) && KeepCovers(h, keepLen)
    requires h.fieldSize > 0 && h.embeddingSize > 0
    ensures
      var n := f.featIndex[0];
      BuildGraph(h, w, f, keepLen) == Ok(GraphShapes(
        [n, TotalSize(h)], [n, LastWidth(h)], [n, TotalSize(h)],
        [n, TotalSize(h) + LastWidth(h)], [n, 1], []))
  {
    var n := f.featIndex[0];
    ValidTableReady(h, w);
    EmbedShape(h, w, f);
    DeepBranchShape(h, w, n, keepLen);
    CrossBranchShape(h, w, n);
    FuseShape(h, w, n);
  }

  /** A keep vector shorter than `len(deep_layers) + 1` makes the forward pass fail, whatever
      the table and the feed. */
  lemma BuildGraphNeedsKeep(h: Hyper, w: map<Param, Shape>, f: Feed, keepLen: nat)
    ensures BuildGraph(h, w, f, keepLen).Ok? ==> KeepCovers(h, keepLen)
  {
    if Embed(h, w, f).Ok? {
      DeepBranchNeedsKeep(h, w, Embed(h, w, f).value, keepLen);
    }
  }
}
