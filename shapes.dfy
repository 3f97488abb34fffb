/** The static shape rules of the tensor operations the DCN graph is built from.
    A shape is the list of a tensor's dimensions; an operation whose operand shapes
    do not fit together fails with a `GraphError` instead of producing a shape. */
module Shapes {
  import opened Common
  import opened Hyper

  type Shape = seq<nat>

  /** The operation whose shape rule was violated. */
  datatype Op = LookupOp | ReshapeOp | BroadcastOp | ConcatOp | MatMulOp | TensordotOp

  datatype GraphError =
    | ShapeMismatch(op: Op)
    | MissingWeight(name: Param)        // KeyError on the parameter dictionary
    | KeepIndexOutOfRange(index: nat)   // dropout_keep_deep[index] past the fed vector
    | FeedRejected                      // a fed list that is not a non-empty matrix
    | IdOutOfRange                      // an id of feat_index outside the embeddings table

  /** Number of elements of a tensor of shape `s`. */
  function Product(s: Shape): nat {
    if |s| == 0 then 1 else s[0] * Product(s[1..])
  }

  /** `tf.nn.embedding_lookup(params, ids)`: one row of `params` per id. */
  function EmbeddingLookup(params: Shape, ids: Shape): Result<Shape, GraphError> {
    if |params| == 0 then Err(ShapeMismatch(LookupOp)) else Ok(ids + params[1..])
  }

  /** `tf.reshape(x, [-1] + tail)`: the leading dimension is inferred from the element count,
      which fails when it cannot be inferred (a zero in `tail`) or does not divide evenly. */
  function ReshapeInfer(x: Shape, tail: Shape): Result<Shape, GraphError> {
    var p := Product(tail);
    if p == 0 || Product(x) % p != 0 then Err(ShapeMismatch(ReshapeOp))
    else Ok([Product(x) / p] + tail)
  }

  /** `s` with leading 1s added up to rank `r`. */
  function PadTo(s: Shape, r: nat): Shape
    requires |s| <= r
  {
    seq(r - |s|, _ => 1) + s
  }

  /** Two dimensions are compatible under broadcasting when equal or when one of them is 1;
      the result takes the dimension that is not 1. */
  predicate Compatible(x: nat, y: nat) { x == y || x == 1 || y == 1 }

  /** Elementwise operations (`tf.add`, `tf.multiply`, `+`): shapes aligned on the right, the
      shorter one padded with 1s, every pair of dimensions compatible. */
  function Broadcast(a: Shape, b: Shape): Result<Shape, GraphError> {
    var r := if |a| < |b| then |b| else |a|;
    var pa, pb := PadTo(a, r), PadTo(b, r);
    if forall k :: 0 <= k < r ==> Compatible(pa[k], pb[k])
    then Ok(seq(r, k requires 0 <= k < r => if pa[k] == 1 then pb[k] else pa[k]))
    else Err(ShapeMismatch(BroadcastOp))
  }

  /** `tf.concat([a, b], axis=1)`: same rank, equal in every dimension but the second. */
  function Concat1(a: Shape, b: Shape): Result<Shape, GraphError> {
    if |a| < 2 || |a| != |b| || a[0] != b[0] || a[2..] != b[2..] then Err(ShapeMismatch(ConcatOp))
    else Ok([a[0], a[1] + b[1]] + a[2..])
  }

  /** `tf.matmul(a, b, transpose_b=transposeB)`: equal leading batch dimensions, and the inner
      dimensions (the last of `a` and the contracted one of `b`) equal. */
  function MatMul(a: Shape, b: Shape, transposeB: bool): Result<Shape, GraphError> {
    if |a| < 2 || |a| != |b| || a[..|a| - 2] != b[..|b| - 2] then Err(ShapeMismatch(MatMulOp))
    else
      var r := |a|;
      var inner := if transposeB then b[r - 1] else b[r - 2];
      var cols := if transposeB then b[r - 2] else b[r - 1];
      if a[r - 1] != inner then Err(ShapeMismatch(MatMulOp))
      else Ok(a[..r - 2] + [a[r - 2], cols])
  }

  /** `tf.tensordot(a, b, 1)`: contracts the last axis of `a` with the first axis of `b`. */
  function Tensordot(a: Shape, b: Shape): Result<Shape, GraphError> {
    if |a| == 0 || |b| == 0 || a[|a| - 1] != b[0] then Err(ShapeMismatch(TensordotOp))
    else Ok(a[..|a| - 1] + b[1..])
  }

  /** A two-dimensional matrix product succeeds exactly when the inner dimensions agree,
      and then has the outer dimensions. */
  lemma MatMulAgreement(n: nat, k: nat, k': nat, m: nat)
    ensures MatMul([n, k], [k', m], false).Ok? <==> k == k'
    ensures k == k' ==> MatMul([n, k], [k', m], false) == Ok([n, m])
  {
    assert [n, k][..0] == [] == [k', m][..0];
    assert [n, k][..0] + [n, m] == [n, m];
  }

  /** Broadcasting `a` against a shape `b` of no greater rank whose every dimension is 1 or
      matches `a`'s, right-aligned (a bias row, a column, a scalar, `a` itself), leaves `a`. */
  lemma BroadcastInto(a: Shape, b: Shape)
    requires |b| <= |a|
    requires forall k :: 0 <= k < |b| ==> b[k] == 1 || b[k] == a[|a| - |b| + k]
    ensures Broadcast(a, b) == Ok(a)
  {
    var pb := PadTo(b, |a|);
    assert PadTo(a, |a|) == a;
    forall k | 0 <= k < |a|
      ensures Compatible(a[k], pb[k]) && (if a[k] == 1 then pb[k] else a[k]) == a[k]
    {
      if k >= |a| - |b| {
        assert pb[k] == b[k - (|a| - |b|)];
      } else {
        assert pb[k] == 1;
      }
    }
    var r := seq(|a|, k requires 0 <= k < |a| => if a[k] == 1 then pb[k] else a[k]);
    assert r == a;
  }

  /** Reshaping a `[n, t]` matrix to `[-1, t, 1]` and back to `[-1, t]` restores its shape. */
  lemma ReshapeColumnRoundTrip(n: nat, t: nat)
    requires t > 0
    ensures ReshapeInfer([n, t], [t, 1]) == Ok([n, t, 1])
    ensures ReshapeInfer([n, t, 1], [t]) == Ok([n, t])
  {
    ProductOfMatrix(t, 1);
    ProductOfMatrix(n, t);
    ProductOfColumn(n, t);
    MulDivExact(n, t);
    assert [n] + [t, 1] == [n, t, 1];
    assert [n] + [t] == [n, t];
  }

  lemma ProductOfMatrix(a: nat, b: nat)
    ensures Product([a]) == a && Product([a, b]) == a * b
  {
    assert [a][1..] == [];
    assert [a, b][1..] == [b];
    assert [b][1..] == [];
  }

  lemma ProductOfColumn(a: nat, b: nat)
    ensures Product([a, b, 1]) == a * b
  {
    assert [a, b, 1][1..] == [b, 1];
    ProductOfMatrix(b, 1);
  }

  lemma MulDivExact(n: nat, t: nat)
    requires t > 0
    ensures (n * t) % t == 0 && (n * t) / t == n
  {
    var x := n * t;
    var q, r := x / t, x % t;
    assert x == t * q + r && 0 <= r < t;
    var d := n - q;
    assert t * d == r;
  }

  /** The shape steps of the forward pass on a batch of `n` samples, each with the shape TensorFlow
      gives it: F x K embeddings per sample, scaled per field, flattened, and so on. */
  lemma LookupStep(c: nat, k: nat, n: nat, f: nat)
    ensures EmbeddingLookup([c, k], [n, f]) == Ok([n, f, k])
  {
    assert [c, k][1..] == [k];
    assert [n, f] + [k] == [n, f, k];
  }

  lemma ScaleStep(n: nat, f: nat, k: nat)
    requires f > 0
    ensures ReshapeInfer([n, f], [f, 1]) == Ok([n, f, 1])
    ensures Broadcast([n, f, k], [n, f, 1]) == Ok([n, f, k])
  {
    ReshapeColumnRoundTrip(n, f);
    BroadcastInto([n, f, k], [n, f, 1]);
  }

  lemma FlattenStep(n: nat, f: nat, k: nat)
    requires f * k > 0
    ensures ReshapeInfer([n, f, k], [f * k]) == Ok([n, f * k])
  {
    ProductOfMatrix(f * k, 0);
    assert [n, f, k][1..] == [f, k];
    ProductOfMatrix(f, k);
    assert Product([n, f, k]) == n * (f * k);
    MulDivExact(n, f * k);
    assert [n] + [f * k] == [n, f * k];
  }

  lemma ConcatStep(n: nat, a: nat, b: nat)
    ensures Concat1([n, a], [n, b]) == Ok([n, a + b])
  {
    assert [n, a][2..] == [] == [n, b][2..];
    assert [n, a + b] + [] == [n, a + b];
  }

  lemma AffineStep(n: nat, k: nat, m: nat)
    ensures MatMul([n, k], [k, m], false) == Ok([n, m])
    ensures Broadcast([n, m], [1, m]) == Ok([n, m])
  {
    MatMulAgreement(n, k, k, m);
    BroadcastInto([n, m], [1, m]);
  }

  lemma ScalarBiasStep(s: Shape)
    ensures Broadcast(s, []) == Ok(s)
    ensures Broadcast(s, s) == Ok(s)
  {
    BroadcastInto(s, []);
    BroadcastInto(s, s);
  }

  lemma CrossOuterStep(n: nat, t: nat)
    ensures MatMul([n, t, 1], [n, t, 1], true) == Ok([n, t, t])
  {
    assert [n, t, 1][..1] == [n];
    assert [n] + [t, t] == [n, t, t];
  }

  lemma CrossContractStep(n: nat, t: nat)
    ensures Tensordot([n, t, t], [t, 1]) == Ok([n, t, 1])
  {
    assert [n, t, t][..2] == [n, t] && [t, 1][1..] == [1];
    assert [n, t] + [1] == [n, t, 1];
  }

  lemma CrossShiftStep(n: nat, t: nat)
    ensures Broadcast([n, t, 1], [t, 1]) == Ok([n, t, 1])
  {
    BroadcastInto([n, t, 1], [t, 1]);
  }

  lemma CrossResidualStep(n: nat, t: nat)
    ensures Broadcast([n, t, 1], [n, t, 1]) == Ok([n, t, 1])
  {
    BroadcastInto([n, t, 1], [n, t, 1]);
  }
}
