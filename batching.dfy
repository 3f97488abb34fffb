/** `get_batch` and the batch schedule of one epoch in `fit`: which rows of the four parallel
    training lists each call to `fit_on_batch` sees. */
module Batching {
  import opened Common

  /** Python's `s[start:end]` for non-negative bounds: both bounds are clamped to the length,
      and the slice is empty once `start` reaches `end` or the end of `s`. */
  function PySlice<T>(s: seq<T>, start: nat, end: nat): (r: seq<T>)
    ensures |r| == (if start < end && start < |s| then Min(end, |s|) - start else 0)
    ensures forall k :: 0 <= k < |r| ==> r[k] == s[start + k]
  {
    var lo := Min(start, |s|);
    var hi := Min(end, |s|);
    if lo < hi then s[lo..hi] else []
  }

  /** `[[y_] for y_ in ys]`: every label as a one-element row. */
  function Column<T>(ys: seq<T>): (r: seq<seq<T>>)
    ensures |r| == |ys|
    ensures forall k :: 0 <= k < |r| ==> r[k] == [ys[k]]
  {
    seq(|ys|, k requires 0 <= k < |ys| => [ys[k]])
  }

  /** The four lists `get_batch` returns. */
  datatype Batch<I, V, N, Y> = Batch(xi: seq<I>, xv: seq<V>, xv2: seq<N>, y: seq<seq<Y>>)

  /** The training set: four lists meant to hold one entry per sample each. */
  datatype Data<I, V, N, Y> = Data(xi: seq<I>, xv: seq<V>, xv2: seq<N>, y: seq<Y>)

  /** The four lists have one entry per sample. */
  predicate Parallel<I, V, N, Y>(d: Data<I, V, N, Y>) {
    |d.xi| == |d.y| && |d.xv| == |d.y| && |d.xv2| == |d.y|
  }

  /** `end = (index + 1) * batch_size`, cut back to `len(y)`. */
  function BatchEnd(n: nat, batchSize: nat, index: nat): nat {
    var end := (index + 1) * batchSize;
    if end < n then end else n
  }

  /** `get_batch(Xi, Xv, Xv2, y, batch_size, index)`: the half-open slice of rows
      `[index * batch_size, end)` of every list, where `end` is capped by the number of labels,
      with the labels wrapped as one-element rows. */
  function GetBatch<I, V, N, Y>(d: Data<I, V, N, Y>, batchSize: nat, index: nat): (b: Batch<I, V, N, Y>)
    ensures |b.xi| <= batchSize && |b.xv| <= batchSize && |b.xv2| <= batchSize && |b.y| <= batchSize
  {
    var start := index * batchSize;
    var end := BatchEnd(|d.y|, batchSize, index);
    NextStart(index, batchSize);
    Batch(PySlice(d.xi, start, end), PySlice(d.xv, start, end), PySlice(d.xv2, start, end),
          Column(PySlice(d.y, start, end)))
  }

  /** Position `k` of a batch holds row `index * batch_size + k` of the corresponding list, the
      label wrapped as a one-element row. */
  lemma GetBatchRow<I, V, N, Y>(d: Data<I, V, N, Y>, batchSize: nat, index: nat, k: nat)
    ensures var b := GetBatch(d, batchSize, index);
      var j := index * batchSize + k;
      && (k < |b.xi| ==> j < |d.xi| && b.xi[k] == d.xi[j])
      && (k < |b.xv| ==> j < |d.xv| && b.xv[k] == d.xv[j])
      && (k < |b.xv2| ==> j < |d.xv2| && b.xv2[k] == d.xv2[j])
      && (k < |b.y| ==> j < |d.y| && b.y[k] == [d.y[j]])
  {
  }

  /** On parallel lists the four slices have the same length: the rows left from
      `index * batch_size`, at most `batch_size` of them. */
  lemma GetBatchParallel<I, V, N, Y>(d: Data<I, V, N, Y>, batchSize: nat, index: nat)
    requires Parallel(d)
    ensures var b := GetBatch(d, batchSize, index);
      var len := if index * batchSize < |d.y| then Min(batchSize, |d.y| - index * batchSize) else 0;
      |b.xi| == |b.xv| == |b.xv2| == |b.y| == len
  {
    var start := index * batchSize;
    assert (index + 1) * batchSize == start + batchSize;
  }

  lemma NextStart(i: nat, b: nat)
    ensures (i + 1) * b == i * b + b
  {
  }

  /** `total_batch = int(len(y_train) / batch_size)`: the number of whole batches. */
  function TotalBatch(n: nat, batchSize: nat): nat
    requires batchSize > 0
  {
    n / batchSize
  }

  /** The batches `fit` asks for in one epoch, `get_batch(..., i)` for `i in range(total_batch)`. */
  function Schedule<I, V, N, Y>(d: Data<I, V, N, Y>, batchSize: nat): (s: seq<Batch<I, V, N, Y>>)
    requires batchSize > 0
    ensures |s| == TotalBatch(|d.y|, batchSize)
  {
    seq(TotalBatch(|d.y|, batchSize), i requires 0 <= i => GetBatch(d, batchSize, i))
  }

  /** The rows of the lists, one after another. */
  function Flatten<T>(ss: seq<seq<T>>): seq<T> {
    if |ss| == 0 then [] else Flatten(ss[..|ss| - 1]) + ss[|ss| - 1]
  }

  /** Every scheduled batch is whole: exactly `batch_size` rows of each list, the slice
      `[i * batch_size, (i + 1) * batch_size)`. */
  lemma ScheduleFullBatches<I, V, N, Y>(d: Data<I, V, N, Y>, batchSize: nat, i: nat)
    requires Parallel(d) && batchSize > 0 && i < TotalBatch(|d.y|, batchSize)
    ensures var b := Schedule(d, batchSize)[i];
      var start := i * batchSize;
      && start + batchSize <= |d.y|
      && b.xi == d.xi[start..start + batchSize]
      && b.xv == d.xv[start..start + batchSize]
      && b.xv2 == d.xv2[start..start + batchSize]
      && b.y == Column(d.y[start..start + batchSize])
      && |b.xi| == |b.xv| == |b.xv2| == |b.y| == batchSize
  {
    WholeBatchInRange(|d.y|, batchSize, i);
  }

  lemma WholeBatchInRange(n: nat, batchSize: nat, i: nat)
    requires batchSize > 0 && i < TotalBatch(n, batchSize)
    ensures i * batchSize + batchSize <= TotalBatch(n, batchSize) * batchSize <= n
    ensures BatchEnd(n, batchSize, i) == i * batchSize + batchSize
  {
    var t := TotalBatch(n, batchSize);
    assert n == t * batchSize + n % batchSize;
    MulMonotone(i + 1, t, batchSize);
    NextStart(i, batchSize);
  }

  lemma MulMonotone(a: nat, b: nat, c: nat)
    requires a <= b
    ensures a * c <= b * c
  {
    assert b * c == a * c + (b - a) * c;
  }

  /** Consecutive batches are adjacent: batch `i + 1` starts on the row where batch `i` ends. */
  lemma ScheduleAdjacent(n: nat, batchSize: nat, i: nat)
    requires batchSize > 0 && i + 1 < TotalBatch(n, batchSize)
    ensures BatchEnd(n, batchSize, i) == (i + 1) * batchSize
  {
    WholeBatchInRange(n, batchSize, i);
    NextStart(i, batchSize);
  }

  /** Every row before `total_batch * batch_size` lies in exactly one scheduled batch: batch
      `k / batch_size` holds row `k` of every list at position `k % batch_size`, its label
      wrapped as a one-element row, and no other batch and position is cut at row `k`, so the
      batches do not overlap. */
  lemma ScheduleRowOwner<I, V, N, Y>(d: Data<I, V, N, Y>, batchSize: nat, k: nat, i: nat, p: nat)
    requires Parallel(d) && batchSize > 0 && k < TotalBatch(|d.y|, batchSize) * batchSize
    ensures var s := Schedule(d, batchSize);
      var q, r := k / batchSize, k % batchSize;
      && q < |s| && r < batchSize
      && |s[q].xi| == |s[q].xv| == |s[q].xv2| == |s[q].y| == batchSize
      && s[q].xi[r] == d.xi[k] && s[q].xv[r] == d.xv[k] && s[q].xv2[r] == d.xv2[k] && s[q].y[r] == [d.y[k]]
    ensures i < TotalBatch(|d.y|, batchSize) && p < batchSize && i * batchSize + p == k ==>
      i == k / batchSize && p == k % batchSize
  {
    var q, r := k / batchSize, k % batchSize;
    RowIndexOwner(|d.y|, batchSize, k, i, p);
    ScheduleRowAt(d, batchSize, q, r);
    assert q * batchSize + r == k;
  }

  lemma ScheduleRowAt<I, V, N, Y>(d: Data<I, V, N, Y>, batchSize: nat, q: nat, r: nat)
    requires Parallel(d) && batchSize > 0 && q < TotalBatch(|d.y|, batchSize) && r < batchSize
    ensures var b := Schedule(d, batchSize)[q];
      var k := q * batchSize + r;
      && k < |d.y|
      && |b.xi| == |b.xv| == |b.xv2| == |b.y| == batchSize
      && b.xi[r] == d.xi[k] && b.xv[r] == d.xv[k] && b.xv2[r] == d.xv2[k] && b.y[r] == [d.y[k]]
  {
    ScheduleFullBatches(d, batchSize, q);
    GetBatchRow(d, batchSize, q, r);
  }

  lemma RowIndexOwner(n: nat, batchSize: nat, k: nat, i: nat, p: nat)
    requires batchSize > 0 && k < TotalBatch(n, batchSize) * batchSize
    ensures k / batchSize < TotalBatch(n, batchSize) && k % batchSize < batchSize
    ensures k == (k / batchSize) * batchSize + k % batchSize
    ensures p < batchSize && i * batchSize + p == k ==> i == k / batchSize && p == k % batchSize
  {
    var t := TotalBatch(n, batchSize);
    if k / batchSize >= t {
      MulMonotone(t, k / batchSize, batchSize);
      assert false;
    }
    if p < batchSize && i * batchSize + p == k {
      DivModUnique(k, batchSize, i, p);
    }
  }

  lemma DivModUnique(k: nat, b: nat, i: nat, p: nat)
    requires b > 0 && p < b && i * b + p == k
    ensures i == k / b && p == k % b
  {
    var q, r := k / b, k % b;
    if i < q {
      MulMonotone(i + 1, q, b);
      assert false;
    } else if i > q {
      MulMonotone(q + 1, i, b);
      assert false;
    }
  }

  /** The scheduled batches, read one after another, are exactly the first
      `total_batch * batch_size` rows of every list, in order. */
  lemma ScheduleCoverage<I, V, N, Y>(d: Data<I, V, N, Y>, batchSize: nat)
    requires Parallel(d) && batchSize > 0
    ensures var s := Schedule(d, batchSize);
      var rows := TotalBatch(|d.y|, batchSize) * batchSize;
      && rows <= |d.y|
      && Flatten(seq(|s|, i requires 0 <= i < |s| => s[i].xi)) == d.xi[..rows]
      && Flatten(seq(|s|, i requires 0 <= i < |s| => s[i].xv)) == d.xv[..rows]
      && Flatten(seq(|s|, i requires 0 <= i < |s| => s[i].xv2)) == d.xv2[..rows]
      && Flatten(seq(|s|, i requires 0 <= i < |s| => s[i].y)) == Column(d.y[..rows])
  {
    DroppedTail(|d.y|, batchSize);
    ScheduleCoversXi(d, batchSize);
    ScheduleCoversXv(d, batchSize);
    ScheduleCoversXv2(d, batchSize);
    ScheduleCoversY(d, batchSize);
  }

  lemma ScheduleCoversXi<I, V, N, Y>(d: Data<I, V, N, Y>, batchSize: nat)
    requires Parallel(d) && batchSize > 0
    ensures var s := Schedule(d, batchSize);
      var rows := TotalBatch(|d.y|, batchSize) * batchSize;
      rows <= |d.y| && Flatten(seq(|s|, i requires 0 <= i < |s| => s[i].xi)) == d.xi[..rows]
  {
    var s := Schedule(d, batchSize);
    var t := TotalBatch(|d.y|, batchSize);
    DroppedTail(|d.y|, batchSize);
    var chunks := seq(t, i requires 0 <= i < t => s[i].xi);
    forall i | 0 <= i < t
      ensures i * batchSize + batchSize <= |d.xi| && chunks[i] == d.xi[i * batchSize..i * batchSize + batchSize]
    {
      ScheduleFullBatches(d, batchSize, i);
    }
    FlattenChunks(chunks, d.xi, batchSize, t);
  }

  lemma ScheduleCoversXv<I, V, N, Y>(d: Data<I, V, N, Y>, batchSize: nat)
    requires Parallel(d) && batchSize > 0
    ensures var s := Schedule(d, batchSize);
      var rows := TotalBatch(|d.y|, batchSize) * batchSize;
      rows <= |d.y| && Flatten(seq(|s|, i requires 0 <= i < |s| => s[i].xv)) == d.xv[..rows]
  {
    var s := Schedule(d, batchSize);
    var t := TotalBatch(|d.y|, batchSize);
    DroppedTail(|d.y|, batchSize);
    var chunks := seq(t, i requires 0 <= i < t => s[i].xv);
    forall i | 0 <= i < t
      ensures i * batchSize + batchSize <= |d.xv| && chunks[i] == d.xv[i * batchSize..i * batchSize + batchSize]
    {
      ScheduleFullBatches(d, batchSize, i);
    }
    FlattenChunks(chunks, d.xv, batchSize, t);
  }

  lemma ScheduleCoversXv2<I, V, N, Y>(d: Data<I, V, N, Y>, batchSize: nat)
    requires Parallel(d) && batchSize > 0
    ensures var s := Schedule(d, batchSize);
      var rows := TotalBatch(|d.y|, batchSize) * batchSize;
      rows <= |d.y| && Flatten(seq(|s|, i requires 0 <= i < |s| => s[i].xv2)) == d.xv2[..rows]
  {
    var s := Schedule(d, batchSize);
    var t := TotalBatch(|d.y|, batchSize);
    DroppedTail(|d.y|, batchSize);
    var chunks := seq(t, i requires 0 <= i < t => s[i].xv2);
    forall i | 0 <= i < t
      ensures i * batchSize + batchSize <= |d.xv2| && chunks[i] == d.xv2[i * batchSize..i * batchSize + batchSize]
    {
      ScheduleFullBatches(d, batchSize, i);
    }
    FlattenChunks(chunks, d.xv2, batchSize, t);
  }

  lemma ScheduleCoversY<I, V, N, Y>(d: Data<I, V, N, Y>, batchSize: nat)
    requires Parallel(d) && batchSize > 0
    ensures var s := Schedule(d, batchSize);
      var rows := TotalBatch(|d.y|, batchSize) * batchSize;
      rows <= |d.y| && Flatten(seq(|s|, i requires 0 <= i < |s| => s[i].y)) == Column(d.y[..rows])
  {
    var s := Schedule(d, batchSize);
    var t := TotalBatch(|d.y|, batchSize);
    DroppedTail(|d.y|, batchSize);
    var chunks := seq(t, i requires 0 <= i < t => s[i].y);
    forall i | 0 <= i < t
      ensures i * batchSize + batchSize <= |Column(d.y)| && chunks[i] == Column(d.y)[i * batchSize..i * batchSize + batchSize]
    {
      ScheduleFullBatches(d, batchSize, i);
      ColumnSlice(d.y, i * batchSize, i * batchSize + batchSize);
    }
    FlattenChunks(chunks, Column(d.y), batchSize, t);
    ColumnSlice(d.y, 0, t * batchSize);
  }

  /** Wrapping labels commutes with slicing. */
  lemma ColumnSlice<T>(ys: seq<T>, lo: nat, hi: nat)
    requires lo <= hi <= |ys|
    ensures Column(ys)[lo..hi] == Column(ys[lo..hi])
  {
  }

  /** Chunks `[i * b, (i + 1) * b)` of `xs`, for `i < t`, flatten back to the prefix of
      length `t * b`. */
  lemma {:induction false} FlattenChunks<T>(chunks: seq<seq<T>>, xs: seq<T>, b: nat, t: nat)
    requires |chunks| == t && t * b <= |xs|
    requires forall i :: 0 <= i < t ==> i * b + b <= |xs| && chunks[i] == xs[i * b..i * b + b]
    ensures Flatten(chunks) == xs[..t * b]
  {
    if t > 0 {
      var u := t - 1;
      NextStart(u, b);
      FlattenChunks(chunks[..u], xs, b, u);
      assert chunks[..u] == chunks[..|chunks| - 1];
      assert xs[..t * b] == xs[..u * b] + xs[u * b..t * b];
    }
  }

  /** The rows from `total_batch * batch_size` on are never scheduled, and they are fewer
      than one batch: the trailing partial batch is dropped. */
  lemma DroppedTail(n: nat, batchSize: nat)
    requires batchSize > 0
    ensures TotalBatch(n, batchSize) * batchSize <= n < TotalBatch(n, batchSize) * batchSize + batchSize
    ensures n - TotalBatch(n, batchSize) * batchSize == n % batchSize
  {
    assert n == TotalBatch(n, batchSize) * batchSize + n % batchSize;
  }
}
