/** `shuffle_in_unison_scary`: the four training lists shuffled in place by `np.random.shuffle`,
    the generator's state saved before the first shuffle and restored before each of the others.

    `np.random.shuffle` on a list of length `n` is Fisher-Yates: for `i` from `n - 1` down to 1 it
    draws `j` uniformly from `0 .. i` and swaps positions `i` and `j`. The generator is modelled by
    those draws, a table `draws` with `draws[i] <= i`; restoring the saved state makes the same
    draws happen again, so all four lists see the same table. */
module Shuffle {

  /** A table of Fisher-Yates draws for a list of length `n`: the draw for step `i` lies in `0 .. i`
      (the entry for `i = 0` is never read). */
  predicate WellFormedDraws(draws: seq<nat>, n: nat) {
    |draws| == n && forall i :: 0 <= i < n ==> draws[i] <= i
  }

  /** `x[i], x[j] = x[j], x[i]`. */
  function Swap<T>(s: seq<T>, i: nat, j: nat): (r: seq<T>)
    requires i < |s| && j < |s|
    ensures |r| == |s|
    ensures r[i] == s[j] && r[j] == s[i]
    ensures forall k :: 0 <= k < |s| && k != i && k != j ==> r[k] == s[k]
  {
    s[i := s[j]][j := s[i]]
  }

  /** The Fisher-Yates steps `m - 1` down to 1 applied to `s`. */
  function ShuffleSteps<T>(s: seq<T>, draws: seq<nat>, m: nat): (r: seq<T>)
    requires m <= |s| && WellFormedDraws(draws, |s|)
    ensures |r| == |s|
    decreases m
  {
    if m <= 1 then s else ShuffleSteps(Swap(s, m - 1, draws[m - 1]), draws, m - 1)
  }

  /** `np.random.shuffle(s)` with the draws `draws`. */
  function Shuffled<T>(s: seq<T>, draws: seq<nat>): seq<T>
    requires WellFormedDraws(draws, |s|)
  {
    ShuffleSteps(s, draws, |s|)
  }

  /** The indices `0 .. n - 1` in order. */
  function Iota(n: nat): (r: seq<nat>)
    ensures |r| == n && forall k :: 0 <= k < n ==> r[k] == k
  {
    seq(n, k requires 0 <= k => k)
  }

  /** Every entry of `p` is an index below `n`. */
  predicate Indexes(p: seq<nat>, n: nat) {
    forall k :: 0 <= k < |p| ==> p[k] < n
  }

  /** `s` read through the index list `p`: position `k` holds `s[p[k]]`. */
  function Gather<T>(s: seq<T>, p: seq<nat>): (r: seq<T>)
    requires Indexes(p, |s|)
    ensures |r| == |p| && forall k :: 0 <= k < |p| ==> r[k] == s[p[k]]
  {
    seq(|p|, k requires 0 <= k < |p| => s[p[k]])
  }

  /** The permutation the draws make: where each position of the shuffled list comes from. */
  function Permutation(draws: seq<nat>): seq<nat>
    requires WellFormedDraws(draws, |draws|)
  {
    Shuffled(Iota(|draws|), draws)
  }

  lemma SwapMultiset<T>(s: seq<T>, i: nat, j: nat)
    requires i < |s| && j < |s|
    ensures multiset(Swap(s, i, j)) == multiset(s)
  {
    var t := s[i := s[j]];
    assert multiset(t) == multiset(s) - multiset{s[i]} + multiset{s[j]};
    assert multiset(t[j := s[i]]) == multiset(t) - multiset{t[j]} + multiset{s[i]};
  }

  lemma {:induction false} StepsMultiset<T>(s: seq<T>, draws: seq<nat>, m: nat)
    requires m <= |s| && WellFormedDraws(draws, |s|)
    ensures multiset(ShuffleSteps(s, draws, m)) == multiset(s)
    decreases m
  {
    if m > 1 {
      SwapMultiset(s, m - 1, draws[m - 1]);
      StepsMultiset(Swap(s, m - 1, draws[m - 1]), draws, m - 1);
    }
  }

  /** A shuffled list is a permutation of the original: same length, same elements with the
      same multiplicities. */
  lemma ShuffledIsPermutation<T>(s: seq<T>, draws: seq<nat>)
    requires WellFormedDraws(draws, |s|)
    ensures |Shuffled(s, draws)| == |s|
    ensures multiset(Shuffled(s, draws)) == multiset(s)
  {
    StepsMultiset(s, draws, |s|);
  }

  /** The permutation of the draws holds every index `0 .. n - 1` exactly once. */
  lemma PermutationOfIndices(draws: seq<nat>)
    requires WellFormedDraws(draws, |draws|)
    ensures |Permutation(draws)| == |draws|
    ensures forall k :: 0 <= k < |draws| ==> Permutation(draws)[k] < |draws|
    ensures forall x :: 0 <= x < |draws| ==> multiset(Permutation(draws))[x] == 1
  {
    var n := |draws|;
    var p := Permutation(draws);
    ShuffledIsPermutation(Iota(n), draws);
    forall k | 0 <= k < n
      ensures p[k] < n
    {
      assert p[k] in multiset(Iota(n));
    }
    forall x | 0 <= x < n
      ensures multiset(p)[x] == 1
    {
      IotaCount(n, x);
    }
  }

  lemma {:induction false} IotaCount(n: nat, x: nat)
    requires x < n
    ensures multiset(Iota(n))[x] == 1
  {
    if n - 1 == x {
      assert Iota(n) == Iota(n - 1) + [n - 1];
      IotaAbsent(n - 1, x);
    } else {
      assert Iota(n) == Iota(n - 1) + [n - 1];
      IotaCount(n - 1, x);
    }
  }

  lemma IotaAbsent(n: nat, x: nat)
    requires x >= n
    ensures multiset(Iota(n))[x] == 0
  {
    assert x !in Iota(n);
  }

  /** Swapping positions of a gathered list is gathering through the swapped index list. */
  lemma SwapGather<T>(s: seq<T>, p: seq<nat>, i: nat, j: nat)
    requires Indexes(p, |s|)
    requires i < |p| && j < |p|
    ensures Indexes(Swap(p, i, j), |s|) && Swap(Gather(s, p), i, j) == Gather(s, Swap(p, i, j))
  {
  }

  /** Shuffling steps commute with reading through an index list. */
  lemma {:induction false} StepsGather<T>(s: seq<T>, p: seq<nat>, draws: seq<nat>, m: nat)
    requires Indexes(p, |s|)
    requires m <= |p| && WellFormedDraws(draws, |p|)
    ensures Indexes(ShuffleSteps(p, draws, m), |s|)
            && ShuffleSteps(Gather(s, p), draws, m) == Gather(s, ShuffleSteps(p, draws, m))
    decreases m
  {
    if m > 1 {
      SwapGather(s, p, m - 1, draws[m - 1]);
      StepsGather(s, Swap(p, m - 1, draws[m - 1]), draws, m - 1);
    }
  }

  /** Shuffling a list with the draws is reading it through the draws' permutation:
      position `k` of the result holds `s[Permutation(draws)[k]]`. */
  lemma ShuffledIsGather<T>(s: seq<T>, draws: seq<nat>)
    requires WellFormedDraws(draws, |s|)
    ensures Indexes(Permutation(draws), |s|) && Shuffled(s, draws) == Gather(s, Permutation(draws))
  {
    var n := |s|;
    StepsGather(s, Iota(n), draws, n);
    assert Gather(s, Iota(n)) == s;
  }

  /** Rows stay aligned: after the four shuffles, position `j` of every list holds the entry the
      list had at the same original index `Permutation(draws)[j]`. */
  lemma UnisonAligned<A, B, C, D>(a: seq<A>, b: seq<B>, c: seq<C>, d: seq<D>, draws: seq<nat>)
    requires |a| == |b| == |c| == |d| && WellFormedDraws(draws, |a|)
    ensures forall j :: 0 <= j < |a| ==>
      var src := Permutation(draws)[j];
      && src < |a|
      && Shuffled(a, draws)[j] == a[src] && Shuffled(b, draws)[j] == b[src]
      && Shuffled(c, draws)[j] == c[src] && Shuffled(d, draws)[j] == d[src]
  {
    ShuffledIsGather(a, draws);
    ShuffledIsGather(b, draws);
    ShuffledIsGather(c, draws);
    ShuffledIsGather(d, draws);
  }

  /** Reading through `p` and then through `q` is reading through `q`'s entries of `p`. */
  lemma GatherGather<T>(s: seq<T>, p: seq<nat>, q: seq<nat>)
    requires Indexes(p, |s|) && Indexes(q, |p|)
    ensures Indexes(Gather(p, q), |s|) && Gather(Gather(s, p), q) == Gather(s, Gather(p, q))
  {
  }

  /** `np.random.shuffle(a)` in place, drawing `draws`. */
  method ShuffleInPlace<T>(a: array<T>, draws: seq<nat>)
    requires WellFormedDraws(draws, a.Length)
    modifies a
    ensures a[..] == Shuffled(old(a[..]), draws)
  {
    var m := a.Length;
    while m > 1
      invariant 0 <= m <= a.Length
      invariant ShuffleSteps(a[..], draws, m) == Shuffled(old(a[..]), draws)
      decreases m
    {
      var i := m - 1;
      var j := draws[i];
      ghost var before := a[..];
      var tmp := a[i];
      a[i] := a[j];
      a[j] := tmp;
      assert a[..] == Swap(before, i, j);
      m := m - 1;
    }
  }

  /** `shuffle_in_unison_scary(a, b, c, d)`: the saved generator state restored before each
      shuffle gives all four lists the same draws. */
  method ShuffleInUnison<A, B, C, D>(a: array<A>, b: array<B>, c: array<C>, d: array<D>, draws: seq<nat>)
    requires a.Length == b.Length == c.Length == d.Length && WellFormedDraws(draws, a.Length)
    requires a as object != b as object && a as object != c as object && a as object != d as object
    requires b as object != c as object && b as object != d as object && c as object != d as object
    modifies a, b, c, d
    ensures a[..] == Shuffled(old(a[..]), draws) && b[..] == Shuffled(old(b[..]), draws)
    ensures c[..] == Shuffled(old(c[..]), draws) && d[..] == Shuffled(old(d[..]), draws)
  {
    ShuffleInPlace(a, draws);
    ShuffleInPlace(b, draws);
    ShuffleInPlace(c, draws);
    ShuffleInPlace(d, draws);
  }
}
