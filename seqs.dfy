/**
 * Generic sequence facts shared by the engines: duplicate-freedom, Python's
 * `lst[:n]` slice, and order-preserving subsequences given by an explicit
 * index witness.
 */
module Seqs {

  /** No element occurs twice. */
  predicate NoDuplicates<T(==)>(s: seq<T>) {
    forall i, j :: 0 <= i < j < |s| ==> s[i] != s[j]
  }

  /** Python's `s[:n]`: the first `n` elements, or all of `s` when it is shorter. */
  function Take<T>(s: seq<T>, n: nat): (r: seq<T>)
    ensures |r| == if |s| < n then |s| else n
    ensures r == s[..|r|]
  {
    if |s| <= n then s else s[..n]
  }

  function Min(a: int, b: int): int {
    if a <= b then a else b
  }

  /** `idx` lists, in strictly increasing order, the positions in `b` that hold the elements of `a`. */
  ghost predicate Embedding<T>(idx: seq<int>, a: seq<T>, b: seq<T>) {
    && |idx| == |a|
    && (forall k :: 0 <= k < |idx| ==> 0 <= idx[k] < |b| && a[k] == b[idx[k]])
    && (forall k, l :: 0 <= k < l < |idx| ==> idx[k] < idx[l])
  }

  /** `a` is `b` with some elements removed and the rest kept in order. */
  ghost predicate IsSubsequence<T>(a: seq<T>, b: seq<T>) {
    exists idx :: Embedding(idx, a, b)
  }

  /** A subsequence of a prefix of `b` is a subsequence of `b`. */
  lemma EmbeddingInExtension<T>(idx: seq<int>, a: seq<T>, b: seq<T>, c: seq<T>)
    requires Embedding(idx, a, b)
    ensures Embedding(idx, a, b + c)
  {
  }

  /** An embedding whose positions all lie before `i` extends by position `i`. */
  lemma EmbeddingAppend<T>(idx: seq<int>, a: seq<T>, b: seq<T>, i: int)
    requires Embedding(idx, a, b) && 0 <= i < |b|
    requires forall k :: 0 <= k < |idx| ==> idx[k] < i
    ensures Embedding(idx + [i], a + [b[i]], b)
  {
  }

  /** The first `n` elements of a subsequence form a subsequence. */
  lemma EmbeddingOfPrefix<T>(idx: seq<int>, a: seq<T>, b: seq<T>, n: nat)
    requires Embedding(idx, a, b)
    ensures Embedding(Take(idx, n), Take(a, n), b)
  {
  }

  /** A subsequence of a duplicate-free sequence is duplicate-free. */
  lemma SubsequenceNoDuplicates<T>(a: seq<T>, b: seq<T>)
    requires IsSubsequence(a, b) && NoDuplicates(b)
    ensures NoDuplicates(a)
  {
    var idx :| Embedding(idx, a, b);
    forall i, j | 0 <= i < j < |a| ensures a[i] != a[j] {
      assert idx[i] < idx[j];
    }
  }

  /** Every position moved up by one; order is kept. */
  lemma Shifted(idx: seq<int>) returns (r: seq<int>)
    requires forall k, l :: 0 <= k < l < |idx| ==> idx[k] < idx[l]
    ensures |r| == |idx|
    ensures forall k :: 0 <= k < |r| ==> r[k] == idx[k] + 1
    ensures forall k, l :: 0 <= k < l < |r| ==> r[k] < r[l]
    ensures forall i :: i in r <==> i - 1 in idx
  {
    r := seq(|idx|, k requires 0 <= k < |idx| => idx[k] + 1);
    forall i ensures i in r <==> i - 1 in idx {
      if i in r {
        var k :| 0 <= k < |r| && r[k] == i;
        assert idx[k] == i - 1;
      }
      if i - 1 in idx {
        var k :| 0 <= k < |idx| && idx[k] == i - 1;
        assert r[k] == i;
      }
    }
  }

  /**
   * The elements of `s` in order of first occurrence: an element is kept
   * exactly when it does not occur earlier.
   */
  function Dedup<T(==)>(s: seq<T>): seq<T>
    decreases |s|
  {
    if s == [] then []
    else
      var init, x := s[..|s| - 1], s[|s| - 1];
      var kept := Dedup(init);
      if x in init then kept else kept + [x]
  }

  /** `Dedup(s)` has the elements of `s`, each once. */
  lemma {:induction false} DedupDistinctMembers<T(!new)>(s: seq<T>)
    ensures NoDuplicates(Dedup(s))
    ensures forall x :: x in Dedup(s) <==> x in s
    ensures |Dedup(s)| <= |s|
    decreases |s|
  {
    if s != [] {
      var init, x := s[..|s| - 1], s[|s| - 1];
      assert s == init + [x];
      DedupDistinctMembers(init);
    }
  }

  /** `Dedup(s)` sits inside `s` at the first occurrence of each element. */
  lemma {:induction false} DedupFirstOccurrences<T(!new)>(s: seq<T>) returns (idx: seq<int>)
    ensures Embedding(idx, Dedup(s), s)
    ensures forall k :: 0 <= k < |idx| ==> s[idx[k]] !in s[..idx[k]]
    decreases |s|
  {
    if s == [] {
      idx := [];
    } else {
      var n := |s|;
      var init, x := s[..n - 1], s[n - 1];
      assert s == init + [x];
      var idx0 := DedupFirstOccurrences(init);
      EmbeddingInExtension(idx0, Dedup(init), init, [x]);
      forall k | 0 <= k < |idx0| ensures s[idx0[k]] !in s[..idx0[k]] {
        assert s[..idx0[k]] == init[..idx0[k]];
      }
      if x in init {
        idx := idx0;
      } else {
        assert s[..n - 1] == init;
        idx := idx0 + [n - 1];
      }
    }
  }

  /** Appending elements never changes the deduplication of what came before. */
  lemma {:induction false} DedupPrefix<T(!new)>(a: seq<T>, b: seq<T>)
    ensures |Dedup(a)| <= |Dedup(a + b)|
    ensures Dedup(a + b)[..|Dedup(a)|] == Dedup(a)
    decreases |b|
  {
    if b == [] {
      assert a + b == a;
    } else {
      var b0 := b[..|b| - 1];
      assert (a + b)[..|a + b| - 1] == a + b0;
      DedupPrefix(a, b0);
    }
  }

  /** Deduplication leaves a duplicate-free sequence as it is. */
  lemma {:induction false} DedupOfDistinct<T(!new)>(s: seq<T>)
    requires NoDuplicates(s)
    ensures Dedup(s) == s
    decreases |s|
  {
    if s != [] {
      var init := s[..|s| - 1];
      DedupOfDistinct(init);
    }
  }
}
