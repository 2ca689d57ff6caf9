/** Lists that agree up to a reordering inside batches. */
module Reordering {
  predicate AllOnes(batches: seq<nat>) {
    forall k | 0 <= k < |batches| :: batches[k] == 1
  }

  function Ones(n: nat): (r: seq<nat>)
    ensures |r| == n && AllOnes(r)
  {
    seq(n, _ => 1)
  }

  /**
   * Both lists fall into consecutive batches of the given sizes, and each batch of
   * `shown` is a permutation of the same batch of `original`.
   */
  predicate Permuted<T(==)>(shown: seq<T>, original: seq<T>, batches: seq<nat>)
    decreases |batches|
  {
    if batches == [] then shown == [] && original == []
    else
      && 0 < batches[0] <= |shown| && batches[0] <= |original|
      && multiset(shown[..batches[0]]) == multiset(original[..batches[0]])
      && Permuted(shown[batches[0]..], original[batches[0]..], batches[1..])
  }

  lemma {:induction false} Split<T>(a: seq<T>, b: seq<T>, n: nat)
    requires n <= |a|
    ensures (a + b)[..n] == a[..n] && (a + b)[n..] == a[n..] + b
  {
  }

  lemma {:induction false} PermutedAppend<T>(
      a: seq<T>, x: seq<T>, ba: seq<nat>, b: seq<T>, y: seq<T>, bb: seq<nat>)
    requires Permuted(a, x, ba) && Permuted(b, y, bb)
    ensures Permuted(a + b, x + y, ba + bb)
    decreases |ba|
  {
    if ba == [] {
      assert a + b == b && x + y == y && ba + bb == bb;
    } else {
      Split(a, b, ba[0]);
      Split(x, y, ba[0]);
      Split(ba, bb, 1);
      PermutedAppend(a[ba[0]..], x[ba[0]..], ba[1..], b, y, bb);
    }
  }

  lemma {:induction false} SingleInMultiset<T>(x: T, y: T)
    requires multiset([x]) == multiset([y])
    ensures x == y
  {
    assert x in multiset([x]);
    assert x in multiset([y]);
  }

  /** Batches of one element leave nothing to reorder. */
  lemma {:induction false} PermutedOnes<T>(shown: seq<T>, original: seq<T>, batches: seq<nat>)
    requires Permuted(shown, original, batches) && AllOnes(batches)
    ensures shown == original
    decreases |batches|
  {
    if batches != [] {
      assert shown[..1] == [shown[0]] && original[..1] == [original[0]];
      SingleInMultiset(shown[0], original[0]);
      PermutedOnes(shown[1..], original[1..], batches[1..]);
      assert shown == [shown[0]] + shown[1..] && original == [original[0]] + original[1..];
    }
  }

  lemma {:induction false} PermutedSame<T>(s: seq<T>)
    ensures Permuted(s, s, Ones(|s|))
    decreases |s|
  {
    if s != [] {
      PermutedSame(s[1..]);
      assert Ones(|s|)[1..] == Ones(|s| - 1);
    }
  }

  lemma {:induction false} PermutedWhole<T>(shown: seq<T>, original: seq<T>)
    requires shown != [] && multiset(shown) == multiset(original)
    ensures Permuted(shown, original, [|shown|])
  {
    assert |multiset(shown)| == |shown| && |multiset(original)| == |original|;
    assert shown[..|shown|] == shown && original[..|shown|] == original;
    assert [|shown|][1..] == [];
  }
}
