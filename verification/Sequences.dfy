/** Regrouping and cutting of sequences. */
module Sequences {
  lemma {:induction false} Associate<T>(a: seq<T>, b: seq<T>, c: seq<T>)
    ensures a + b + c == a + (b + c)
  {
  }

  lemma {:induction false} Middle<T>(a: seq<T>, x: T, b: seq<T>)
    ensures a + ([x] + b) == a + [x] + b
  {
  }

  lemma {:induction false} Uncons<T>(s: seq<T>, b: seq<T>)
    requires s != []
    ensures (s + b)[0] == s[0] && (s + b)[1..] == s[1..] + b
  {
  }

  lemma {:induction false} SplitLast<T>(s: seq<T>)
    requires s != []
    ensures s == s[..|s| - 1] + [s[|s| - 1]]
  {
  }

  lemma {:induction false} CutAround<T>(s: seq<T>, k: nat)
    requires k < |s|
    ensures s[..k + 1] == s[..k] + [s[k]] && s == s[..k] + [s[k]] + s[k + 1..]
  {
  }

  lemma {:induction false} Take<T>(s: seq<T>, n: nat, k: nat)
    requires k < n <= |s|
    ensures s[..n][..k] == s[..k] && s[..n][k] == s[k] && (k > 0 ==> s[..n][k - 1] == s[k - 1])
  {
  }

  lemma {:induction false} Halves<T>(s: seq<T>, n: nat)
    requires n <= |s|
    ensures s == s[..n] + s[n..]
  {
  }
}
