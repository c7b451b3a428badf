/** Facts about sequence concatenation that loop proofs use. */
module Sequences {

  /** Concatenation is associative. */
  lemma Append3<T>(xs: seq<T>, ys: seq<T>, zs: seq<T>)
    ensures xs + ys + zs == xs + (ys + zs)
  {
  }

  /** A non-empty sequence is its front followed by its last element. */
  lemma Snoc<T>(s: seq<T>)
    requires s != []
    ensures s[..|s| - 1] + [s[|s| - 1]] == s
  {
  }

  /** Indexing into the first part of a three-part sequence. */
  lemma FrontAt<T>(xs: seq<T>, ys: seq<T>, zs: seq<T>, i: nat)
    requires i < |xs|
    ensures (xs + ys + zs)[i] == xs[i]
  {
  }

  /** Replacing the element after `front` in a four-part sequence. */
  lemma ReplaceAfter<T>(front: seq<T>, x: T, ys: seq<T>, zs: seq<T>, y: T)
    ensures (front + [x] + ys + zs)[|front| := y] == front + ([y] + ys) + zs
  {
  }

  /** A value present at step j of a chain whose steps keep it is present at
      every later step k. */
  lemma Chain<T>(f: nat -> seq<T>, j: nat, k: nat, x: T)
    requires j <= k && x in f(j)
    requires forall i :: j <= i < k && x in f(i) ==> x in f(i + 1)
    ensures x in f(k)
  {
    var i := j;
    while i < k
      invariant j <= i <= k && x in f(i)
    {
      i := i + 1;
    }
  }
}
