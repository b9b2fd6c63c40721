/** Small facts about sequence concatenation that the proofs of the other modules share. */
module Seqs {

  lemma AppendAssoc<T>(a: seq<T>, b: seq<T>, c: seq<T>)
    ensures a + (b + c) == a + b + c
  {
  }

  /** Moving the brackets of a five-part concatenation to the middle three parts. */
  lemma Regroup<T>(p: seq<T>, a: seq<T>, x: seq<T>, b: seq<T>, q: seq<T>)
    ensures (p + a) + x + (b + q) == p + (a + x + b) + q
  {
  }

  /** Element `i` of the last part of `p + s + q`. */
  lemma ElementAt<T>(p: seq<T>, s: seq<T>, q: seq<T>, i: nat)
    requires i < |q|
    ensures (p + s + q)[|p| + |s| + i] == q[i]
  {
  }

  lemma AppendCancel<T>(a: seq<T>, x: seq<T>, y: seq<T>)
    requires a + x == a + y
    ensures x == y
  {
    assert x == (a + x)[|a|..];
  }

  /** A sequence around its element `k`. */
  lemma SliceAt<T>(s: seq<T>, k: nat)
    requires k < |s|
    ensures s[..k + 1] == s[..k] + [s[k]]
    ensures s == s[..k + 1] + s[k + 1..]
  {
  }
}
