/** Sequence helpers standing for the array methods the build script uses. */
module Seqs {

  /** `xs.map(f)`: one result per element, in the same order. */
  function Map<A, B>(f: A -> B, xs: seq<A>): (ys: seq<B>)
    ensures |ys| == |xs|
    ensures forall i :: 0 <= i < |xs| ==> ys[i] == f(xs[i])
  {
    if xs == [] then [] else [f(xs[0])] + Map(f, xs[1..])
  }

  /** Mapping one more element appends its image. */
  lemma MapSnoc<A, B>(f: A -> B, xs: seq<A>, x: A)
    ensures Map(f, xs + [x]) == Map(f, xs) + [f(x)]
  {
  }

  /** An element absent from both sides of it occurs exactly once. */
  lemma OccursOnce<A>(before: seq<A>, x: A, after: seq<A>)
    requires x !in before && x !in after
    ensures multiset(before + [x] + after)[x] == 1
  {
  }

  /** An injective function neither drops nor duplicates: every image occurs as often as its preimage. */
  lemma {:induction false} MapCount<A, B>(f: A -> B, xs: seq<A>, x: A)
    requires forall a, b :: f(a) == f(b) ==> a == b
    ensures multiset(Map(f, xs))[f(x)] == multiset(xs)[x]
  {
    if xs != [] {
      assert xs == [xs[0]] + xs[1..];
      assert Map(f, xs) == [f(xs[0])] + Map(f, xs[1..]);
      MapCount(f, xs[1..], x);
    }
  }
}
