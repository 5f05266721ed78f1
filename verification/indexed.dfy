/**
 * Sequences built element by element from a list, as the program's `for i,
 * x := range xs` loops build their results: element `i` depends on the
 * position and on `xs[i]`.
 */
module Indexed {

  /** `[f(0, xs[0]), ..., f(n - 1, xs[n - 1])]`. */
  function MapIndexed<A, B>(xs: seq<A>, f: (nat, A) -> B): seq<B>
  {
    seq(|xs|, i requires 0 <= i < |xs| => f(i, xs[i]))
  }

  /** One more turn of a loop over `xs` appends the next element. */
  lemma MapIndexedStep<A, B>(xs: seq<A>, i: nat, f: (nat, A) -> B)
    requires i < |xs|
    ensures MapIndexed(xs[..i + 1], f) == MapIndexed(xs[..i], f) + [f(i, xs[i])]
  {
    assert xs[..i + 1][..i] == xs[..i];
  }
}
