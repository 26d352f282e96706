/**
 * Order-preserving filter-maps over sequences: each element contributes zero or more
 * outputs, and the outputs of earlier elements come first.
 */
module Sequences {
  /** The outputs of `f` on each element of `xs`, concatenated in order. */
  function FlatMap<T, U>(xs: seq<T>, f: T -> seq<U>): seq<U>
  {
    if xs == [] then [] else FlatMap(xs[..|xs| - 1], f) + f(xs[|xs| - 1])
  }

  /** `FlatMap` distributes over concatenation, so outputs keep their inputs' order. */
  lemma {:induction false} FlatMapAppend<T, U>(xs: seq<T>, ys: seq<T>, f: T -> seq<U>)
    ensures FlatMap(xs + ys, f) == FlatMap(xs, f) + FlatMap(ys, f)
  {
    if ys == [] {
      assert xs + ys == xs;
    } else {
      assert (xs + ys)[..|xs + ys| - 1] == xs + ys[..|ys| - 1];
      FlatMapAppend(xs, ys[..|ys| - 1], f);
    }
  }

  /** When each element yields at most one output, there are at most as many outputs as inputs. */
  lemma {:induction false} FlatMapAtMostOne<T, U>(xs: seq<T>, f: T -> seq<U>)
    requires forall x | x in xs :: |f(x)| <= 1
    ensures |FlatMap(xs, f)| <= |xs|
  {
    if xs != [] {
      FlatMapAtMostOne(xs[..|xs| - 1], f);
    }
  }

  /** A property every output of every element has, every output of `FlatMap` has. */
  lemma {:induction false} FlatMapAll<T, U>(xs: seq<T>, f: T -> seq<U>, p: U -> bool)
    requires forall x, y | x in xs && y in f(x) :: p(y)
    ensures forall y | y in FlatMap(xs, f) :: p(y)
  {
    if xs != [] {
      FlatMapAll(xs[..|xs| - 1], f, p);
    }
  }
}
