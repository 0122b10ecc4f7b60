/** The `xs.reduce((sum, x) => sum + f(x), 0)` expressions of the summary
    and the expense card, and a structural sum to reason about them. */
module Sums {

  /** JavaScript's `reduce` with an accumulator: a left fold. */
  function Reduce<T>(init: real, xs: seq<T>, f: T -> real): real
    decreases |xs|
  {
    if xs == [] then init else Reduce(init + f(xs[0]), xs[1..], f)
  }

  /** Reference definition: the sum of `f` over `xs`, first element first. */
  function Sum<T>(xs: seq<T>, f: T -> real): real
  {
    if xs == [] then 0.0 else f(xs[0]) + Sum(xs[1..], f)
  }

  /** The left fold adds exactly the sum to its starting value. */
  lemma {:induction false} ReduceIsSum<T>(init: real, xs: seq<T>, f: T -> real)
    ensures Reduce(init, xs, f) == init + Sum(xs, f)
    decreases |xs|
  {
    if xs != [] {
      ReduceIsSum(init + f(xs[0]), xs[1..], f);
    }
  }

  /** The sum is additive over concatenation. */
  lemma {:induction false} SumAppend<T>(a: seq<T>, b: seq<T>, f: T -> real)
    ensures Sum(a + b, f) == Sum(a, f) + Sum(b, f)
  {
    if a == [] {
      assert a + b == b;
    } else {
      assert (a + b)[1..] == a[1..] + b;
      SumAppend(a[1..], b, f);
    }
  }

  lemma {:induction false} SumNonNegative<T>(xs: seq<T>, f: T -> real)
    requires forall i :: 0 <= i < |xs| ==> f(xs[i]) >= 0.0
    ensures Sum(xs, f) >= 0.0
  {
    if xs != [] {
      SumNonNegative(xs[1..], f);
    }
  }

  /** Two sequences whose elements `f` values agree pointwise have equal sums. */
  lemma {:induction false} SumPointwise<T>(xs: seq<T>, ys: seq<T>, f: T -> real)
    requires |xs| == |ys|
    requires forall i :: 0 <= i < |xs| ==> f(xs[i]) == f(ys[i])
    ensures Sum(xs, f) == Sum(ys, f)
  {
    if xs != [] {
      SumPointwise(xs[1..], ys[1..], f);
    }
  }

  /** A sum of zeros is zero. */
  lemma {:induction false} SumZero<T>(xs: seq<T>, f: T -> real)
    requires forall i :: 0 <= i < |xs| ==> f(xs[i]) == 0.0
    ensures Sum(xs, f) == 0.0
  {
    if xs != [] {
      SumZero(xs[1..], f);
    }
  }

  /** Two functions that agree on every element of `xs` have equal sums over it. */
  lemma {:induction false} SumSameValues<T>(xs: seq<T>, f: T -> real, g: T -> real)
    requires forall x :: x in xs ==> f(x) == g(x)
    ensures Sum(xs, f) == Sum(xs, g)
  {
    if xs != [] {
      assert xs[0] in xs;
      SumSameValues(xs[1..], f, g);
    }
  }

  /** Replacing one element changes the sum by the difference of its values. */
  lemma SumUpdateAt<T>(xs: seq<T>, k: nat, y: T, f: T -> real)
    requires k < |xs|
    ensures Sum(xs[k := y], f) == Sum(xs, f) - f(xs[k]) + f(y)
  {
    var ys := xs[k := y];
    assert xs == xs[..k] + [xs[k]] + xs[k + 1..];
    assert ys == xs[..k] + [y] + xs[k + 1..];
    SumAppend(xs[..k] + [xs[k]], xs[k + 1..], f);
    SumAppend(xs[..k], [xs[k]], f);
    SumAppend(xs[..k] + [y], xs[k + 1..], f);
    SumAppend(xs[..k], [y], f);
  }
}
