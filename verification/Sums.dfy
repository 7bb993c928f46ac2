/** Sums over sequences. */
module Sums {

  function Sum<T>(xs: seq<T>, g: T -> real): real
  {
    if xs == [] then 0.0 else Sum(xs[..|xs| - 1], g) + g(xs[|xs| - 1])
  }

  lemma SumPush<T>(xs: seq<T>, x: T, g: T -> real)
    ensures Sum(xs + [x], g) == Sum(xs, g) + g(x)
  {
    assert (xs + [x])[..|xs|] == xs;
  }

  lemma {:induction false} SumConcat<T>(xs: seq<T>, ys: seq<T>, g: T -> real)
    ensures Sum(xs + ys, g) == Sum(xs, g) + Sum(ys, g)
  {
    if ys == [] {
      assert xs + ys == xs;
    } else {
      SumConcat(xs, ys[..|ys| - 1], g);
      assert (xs + ys)[..|xs + ys| - 1] == xs + ys[..|ys| - 1];
    }
  }

  function Without<T>(xs: seq<T>, i: nat): seq<T>
    requires i < |xs|
  {
    xs[..i] + xs[i + 1..]
  }

  lemma {:induction false} SumWithout<T>(xs: seq<T>, i: nat, g: T -> real)
    requires i < |xs|
    ensures Sum(xs, g) == Sum(Without(xs, i), g) + g(xs[i])
  {
    var n := |xs| - 1;
    if i == n {
      assert Without(xs, i) == xs[..n];
    } else {
      SumWithout(xs[..n], i, g);
      assert Without(xs, i) == Without(xs[..n], i) + [xs[n]];
      SumPush(Without(xs[..n], i), xs[n], g);
    }
  }

  lemma MultisetWithout<T>(xs: seq<T>, i: nat)
    requires i < |xs|
    ensures multiset(Without(xs, i)) == multiset(xs) - multiset{xs[i]}
  {
    assert xs == xs[..i] + [xs[i]] + xs[i + 1..];
  }

  /** A sum does not depend on the order of its terms. */
  lemma {:induction false} SumPermuted<T>(xs: seq<T>, ys: seq<T>, g: T -> real)
    requires multiset(xs) == multiset(ys)
    ensures Sum(xs, g) == Sum(ys, g)
    decreases |xs|
  {
    if xs == [] {
      assert |multiset(ys)| == 0;
    } else {
      var n := |xs| - 1;
      assert xs[n] in multiset(ys);
      var i :| 0 <= i < |ys| && ys[i] == xs[n];
      MultisetWithout(xs, n);
      MultisetWithout(ys, i);
      SumPermuted(Without(xs, n), Without(ys, i), g);
      SumWithout(xs, n, g);
      SumWithout(ys, i, g);
    }
  }
}
