/** Sums of monetary amounts, accumulated from the left as a running total. */
module Sums {

  /** The sum of `xs`, adding one element at a time from the front, as a
      running total starting at zero does. */
  function Sum(xs: seq<real>): real
    decreases |xs|
  {
    if |xs| == 0 then 0.0 else Sum(xs[..|xs| - 1]) + xs[|xs| - 1]
  }

  /** Splitting off the first element: the sum is that element plus the sum of the rest. */
  lemma {:induction false} SumCons(x: real, xs: seq<real>)
    ensures Sum([x] + xs) == x + Sum(xs)
    decreases |xs|
  {
    if |xs| == 0 {
      assert ([x] + xs)[..0] == [];
    } else {
      var ys := [x] + xs;
      assert ys[..|ys| - 1] == [x] + xs[..|xs| - 1];
      SumCons(x, xs[..|xs| - 1]);
    }
  }

  /** Every non-empty prefix sums to its first element plus the sum of the
      prefix of the tail. */
  lemma SumConsPrefixes(xs: seq<real>)
    requires |xs| > 0
    ensures forall i :: 1 <= i <= |xs| ==> Sum(xs[..i]) == xs[0] + Sum(xs[1..i])
  {
    forall i | 1 <= i <= |xs|
      ensures Sum(xs[..i]) == xs[0] + Sum(xs[1..i])
    {
      assert xs[..i] == [xs[0]] + xs[1..i];
      SumCons(xs[0], xs[1..i]);
    }
  }

  /** The sum distributes over concatenation. */
  lemma {:induction false} SumAppend(xs: seq<real>, ys: seq<real>)
    ensures Sum(xs + ys) == Sum(xs) + Sum(ys)
    decreases |ys|
  {
    if |ys| == 0 {
      assert xs + ys == xs;
    } else {
      var zs := xs + ys;
      assert zs[..|zs| - 1] == xs + ys[..|ys| - 1];
      SumAppend(xs, ys[..|ys| - 1]);
    }
  }

  /** A sum of non-negative amounts is at least each of its amounts. */
  lemma {:induction false} SumBoundsElements(xs: seq<real>)
    requires forall i :: 0 <= i < |xs| ==> xs[i] >= 0.0
    ensures Sum(xs) >= 0.0
    ensures forall i :: 0 <= i < |xs| ==> xs[i] <= Sum(xs)
    decreases |xs|
  {
    if |xs| > 0 {
      var init := xs[..|xs| - 1];
      SumBoundsElements(init);
      assert forall i :: 0 <= i < |init| ==> xs[i] == init[i];
    }
  }
}
