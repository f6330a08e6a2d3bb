/** The cash-flow series of the project and its cumulative (prefix-sum) series. */
module CashFlows {
  import opened Sums

  /** The series of a project with one initial `outlay` at period 0 followed by
      `horizon` identical annual net flows, built by appending one period at a time. */
  function Series(outlay: real, annual: real, horizon: nat): (r: seq<real>)
    ensures |r| == horizon + 1
    ensures r[0] == -outlay
    ensures forall t :: 1 <= t <= horizon ==> r[t] == annual
  {
    if horizon == 0 then [-outlay] else Series(outlay, annual, horizon - 1) + [annual]
  }

  /** Running totals of `xs` continuing from `total`. */
  function Running(total: real, xs: seq<real>): (r: seq<real>)
    ensures |r| == |xs|
    ensures forall i :: 0 <= i < |xs| ==> r[i] == total + Sum(xs[..i + 1])
    decreases |xs|
  {
    if |xs| == 0 then []
    else
      SumConsPrefixes(xs);
      assert xs[..1] == [] + [xs[0]];
      var rest := Running(total + xs[0], xs[1..]);
      assert forall i :: 1 <= i < |xs| ==> xs[1..][..i] == xs[1..i + 1];
      [total + xs[0]] + rest
  }

  /** The cumulative series: element i is the sum of the flows of periods 0..i. */
  function Cumulative(xs: seq<real>): (r: seq<real>)
    ensures |r| == |xs|
    ensures forall i :: 0 <= i < |xs| ==> r[i] == Sum(xs[..i + 1])
  {
    Running(0.0, xs)
  }

  /** Each cumulative entry after the first adds that period's flow to the previous entry. */
  lemma CumulativeStep(xs: seq<real>, i: nat)
    requires i + 1 < |xs|
    ensures Cumulative(xs)[i + 1] == Cumulative(xs)[i] + xs[i + 1]
  {
    assert xs[..i + 2][..i + 1] == xs[..i + 1];
  }

  /** The last cumulative entry is the sum of the whole series. */
  lemma CumulativeLast(xs: seq<real>)
    requires |xs| > 0
    ensures Cumulative(xs)[|xs| - 1] == Sum(xs)
  {
    assert xs[..|xs|] == xs;
  }

  /** When every flow after period 0 is non-negative the cumulative series never decreases. */
  lemma {:induction false} CumulativeMonotone(xs: seq<real>, i: nat, j: nat)
    requires forall t :: 1 <= t < |xs| ==> xs[t] >= 0.0
    requires i <= j < |xs|
    ensures Cumulative(xs)[i] <= Cumulative(xs)[j]
    decreases j - i
  {
    if i < j {
      CumulativeMonotone(xs, i, j - 1);
      CumulativeStep(xs, j - 1);
    }
  }

  /** The cumulative flow of the project after `k` annual flows: the outlay is
      negative, each year adds `annual`. */
  function CumulativeAfter(outlay: real, annual: real, k: nat): real
  {
    -outlay + k as real * annual
  }

  /** Cumulative entry k of the project series is the outlay recovered by k annual flows. */
  lemma {:induction false} SeriesCumulative(outlay: real, annual: real, horizon: nat, k: nat)
    requires k <= horizon
    ensures Cumulative(Series(outlay, annual, horizon))[k] == CumulativeAfter(outlay, annual, k)
    decreases k
  {
    var xs := Series(outlay, annual, horizon);
    if k == 0 {
      assert xs[..1] == [] + [xs[0]];
    } else {
      SeriesCumulative(outlay, annual, horizon, k - 1);
      CumulativeStep(xs, k - 1);
    }
  }

  /** Every cumulative entry of the project series, in closed form. */
  lemma SeriesCumulativeAll(outlay: real, annual: real, horizon: nat)
    ensures forall k :: 0 <= k <= horizon ==>
      Cumulative(Series(outlay, annual, horizon))[k] == CumulativeAfter(outlay, annual, k)
  {
    forall k | 0 <= k <= horizon
      ensures Cumulative(Series(outlay, annual, horizon))[k] == CumulativeAfter(outlay, annual, k)
    {
      SeriesCumulative(outlay, annual, horizon, k);
    }
  }

  /** The whole project series sums to minus the outlay plus `horizon` annual flows. */
  lemma SeriesTotal(outlay: real, annual: real, horizon: nat)
    ensures Sum(Series(outlay, annual, horizon)) == -outlay + horizon as real * annual
  {
    CumulativeLast(Series(outlay, annual, horizon));
    SeriesCumulative(outlay, annual, horizon, horizon);
  }

  /** With a non-negative annual flow the project's cumulative series never decreases. */
  lemma SeriesCumulativeMonotone(outlay: real, annual: real, horizon: nat, i: nat, j: nat)
    requires annual >= 0.0
    requires i <= j <= horizon
    ensures Cumulative(Series(outlay, annual, horizon))[i] <= Cumulative(Series(outlay, annual, horizon))[j]
  {
    CumulativeMonotone(Series(outlay, annual, horizon), i, j);
  }
}
