/** The payback period: the first period whose cumulative cash flow is non-negative. */
module Payback {
  import opened Wrappers

  /** `r` lists, in strictly ascending order, exactly the indices of `cum`
      whose value is non-negative. */
  predicate ListsNonNegative(cum: seq<real>, r: seq<nat>)
  {
    && (forall k :: 0 <= k < |r| ==> r[k] < |cum| && cum[r[k]] >= 0.0)
    && (forall i :: 0 <= i < |cum| && cum[i] >= 0.0 ==> i in r)
    && (forall k, l :: 0 <= k < l < |r| ==> r[k] < r[l])
  }

  /** The indices whose cumulative value is non-negative, in ascending order,
      as a vectorised "where value >= 0" query yields them. */
  function NonNegativeIndices(cum: seq<real>): (r: seq<nat>)
    ensures ListsNonNegative(cum, r)
    decreases |cum|
  {
    if |cum| == 0 then []
    else
      var earlier := NonNegativeIndices(cum[..|cum| - 1]);
      ListsNonNegativeExtend(cum, earlier);
      earlier + (if cum[|cum| - 1] >= 0.0 then [|cum| - 1] else [])
  }

  /** Extending the series by one entry extends its index list by that entry's
      index exactly when the entry is non-negative. */
  lemma ListsNonNegativeExtend(cum: seq<real>, earlier: seq<nat>)
    requires |cum| > 0
    requires ListsNonNegative(cum[..|cum| - 1], earlier)
    ensures ListsNonNegative(cum, earlier + (if cum[|cum| - 1] >= 0.0 then [|cum| - 1] else []))
  {
    var last := |cum| - 1;
    var init := cum[..last];
    assert forall i :: 0 <= i < |init| ==> init[i] == cum[i];
    if cum[last] >= 0.0 {
      var r := earlier + [last];
      assert forall k :: 0 <= k < |earlier| ==> r[k] == earlier[k] && r[k] < last;
      assert r[|earlier|] == last;
    } else {
      assert earlier + [] == earlier;
    }
  }

  /** `p` is the first period at which the cumulative cash flow is non-negative. */
  predicate IsFirstNonNegative(cum: seq<real>, p: nat)
  {
    p < |cum| && cum[p] >= 0.0 && forall j :: 0 <= j < p ==> cum[j] < 0.0
  }

  /** The payback period: the first entry of the non-negative indices, or
      `None` when there is none (the point where a lookup of element [0] of an
      empty index list fails). */
  function PaybackPeriod(cum: seq<real>): (r: Option<nat>)
    ensures r.Some? ==> IsFirstNonNegative(cum, r.value)
    ensures r.None? <==> forall j :: 0 <= j < |cum| ==> cum[j] < 0.0
  {
    var found := NonNegativeIndices(cum);
    assert ListsNonNegative(cum, found);
    if |found| == 0 then None else Some(found[0])
  }

  /** At most one period is the first non-negative one. */
  lemma FirstNonNegativeUnique(cum: seq<real>, p: nat, q: nat)
    requires IsFirstNonNegative(cum, p) && IsFirstNonNegative(cum, q)
    ensures p == q
  {
  }

  /** The payback period is exactly the first non-negative period, whenever one exists. */
  lemma PaybackPeriodIsFirst(cum: seq<real>, p: nat)
    ensures PaybackPeriod(cum) == Some(p) <==> IsFirstNonNegative(cum, p)
  {
    if IsFirstNonNegative(cum, p) {
      FirstNonNegativeUnique(cum, p, PaybackPeriod(cum).value);
    }
  }

  /** Once paid back, a never-decreasing cumulative series stays paid back. */
  lemma PaidBackStaysPaidBack(cum: seq<real>, j: nat)
    requires forall a, b :: 0 <= a <= b < |cum| ==> cum[a] <= cum[b]
    requires PaybackPeriod(cum).Some?
    requires PaybackPeriod(cum).value <= j < |cum|
    ensures cum[j] >= 0.0
  {
  }
}
