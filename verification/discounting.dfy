/** Net present value: every period's flow divided by (1 + rate) raised to
    its period index, so the flow of period 0 is taken at face value. */
module Discounting {
  import opened Sums
  import opened CashFlows

  /** `x` raised to the natural power `n`. */
  function Pow(x: real, n: nat): real
  {
    if n == 0 then 1.0 else Pow(x, n - 1) * x
  }

  /** A power of a non-zero base is non-zero, and positive when the base is. */
  lemma {:induction false} PowSign(x: real, n: nat)
    requires x != 0.0
    ensures Pow(x, n) != 0.0
    ensures x > 0.0 ==> Pow(x, n) > 0.0
  {
    if n > 0 {
      PowSign(x, n - 1);
    }
  }

  /** Every power of one is one. */
  lemma {:induction false} PowOfOne(n: nat)
    ensures Pow(1.0, n) == 1.0
  {
    if n > 0 {
      PowOfOne(n - 1);
    }
  }

  /** Raising a larger positive base to a positive power gives a larger result. */
  lemma {:induction false} PowStrictlyMonotone(x: real, y: real, n: nat)
    requires 0.0 < x < y
    requires n >= 1
    ensures Pow(x, n) < Pow(y, n)
  {
    if n > 1 {
      PowStrictlyMonotone(x, y, n - 1);
      PowSign(x, n - 1);
      var px, py := Pow(x, n - 1), Pow(y, n - 1);
      assert px * x < py * x;
      assert py * x < py * y;
    }
  }

  /** The discount factor of period t: 1 / (1 + rate)^t. */
  function DiscountFactor(rate: real, t: nat): (r: real)
    requires rate != -1.0
    ensures r != 0.0
    ensures rate > -1.0 ==> r > 0.0
  {
    PowSign(1.0 + rate, t);
    1.0 / Pow(1.0 + rate, t)
  }

  /** Discounting undoes compounding: the factor of period t times (1 + rate)^t is one. */
  lemma DiscountFactorInverse(rate: real, t: nat)
    requires rate != -1.0
    ensures DiscountFactor(rate, t) * Pow(1.0 + rate, t) == 1.0
  {
    PowSign(1.0 + rate, t);
  }

  /** Net present value of `values` at `rate`, period t discounted by (1 + rate)^t. */
  function Npv(rate: real, values: seq<real>): real
    requires rate != -1.0
    decreases |values|
  {
    if |values| == 0 then 0.0
    else Npv(rate, values[..|values| - 1]) + values[|values| - 1] * DiscountFactor(rate, |values| - 1)
  }

  /** At a zero rate nothing is discounted: the NPV is the plain sum of the flows. */
  lemma {:induction false} NpvAtZeroRate(values: seq<real>)
    ensures Npv(0.0, values) == Sum(values)
    decreases |values|
  {
    if |values| > 0 {
      NpvAtZeroRate(values[..|values| - 1]);
      PowOfOne(|values| - 1);
    }
  }

  /** At a zero rate the NPV equals the last cumulative cash flow. */
  lemma NpvAtZeroIsLastCumulative(values: seq<real>)
    requires |values| > 0
    ensures Npv(0.0, values) == Cumulative(values)[|values| - 1]
  {
    NpvAtZeroRate(values);
    CumulativeLast(values);
  }

  /** The present value of one unit received at the end of each of periods 1..n. */
  function Annuity(rate: real, n: nat): real
    requires rate != -1.0
  {
    if n == 0 then 0.0 else Annuity(rate, n - 1) + DiscountFactor(rate, n)
  }

  /** NPV of any series whose period 0 is -outlay and whose later periods all
      carry `annual`: the outlay at face value plus `annual` times the annuity
      factor. */
  lemma {:induction false} NpvOfOutlayThenAnnual(rate: real, values: seq<real>, outlay: real, annual: real)
    requires rate != -1.0
    requires |values| >= 1 && values[0] == -outlay
    requires forall t :: 1 <= t < |values| ==> values[t] == annual
    ensures Npv(rate, values) == -outlay + annual * Annuity(rate, |values| - 1)
    decreases |values|
  {
    var n := |values| - 1;
    if n == 0 {
      assert values[..0] == [];
    } else {
      var init := values[..n];
      var d := DiscountFactor(rate, n);
      var a0 := Annuity(rate, n - 1);
      assert Npv(rate, init) == -outlay + annual * a0 by {
        assert forall t :: 1 <= t < |init| ==> init[t] == annual;
        NpvOfOutlayThenAnnual(rate, init, outlay, annual);
      }
      assert Npv(rate, values) == Npv(rate, init) + annual * d;
      AddDiscountedYear(Npv(rate, init), Npv(rate, values), outlay, annual, a0, d);
    }
  }

  /** NPV of the project series: the outlay at face value plus the annual flow
      times the annuity factor of the horizon. */
  lemma NpvOfSeries(rate: real, outlay: real, annual: real, horizon: nat)
    requires rate != -1.0
    ensures Npv(rate, Series(outlay, annual, horizon)) == -outlay + annual * Annuity(rate, horizon)
  {
    NpvOfOutlayThenAnnual(rate, Series(outlay, annual, horizon), outlay, annual);
  }

  /** One more discounted year turns the annuity form of n - 1 years into that of n years. */
  lemma AddDiscountedYear(before: real, after: real, outlay: real, annual: real, annuity: real, d: real)
    requires before == -outlay + annual * annuity
    requires after == before + annual * d
    ensures after == -outlay + annual * (annuity + d)
  {
  }

  /** For rates above -100% the discount factor of a later period strictly
      falls as the rate rises. */
  lemma DiscountFactorDecreasing(r1: real, r2: real, t: nat)
    requires -1.0 < r1 < r2
    requires t >= 1
    ensures DiscountFactor(r2, t) < DiscountFactor(r1, t)
  {
    PowStrictlyMonotone(1.0 + r1, 1.0 + r2, t);
    PowSign(1.0 + r1, t);
    var p, q := Pow(1.0 + r1, t), Pow(1.0 + r2, t);
    var d1, d2 := DiscountFactor(r1, t), DiscountFactor(r2, t);
    DiscountFactorInverse(r1, t);
    DiscountFactorInverse(r2, t);
    assert d1 * p == 1.0 && d2 * q == 1.0;
    assert d2 * p < d2 * q;
    CancelPositive(d2, d1, p);
  }

  /** A strict inequality between multiples of a positive number holds between the multiplied numbers. */
  lemma CancelPositive(a: real, b: real, p: real)
    requires p > 0.0
    requires a * p < b * p
    ensures a < b
  {
  }

  /** The annuity factor of a non-empty horizon strictly falls as the rate rises. */
  lemma {:induction false} AnnuityDecreasing(r1: real, r2: real, n: nat)
    requires -1.0 < r1 < r2
    requires n >= 1
    ensures Annuity(r2, n) < Annuity(r1, n)
  {
    DiscountFactorDecreasing(r1, r2, n);
    if n > 1 {
      AnnuityDecreasing(r1, r2, n - 1);
    }
  }

  /** The annuity factor is at least the discount factor of its first period. */
  lemma {:induction false} AnnuityAtLeastFirst(rate: real, n: nat)
    requires rate > -1.0
    requires n >= 1
    ensures Annuity(rate, n) >= DiscountFactor(rate, 1)
  {
    if n > 1 {
      AnnuityAtLeastFirst(rate, n - 1);
      assert DiscountFactor(rate, n) > 0.0;
    }
  }

  /** The project's NPV is positive when the discounted flow of its first
      year alone exceeds the outlay. */
  lemma SeriesNpvPositive(rate: real, outlay: real, annual: real, horizon: nat)
    requires rate > -1.0
    requires annual >= 0.0
    requires horizon >= 1
    requires annual > outlay * (1.0 + rate)
    ensures -outlay + annual * Annuity(rate, horizon) > 0.0
  {
    AnnuityAtLeastFirst(rate, horizon);
    var d := DiscountFactor(rate, 1);
    DiscountFactorInverse(rate, 1);
    assert Pow(1.0 + rate, 1) == 1.0 + rate;
    assert annual * d > outlay * (1.0 + rate) * d;
    assert outlay * (1.0 + rate) * d == outlay;
    assert annual * Annuity(rate, horizon) >= annual * d;
  }

  /** With a positive annual flow the project's NPV strictly falls as the rate rises. */
  lemma SeriesNpvDecreasing(r1: real, r2: real, outlay: real, annual: real, horizon: nat)
    requires -1.0 < r1 < r2
    requires annual > 0.0
    requires horizon >= 1
    ensures Npv(r2, Series(outlay, annual, horizon)) < Npv(r1, Series(outlay, annual, horizon))
  {
    NpvOfSeries(r1, outlay, annual, horizon);
    NpvOfSeries(r2, outlay, annual, horizon);
    AnnuityDecreasing(r1, r2, horizon);
    assert annual * Annuity(r2, horizon) < annual * Annuity(r1, horizon);
  }

  /** A rate above -100% at which the NPV of `values` vanishes. */
  predicate IsInternalRate(rate: real, values: seq<real>)
  {
    rate > -1.0 && Npv(rate, values) == 0.0
  }

  /** The project series has at most one internal rate of return above -100%
      when its annual flow is positive. */
  lemma InternalRateUnique(r1: real, r2: real, outlay: real, annual: real, horizon: nat)
    requires annual > 0.0
    requires horizon >= 1
    requires IsInternalRate(r1, Series(outlay, annual, horizon))
    requires IsInternalRate(r2, Series(outlay, annual, horizon))
    ensures r1 == r2
  {
    if r1 < r2 {
      SeriesNpvDecreasing(r1, r2, outlay, annual, horizon);
    } else if r2 < r1 {
      SeriesNpvDecreasing(r2, r1, outlay, annual, horizon);
    }
  }
}
