/** The lime-plant scenario the analysis is run on, and the figures it yields
    in exact arithmetic. */
module LimePlant {
  import opened Wrappers
  import opened LineItems
  import opened CashFlows
  import opened Discounting
  import opened FinancialModel

  /** The initial investment breakdown, in the order it is listed. */
  const Investments: seq<LineItem> := [
    LineItem("Buildings", 820000000.0),
    LineItem("Limestone Equipment", 451185381.0),
    LineItem("Staff Salaries (Year 1)", 643000000.0),
    LineItem("Laboratory Equipment", 156639720.0),
    LineItem("Lime Granulation Equipment", 841803796.0),
    LineItem("Training", 60000000.0),
    LineItem("Utilities Setup", 184500000.0),
    LineItem("Laboratory Installation", 20136005.0),
    LineItem("Factory Installation", 34716250.0),
    LineItem("Packaging (6 months)", 874800000.0),
    LineItem("Fertilizer Plates", 30000000.0),
    LineItem("Market Research", 214000000.0),
    LineItem("Contingency (5%)", 216539058.0)]

  /** 600 tons a day for 323.62 working days at 103 per kilogram, 13% discount
      rate, ten years after the initial outlay. */
  const Plant: Scenario := Scenario(
    investments := Investments,
    dailyProduction := 600.0,
    pricePerKg := 103.0,
    workingDaysPerYear := 323.62,
    staffSalaries := 643000000.0,
    utilities := 24000000.0,
    packagingSixMonths := 874800000.0,
    maintenanceRate := 0.02,
    marketing := 214000000.0,
    otherExpenses := 60180000.0,
    discountRate := 0.13,
    horizon := 10)

  /** The first five investment items total 2,912,628,897. */
  lemma InvestmentFirstFive()
    ensures Total(Investments[..5]) == 2912628897.0
  {
    assert Total(Investments[..0]) == 0.0 by { assert Investments[..0] == []; }
    assert Total(Investments[..1]) == 820000000.0 by { TotalPrefixStep(Investments, 0); }
    assert Total(Investments[..2]) == 1271185381.0 by { TotalPrefixStep(Investments, 1); }
    assert Total(Investments[..3]) == 1914185381.0 by { TotalPrefixStep(Investments, 2); }
    assert Total(Investments[..4]) == 2070825101.0 by { TotalPrefixStep(Investments, 3); }
    assert Total(Investments[..5]) == 2912628897.0 by { TotalPrefixStep(Investments, 4); }
  }

  /** The first nine investment items total 3,211,981,152. */
  lemma InvestmentFirstNine()
    ensures Total(Investments[..9]) == 3211981152.0
  {
    InvestmentFirstFive();
    assert Total(Investments[..6]) == 2972628897.0 by { TotalPrefixStep(Investments, 5); }
    assert Total(Investments[..7]) == 3157128897.0 by { TotalPrefixStep(Investments, 6); }
    assert Total(Investments[..8]) == 3177264902.0 by { TotalPrefixStep(Investments, 7); }
    assert Total(Investments[..9]) == 3211981152.0 by { TotalPrefixStep(Investments, 8); }
  }

  /** The investment items add up to 4,547,320,210. */
  lemma PlantInvestment()
    ensures TotalInvestment(Plant) == 4547320210.0
  {
    InvestmentFirstNine();
    assert Total(Investments[..10]) == 4086781152.0 by { TotalPrefixStep(Investments, 9); }
    assert Total(Investments[..11]) == 4116781152.0 by { TotalPrefixStep(Investments, 10); }
    assert Total(Investments[..12]) == 4330781152.0 by { TotalPrefixStep(Investments, 11); }
    assert Total(Investments[..13]) == 4547320210.0 by { TotalPrefixStep(Investments, 12); }
    assert Investments[..13] == Investments;
  }

  /** 194,172 tons a year, sold for 19,999,716,000. */
  lemma PlantRevenue()
    ensures AnnualProduction(Plant) == 194172.0
    ensures AnnualRevenue(Plant) == 19999716000.0
  {
  }

  /** Operating costs of 2,781,726,404.2 a year, of which maintenance is 90,946,404.2. */
  lemma PlantOperatingCosts()
    ensures OperatingCosts(Plant)[3].amount == 90946404.2
    ensures TotalOpex(Plant) == 2781726404.2
  {
    PlantInvestment();
    OpexDecomposition(Plant);
  }

  /** The net annual cash flow is 17,217,989,595.8. */
  lemma PlantAnnualCashFlow()
    ensures AnnualCashFlow(Plant) == 17217989595.8
  {
    PlantRevenue();
    PlantOperatingCosts();
  }

  /** The plant pays back after one year: the first annual flow already
      exceeds the investment. The cash-flow table has the 11 rows of years 0
      to 10. */
  lemma PlantPayback(irr: real)
    ensures Calculate(Plant, irr).Success?
    ensures Calculate(Plant, irr).value.summary.payback == 1
    ensures |Calculate(Plant, irr).value.cashFlows| == 11
    ensures Calculate(Plant, irr).value.cashFlows[1].cumulative == 12670669385.8
  {
    PlantInvestment();
    PlantAnnualCashFlow();
    var outlay, annual := TotalInvestment(Plant), AnnualCashFlow(Plant);
    assert CumulativeAfter(outlay, annual, 0) < 0.0;
    assert CumulativeAfter(outlay, annual, 1) == 12670669385.8;
    CalculatePaybackIsFirst(Plant, irr, 1);
  }

  /** The plant's results table reports the investment, revenue, operating
      costs, net annual flow and payback period under their names. */
  lemma PlantMetrics(irr: real)
    ensures Calculate(Plant, irr).Success?
    ensures var rows := Calculate(Plant, irr).value.metrics;
      && |rows| == 7
      && rows[0] == MetricRow(InitialInvestment, 4547320210.0)
      && rows[1] == MetricRow(AnnualRevenueMetric, 19999716000.0)
      && rows[2] == MetricRow(OperatingCostsMetric, 2781726404.2)
      && rows[3] == MetricRow(NetAnnualCashFlow, 17217989595.8)
      && rows[5] == MetricRow(InternalRate, irr)
      && rows[6] == MetricRow(PaybackYears, 1.0)
  {
    PlantPayback(irr);
    ReportedMetrics(Plant, irr);
    PlantInvestment();
    PlantRevenue();
    PlantOperatingCosts();
    PlantAnnualCashFlow();
  }

  /** The plant's NPV at 13% is positive: the first year's discounted flow
      alone exceeds the investment. */
  lemma PlantNpvPositive()
    ensures Npv(Plant.discountRate, CashFlowSeries(Plant)) > 0.0
  {
    PlantInvestment();
    PlantAnnualCashFlow();
    NpvPositiveWhenFirstYearCovers(Plant);
  }

  /** At most one rate above -100% makes the plant's NPV vanish, so the IRR
      carried into the results table is well defined when it exists. */
  lemma PlantInternalRateUnique(r1: real, r2: real)
    requires IsInternalRate(r1, CashFlowSeries(Plant))
    requires IsInternalRate(r2, CashFlowSeries(Plant))
    ensures r1 == r2
  {
    PlantAnnualCashFlow();
    InternalRateUnique(r1, r2, TotalInvestment(Plant), AnnualCashFlow(Plant), 10);
  }

  /** Selling at price zero, the plant never recovers its investment, and the
      analysis reports that instead of a payback period. */
  lemma UnsoldPlantNeverPaysBack(irr: real)
    ensures Calculate(Plant.(pricePerKg := 0.0), irr) == Failure(PaybackNeverReached)
  {
    var s := Plant.(pricePerKg := 0.0);
    PlantInvestment();
    assert TotalInvestment(s) == TotalInvestment(Plant);
    OpexDecomposition(s);
    NoPaybackWithoutPositiveFlow(s, irr);
  }
}
