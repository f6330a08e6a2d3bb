/** The capital-budgeting computation of one business scenario: total
    investment, revenue, operating costs, the cash-flow series, its NPV and
    payback period, and the two result tables. The scenario's constants are a
    parameter so that other scenarios can be evaluated. */
module FinancialModel {
  import opened Wrappers
  import opened LineItems
  import opened CashFlows
  import opened Payback
  import opened Discounting

  /** Production is counted in tons, the price is per kilogram. */
  const KgPerTon: real := 1000.0

  /** The packaging figure covers six months; a year needs two of them. */
  const PackagingPeriodsPerYear: real := 2.0

  /** The fixed inputs of the computation. */
  datatype Scenario = Scenario(
    investments: seq<LineItem>,   // initial investment breakdown
    dailyProduction: real,        // tons per day
    pricePerKg: real,
    workingDaysPerYear: real,
    staffSalaries: real,
    utilities: real,
    packagingSixMonths: real,     // packaging cost of half a year
    maintenanceRate: real,        // fraction of the total investment spent on maintenance each year
    marketing: real,
    otherExpenses: real,
    discountRate: real,
    horizon: nat)                 // number of annual periods after period 0

  function TotalInvestment(s: Scenario): real
  {
    Total(s.investments)
  }

  /** Tons produced per year. */
  function AnnualProduction(s: Scenario): real
  {
    s.dailyProduction * s.workingDaysPerYear
  }

  function AnnualRevenue(s: Scenario): real
  {
    AnnualProduction(s) * KgPerTon * s.pricePerKg
  }

  /** The six annual operating-cost items; packaging and maintenance are derived. */
  function OperatingCosts(s: Scenario): seq<LineItem>
  {
    [ LineItem("Staff Salaries", s.staffSalaries),
      LineItem("Utilities", s.utilities),
      LineItem("Packaging Materials", s.packagingSixMonths * PackagingPeriodsPerYear),
      LineItem("Maintenance", TotalInvestment(s) * s.maintenanceRate),
      LineItem("Marketing", s.marketing),
      LineItem("Other Operating Expenses", s.otherExpenses) ]
  }

  function TotalOpex(s: Scenario): real
  {
    Total(OperatingCosts(s))
  }

  /** Net cash flow of every year after period 0. */
  function AnnualCashFlow(s: Scenario): real
  {
    AnnualRevenue(s) - TotalOpex(s)
  }

  /** Period 0 pays the total investment; each later period brings the annual net flow. */
  function CashFlowSeries(s: Scenario): seq<real>
  {
    Series(TotalInvestment(s), AnnualCashFlow(s), s.horizon)
  }

  /** The operating costs are the five literal items plus two packaging halves
      plus the maintenance share of the total investment. */
  lemma OpexDecomposition(s: Scenario)
    ensures TotalOpex(s) == s.staffSalaries + s.utilities + 2.0 * s.packagingSixMonths
      + s.maintenanceRate * TotalInvestment(s) + s.marketing + s.otherExpenses
  {
    var items := OperatingCosts(s);
    TotalAppend(items[..5], items[5]);
    TotalAppend(items[..4], items[4]);
    TotalAppend(items[..3], items[3]);
    TotalAppend(items[..2], items[2]);
    TotalAppend(items[..1], items[1]);
    TotalAppend(items[..0], items[0]);
    assert items[..5] + [items[5]] == items;
    assert items[..4] + [items[4]] == items[..5];
    assert items[..3] + [items[3]] == items[..4];
    assert items[..2] + [items[2]] == items[..3];
    assert items[..1] + [items[1]] == items[..2];
    assert items[..0] + [items[0]] == items[..1];
  }

  // ----- result tables -----

  /** The seven scalar results of the analysis. */
  datatype Summary = Summary(
    totalInvestment: real,
    annualRevenue: real,
    totalOpex: real,
    annualCashFlow: real,
    npv: real,
    irr: real,
    payback: nat)

  /** The metrics of the results table, in row order. */
  datatype Metric =
    | InitialInvestment | AnnualRevenueMetric | OperatingCostsMetric
    | NetAnnualCashFlow | NetPresentValue | InternalRate | PaybackYears

  /** The name a metric is reported under. */
  function Label(m: Metric): string
  {
    match m
    case InitialInvestment => "Initial Investment (RWF)"
    case AnnualRevenueMetric => "Annual Revenue (RWF)"
    case OperatingCostsMetric => "Annual Operating Costs (RWF)"
    case NetAnnualCashFlow => "Net Annual Cash Flow (RWF)"
    case NetPresentValue => "NPV (RWF)"
    case InternalRate => "IRR"
    case PaybackYears => "Payback Period (Years)"
  }

  datatype MetricRow = MetricRow(metric: Metric, value: real)

  datatype CashFlowRow = CashFlowRow(year: nat, cashFlow: real, cumulative: real)

  datatype Report = Report(summary: Summary, metrics: seq<MetricRow>, cashFlows: seq<CashFlowRow>)

  /** The payback search found no period with a non-negative cumulative flow. */
  datatype Error = PaybackNeverReached

  /** The names of the results table's rows, in row order. */
  const MetricLabels: seq<string> := [
    "Initial Investment (RWF)", "Annual Revenue (RWF)", "Annual Operating Costs (RWF)",
    "Net Annual Cash Flow (RWF)", "NPV (RWF)", "IRR", "Payback Period (Years)"]

  /** The row order of the results table. */
  const MetricOrder: seq<Metric> := [
    InitialInvestment, AnnualRevenueMetric, OperatingCostsMetric,
    NetAnnualCashFlow, NetPresentValue, InternalRate, PaybackYears]

  /** The summary figure a metric reports. */
  function Figure(sm: Summary, m: Metric): real
  {
    match m
    case InitialInvestment => sm.totalInvestment
    case AnnualRevenueMetric => sm.annualRevenue
    case OperatingCostsMetric => sm.totalOpex
    case NetAnnualCashFlow => sm.annualCashFlow
    case NetPresentValue => sm.npv
    case InternalRate => sm.irr
    case PaybackYears => sm.payback as real
  }

  /** The results table: one row per metric, in the order of `MetricOrder`. */
  function MetricsTable(sm: Summary): (r: seq<MetricRow>)
    ensures |r| == |MetricOrder|
    ensures forall i :: 0 <= i < |r| ==> r[i].metric == MetricOrder[i]
    ensures forall i :: 0 <= i < |r| ==> r[i].value == Figure(sm, r[i].metric)
    ensures forall i :: 0 <= i < |r| ==> Label(r[i].metric) == MetricLabels[i]
  {
    [ MetricRow(InitialInvestment, sm.totalInvestment),
      MetricRow(AnnualRevenueMetric, sm.annualRevenue),
      MetricRow(OperatingCostsMetric, sm.totalOpex),
      MetricRow(NetAnnualCashFlow, sm.annualCashFlow),
      MetricRow(NetPresentValue, sm.npv),
      MetricRow(InternalRate, sm.irr),
      MetricRow(PaybackYears, sm.payback as real) ]
  }

  /** The value of the first row of metric `m`, if any. */
  function Lookup(rows: seq<MetricRow>, m: Metric): (r: Option<real>)
    ensures r.None? <==> forall i :: 0 <= i < |rows| ==> rows[i].metric != m
    ensures r.Some? ==> exists i :: 0 <= i < |rows| && rows[i] == MetricRow(m, r.value)
    decreases |rows|
  {
    if |rows| == 0 then None
    else if rows[0].metric == m then Some(rows[0].value)
    else
      var rest := Lookup(rows[1..], m);
      assert forall i :: 1 <= i < |rows| ==> rows[i] == rows[1..][i - 1];
      rest
  }

  /** Every metric appears exactly once in the results table. */
  lemma MetricOrderComplete(m: Metric)
    ensures exists i :: 0 <= i < |MetricOrder| && MetricOrder[i] == m
    ensures forall i, j :: 0 <= i < j < |MetricOrder| ==> MetricOrder[i] != MetricOrder[j]
  {
    match m
    case InitialInvestment => assert MetricOrder[0] == m;
    case AnnualRevenueMetric => assert MetricOrder[1] == m;
    case OperatingCostsMetric => assert MetricOrder[2] == m;
    case NetAnnualCashFlow => assert MetricOrder[3] == m;
    case NetPresentValue => assert MetricOrder[4] == m;
    case InternalRate => assert MetricOrder[5] == m;
    case PaybackYears => assert MetricOrder[6] == m;
  }

  /** Reading the results table back by metric recovers every summary figure. */
  lemma MetricsTableLookup(sm: Summary, m: Metric)
    ensures Lookup(MetricsTable(sm), m) == Some(Figure(sm, m))
  {
    var rows := MetricsTable(sm);
    MetricOrderComplete(m);
    var i :| 0 <= i < |MetricOrder| && MetricOrder[i] == m;
    assert rows[i].metric == m;
  }

  /** The cash-flow table: row i pairs year i with the flow and the cumulative flow of period i. */
  function CashFlowTable(flows: seq<real>, cumulative: seq<real>): (r: seq<CashFlowRow>)
    requires |flows| == |cumulative|
    ensures |r| == |flows|
  {
    seq(|flows|, i requires 0 <= i < |flows| => CashFlowRow(i, flows[i], cumulative[i]))
  }

  function Years(rows: seq<CashFlowRow>): seq<nat>
  {
    seq(|rows|, i requires 0 <= i < |rows| => rows[i].year)
  }

  function FlowColumn(rows: seq<CashFlowRow>): seq<real>
  {
    seq(|rows|, i requires 0 <= i < |rows| => rows[i].cashFlow)
  }

  function CumulativeColumn(rows: seq<CashFlowRow>): seq<real>
  {
    seq(|rows|, i requires 0 <= i < |rows| => rows[i].cumulative)
  }

  /** The columns of the cash-flow table give back the two series it was built
      from, and its years count 0, 1, 2, ... */
  lemma CashFlowTableColumns(flows: seq<real>, cumulative: seq<real>)
    requires |flows| == |cumulative|
    ensures FlowColumn(CashFlowTable(flows, cumulative)) == flows
    ensures CumulativeColumn(CashFlowTable(flows, cumulative)) == cumulative
    ensures forall i :: 0 <= i < |flows| ==> Years(CashFlowTable(flows, cumulative))[i] == i
  {
  }

  // ----- the whole computation -----

  /** Every cumulative entry of the scenario's series, in closed form. */
  lemma ScenarioCumulative(s: Scenario)
    ensures |Cumulative(CashFlowSeries(s))| == s.horizon + 1
    ensures forall k :: 0 <= k <= s.horizon ==>
      Cumulative(CashFlowSeries(s))[k] == CumulativeAfter(TotalInvestment(s), AnnualCashFlow(s), k)
  {
    SeriesCumulativeAll(TotalInvestment(s), AnnualCashFlow(s), s.horizon);
  }

  /** The payback search over the scenario's cumulative series finds the
      least number of annual flows that recovers the investment, and finds
      nothing exactly when no number within the horizon does. */
  lemma ScenarioPayback(s: Scenario)
    ensures PaybackPeriod(Cumulative(CashFlowSeries(s))).None? <==>
      forall k :: 0 <= k <= s.horizon ==> CumulativeAfter(TotalInvestment(s), AnnualCashFlow(s), k) < 0.0
    ensures PaybackPeriod(Cumulative(CashFlowSeries(s))).Some? ==>
      var p := PaybackPeriod(Cumulative(CashFlowSeries(s))).value;
      && p <= s.horizon
      && CumulativeAfter(TotalInvestment(s), AnnualCashFlow(s), p) >= 0.0
      && forall k :: 0 <= k < p ==> CumulativeAfter(TotalInvestment(s), AnnualCashFlow(s), k) < 0.0
  {
    ScenarioCumulative(s);
  }

  /** The scenario's NPV: the investment at face value plus the annual flow
      times the annuity factor of the horizon. */
  lemma ScenarioNpv(s: Scenario)
    requires s.discountRate != -1.0
    ensures Npv(s.discountRate, CashFlowSeries(s))
         == -TotalInvestment(s) + AnnualCashFlow(s) * Annuity(s.discountRate, s.horizon)
  {
    NpvOfSeries(s.discountRate, TotalInvestment(s), AnnualCashFlow(s), s.horizon);
  }

  /** The cash-flow table of the scenario in closed form. */
  lemma ScenarioCashFlowTable(s: Scenario)
    ensures var t := CashFlowTable(CashFlowSeries(s), Cumulative(CashFlowSeries(s)));
      && |t| == s.horizon + 1
      && forall k :: 0 <= k <= s.horizon ==>
           t[k] == CashFlowRow(k, CashFlowSeries(s)[k], CumulativeAfter(TotalInvestment(s), AnnualCashFlow(s), k))
  {
    ScenarioCumulative(s);
  }

  /** The analysis of scenario `s`. The internal rate of return is computed
      outside the model and only carried into the results table as `irr`. */
  function Calculate(s: Scenario, irr: real): (r: Result<Report, Error>)
    requires s.discountRate != -1.0
    ensures r.Failure? <==>
      forall k :: 0 <= k <= s.horizon ==> CumulativeAfter(TotalInvestment(s), AnnualCashFlow(s), k) < 0.0
    ensures r.Success? ==>
      var sm := r.value.summary;
      && sm.totalInvestment == TotalInvestment(s)
      && sm.annualRevenue == AnnualRevenue(s)
      && sm.totalOpex == TotalOpex(s)
      && sm.annualCashFlow == AnnualCashFlow(s)
      && sm.payback <= s.horizon
      && CumulativeAfter(TotalInvestment(s), AnnualCashFlow(s), sm.payback) >= 0.0
      && (forall k :: 0 <= k < sm.payback ==> CumulativeAfter(TotalInvestment(s), AnnualCashFlow(s), k) < 0.0)
      && sm.npv == -TotalInvestment(s) + AnnualCashFlow(s) * Annuity(s.discountRate, s.horizon)
      && sm.irr == irr
      && r.value.metrics == MetricsTable(sm)
      && |r.value.cashFlows| == s.horizon + 1
      && (forall k :: 0 <= k <= s.horizon ==>
            r.value.cashFlows[k] == CashFlowRow(k, CashFlowSeries(s)[k],
                                                CumulativeAfter(TotalInvestment(s), AnnualCashFlow(s), k)))
  {
    var flows := CashFlowSeries(s);
    var cumulative := Cumulative(flows);
    ScenarioPayback(s);
    ScenarioCashFlowTable(s);
    ScenarioNpv(s);
    match PaybackPeriod(cumulative)
    case None => Failure(PaybackNeverReached)
    case Some(p) =>
      var sm := Summary(TotalInvestment(s), AnnualRevenue(s), TotalOpex(s), AnnualCashFlow(s),
                        Npv(s.discountRate, flows), irr, p);
      Success(Report(sm, MetricsTable(sm), CashFlowTable(flows, cumulative)))
  }

  /** The results table of a successful analysis reports the scenario's
      investment, revenue, operating costs and net annual flow, then the NPV,
      the IRR and the payback period, in that order. */
  lemma ReportedMetrics(s: Scenario, irr: real)
    requires s.discountRate != -1.0
    requires Calculate(s, irr).Success?
    ensures var rows := Calculate(s, irr).value.metrics;
      var sm := Calculate(s, irr).value.summary;
      && |rows| == 7
      && rows[0] == MetricRow(InitialInvestment, TotalInvestment(s))
      && rows[1] == MetricRow(AnnualRevenueMetric, AnnualRevenue(s))
      && rows[2] == MetricRow(OperatingCostsMetric, TotalOpex(s))
      && rows[3] == MetricRow(NetAnnualCashFlow, AnnualCashFlow(s))
      && rows[4] == MetricRow(NetPresentValue, Npv(s.discountRate, CashFlowSeries(s)))
      && rows[5] == MetricRow(InternalRate, irr)
      && rows[6] == MetricRow(PaybackYears, sm.payback as real)
  {
    var flows := CashFlowSeries(s);
    var p := PaybackPeriod(Cumulative(flows)).value;
    var sm := Summary(TotalInvestment(s), AnnualRevenue(s), TotalOpex(s), AnnualCashFlow(s),
                      Npv(s.discountRate, flows), irr, p);
    assert Calculate(s, irr).value.summary == sm;
    assert Calculate(s, irr).value.metrics == MetricsTable(sm);
  }

  /** Conversely, a period within the horizon that first recovers the
      investment is the payback period the analysis reports. */
  lemma CalculatePaybackIsFirst(s: Scenario, irr: real, p: nat)
    requires s.discountRate != -1.0
    requires p <= s.horizon
    requires CumulativeAfter(TotalInvestment(s), AnnualCashFlow(s), p) >= 0.0
    requires forall k :: 0 <= k < p ==> CumulativeAfter(TotalInvestment(s), AnnualCashFlow(s), k) < 0.0
    ensures Calculate(s, irr).Success?
    ensures Calculate(s, irr).value.summary.payback == p
  {
    var r := Calculate(s, irr);
    assert r.Success?;
    var q := r.value.summary.payback;
    assert !(q < p);
    assert !(p < q);
  }

  /** The scenario's NPV is positive when the first year's discounted net
      flow alone exceeds the investment. */
  lemma NpvPositiveWhenFirstYearCovers(s: Scenario)
    requires s.discountRate > -1.0
    requires s.horizon >= 1
    requires AnnualCashFlow(s) >= 0.0
    requires AnnualCashFlow(s) > TotalInvestment(s) * (1.0 + s.discountRate)
    ensures Npv(s.discountRate, CashFlowSeries(s)) > 0.0
  {
    ScenarioNpv(s);
    SeriesNpvPositive(s.discountRate, TotalInvestment(s), AnnualCashFlow(s), s.horizon);
  }

  /** A positive investment that the annual flow never starts to repay is
      reported as an unreached payback, never as a period index. */
  lemma NoPaybackWithoutPositiveFlow(s: Scenario, irr: real)
    requires s.discountRate != -1.0
    requires TotalInvestment(s) > 0.0
    requires AnnualCashFlow(s) <= 0.0
    ensures Calculate(s, irr) == Failure(PaybackNeverReached)
  {
    var c := TotalInvestment(s);
    var a := AnnualCashFlow(s);
    assert forall k :: 0 <= k <= s.horizon ==> CumulativeAfter(c, a, k) < 0.0 by {
      forall k: nat | k <= s.horizon
        ensures CumulativeAfter(c, a, k) < 0.0
      {
        assert k as real * a <= 0.0;
      }
    }
    assert PaybackPeriod(Cumulative(CashFlowSeries(s))).None? by {
      ScenarioPayback(s);
    }
  }
}
