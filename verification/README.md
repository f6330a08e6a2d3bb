# Lime-plant capital budgeting, modelled in Dafny

This project models `calculate_financials` in `financial.py`. The function
evaluates one business scenario, a lime production plant. It does this:

1. sums the thirteen initial-investment items into a total investment;
2. derives annual production (tons/day × working days) and revenue
   (production × 1000 kg/ton × price per kg);
3. sums six operating-cost items. Packaging is twice a six-month figure and
   maintenance is 2% of the total investment;
4. builds an 11-period cash-flow series. Period 0 is minus the investment and
   periods 1..10 each carry the annual net flow (revenue − operating costs);
5. takes the cumulative (prefix) sums of that series;
6. finds the payback period, the first period whose cumulative flow is ≥ 0;
7. evaluates the NPV as Σ flow[t] / (1 + r)^t, with period 0 taken at face value;
8. lays the results out as a 7-row metrics table and an 11-row cash-flow table.
   The metrics table has one value column, which the source builds as a
   float column, so the payback period appears there as a real (1.0 for the
   plant). The model's table does the same.

Arithmetic is exact (`real`). The scenario's constants are a `Scenario`
value, so the same functions evaluate any scenario. `LimePlant.Plant` holds
the literal constants of the source.

Modules:

- `Sums`: the running-total sum of a sequence.
- `LineItems`: named cost items and their totals.
- `CashFlows`: the project series and its cumulative series.
- `Payback`: the "first non-negative index" search.
- `Discounting`: NPV, the annuity factor, and the uniqueness of an internal rate.
- `FinancialModel`: the scenario, the derived figures, the two tables, and `Calculate`, the whole pipeline.
- `LimePlant`: the source's scenario and the exact figures it yields.

The payback search follows the code. The test is `cumulative >= 0`, even
though the comment beside it says "positive". If no entry qualifies, the
source fails: indexing `[0][0]` into an empty index list raises an error.
The model reports this as `Failure(PaybackNeverReached)`, never as a period
index.

## Model

| member | source | states |
|---|---|---|
| LineItems.TotalPrefixStep | financial.py:24 | Summing a breakdown adds each item's amount to the running total of the items listed before it |
| LineItems.TotalConcat | financial.py:24 | The total of two breakdowns listed together is the sum of their totals |
| LineItems.TotalBoundsItems | financial.py:24 | A breakdown of non-negative amounts has a non-negative total that is at least each of its items |
| LimePlant.PlantInvestment | financial.py:7-24 | The thirteen investment items total exactly 4,547,320,210 |
| LimePlant.PlantRevenue | financial.py:27-33 | 600 t/day × 323.62 days is 194,172 t; × 1000 kg/t × 103 per kg is 19,999,716,000 |
| FinancialModel.OpexDecomposition | financial.py:36-45 | Operating costs are staff + utilities + 2 × six-month packaging + maintenance rate × total investment + marketing + other |
| LimePlant.PlantOperatingCosts | financial.py:36-45 | Maintenance is 90,946,404.2 and operating costs total exactly 2,781,726,404.2 |
| LimePlant.PlantAnnualCashFlow | financial.py:48 | The annual net cash flow is revenue minus operating costs, 17,217,989,595.8 |
| CashFlows.Series | financial.py:52-53 | The series has horizon + 1 periods, period 0 is minus the outlay, and every period 1..horizon is the annual flow |
| CashFlows.Running | financial.py:62 | Entry i of a running total started at t is t plus the sum of elements 0..i |
| CashFlows.Cumulative | financial.py:62 | The cumulative series has the input's length, and entry i is the sum of periods 0..i |
| CashFlows.CumulativeStep | financial.py:62 | Each cumulative entry after the first is the previous entry plus that period's flow |
| CashFlows.CumulativeLast | financial.py:62 | The last cumulative entry is the sum of the whole series |
| CashFlows.CumulativeMonotone | financial.py:62 | If every flow after period 0 is non-negative, the cumulative series never decreases |
| CashFlows.SeriesCumulative | financial.py:52-62 | Cumulative entry k of the project series is −outlay + k × annual |
| CashFlows.SeriesCumulativeAll | financial.py:52-62 | The closed form −outlay + k × annual holds for every period k of the horizon |
| CashFlows.SeriesTotal | financial.py:52-53 | The project series sums to −outlay + horizon × annual |
| CashFlows.SeriesCumulativeMonotone | financial.py:52-62 | If the annual flow is non-negative, the project's cumulative series never decreases |
| Payback.NonNegativeIndices | financial.py:63 | The non-negative query yields exactly the in-range indices whose value is ≥ 0, in strictly ascending order |
| Payback.ListsNonNegativeExtend | financial.py:63 | Adding one entry adds its index to the end of the list exactly when the entry is ≥ 0, and keeps the list exact and ascending |
| Payback.PaybackPeriod | financial.py:63 | A found period is in range, has a cumulative value ≥ 0, and every earlier one is < 0. Nothing is found exactly when every entry is < 0 |
| Payback.FirstNonNegativeUnique | financial.py:63 | At most one period is the first non-negative one |
| Payback.PaybackPeriodIsFirst | financial.py:63 | The search returns p if and only if p is the first non-negative period |
| Payback.PaidBackStaysPaidBack | financial.py:62-63 | If the cumulative series never decreases, every period from the payback period on is non-negative |
| Discounting.DiscountFactor | financial.py:56 | The discount factor of period t is non-zero, and positive for rates above −100% |
| Discounting.DiscountFactorInverse | financial.py:56 | The factor of period t times (1 + rate)^t is one |
| Discounting.NpvAtZeroRate | financial.py:56 | At rate 0 the NPV is the undiscounted sum of the flows |
| Discounting.NpvAtZeroIsLastCumulative | financial.py:56-62 | At rate 0 the NPV equals the last cumulative cash flow |
| Discounting.NpvOfOutlayThenAnnual | financial.py:52-56 | Any series of −outlay followed by equal annual flows has NPV −outlay + annual × the annuity factor of its length |
| Discounting.NpvOfSeries | financial.py:52-56 | The NPV of the project series is −outlay (undiscounted) + annual × the annuity factor of the horizon |
| Discounting.DiscountFactorDecreasing | financial.py:56 | For rates above −100%, a later period's discount factor strictly falls as the rate rises |
| Discounting.AnnuityDecreasing | financial.py:56 | The annuity factor of a non-empty horizon strictly falls as the rate rises |
| Discounting.AnnuityAtLeastFirst | financial.py:56 | The annuity factor is at least the first period's discount factor |
| Discounting.SeriesNpvPositive | financial.py:52-56 | The project's NPV is positive when the first year's discounted flow alone exceeds the outlay |
| Discounting.SeriesNpvDecreasing | financial.py:52-56 | With a positive annual flow, the project's NPV strictly falls as the rate rises |
| Discounting.InternalRateUnique | financial.py:52-59 | With a positive annual flow, at most one rate above −100% makes the project's NPV zero |
| FinancialModel.MetricsTable | financial.py:66-71 | The results table has seven rows in the fixed metric order, each row labelled with the source's metric name and carrying the figure of its metric |
| FinancialModel.Lookup | financial.py:66-71 | Looking a metric up finds nothing exactly when no row has it; otherwise it returns the value of a row with that metric |
| FinancialModel.MetricOrderComplete | financial.py:67-68 | Every metric appears in the row order, and no metric appears twice |
| FinancialModel.MetricsTableLookup | financial.py:66-71 | Reading the results table back by metric recovers every summary figure |
| FinancialModel.ReportedMetrics | financial.py:66-71 | On success the seven table rows are, in order, the total investment, revenue, operating costs, net annual flow, NPV, IRR and payback period of the scenario |
| FinancialModel.CashFlowTable | financial.py:74-78 | The cash-flow table has one row per period |
| FinancialModel.CashFlowTableColumns | financial.py:74-78 | The table's columns give back the flow and cumulative series, and row i has year i |
| FinancialModel.ScenarioCumulative | financial.py:48-62 | The scenario's cumulative series has horizon + 1 entries, and entry k is −investment + k × annual flow |
| FinancialModel.ScenarioPayback | financial.py:62-63 | The payback search finds the least k whose −investment + k × annual is ≥ 0, and finds nothing exactly when no k ≤ horizon qualifies |
| FinancialModel.ScenarioNpv | financial.py:51-56 | The scenario's NPV is −investment + annual flow × annuity factor |
| FinancialModel.NpvPositiveWhenFirstYearCovers | financial.py:51-56 | The scenario's NPV is positive when the first year's net flow exceeds investment × (1 + rate) |
| FinancialModel.ScenarioCashFlowTable | financial.py:62-78 | Row k of the cash-flow table holds year k, flow k and −investment + k × annual |
| FinancialModel.Calculate | financial.py:5-80 | The analysis fails with PaybackNeverReached exactly when no period recovers the investment. On success the summary reports the scenario's total investment, revenue, operating costs and net annual flow, the payback is the least recovering period, the NPV is in annuity form, the IRR is carried through, and both tables have their stated layout |
| FinancialModel.CalculatePaybackIsFirst | financial.py:63 | A period that first recovers the investment within the horizon is the reported payback period, and the analysis succeeds |
| FinancialModel.NoPaybackWithoutPositiveFlow | financial.py:63 | A positive investment with a non-positive annual flow is reported as PaybackNeverReached |
| LimePlant.PlantPayback | financial.py:62-63 | For the lime plant the analysis succeeds with payback period 1, 11 table rows, and a year-1 cumulative flow of 12,670,669,385.8 |
| LimePlant.PlantMetrics | financial.py:66-71 | For the lime plant the results table reports 4,547,320,210 investment, 19,999,716,000 revenue, 2,781,726,404.2 operating costs, 17,217,989,595.8 net annual flow, the supplied IRR and a payback of 1.0 |
| LimePlant.PlantNpvPositive | financial.py:51-56 | The lime plant's NPV at 13% (the figure `Calculate` reports) is positive |
| LimePlant.PlantInternalRateUnique | financial.py:59 | At most one rate above −100% zeroes the lime plant's NPV |
| LimePlant.UnsoldPlantNeverPaysBack | financial.py:63 | The plant scenario with price 0 reports PaybackNeverReached instead of an index |

## Left out

- The internal rate of return (`npf.irr`, financial.py:59) is a numerical root search inside a library. The model does not compute it: `Calculate` takes it as a parameter and carries it into the results table. In its place the model proves the IRR is unique for this series shape (`Discounting.InternalRateUnique`).
- Floating-point rounding is not modelled: all arithmetic is exact. For example, 600 × 323.62 and 0.02 × 4,547,320,210 are exact here but not in binary floating point, so the source's output can differ in the last digits.
- Discounting.Npv: requires a rate other than −100%. At that rate the source divides by zero and returns an infinite or undefined number, which is not modelled.
- Building the DataFrames, the two Excel exports and the console message (financial.py:66-89) are I/O. The tables are modelled only as sequences of rows.
- The source hard-codes `range(11)` as the table's years. The model numbers the rows 0..horizon instead. The two agree for the source's horizon of 10.
- Where the source raises an indexing error on an unreached payback, the model returns `Failure(PaybackNeverReached)`.
- The source computes the NPV and IRR before the payback search. With the IRR taken as a parameter, this order makes no difference to the result and is not modelled.
