# Property underwriting, modelled in Dafny

This project models the computational core of a property underwriting tool.
The backend has two parts:

- a cash-flow engine, which projects yearly income, operating costs, capex and a
  loan schedule over the hold period;
- a metrics module, which computes IRR by Newton's method, the equity multiple,
  cash-on-cash return, DSCR and two yields.

It also has the underwriting route, which puts these together with the exit
value and a 4×4 sensitivity grid of exit cap rate against rent growth, and the
validator for the request.

The frontend has six pieces of logic, all pure except the numeric input, which
is a stateful field:

- the rent roll's list operations and footers;
- the input form's price-from-yield rule and its field update;
- the numeric input field, which parses Danish and English decimals and
  commits only values that pass the field's bounds;
- the display scales;
- the layout of the cash-flow table;
- the sensitivity heatmap's axes, lookup and colours.

Money and rates are `real`. A Python `ZeroDivisionError` becomes
`Failure(DivisionByZero)`. Loops in the source are methods proved equal to a
specification function, and the properties are lemmas about those functions.

| file | models |
|---|---|
| `numerics.dfy` | powers, `abs`, `max`, sums, Python's `round` |
| `assumptions.dfy` | the request and its field bounds |
| `cashflow.dfy` | `calculate_cashflows`, `calculate_exit` |
| `metrics.dfy` | `calculate_irr`, the ratio helpers, `compute_metrics` |
| `underwriting.dfy` | `run_underwriting`, `run_sensitivity` |
| `decimal_text.dfy` | decimal text of whole numbers (unit names, column headings, parsing) |
| `rent_roll.dfy` | `RentRoll.tsx` |
| `input_form.dfy` | `InputForm.tsx` |
| `numeric_input.dfy` | `NumericInput.tsx` |
| `scale.dfy` | `scale.ts` |
| `cashflow_table.dfy` | `CashflowTable.tsx` |
| `sensitivity_heatmap.dfy` | `SensitivityHeatmap.tsx` |

Behaviour of the code worth knowing:

- The debt is `price × (1 + acquisition costs) × LTV`.
- Effective gross income grows already in year 1.
- The exit value uses the NOI of the last year of the hold.
- An amortizing loan at 0% fails in the annuity formula with a division by
  zero.
- The sensitivity axes are the fixed lists `[4,5,6,7]%` and `[2,3,4,5]%`,
  whatever the request.
- The cumulative equity starts at `−equity − price × acquisition costs`, so the
  acquisition costs are counted twice.

## Model

| member | source | states |
|---|---|---|
| Numerics.PowInt | backend/services/cashflow.py:53-55 | `x ** n` with an integer exponent fails exactly when the exponent is negative and the base is 0; otherwise it is the power or its reciprocal |
| Numerics.RoundError | backend/services/metrics.py:96-98 | `round(x, d)` lies within half a unit of the last kept decimal of `x` |
| Numerics.RoundZero | backend/api/routes/underwriting.py:200-203 | rounding 0 gives 0 at any precision |
| Assumptions.DealWithDefaults | backend/models/assumptions.py:8-12 | a deal built with the default acquisition costs (3%) keeps the given price and hold, and is valid when price > 0 and 1 ≤ hold ≤ 30 |
| Assumptions.IncomeWithDefaults | backend/models/assumptions.py:15-19 | default vacancy 5% and growth 3%; the income section is valid exactly when the gross rent is positive |
| Assumptions.DefaultOperating | backend/models/assumptions.py:22-26 | the operating defaults (35% of EGI) pass their own bounds |
| Assumptions.DefaultCapex | backend/models/assumptions.py:29-32 | the capex defaults (5%, no timing) pass their own bounds |
| Assumptions.DefaultFinancing | backend/models/assumptions.py:35-40 | the financing defaults (65% LTV, 5.5%, 30 years, amortizing) pass their own bounds |
| Assumptions.DefaultExit | backend/models/assumptions.py:43-46 | the exit defaults (5% cap rate, 4% costs) pass their own bounds |
| Assumptions.ValidInputGuarantees | backend/models/assumptions.py:8-56 | a valid request has a hold of at least a year, positive price and rent, a positive exit cap rate, positive equity and non-negative debt |
| Assumptions.ZeroRateAmortizingIsValid | backend/models/assumptions.py:38-40 | a 0% amortizing loan passes validation |
| Cashflow.CapitalSplit | backend/services/cashflow.py:44-45 | equity plus loan is the purchase price plus acquisition costs |
| Cashflow.InterestOnlyDebtService | backend/services/cashflow.py:48-49 | interest-only debt service is the loan times the rate |
| Cashflow.EgiStep | backend/services/cashflow.py:59-63 | each year's EGI is the previous year's grown by the rent growth |
| Cashflow.ComputeAnnualDebtService | backend/services/cashflow.py:47-56 | the debt-service computation equals its specification, including the failure of the annuity at rate 0 |
| Cashflow.ComputeAmortizingDebtService | backend/services/cashflow.py:51-56 | the monthly annuity times 12 equals its specification |
| Cashflow.ComputePeriod | backend/services/cashflow.py:63-98 | one loop iteration builds exactly the specified period record |
| Cashflow.CalculateCashflows | backend/services/cashflow.py:26-100 | the whole projection equals the specification `Cashflows` |
| Cashflow.ProjectPeriods | backend/services/cashflow.py:62-100 | the loop over years builds the specified schedule, one record per year |
| Cashflow.ScheduleStep | backend/services/cashflow.py:62-98 | one more year appends one record to the schedule |
| Cashflow.ScheduleAppend | backend/services/cashflow.py:82-98 | the appended record is built from the running EGI, balance and cumulative equity |
| Cashflow.ScheduleShape | backend/services/cashflow.py:62 | a schedule of n years has n records numbered 1..n |
| Cashflow.SchedulePrefix | backend/services/cashflow.py:62-98 | a shorter hold gives a prefix of a longer hold's schedule |
| Cashflow.ScheduleAt | backend/services/cashflow.py:62-98 | record k of a schedule is the period built from the records before it |
| Cashflow.CashflowsShape | backend/services/cashflow.py:62-100 | a successful projection has one record per hold year, numbered from 1 |
| Cashflow.PeriodAtFormulas | backend/services/cashflow.py:63-80 | a record obeys the income, loan and cash formulas, and its cumulative equity adds its levered cash flow |
| Cashflow.ScheduleFormulas | backend/services/cashflow.py:63-80 | every record of a schedule obeys those formulas, with opening balance and cumulative equity carried from the record before |
| Cashflow.CapexLagsEgi | backend/services/cashflow.py:66 | year t's capex is the reserve share of the previous year's EGI |
| Cashflow.LoanBalanceChain | backend/services/cashflow.py:60-74 | the first year opens at the loan amount, each year opens at the previous closing balance, and closing balances are non-negative |
| Cashflow.BalanceNonNegative | backend/services/cashflow.py:68-74 | opening balances are never negative |
| Cashflow.InterestOnlySchedule | backend/services/cashflow.py:71-76 | interest-only: no principal is paid, the balance stays at the loan, and the debt service is loan × rate every year |
| Cashflow.ScheduleLoanFormulas | backend/services/cashflow.py:69-76 | every record's interest, principal, debt service and closing balance follow the loan formulas |
| Cashflow.InterestOnlyRecord | backend/services/cashflow.py:71-73 | an interest-only record pays no principal and keeps its balance |
| Cashflow.AmortizingDebtServiceConstant | backend/services/cashflow.py:70-76 | an amortizing loan's debt service is the annual annuity every year |
| Cashflow.AmortizingNeedsPositiveRate | backend/services/cashflow.py:51-55 | an amortizing projection succeeds exactly when the rate is positive |
| Cashflow.CumulativeOfSchedule | backend/services/cashflow.py:58-80 | the cumulative equity after a schedule is the starting value plus all levered cash flows |
| Cashflow.CashflowIdentities | backend/services/cashflow.py:76-80 | unlevered minus levered cash flow is the debt service, and cumulative equity is the running sum |
| Cashflow.CumulativeRunningSum | backend/services/cashflow.py:58-80 | record k's cumulative equity is the start plus the levered flows of years 1..k+1 |
| Cashflow.MonthlyBalanceClosedForm | backend/services/cashflow.py:51-55 | the monthly balance has the closed form loan·gᵏ − payment·(1+g+…+gᵏ⁻¹) |
| Cashflow.GeomSumTimesRate | backend/services/cashflow.py:53-55 | the geometric sum times the rate is `(1+m)ᵏ − 1` |
| Cashflow.AnnuityIdentity | backend/services/cashflow.py:53-55 | the annuity payment makes the closed-form balance zero |
| Cashflow.AnnuityRepaysLoan | backend/services/cashflow.py:51-56 | paying the monthly annuity for the full term repays the loan exactly |
| Cashflow.OneYearLoanNotRepaid | backend/services/cashflow.py:68-74 | a 1-year amortizing loan at a positive rate still has a balance after year 1, because yearly interest on the opening balance exceeds the monthly interest |
| Cashflow.OneYearDebtService | backend/services/cashflow.py:51-56 | the 1-year annual debt service is 12 times the 12-month annuity |
| Cashflow.AmortizingRecordEnd | backend/services/cashflow.py:69-73 | when the principal paid is below the opening balance, the closing balance stays positive |
| Cashflow.ExitFormula | backend/services/cashflow.py:103-113 | exit proceeds × cap rate = final NOI × (1 − costs), and net to equity + loan = proceeds |
| Metrics.Npv | backend/services/metrics.py:23-27 | NPV fails exactly at rate −1 with a non-empty series, and is −investment without flows |
| Metrics.Dnpv | backend/services/metrics.py:29-33 | the derivative fails exactly at rate −1 with a non-empty series, and is 0 without flows |
| Metrics.NpvAtZeroRate | backend/services/metrics.py:23-27 | at rate 0 the NPV is the plain sum less the investment |
| Metrics.DiscountedSumAtOne | backend/services/metrics.py:25-26 | discounting at base 1 is the plain sum |
| Metrics.ComputeNpv | backend/services/metrics.py:23-27 | the NPV loop equals its specification |
| Metrics.ComputeDnpv | backend/services/metrics.py:29-33 | the derivative loop equals its specification |
| Metrics.DiscountedStep | backend/services/metrics.py:25-26 | each NPV loop step adds `cfᵢ/(1+r)ⁱ` |
| Metrics.WeightedStep | backend/services/metrics.py:31-32 | each derivative loop step subtracts `i·cfᵢ/(1+r)ⁱ⁺¹` |
| Metrics.NewtonReturnContract | backend/services/metrics.py:35-45 | from any start, the iteration returns 0.0 or a rate whose NPV is within the tolerance of zero |
| Metrics.IrrReturnContract | backend/services/metrics.py:21-45 | `calculate_irr` returns 0.0 or a rate whose NPV is within the tolerance of zero |
| Metrics.NewtonFailsOnlyAtMinusOne | backend/services/metrics.py:35-45 | with a positive tolerance the iteration can only crash with a non-empty series |
| Metrics.IrrOfNoFlows | backend/services/metrics.py:21-45 | with no cash flows the IRR succeeds |
| Metrics.CalculateIrr | backend/services/metrics.py:21-45 | the Newton loop with its 100-step cap, tolerance tests and 0.0 fallback equals its specification |
| Metrics.EquityRatios | backend/services/metrics.py:48-61 | equity multiple and cash-on-cash are the amount over the size of the equity, 0 without equity, and do not depend on the equity's sign |
| Metrics.DscrMeaning | backend/services/metrics.py:64-68 | DSCR × debt service = NOI when the debt service is positive, and 0 otherwise |
| Metrics.LeveredSeries | backend/services/metrics.py:80 | the series is each period's levered cash flow, in order |
| Metrics.LeveredSeriesSum | backend/services/metrics.py:80-81 | its sum is the sum of the levered cash flows |
| Metrics.ComputeMetrics | backend/services/metrics.py:71-101 | no periods give all-zero metrics; otherwise it fails exactly when the IRR does |
| Metrics.MetricsIrr | backend/services/metrics.py:87-95 | the IRR series is the levered flows followed by the exit cash, and the reported IRR/100 is 0 or an NPV root within the tolerance |
| Metrics.MetricsEquityMultiple | backend/services/metrics.py:81-96 | the equity multiple is within half a cent of (levered sum + exit cash) / size of the equity, and 0 without equity |
| Metrics.MetricsDscr | backend/services/metrics.py:83-98 | the DSCR is within half a cent of year-1 NOI / year-1 debt service, and 0 when that debt service is not positive |
| Metrics.MetricsYields | backend/services/metrics.py:89-100 | cash-on-cash and NOI yield are year-1 figures over the size of the equity; the cap rate uses equity/0.35 as the price |
| Metrics.YieldScale | backend/services/metrics.py:91-99 | a yield in percent times the size of the equity is 100 × NOI |
| Metrics.CapRateScale | backend/services/metrics.py:85-100 | cap rate % × equity = 35 × NOI |
| Underwriting.ProjectionOf | backend/api/routes/underwriting.py:88-103 | each projection argument is the request's field of the same meaning, with the rent growth given |
| Underwriting.Underwrite | backend/api/routes/underwriting.py:105-114 | a zero exit cap rate makes underwriting fail |
| Underwriting.RunUnderwriting | backend/api/routes/underwriting.py:70-151 | the route succeeds exactly when the base case and the sensitivity grid both do, and returns the base case with that grid |
| Underwriting.UnderwriteFields | backend/api/routes/underwriting.py:84-151 | every output field is the engine's value: cash flows, equity, debt, price, ratio, exit value from the final NOI, exit proceeds, net to equity, metrics |
| Underwriting.EquityDebtShares | backend/api/routes/underwriting.py:117-119 | the equity and debt shares are within 0.05 of (1 − LTV)·100 and LTV·100, which add to 100 |
| Underwriting.UnderwritingCapital | backend/api/routes/underwriting.py:84-86 | equity plus debt is the total cost, and the price is the requested one |
| Underwriting.UnderwritingPeriods | backend/api/routes/underwriting.py:124-141 | the output has one cash-flow row per hold year, numbered 1..hold |
| Underwriting.TrailingExit | backend/api/routes/underwriting.py:105-114 | exit value × cap = last-year NOI, proceeds × cap = that NOI × (1 − costs), net to equity = proceeds − last closing balance; without periods the net is −debt |
| Underwriting.ExitOfPeriods | backend/api/routes/underwriting.py:105-114 | the same terms, from the final NOI and the balance at exit |
| Underwriting.UnderwritingIrr | backend/api/routes/underwriting.py:115 | the reported IRR is 0 or an NPV root of the levered flows plus net to equity, against the equity investment |
| Underwriting.ZeroRateAmortizingFails | backend/api/routes/underwriting.py:88-103 | a valid request with an amortizing 0% loan fails |
| Underwriting.Collect | backend/api/routes/underwriting.py:186-205 | a grid point is appended when computed, skipped when there are no periods, and a failure propagates |
| Underwriting.ComputeSensitivityPoint | backend/api/routes/underwriting.py:162-205 | one grid point equals its specification |
| Underwriting.RunSensitivity | backend/api/routes/underwriting.py:154-207 | the nested loops equal the specification `SensitivityGrid` |
| Underwriting.RunSensitivityRow | backend/api/routes/underwriting.py:161-205 | one row of the inner loop equals its specification |
| Underwriting.AppendSensitivityPoint | backend/api/routes/underwriting.py:186-205 | one inner iteration extends the row as specified |
| Underwriting.RowFailureSticks | backend/api/routes/underwriting.py:160-205 | once a point fails, the row fails |
| Underwriting.RowKeepsFailure | backend/api/routes/underwriting.py:160-205 | a failed prefix stays failed |
| Underwriting.RowNeedsSuccess | backend/api/routes/underwriting.py:160-205 | a successful row started from a success |
| Underwriting.RowsFailureSticks | backend/api/routes/underwriting.py:160-205 | a failed row makes the grid fail |
| Underwriting.PointExists | backend/api/routes/underwriting.py:186-199 | with a hold of at least a year, every successful point exists and carries its own exit rate and growth |
| Underwriting.RowTaggedStep | backend/api/routes/underwriting.py:161-199 | each appended point carries the next rent growth of the axis |
| Underwriting.RowShape | backend/api/routes/underwriting.py:161-205 | a row has one point per rent growth, in axis order |
| Underwriting.GridTaggedStep | backend/api/routes/underwriting.py:160-205 | rows follow each other in exit-rate order |
| Underwriting.RowsShape | backend/api/routes/underwriting.py:160-205 | after m rows there are 4m points in (exit rate, growth) order |
| Underwriting.SensitivityGridShape | backend/api/routes/underwriting.py:157-161 | the grid has 16 points, point k at (exit rate k/4, growth k%4), with all pairs distinct |
| Underwriting.AxesDistinct | backend/api/routes/underwriting.py:157-158 | distinct grid positions have distinct (exit rate, growth) pairs |
| Underwriting.PointIgnoresBaseTerms | backend/api/routes/underwriting.py:169-184 | a grid point does not depend on the request's own rent growth or exit cap rate |
| Underwriting.RowIgnoresBaseTerms | backend/api/routes/underwriting.py:161-205 | nor does a row |
| Underwriting.RowsIgnoreBaseTerms | backend/api/routes/underwriting.py:160-205 | nor do the rows so far |
| Underwriting.SensitivityIgnoresBaseTerms | backend/api/routes/underwriting.py:154-207 | nor does the whole grid |
| Underwriting.SensitivityNetProfit | backend/api/routes/underwriting.py:188-203 | net profit is within 0.5 of the levered sum plus net to equity less equity |
| DecimalText.NatToString | frontend/components/RentRoll.tsx:36 | the printed number is non-empty and all digits |
| DecimalText.NatToStringRoundTrip | frontend/components/RentRoll.tsx:36 | reading the printed digits back gives the number |
| DecimalText.NatToStringInjective | frontend/components/CashflowTable.tsx:70 | different numbers print differently |
| DecimalText.IntToString | frontend/components/CashflowTable.tsx:70 | a non-negative integer prints as its digits |
| RentRoll.AddTenant | frontend/components/RentRoll.tsx:33-38 | the list gains one lease at the end and keeps the rest; the new lease is a default named "Unit n+1" |
| RentRoll.RemoveTenant | frontend/components/RentRoll.tsx:40-42 | removal never lengthens the list |
| RentRoll.UpdateTenant | frontend/components/RentRoll.tsx:44-48 | leases with the id get the update spread over them; the others are unchanged; the length is kept |
| RentRoll.OccupiedCount | frontend/components/RentRoll.tsx:52 | the occupied count is at most the number of leases |
| RentRoll.BlendedRent | frontend/components/RentRoll.tsx:224-230 | the blended rent is shown exactly when there are leases and the total area is positive, and blended × total area = total base rent |
| RentRoll.RemoveTenantMembers | frontend/components/RentRoll.tsx:40-42 | a lease survives removal exactly when it was there with another id |
| RentRoll.RemoveTenantAppend | frontend/components/RentRoll.tsx:41 | removal works piecewise on concatenated lists |
| RentRoll.RemoveAbsentTenant | frontend/components/RentRoll.tsx:41 | removing an id that is not there changes nothing |
| RentRoll.RemoveTenantIdempotent | frontend/components/RentRoll.tsx:40-42 | removing twice is removing once |
| RentRoll.RemoveAddedTenant | frontend/components/RentRoll.tsx:33-42 | removing a freshly added lease by its new id restores the list |
| RentRoll.ApplyFields | frontend/components/RentRoll.tsx:46 | each given field overrides and each missing field is kept; an empty update changes nothing |
| RentRoll.UpdateTenantIdempotent | frontend/components/RentRoll.tsx:44-48 | applying the same update twice is applying it once, when it keeps the id |
| RentRoll.RemoveAfterUpdate | frontend/components/RentRoll.tsx:40-48 | removing after an id-keeping update is removing without it |
| RentRoll.TotalAppend | frontend/components/RentRoll.tsx:50-51 | the totals add over concatenation |
| RentRoll.TotalWithout | frontend/components/RentRoll.tsx:50-51 | a total is the total without one lease plus that lease's amount |
| RentRoll.TotalPermutation | frontend/components/RentRoll.tsx:50-51 | a total depends only on the multiset of leases, not on their order |
| RentRoll.FootersIgnoreOrder | frontend/components/RentRoll.tsx:50-51 | reordering the leases keeps total area and total base rent |
| RentRoll.AddTenantFooters | frontend/components/RentRoll.tsx:33-52 | adding a lease keeps both totals and adds one occupied unit |
| RentRoll.RemoveTenantTotal | frontend/components/RentRoll.tsx:40-51 | a total before removal is the total after it plus the total of the removed leases |
| RentRoll.Matching | frontend/components/RentRoll.tsx:41 | the removed leases all carry the id, and they and the survivors add up to the list |
| RentRoll.OccupiedCountAppend | frontend/components/RentRoll.tsx:52 | the occupied count adds over concatenation |
| RentRoll.OccupiedCountExtremes | frontend/components/RentRoll.tsx:52 | the count equals the number of leases exactly when all are occupied, and is 0 exactly when none are |
| RentRoll.BlendedRentNeedsArea | frontend/components/RentRoll.tsx:224 | the blended rent is shown exactly when the total area is positive |
| RentRoll.BlendedRentBetween | frontend/components/RentRoll.tsx:224-230 | with non-negative areas, the blended rent lies between the lowest and highest rent per sqm |
| RentRoll.RentWithin | frontend/components/RentRoll.tsx:50-51 | lowest rent × total area ≤ total base rent ≤ highest rent × total area |
| InputForm.DefaultInputValid | frontend/components/InputForm.tsx:11-41 | the form's initial request passes the backend validator |
| InputForm.HandleSubmit | frontend/components/InputForm.tsx:57-67 | fixed mode sends the form unchanged; entry-yield mode with yield y > 0 sets a price with price × y/100 = ungrown NOI; y ≤ 0 keeps the price; only the price ever changes |
| InputForm.EntryYieldPriceMeetsFirstYear | frontend/components/InputForm.tsx:60-64 | the price from the yield is set on the ungrown NOI, while the engine's year-1 NOI is that NOI grown once |
| InputForm.FirstYearNoi | backend/services/cashflow.py:59-65 | year-1 NOI is gross rent × (1 − vacancy) × (1 − opex) grown once |
| InputForm.NoiFromIncome | backend/services/cashflow.py:63-65 | a record obeying the income formulas has the grown base NOI |
| InputForm.OneYearOfGrowth | backend/services/cashflow.py:63-65 | growing EGI and then taking opex off is taking opex off and then growing |
| InputForm.Get | frontend/components/InputForm.tsx:69-78 | a field's value has that field's kind |
| InputForm.Update | frontend/components/InputForm.tsx:69-78 | after the update the field holds the new value |
| InputForm.UpdateChangesOneField | frontend/components/InputForm.tsx:69-78 | the update changes the named field and no other field or section |
| InputForm.UpdateWithCurrentValue | frontend/components/InputForm.tsx:69-78 | writing a field's own value back changes nothing |
| NumericInput.ReplaceFirstComma | frontend/components/NumericInput.tsx:7 | the replacement keeps the length |
| NumericInput.RemoveSpaces | frontend/components/NumericInput.tsx:7 | no whitespace is left |
| NumericInput.ReplaceFirstCommaAt | frontend/components/NumericInput.tsx:7 | only the first comma becomes a period; text without a comma is kept |
| NumericInput.RemoveSpacesKept | frontend/components/NumericInput.tsx:7 | text without whitespace is kept |
| NumericInput.RemoveSpacesAppend | frontend/components/NumericInput.tsx:7 | whitespace removal works piecewise |
| NumericInput.ParseDecimalSeparators | frontend/components/NumericInput.tsx:5-9 | "a,b" and "a.b" both read as a + b/10^len(b) |
| NumericInput.SecondCommaReadsZero | frontend/components/NumericInput.tsx:6-9 | a second comma makes the text unparseable, and it reads as 0 |
| NumericInput.UnsignedDecimal | frontend/components/NumericInput.tsx:8 | digits, a period and digits read as their decimal value |
| NumericInput.UnsignedRejects | frontend/components/NumericInput.tsx:8 | anything but digits after the first period is not a number |
| NumericInput.Commit | frontend/components/NumericInput.tsx:56-69 | a text commits exactly when parsed value × multiplier is ≥ 0 and within min and max, and commits that value |
| NumericInput.NegativeNeverCommitted | frontend/components/NumericInput.tsx:57-68 | a negative value is never committed, even when min allows it |
| NumericInput.RecommitDisplayed | frontend/components/NumericInput.tsx:44-58 | a text that reads as the display value commits the original value again |
| NumericInput.CommitOfValue | frontend/components/NumericInput.tsx:56-58 | what a text commits depends only on the number it reads as |
| NumericInput.NumericInputState.constructor | frontend/components/NumericInput.tsx:34-46 | a new field holds the given value, multiplier and bounds, with no edited text and no focus |
| NumericInput.NumericInputState.ShowValue | frontend/components/NumericInput.tsx:79 | the field shows the edited text while focused with an edit, else the formatted value |
| NumericInput.NumericInputState.HandleChange | frontend/components/NumericInput.tsx:53-60 | keeps the raw text, commits it when the guard accepts it, and otherwise keeps the value |
| NumericInput.NumericInputState.HandleBlur | frontend/components/NumericInput.tsx:62-72 | leaves editing and commits the edited text, if any, when the guard accepts it |
| NumericInput.NumericInputState.HandleFocus | frontend/components/NumericInput.tsx:74-77 | starts editing from the formatted display value and keeps the value |
| NumericInput.GroupedText | frontend/components/NumericInput.tsx:12-17 | the da-DK text of a whole number is digits and periods, and has a period exactly from 1000 up |
| NumericInput.Pad3 | frontend/components/NumericInput.tsx:12-17 | a group is three digits with the group's value |
| NumericInput.GroupedTextMisread | frontend/components/NumericInput.tsx:6-17 | as written, grouped text of n ≥ 1000 reads back as n/1000 below a million and as 0 from a million up |
| NumericInput.GroupedTextOneSeparator | frontend/components/NumericInput.tsx:6-17 | one group separator is read as a decimal point |
| NumericInput.GroupedTextTwoSeparators | frontend/components/NumericInput.tsx:6-17 | two separators make the text unparseable |
| NumericInput.GroupedFocusBlurShrinksPrice | frontend/components/InputForm.tsx:112-118 | focus and blur on a thousands-scale price of 5,000,000 commit 5,000 |
| NumericInput.GroupedFocusBlurShrinksRent | frontend/components/InputForm.tsx:158-164 | focus and blur on the default gross rent of 450,000 commit 450 |
| NumericInput.PlainText | frontend/components/NumericInput.tsx:12-17 | ungrouped text is digits that read back as the number |
| NumericInput.PlainTextReadsBack | frontend/components/NumericInput.tsx:6-9 | ungrouped digits parse to the number printed |
| NumericInput.PlainFocusBlurRestores | frontend/components/NumericInput.tsx:62-77 | corrected: with ungrouped display text, focus and blur commit the value the field already had, or nothing |
| Scale.Divisor | frontend/lib/scale.ts:3-7 | every scale divides by at least 1 |
| Scale.ScaleValue | frontend/lib/scale.ts:9-11 | the scaled value times the divisor is the amount; the actual scale changes nothing |
| Scale.ScaleValueLinear | frontend/lib/scale.ts:9-11 | scaling is linear |
| Scale.ScaleValueOrder | frontend/lib/scale.ts:9-11 | scaling keeps sign and order and never enlarges an amount |
| Scale.CompactActualBranches | frontend/lib/scale.ts:32-34 | in the actual scale the suffix is M from 1e6, K from 1e3 and plain below, and the number shown × the unit is the amount |
| Scale.CompactChosenScale | frontend/lib/scale.ts:30-31 | a chosen scale shows its own unit ("M DKK" or "k DKK") whatever the size |
| Scale.CompactMillionsAgree | frontend/lib/scale.ts:30-32 | from a million up, actual and millions scale look the same |
| Scale.ScaledValueOptions | frontend/lib/scale.ts:13-26 | min fraction digits ≤ max, max ≥ 1, the scaled amount is shown, and "M DKK" only in millions |
| Scale.ScaledTableOptions | frontend/lib/scale.ts:37-43 | the table shows the scaled amount, whole only in the actual scale |
| CashflowTable.YearValues | frontend/components/CashflowTable.tsx:24 | one cell per year holding that year's field |
| CashflowTable.Blanks | frontend/components/CashflowTable.tsx:20-64 | n empty cells |
| CashflowTable.ColumnsLayout | frontend/components/CashflowTable.tsx:68-72 | "Purchase", one "Year p" per period, "Sale" |
| CashflowTable.RowsLayout | frontend/components/CashflowTable.tsx:17-66 | ten rows, each with a cell per column, made of the value, year, loan and proceeds cells |
| CashflowTable.YearRowsLayout | frontend/components/CashflowTable.tsx:22-61 | year rows are blank at purchase and sale and show the field in each year |
| CashflowTable.LoanRowsLayout | frontend/components/CashflowTable.tsx:42-57 | the begin row repeats year 1's opening balance at purchase; the end row shows 0 at sale |
| CashflowTable.OuterRowsLayout | frontend/components/CashflowTable.tsx:18-65 | price at purchase and exit value at sale; net proceeds only at sale |
| CashflowTable.UnderwritingColumns | frontend/components/CashflowTable.tsx:68-72 | for an engine result, the headings are "Year 1".."Year n" and all distinct |
| CashflowTable.ScheduleChained | backend/services/cashflow.py:60-74 | the engine's balances chain from the loan amount |
| CashflowTable.ChainedLoanRows | frontend/components/CashflowTable.tsx:42-57 | with chained balances, the purchase and year-1 begin cells are the loan, and each later begin cell is the previous end cell |
| CashflowTable.UnderwritingLoanRows | frontend/components/CashflowTable.tsx:42-57 | for an engine result, the begin row opens at the debt amount and follows the end row |
| SensitivityHeatmap.Insert | frontend/components/SensitivityHeatmap.tsx:73-78 | inserting into an increasing list keeps it increasing and adds exactly the value |
| SensitivityHeatmap.Axis | frontend/components/SensitivityHeatmap.tsx:73-78 | the axis is increasing with exactly the values present (distinct, sorted) |
| SensitivityHeatmap.IncreasingUnique | frontend/components/SensitivityHeatmap.tsx:73-78 | two increasing lists with the same members are equal |
| SensitivityHeatmap.ExitRatesOf | frontend/components/SensitivityHeatmap.tsx:73 | each point's exit rate, in order |
| SensitivityHeatmap.RentGrowthsOf | frontend/components/SensitivityHeatmap.tsx:76 | each point's rent growth, in order |
| SensitivityHeatmap.BuildLookup | frontend/components/SensitivityHeatmap.tsx:80-83 | the loop builds the specified map |
| SensitivityHeatmap.LookupKeys | frontend/components/SensitivityHeatmap.tsx:80-83 | a key is in the map exactly when a point has it, and maps to a point with that key |
| SensitivityHeatmap.LookupLastWins | frontend/components/SensitivityHeatmap.tsx:81-82 | the last point with a key is the one kept |
| SensitivityHeatmap.CellMeaning | frontend/components/SensitivityHeatmap.tsx:143-147 | a cell is filled exactly when a point has its (exit rate, growth), and shows such a point |
| SensitivityHeatmap.MetricValues | frontend/components/SensitivityHeatmap.tsx:36-85 | the chosen metric of each point, in order |
| SensitivityHeatmap.MinOf | frontend/components/SensitivityHeatmap.tsx:86 | the minimum is one of the values and below all |
| SensitivityHeatmap.MaxOf | frontend/components/SensitivityHeatmap.tsx:87 | the maximum is one of the values and above all |
| SensitivityHeatmap.NormalisedPosition | frontend/components/SensitivityHeatmap.tsx:28 | a value between min and max has position t in [0, 1] |
| SensitivityHeatmap.HeatmapColorRange | frontend/components/SensitivityHeatmap.tsx:22-147 | the flat colour appears exactly when all values are equal; otherwise hue in [0,120], saturation 70, lightness in [68,88] |
| SensitivityHeatmap.HeatmapColorOrder | frontend/components/SensitivityHeatmap.tsx:28-30 | a higher value never has a lower hue; min is red (0) and max green (120) |
| SensitivityHeatmap.FullGridFillsHeatmap | frontend/components/SensitivityHeatmap.tsx:73-147 | the engine's grid gives the axes [4..7]% × [2..5]% and fills every cell with its own point |
| SensitivityHeatmap.EngineGridFilled | frontend/components/SensitivityHeatmap.tsx:138-147 | a grid of that shape fills every cell |
| SensitivityHeatmap.EngineGridOf | backend/api/routes/underwriting.py:157-205 | the engine's grid has that shape |
| SensitivityHeatmap.EngineGridAxes | frontend/components/SensitivityHeatmap.tsx:73-78 | its axes are the engine's lists |
| SensitivityHeatmap.EngineGridCells | frontend/components/SensitivityHeatmap.tsx:143-144 | cell (i, j) shows point 4i + j |
| SensitivityHeatmap.GridIndexParts | backend/api/routes/underwriting.py:160-161 | position 4i + j recovers row i and column j |

## Left out

- The HTTP layer (FastAPI routing, pydantic parsing and error responses) is not modelled. A request is modelled as an already-typed value, and the validator as the predicate `Assumptions.Valid`.
- Floating point is not modelled. All arithmetic is exact over `real`, so results can differ from IEEE doubles in the last bits.
- Numerics.Round: Python's `round` is modelled as round-half-even on the exact value, not on the binary double.
- Metrics.CalculateIrr: the model does not say whether Newton's method converges. It only says what a returned rate satisfies.
- Metrics.ComputeMetrics: `avg_noi` is computed in the source and never used, so it is left out.
- `opex_per_sf`, `inflation_pct` and `capex_timing` are carried in the request but never read by the engine.
- RentRoll.AddTenant: `generateId` (clock and randomness) is a parameter `id`, and uniqueness of ids is not assumed.
- The initial three sample leases of the rent roll and all rendering (markup, classes, labels) are not modelled.
- React state, re-rendering and the `useEffect` that clears the edited text when the value changes from outside are not modelled. A commit stands for `onChange`, after which the form passes the committed value back as `value`.
- NumericInput.ParseDecimal: `Number()` is modelled for an optional sign, digits and at most one period, with empty text as 0. Exponents, `Infinity`, and hex, binary and octal forms, which `Number()` also accepts, read as 0 here.
- NumericInput.NumericInputState.HandleFocus: `formatForDisplay` is a parameter `shown`. Only whole numbers in da-DK form (`GroupedText`) and without grouping (`PlainText`) are written out.
- Scale.FormatScaledCompact: the digits that `toFixed` and `toLocaleString` print are not modelled. A display records the number and its fraction-digit options.
- SensitivityHeatmap.HeatmapColor: the colour is the triple (hue, saturation, lightness). The CSS string, `formatValue` and the metric labels are not modelled.
- SensitivityHeatmap.Lookup: the string key `` `${er}-${rg}` `` is modelled as the pair (er, rg), so two different pairs that print to the same text are not modelled.
- SensitivityHeatmap.MinOf: `Math.min` of an empty list (Infinity) is not modelled. The heatmap draws no cells then.
- SensitivityHeatmap.MaxOf: `Math.max` of an empty list (−Infinity) is not modelled. The heatmap draws no cells then.
- InputForm.Update: the field update requires a value of the field's kind (number, whole number or flag), which every call site of `update` in the form respects; the function's own type admits `number | boolean` for any key, and a value of the wrong kind is not modelled.
- InputForm.Update: the hold period is modelled as a whole number, so a fractional hold period (such as 2.5) typed into its `<input type="number">` and passed on by `Number(e.target.value)` is not modelled.
- The radio buttons, the entry-yield state and the checkbox's negation are not modelled beyond `HandleSubmit` and `Update`.

## Findings

| source | as written | input that shows it | evidently intended | confidence | as-written member | corrected member |
|---|---|---|---|---|---|---|
| frontend/components/NumericInput.tsx:12-17 | `formatForDisplay` prints with `toLocaleString("da-DK")`, which groups thousands with ".". On blur, `parseDecimal` reads that "." as a decimal point. | The gross rent of 450,000 in the actual scale shows as "450.000". Focus then blur commits 450. A thousands-scale price of 5,000,000 shows "5.000" and commits 5,000. | Focusing and leaving a field without typing keeps its value, so the text put into the field on focus should print without grouping. | not executed; depends on the browser's da-DK locale data | NumericInput.GroupedTextMisread | NumericInput.PlainFocusBlurRestores |
