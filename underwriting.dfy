/** The underwriting route: the capital split, one projection, the exit at
    trailing NOI, the metrics, and the exit-cap-rate by rent-growth grid. */
module Underwriting {

  import opened Outcomes
  import opened Numerics
  import opened Assumptions
  import opened Cashflow
  import opened Metrics

  datatype SensitivityPoint = SensitivityPoint(
    exitCapRate: real,
    rentGrowth: real,
    irrPct: real,
    equityMultiple: real,
    cashOnCashPct: real,
    netProfit: real)

  /** The response; `equityPct` and `debtPct` are the two entries of the
      equity/debt ratio map. */
  datatype UnderwritingOutput = UnderwritingOutput(
    cashflows: seq<CashflowPeriod>,
    metrics: InvestmentMetrics,
    purchasePrice: real,
    equityInvestment: real,
    debtAmount: real,
    exitValue: real,
    exitProceeds: real,
    netToEquity: real,
    equityPct: real,
    debtPct: real,
    sensitivity: seq<SensitivityPoint>)

  /** The projector's arguments drawn from the request, with `rentGrowth` in
      place of the request's own growth rate. */
  function ProjectionOf(input: UnderwritingInput, rentGrowth: real): (a: ProjectionArgs)
    ensures a.rentGrowthPct == rentGrowth
    ensures a.purchasePrice == input.deal.purchasePrice && a.holdPeriod == input.deal.holdPeriodYears
    ensures a.acquisitionCostsPct == input.deal.acquisitionCostsPct
    ensures a.grossRent == input.income.grossRent && a.vacancyPct == input.income.vacancyPct
    ensures a.opexPct == input.operating.opexPctOfEgi && a.capexReservePct == input.capex.capexReservePct
    ensures a.ltvPct == input.financing.ltvPct && a.interestRate == input.financing.interestRatePct
    ensures a.amortizationYears == input.financing.amortizationYears && a.interestOnly == input.financing.interestOnly
  {
    ProjectionArgs(
      purchasePrice := input.deal.purchasePrice,
      holdPeriod := input.deal.holdPeriodYears,
      grossRent := input.income.grossRent,
      vacancyPct := input.income.vacancyPct,
      rentGrowthPct := rentGrowth,
      opexPct := input.operating.opexPctOfEgi,
      capexReservePct := input.capex.capexReservePct,
      ltvPct := input.financing.ltvPct,
      interestRate := input.financing.interestRatePct,
      amortizationYears := input.financing.amortizationYears,
      interestOnly := input.financing.interestOnly,
      acquisitionCostsPct := input.deal.acquisitionCostsPct)
  }

  /** The NOI the exit is valued on: the last projected year's, or 0 without one. */
  function FinalNoi(periods: seq<CashflowPeriod>): real {
    if periods == [] then 0.0 else periods[|periods| - 1].noi
  }

  /** The balance repaid at exit: the last year's closing balance, or the debt without one. */
  function BalanceAtExit(periods: seq<CashflowPeriod>, debt: real): real {
    if periods == [] then debt else periods[|periods| - 1].loanBalanceEnd
  }

  /** `run_underwriting` up to, not including, the sensitivity grid: the
      response with an empty grid. Fails when the projection or the IRR
      divides by zero, or the exit cap rate is zero. */
  function Underwrite(input: UnderwritingInput): (r: Result<UnderwritingOutput>)
    ensures input.exit.exitCapRatePct == 0.0 ==> r.Failure?
  {
    var a := ProjectionOf(input, input.income.rentGrowthPct);
    var equity := Equity(a);
    var debt := LoanAmount(a);
    var cf := Cashflows(a);
    if cf.Failure? then Failure(cf.error)
    else if input.exit.exitCapRatePct == 0.0 then Failure(DivisionByZero)
    else
      var periods := cf.value;
      var finalNoi := FinalNoi(periods);
      var exit := CalculateExit(finalNoi, input.exit.exitCapRatePct, input.exit.exitCostsPct, BalanceAtExit(periods, debt));
      var metrics := ComputeMetrics(periods, -equity, exit.1);
      if metrics.Failure? then Failure(metrics.error)
      else
        Success(UnderwritingOutput(
          cashflows := periods,
          metrics := metrics.value,
          purchasePrice := input.deal.purchasePrice,
          equityInvestment := equity,
          debtAmount := debt,
          exitValue := finalNoi / input.exit.exitCapRatePct,
          exitProceeds := exit.0,
          netToEquity := exit.1,
          equityPct := EquityDebtRatio(input.financing.ltvPct).0,
          debtPct := EquityDebtRatio(input.financing.ltvPct).1,
          sensitivity := []))
  }

  /** The whole response: the underwriting of the request with the
      sensitivity grid filled in; either failing fails the request. */
  function RunUnderwriting(input: UnderwritingInput): (r: Result<UnderwritingOutput>)
    ensures r.Success? <==> Underwrite(input).Success? && SensitivityGrid(input).Success?
    ensures r.Success? ==> r.value == Underwrite(input).value.(sensitivity := SensitivityGrid(input).value)
  {
    var core := Underwrite(input);
    if core.Failure? then core
    else
      var grid := SensitivityGrid(input);
      if grid.Failure? then Failure(grid.error)
      else Success(core.value.(sensitivity := grid.value))
  }

  /** Where each field of a successful underwriting comes from. */
  lemma UnderwriteFields(input: UnderwritingInput)
    requires Underwrite(input).Success?
    ensures var o := Underwrite(input).value;
      var a := ProjectionOf(input, input.income.rentGrowthPct);
      var cap := input.exit.exitCapRatePct;
      var exit := CalculateExit(FinalNoi(o.cashflows), cap, input.exit.exitCostsPct, BalanceAtExit(o.cashflows, o.debtAmount));
      && Cashflows(a).Success? && o.cashflows == Cashflows(a).value
      && o.equityInvestment == Equity(a) && o.debtAmount == LoanAmount(a)
      && o.purchasePrice == input.deal.purchasePrice
      && (o.equityPct, o.debtPct) == EquityDebtRatio(input.financing.ltvPct)
      && cap != 0.0
      && o.exitValue == FinalNoi(o.cashflows) / cap
      && o.exitProceeds == exit.0 && o.netToEquity == exit.1
      && ComputeMetrics(o.cashflows, -o.equityInvestment, o.netToEquity).Success?
      && o.metrics == ComputeMetrics(o.cashflows, -o.equityInvestment, o.netToEquity).value
  {
  }

  /** The response's equity/debt ratio: the equity and debt percentages of
      the total cost, each rounded to one decimal. */
  function EquityDebtRatio(ltv: real): (real, real) {
    (Round((1.0 - ltv) * 100.0, 1), Round(ltv * 100.0, 1))
  }

  /** The reported shares are within 0.05 of percentages that add to 100. */
  lemma EquityDebtShares(ltv: real)
    ensures var r := EquityDebtRatio(ltv);
      && Abs(r.0 - (1.0 - ltv) * 100.0) * 10.0 <= 0.5
      && Abs(r.1 - ltv * 100.0) * 10.0 <= 0.5
      && (1.0 - ltv) * 100.0 + ltv * 100.0 == 100.0
  {
    RoundError((1.0 - ltv) * 100.0, 1);
    RoundError(ltv * 100.0, 1);
    assert Pow(10.0, 1) == 10.0 * Pow(10.0, 0);
  }

  /** Equity and debt of a successful underwriting finance the price plus
      acquisition costs, and the ratio is the one of the loan-to-value. */
  lemma UnderwritingCapital(input: UnderwritingInput)
    requires Underwrite(input).Success?
    ensures var o := Underwrite(input).value;
      && o.purchasePrice == input.deal.purchasePrice
      && o.equityInvestment + o.debtAmount == TotalCost(input.deal.purchasePrice, input.deal.acquisitionCostsPct)
      && (o.equityPct, o.debtPct) == EquityDebtRatio(input.financing.ltvPct)
  {
    UnderwriteFields(input);
    CapitalSplit(ProjectionOf(input, input.income.rentGrowthPct));
  }

  /** The projection returned has one record per hold year, numbered from 1. */
  lemma UnderwritingPeriods(input: UnderwritingInput)
    requires Underwrite(input).Success?
    ensures var o := Underwrite(input).value;
      var n := if input.deal.holdPeriodYears < 0 then 0 else input.deal.holdPeriodYears;
      && |o.cashflows| == n
      && forall k :: 0 <= k < n ==> o.cashflows[k].period == k + 1
  {
    CashflowsShape(ProjectionOf(input, input.income.rentGrowthPct));
  }

  /** The exit is valued on the last year's NOI of the hold; what is
      left for equity is the proceeds after costs less that year's closing
      balance. Without a projected year the NOI is 0 and the whole debt is repaid. */
  predicate TrailingExitTerms(periods: seq<CashflowPeriod>, cap: real, costs: real, debt: real,
                              exitValue: real, exitProceeds: real, netToEquity: real) {
    var n := |periods|;
    && (n > 0 ==>
          && exitValue * cap == periods[n - 1].noi
          && exitProceeds * cap == periods[n - 1].noi * (1.0 - costs)
          && netToEquity == exitProceeds - periods[n - 1].loanBalanceEnd)
    && (n == 0 ==> exitValue == 0.0 && exitProceeds == 0.0 && netToEquity == -debt)
  }

  /** The exit of a successful underwriting. */
  lemma TrailingExit(input: UnderwritingInput)
    requires Underwrite(input).Success?
    ensures var o := Underwrite(input).value;
      && input.exit.exitCapRatePct != 0.0
      && TrailingExitTerms(o.cashflows, input.exit.exitCapRatePct, input.exit.exitCostsPct, o.debtAmount,
                           o.exitValue, o.exitProceeds, o.netToEquity)
  {
    UnderwriteFields(input);
    var o := Underwrite(input).value;
    ExitOfPeriods(o.cashflows, input.exit.exitCapRatePct, input.exit.exitCostsPct, o.debtAmount,
                  o.exitValue, o.exitProceeds, o.netToEquity);
  }

  /** The exit arithmetic on a projection, apart from the rest of the response. */
  lemma ExitOfPeriods(periods: seq<CashflowPeriod>, cap: real, costs: real, debt: real,
                      exitValue: real, exitProceeds: real, netToEquity: real)
    requires cap != 0.0 && exitValue == FinalNoi(periods) / cap
    requires exitProceeds == CalculateExit(FinalNoi(periods), cap, costs, BalanceAtExit(periods, debt)).0
    requires netToEquity == CalculateExit(FinalNoi(periods), cap, costs, BalanceAtExit(periods, debt)).1
    ensures TrailingExitTerms(periods, cap, costs, debt, exitValue, exitProceeds, netToEquity)
  {
    ExitFormula(FinalNoi(periods), cap, costs, BalanceAtExit(periods, debt));
    if periods == [] {
      assert exitProceeds * cap == 0.0;
    }
  }

  /** The reported IRR, as a fraction, is 0.0 or a root (within the tolerance)
      of the NPV of the levered flows followed by the net exit cash as one
      more year, against the equity invested. */
  lemma UnderwritingIrr(input: UnderwritingInput)
    requires Underwrite(input).Success? && input.deal.holdPeriodYears >= 1
    ensures var o := Underwrite(input).value;
      var rate := o.metrics.irrPct / 100.0;
      AcceptableIrr(IrrSeries(o.cashflows, o.netToEquity), Abs(o.equityInvestment), Tolerance, rate)
  {
    var o := Underwrite(input).value;
    UnderwriteFields(input);
    CashflowsShape(ProjectionOf(input, input.income.rentGrowthPct));
    var e := o.equityInvestment;
    MetricsIrr(o.cashflows, -e, o.netToEquity);
    assert Abs(-e) == Abs(e);
  }

  /** A valid request with an amortizing loan at 0% is accepted by the
      validator and then fails in the annuity formula. */
  lemma ZeroRateAmortizingFails(input: UnderwritingInput)
    requires Valid(input) && !input.financing.interestOnly && input.financing.interestRatePct == 0.0
    ensures RunUnderwriting(input).Failure?
  {
    AmortizingNeedsPositiveRate(ProjectionOf(input, input.income.rentGrowthPct));
  }

  // ---------------------------------------------------------------------------
  // Sensitivity grid

  /** The grid axes, fixed whatever the request says. */
  const ExitRates: seq<real> := [0.04, 0.05, 0.06, 0.07]
  const RentGrowths: seq<real> := [0.02, 0.03, 0.04, 0.05]

  /** One grid point: the projection re-run with growth `rentGrowth`, the exit
      at `exitRate`, and the route's metrics, rounded; `None` for an empty
      projection, which the loop skips. */
  function SensitivityPointAt(input: UnderwritingInput, exitRate: real, rentGrowth: real): Result<Option<SensitivityPoint>> {
    var a := ProjectionOf(input, rentGrowth);
    var cf := Cashflows(a);
    if cf.Failure? then Failure(cf.error)
    else if cf.value == [] then Success(None)
    else if exitRate == 0.0 then Failure(DivisionByZero)
    else
      var periods := cf.value;
      var last := periods[|periods| - 1];
      var netEq := CalculateExit(last.noi, exitRate, input.exit.exitCostsPct, last.loanBalanceEnd).1;
      var m := ComputeMetrics(periods, -Equity(a), netEq);
      if m.Failure? then Failure(m.error)
      else
        var netProfit := Sum(LeveredSeries(periods)) + netEq - Equity(a);
        Success(Some(SensitivityPoint(
          exitCapRate := exitRate,
          rentGrowth := rentGrowth,
          irrPct := Round(m.value.irrPct, 2),
          equityMultiple := Round(m.value.equityMultiple, 2),
          cashOnCashPct := Round(m.value.cashOnCashPct, 1),
          netProfit := Round(netProfit, 0))))
  }

  /** Appends a point to the points so far: a failure so far stays, a failing
      point fails, and an empty projection adds nothing. */
  function Collect(sofar: Result<seq<SensitivityPoint>>, point: Result<Option<SensitivityPoint>>): (r: Result<seq<SensitivityPoint>>)
    ensures r.Success? <==> sofar.Success? && point.Success?
    ensures r.Success? ==> r.value == sofar.value + (if point.value.Some? then [point.value.value] else [])
  {
    if sofar.Failure? then sofar
    else if point.Failure? then Failure(point.error)
    else if point.value.None? then sofar
    else Success(sofar.value + [point.value.value])
  }

  /** The inner loop for one exit rate after its first `n` growths, starting
      from the points of the earlier rows. */
  function RowFrom(input: UnderwritingInput, exitRate: real, sofar: Result<seq<SensitivityPoint>>, n: nat): Result<seq<SensitivityPoint>>
    requires n <= |RentGrowths|
    decreases n
  {
    if n == 0 then sofar
    else Collect(RowFrom(input, exitRate, sofar, n - 1), SensitivityPointAt(input, exitRate, RentGrowths[n - 1]))
  }

  /** The points of the first `m` exit rates. */
  function RowsUpTo(input: UnderwritingInput, m: nat): Result<seq<SensitivityPoint>>
    requires m <= |ExitRates|
    decreases m
  {
    if m == 0 then Success([])
    else RowFrom(input, ExitRates[m - 1], RowsUpTo(input, m - 1), |RentGrowths|)
  }

  /** `run_sensitivity`'s result: every exit rate, every growth. */
  function SensitivityGrid(input: UnderwritingInput): Result<seq<SensitivityPoint>> {
    RowsUpTo(input, |ExitRates|)
  }

  /** The grid point computation of one inner-loop iteration. */
  method ComputeSensitivityPoint(input: UnderwritingInput, exitRate: real, rentGrowth: real)
    returns (r: Result<Option<SensitivityPoint>>)
    ensures r == SensitivityPointAt(input, exitRate, rentGrowth)
  {
    var a := ProjectionOf(input, rentGrowth);
    var cf := CalculateCashflows(a, exitRate, input.exit.exitCostsPct);
    if cf.Failure? {
      return Failure(cf.error);
    }
    var periods := cf.value;
    if periods == [] {
      return Success(None);
    }
    var finalNoi := periods[|periods| - 1].noi;
    var loanBalance := periods[|periods| - 1].loanBalanceEnd;
    if exitRate == 0.0 {
      return Failure(DivisionByZero);
    }
    var exit := CalculateExit(finalNoi, exitRate, input.exit.exitCostsPct, loanBalance);
    var m := ComputeMetrics(periods, -Equity(a), exit.1);
    if m.Failure? {
      return Failure(m.error);
    }
    var totalProceeds := Sum(LeveredSeries(periods)) + exit.1;
    var netProfit := totalProceeds - Equity(a);
    return Success(Some(SensitivityPoint(
      exitCapRate := exitRate,
      rentGrowth := rentGrowth,
      irrPct := Round(m.value.irrPct, 2),
      equityMultiple := Round(m.value.equityMultiple, 2),
      cashOnCashPct := Round(m.value.cashOnCashPct, 1),
      netProfit := Round(netProfit, 0))));
  }

  /** `run_sensitivity`: exit rate outer, growth inner, appending one point per
      non-empty projection. */
  method RunSensitivity(input: UnderwritingInput) returns (r: Result<seq<SensitivityPoint>>)
    ensures r == SensitivityGrid(input)
  {
    var results: seq<SensitivityPoint> := [];
    var i := 0;
    while i < |ExitRates|
      invariant 0 <= i <= |ExitRates|
      invariant RowsUpTo(input, i) == Success(results)
    {
      var row := RunSensitivityRow(input, ExitRates[i], results);
      if row.Failure? {
        RowsFailureSticks(input, i + 1, |ExitRates|);
        return Failure(row.error);
      }
      results := row.value;
      i := i + 1;
    }
    return Success(results);
  }

  /** The inner loop for one exit rate, extending the points so far. */
  method RunSensitivityRow(input: UnderwritingInput, exitRate: real, sofar: seq<SensitivityPoint>)
    returns (r: Result<seq<SensitivityPoint>>)
    ensures r == RowFrom(input, exitRate, Success(sofar), |RentGrowths|)
  {
    var results := sofar;
    var j := 0;
    while j < |RentGrowths|
      invariant 0 <= j <= |RentGrowths|
      invariant RowFrom(input, exitRate, Success(sofar), j) == Success(results)
    {
      var next := AppendSensitivityPoint(input, exitRate, sofar, j, results);
      if next.Failure? {
        RowFailureSticks(input, exitRate, Success(sofar), j + 1, |RentGrowths|);
        return next;
      }
      results := next.value;
      j := j + 1;
    }
    return Success(results);
  }

  /** One inner-loop iteration: the point for the `j`-th growth appended to
      the results, unless the projection was empty. */
  method AppendSensitivityPoint(input: UnderwritingInput, exitRate: real, sofar: seq<SensitivityPoint>,
                                j: nat, results: seq<SensitivityPoint>)
    returns (r: Result<seq<SensitivityPoint>>)
    requires j < |RentGrowths| && RowFrom(input, exitRate, Success(sofar), j) == Success(results)
    ensures r == RowFrom(input, exitRate, Success(sofar), j + 1)
  {
    var point := ComputeSensitivityPoint(input, exitRate, RentGrowths[j]);
    if point.Failure? {
      return Failure(point.error);
    }
    if point.value.Some? {
      return Success(results + [point.value.value]);
    }
    return Success(results);
  }

  /** Once a row has failed, the rest of it fails. */
  lemma {:induction false} RowFailureSticks(input: UnderwritingInput, exitRate: real, sofar: Result<seq<SensitivityPoint>>, m: nat, n: nat)
    requires m <= n <= |RentGrowths|
    requires RowFrom(input, exitRate, sofar, m).Failure?
    ensures RowFrom(input, exitRate, sofar, n).Failure?
    decreases n
  {
    if m < n {
      RowFailureSticks(input, exitRate, sofar, m, n - 1);
    }
  }

  /** A failure before a row fails the row. */
  lemma {:induction false} RowKeepsFailure(input: UnderwritingInput, exitRate: real, sofar: Result<seq<SensitivityPoint>>, n: nat)
    requires n <= |RentGrowths| && sofar.Failure?
    ensures RowFrom(input, exitRate, sofar, n).Failure?
    decreases n
  {
    if n > 0 {
      RowKeepsFailure(input, exitRate, sofar, n - 1);
    }
  }

  /** A row succeeds only from points that so far succeeded. */
  lemma {:induction false} RowNeedsSuccess(input: UnderwritingInput, exitRate: real, sofar: Result<seq<SensitivityPoint>>, n: nat)
    requires n <= |RentGrowths| && RowFrom(input, exitRate, sofar, n).Success?
    ensures sofar.Success?
    decreases n
  {
    if n > 0 {
      RowNeedsSuccess(input, exitRate, sofar, n - 1);
    }
  }

  /** Once the rows so far have failed, the grid fails. */
  lemma {:induction false} RowsFailureSticks(input: UnderwritingInput, m: nat, n: nat)
    requires m <= n <= |ExitRates|
    requires RowsUpTo(input, m).Failure?
    ensures RowsUpTo(input, n).Failure?
    decreases n
  {
    if m < n {
      RowsFailureSticks(input, m, n - 1);
      RowKeepsFailure(input, ExitRates[n - 1], RowsUpTo(input, n - 1), |RentGrowths|);
    }
  }

  /** With a non-empty hold period every growth yields a point tagged with its pair. */
  lemma PointExists(input: UnderwritingInput, exitRate: real, rentGrowth: real)
    requires input.deal.holdPeriodYears >= 1
    requires SensitivityPointAt(input, exitRate, rentGrowth).Success?
    ensures SensitivityPointAt(input, exitRate, rentGrowth).value.Some?
    ensures SensitivityPointAt(input, exitRate, rentGrowth).value.value.exitCapRate == exitRate
    ensures SensitivityPointAt(input, exitRate, rentGrowth).value.value.rentGrowth == rentGrowth
  {
    CashflowsShape(ProjectionOf(input, rentGrowth));
  }

  /** `ps` is `sofar` followed by one point per growth in the first `n`, in
      order, each tagged with `exitRate` and its growth. */
  predicate RowTagged(ps: seq<SensitivityPoint>, sofar: seq<SensitivityPoint>, exitRate: real, n: nat)
    requires n <= |RentGrowths|
  {
    && |ps| == |sofar| + n
    && ps[..|sofar|] == sofar
    && forall k :: |sofar| <= k < |ps| ==> ps[k].exitCapRate == exitRate && ps[k].rentGrowth == RentGrowths[k - |sofar|]
  }

  lemma RowTaggedStep(prev: seq<SensitivityPoint>, sofar: seq<SensitivityPoint>, exitRate: real, n: nat, p: SensitivityPoint)
    requires 0 < n <= |RentGrowths| && RowTagged(prev, sofar, exitRate, n - 1)
    requires p.exitCapRate == exitRate && p.rentGrowth == RentGrowths[n - 1]
    ensures RowTagged(prev + [p], sofar, exitRate, n)
  {
    var ps := prev + [p];
    assert ps[..|sofar|] == prev[..|sofar|];
    forall k | |sofar| <= k < |ps|
      ensures ps[k].exitCapRate == exitRate && ps[k].rentGrowth == RentGrowths[k - |sofar|]
    {
      if k < |prev| {
        assert ps[k] == prev[k];
      }
    }
  }

  /** With a non-empty hold period a successful row appends one point per
      growth, in order, each tagged with its exit rate and growth. */
  lemma {:induction false} RowShape(input: UnderwritingInput, exitRate: real, sofar: seq<SensitivityPoint>, n: nat)
    requires n <= |RentGrowths| && input.deal.holdPeriodYears >= 1
    requires RowFrom(input, exitRate, Success(sofar), n).Success?
    ensures RowTagged(RowFrom(input, exitRate, Success(sofar), n).value, sofar, exitRate, n)
    decreases n
  {
    if n == 0 {
      assert sofar[..|sofar|] == sofar;
    } else {
      RowShape(input, exitRate, sofar, n - 1);
      PointExists(input, exitRate, RentGrowths[n - 1]);
      RowTaggedStep(RowFrom(input, exitRate, Success(sofar), n - 1).value, sofar, exitRate, n,
                    SensitivityPointAt(input, exitRate, RentGrowths[n - 1]).value.value);
    }
  }

  /** `ps` holds four points per exit rate among the first `m`, row-major:
      the one at `k` for exit rate `k / 4` and growth `k % 4`. */
  predicate GridTagged(ps: seq<SensitivityPoint>, m: nat)
    requires m <= |ExitRates|
  {
    && |ps| == 4 * m
    && forall k :: 0 <= k < |ps| ==> ps[k].exitCapRate == ExitRates[k / 4] && ps[k].rentGrowth == RentGrowths[k % 4]
  }

  lemma GridTaggedStep(prev: seq<SensitivityPoint>, ps: seq<SensitivityPoint>, m: nat)
    requires 0 < m <= |ExitRates| && GridTagged(prev, m - 1)
    requires RowTagged(ps, prev, ExitRates[m - 1], |RentGrowths|)
    ensures GridTagged(ps, m)
  {
    forall k | 0 <= k < |ps|
      ensures ps[k].exitCapRate == ExitRates[k / 4] && ps[k].rentGrowth == RentGrowths[k % 4]
    {
      if k < |prev| {
        assert ps[k] == ps[..|prev|][k];
      } else {
        var j := k - |prev|;
        assert k == 4 * (m - 1) + j && 0 <= j < 4;
        assert k / 4 == m - 1 && k % 4 == j;
      }
    }
  }

  /** With a non-empty hold period the first `m` rows of a successful grid
      are tagged row-major. */
  lemma {:induction false} RowsShape(input: UnderwritingInput, m: nat)
    requires m <= |ExitRates| && input.deal.holdPeriodYears >= 1
    requires RowsUpTo(input, m).Success?
    ensures GridTagged(RowsUpTo(input, m).value, m)
    decreases m
  {
    if m > 0 {
      var before := RowsUpTo(input, m - 1);
      RowNeedsSuccess(input, ExitRates[m - 1], before, |RentGrowths|);
      RowsShape(input, m - 1);
      RowShape(input, ExitRates[m - 1], before.value, |RentGrowths|);
      GridTaggedStep(before.value, RowsUpTo(input, m).value, m);
    }
  }

  /** For a request with a non-empty hold period, a successful grid has exactly
      16 points, row-major over the fixed axes (exit rate outer), no
      (exit rate, growth) pair twice. */
  lemma SensitivityGridShape(input: UnderwritingInput)
    requires input.deal.holdPeriodYears >= 1 && SensitivityGrid(input).Success?
    ensures var ps := SensitivityGrid(input).value;
      && |ps| == 16
      && (forall k :: 0 <= k < 16 ==> ps[k].exitCapRate == ExitRates[k / 4] && ps[k].rentGrowth == RentGrowths[k % 4])
      && (forall k, l :: 0 <= k < l < 16 ==> (ps[k].exitCapRate, ps[k].rentGrowth) != (ps[l].exitCapRate, ps[l].rentGrowth))
  {
    RowsShape(input, 4);
    var ps := SensitivityGrid(input).value;
    forall k, l | 0 <= k < l < 16
      ensures (ps[k].exitCapRate, ps[k].rentGrowth) != (ps[l].exitCapRate, ps[l].rentGrowth)
    {
      AxesDistinct(k, l);
    }
  }

  /** Distinct grid positions carry distinct (exit rate, growth) pairs. */
  lemma AxesDistinct(k: int, l: int)
    requires 0 <= k < l < 16
    ensures ExitRates[k / 4] != ExitRates[l / 4] || RentGrowths[k % 4] != RentGrowths[l % 4]
  {
    assert k == 4 * (k / 4) + k % 4 && l == 4 * (l / 4) + l % 4;
  }

  /** Replacing the request's own growth rate and exit cap rate. */
  function WithBaseTerms(input: UnderwritingInput, growth: real, exitRate: real): UnderwritingInput {
    input.(income := input.income.(rentGrowthPct := growth), exit := input.exit.(exitCapRatePct := exitRate))
  }

  lemma PointIgnoresBaseTerms(input: UnderwritingInput, growth: real, exitRate: real, rate: real, rentGrowth: real)
    ensures SensitivityPointAt(input, rate, rentGrowth) == SensitivityPointAt(WithBaseTerms(input, growth, exitRate), rate, rentGrowth)
  {
    assert ProjectionOf(input, rentGrowth) == ProjectionOf(WithBaseTerms(input, growth, exitRate), rentGrowth);
  }

  lemma {:induction false} RowIgnoresBaseTerms(input: UnderwritingInput, growth: real, exitRate: real,
                                               rate: real, sofar: Result<seq<SensitivityPoint>>, n: nat)
    requires n <= |RentGrowths|
    ensures RowFrom(input, rate, sofar, n) == RowFrom(WithBaseTerms(input, growth, exitRate), rate, sofar, n)
    decreases n
  {
    if n > 0 {
      RowIgnoresBaseTerms(input, growth, exitRate, rate, sofar, n - 1);
      PointIgnoresBaseTerms(input, growth, exitRate, rate, RentGrowths[n - 1]);
    }
  }

  lemma {:induction false} RowsIgnoreBaseTerms(input: UnderwritingInput, growth: real, exitRate: real, m: nat)
    requires m <= |ExitRates|
    ensures RowsUpTo(input, m) == RowsUpTo(WithBaseTerms(input, growth, exitRate), m)
    decreases m
  {
    if m > 0 {
      RowsIgnoreBaseTerms(input, growth, exitRate, m - 1);
      RowIgnoresBaseTerms(input, growth, exitRate, ExitRates[m - 1], RowsUpTo(input, m - 1), |RentGrowths|);
    }
  }

  /** The grid reads neither the request's own growth rate nor its exit cap rate. */
  lemma SensitivityIgnoresBaseTerms(input: UnderwritingInput, growth: real, exitRate: real)
    ensures SensitivityGrid(input) == SensitivityGrid(WithBaseTerms(input, growth, exitRate))
  {
    RowsIgnoreBaseTerms(input, growth, exitRate, |ExitRates|);
  }

  /** A point's net profit is, to the nearest unit, all levered cash plus the
      net exit cash at the point's cap rate less the equity invested. */
  lemma SensitivityNetProfit(input: UnderwritingInput, exitRate: real, rentGrowth: real)
    requires SensitivityPointAt(input, exitRate, rentGrowth).Success?
    requires SensitivityPointAt(input, exitRate, rentGrowth).value.Some?
    ensures var a := ProjectionOf(input, rentGrowth);
      var ps := Cashflows(a).value;
      var last := ps[|ps| - 1];
      && exitRate != 0.0
      && Abs(SensitivityPointAt(input, exitRate, rentGrowth).value.value.netProfit
          - (LeveredSum(ps) + CalculateExit(last.noi, exitRate, input.exit.exitCostsPct, last.loanBalanceEnd).1 - Equity(a))) <= 0.5
  {
    var a := ProjectionOf(input, rentGrowth);
    var ps := Cashflows(a).value;
    var last := ps[|ps| - 1];
    var netEq := CalculateExit(last.noi, exitRate, input.exit.exitCostsPct, last.loanBalanceEnd).1;
    LeveredSeriesSum(ps);
    RoundError(Sum(LeveredSeries(ps)) + netEq - Equity(a), 0);
  }
}
