/** Investment metrics over a projection: the Newton IRR on NPV, equity
    multiple, cash-on-cash, DSCR and the year-1 yields. */
module Metrics {

  import opened Outcomes
  import opened Numerics
  import opened Cashflow

  datatype InvestmentMetrics = InvestmentMetrics(
    irrPct: real,
    equityMultiple: real,
    cashOnCashPct: real,
    dscr: real,
    noiYieldPct: real,
    capRatePct: real)

  /** The tolerance `compute_metrics` leaves at its default. */
  const Tolerance: real := 0.000001

  /** The rate the Newton iteration starts from. */
  const InitialRate: real := 0.1

  /** The number of Newton steps before giving up. */
  const MaxSteps: nat := 100

  // ---------------------------------------------------------------------------
  // NPV and its derivative

  /** `sum(cf_i / base ** i)` for `i` from 1. */
  function DiscountedSum(cfs: seq<real>, base: real): real
    requires base != 0.0
    decreases |cfs|
  {
    if cfs == [] then 0.0
    else
      PowNonZero(base, |cfs|);
      DiscountedSum(cfs[..|cfs| - 1], base) + cfs[|cfs| - 1] / Pow(base, |cfs|)
  }

  /** `sum(i * cf_i / base ** (i + 1))` for `i` from 1. */
  function WeightedDiscountedSum(cfs: seq<real>, base: real): real
    requires base != 0.0
    decreases |cfs|
  {
    if cfs == [] then 0.0
    else
      WeightedDiscountedSum(cfs[..|cfs| - 1], base) + WeightedTerm(|cfs|, cfs[|cfs| - 1], base)
  }

  /** The `i`-th term of the derivative sum, `i * cf / base ** (i + 1)`. */
  function WeightedTerm(i: nat, cf: real, base: real): real
    requires base != 0.0
  {
    PowNonZero(base, i + 1);
    i as real * cf / Pow(base, i + 1)
  }

  /** NPV of the series after an outlay of `initialInvestment` at time 0. At a
      rate of -1 the first discount factor is zero and the division raises,
      unless there is nothing to discount. */
  function Npv(cfs: seq<real>, initialInvestment: real, rate: real): (r: Result<real>)
    ensures r.Failure? <==> (rate == -1.0 && |cfs| > 0)
    ensures cfs == [] ==> r == Success(-initialInvestment)
  {
    if 1.0 + rate == 0.0 then
      if cfs == [] then Success(-initialInvestment) else Failure(DivisionByZero)
    else Success(-initialInvestment + DiscountedSum(cfs, 1.0 + rate))
  }

  /** Derivative of the NPV with respect to the rate. */
  function Dnpv(cfs: seq<real>, rate: real): (r: Result<real>)
    ensures r.Failure? <==> (rate == -1.0 && |cfs| > 0)
    ensures cfs == [] ==> r == Success(0.0)
  {
    if 1.0 + rate == 0.0 then
      if cfs == [] then Success(0.0) else Failure(DivisionByZero)
    else Success(-WeightedDiscountedSum(cfs, 1.0 + rate))
  }

  /** Undiscounted at a zero rate, the NPV is the plain sum less the outlay. */
  lemma NpvAtZeroRate(cfs: seq<real>, initialInvestment: real)
    ensures Npv(cfs, initialInvestment, 0.0).Success?
    ensures Npv(cfs, initialInvestment, 0.0).value == Sum(cfs) - initialInvestment
  {
    DiscountedSumAtOne(cfs);
  }

  lemma {:induction false} DiscountedSumAtOne(cfs: seq<real>)
    ensures DiscountedSum(cfs, 1.0) == Sum(cfs)
    decreases |cfs|
  {
    if cfs != [] {
      DiscountedSumAtOne(cfs[..|cfs| - 1]);
      PowOne(|cfs|);
    }
  }

  /** The NPV loop: `total` starts at minus the outlay and adds one discounted
      flow per year. */
  method ComputeNpv(cfs: seq<real>, initialInvestment: real, rate: real) returns (r: Result<real>)
    ensures r == Npv(cfs, initialInvestment, rate)
  {
    var base := 1.0 + rate;
    var total := -initialInvestment;
    var i := 1;
    while i <= |cfs|
      invariant 1 <= i <= |cfs| + 1
      invariant base == 0.0 ==> i == 1
      invariant i == 1 ==> total == -initialInvestment
      invariant base != 0.0 ==> total == -initialInvestment + DiscountedSum(cfs[..i - 1], base)
    {
      if base != 0.0 {
        PowNonZero(base, i);
      }
      var factor := Pow(base, i);
      if factor == 0.0 {
        return Failure(DivisionByZero);
      }
      DiscountedStep(cfs, base, i);
      total := total + cfs[i - 1] / factor;
      i := i + 1;
    }
    assert cfs[..|cfs|] == cfs;
    return Success(total);
  }

  /** The derivative loop, accumulating `-(i * cf_i) / (1 + rate) ** (i + 1)`. */
  method ComputeDnpv(cfs: seq<real>, rate: real) returns (r: Result<real>)
    ensures r == Dnpv(cfs, rate)
  {
    var base := 1.0 + rate;
    var total := 0.0;
    var i := 1;
    while i <= |cfs|
      invariant 1 <= i <= |cfs| + 1
      invariant base == 0.0 ==> i == 1
      invariant i == 1 ==> total == 0.0
      invariant base != 0.0 ==> total == -WeightedDiscountedSum(cfs[..i - 1], base)
    {
      if base != 0.0 {
        PowNonZero(base, i + 1);
      }
      var factor := Pow(base, i + 1);
      if factor == 0.0 {
        return Failure(DivisionByZero);
      }
      WeightedStep(cfs, base, i);
      total := total - i as real * cfs[i - 1] / factor;
      i := i + 1;
    }
    assert cfs[..|cfs|] == cfs;
    return Success(total);
  }

  lemma DiscountedStep(cfs: seq<real>, base: real, i: nat)
    requires base != 0.0 && 1 <= i <= |cfs|
    ensures Pow(base, i) != 0.0
    ensures DiscountedSum(cfs[..i], base) == DiscountedSum(cfs[..i - 1], base) + cfs[i - 1] / Pow(base, i)
  {
    PowNonZero(base, i);
    assert cfs[..i][..i - 1] == cfs[..i - 1];
  }

  lemma WeightedStep(cfs: seq<real>, base: real, i: nat)
    requires base != 0.0 && 1 <= i <= |cfs|
    ensures Pow(base, i + 1) != 0.0
    ensures WeightedDiscountedSum(cfs[..i], base) == WeightedDiscountedSum(cfs[..i - 1], base) + WeightedTerm(i, cfs[i - 1], base)
  {
    PowNonZero(base, i + 1);
    assert cfs[..i][..i - 1] == cfs[..i - 1];
  }

  // ---------------------------------------------------------------------------
  // Newton iteration

  /** At most `fuel` Newton steps from `rate`: a rate whose NPV is within the
      tolerance is returned, a flat derivative or running out of steps gives 0. */
  function NewtonFrom(cfs: seq<real>, initialInvestment: real, tolerance: real, rate: real, fuel: nat): Result<real>
    decreases fuel
  {
    if fuel == 0 then Success(0.0)
    else
      var n := Npv(cfs, initialInvestment, rate);
      if n.Failure? then Failure(n.error)
      else if Abs(n.value) < tolerance then Success(rate)
      else
        var d := Dnpv(cfs, rate).value;
        if Abs(d) < tolerance then Success(0.0)
        else if d == 0.0 then Failure(DivisionByZero)
        else NewtonFrom(cfs, initialInvestment, tolerance, rate - n.value / d, fuel - 1)
  }

  /** The IRR of a series: Newton from 10% for at most 100 steps. */
  function Irr(cfs: seq<real>, initialInvestment: real, tolerance: real): Result<real> {
    NewtonFrom(cfs, initialInvestment, tolerance, InitialRate, MaxSteps)
  }

  /** What the iteration may return: the 0.0 fallback, or a rate at which
      the NPV is defined and within the tolerance of zero. */
  predicate AcceptableIrr(cfs: seq<real>, initialInvestment: real, tolerance: real, rate: real) {
    rate == 0.0 ||
      (Npv(cfs, initialInvestment, rate).Success? && Abs(Npv(cfs, initialInvestment, rate).value) < tolerance)
  }

  /** Whatever the steps do, a successful result is acceptable. */
  lemma {:induction false} NewtonReturnContract(cfs: seq<real>, initialInvestment: real, tolerance: real, rate: real, fuel: nat)
    ensures var r := NewtonFrom(cfs, initialInvestment, tolerance, rate, fuel);
      r.Success? ==> AcceptableIrr(cfs, initialInvestment, tolerance, r.value)
    decreases fuel
  {
    if fuel > 0 {
      var n := Npv(cfs, initialInvestment, rate);
      if n.Success? && Abs(n.value) >= tolerance {
        var d := Dnpv(cfs, rate).value;
        if Abs(d) >= tolerance && d != 0.0 {
          NewtonReturnContract(cfs, initialInvestment, tolerance, rate - n.value / d, fuel - 1);
        }
      }
    }
  }

  lemma IrrReturnContract(cfs: seq<real>, initialInvestment: real, tolerance: real)
    ensures var r := Irr(cfs, initialInvestment, tolerance);
      r.Success? ==> AcceptableIrr(cfs, initialInvestment, tolerance, r.value)
  {
    NewtonReturnContract(cfs, initialInvestment, tolerance, InitialRate, MaxSteps);
  }

  /** With a positive tolerance, the iteration can only fail by reaching a rate
      of exactly -1 with a non-empty series. */
  lemma {:induction false} NewtonFailsOnlyAtMinusOne(cfs: seq<real>, initialInvestment: real, tolerance: real, rate: real, fuel: nat)
    requires tolerance > 0.0
    ensures NewtonFrom(cfs, initialInvestment, tolerance, rate, fuel).Failure? ==> |cfs| > 0
    decreases fuel
  {
    if fuel > 0 {
      var n := Npv(cfs, initialInvestment, rate);
      if n.Success? && Abs(n.value) >= tolerance {
        var d := Dnpv(cfs, rate).value;
        if Abs(d) >= tolerance {
          NewtonFailsOnlyAtMinusOne(cfs, initialInvestment, tolerance, rate - n.value / d, fuel - 1);
        }
      }
    }
  }

  /** With no flows the NPV is the constant `-initialInvestment` and its
      derivative is 0: the starting rate is returned when the outlay is within
      the tolerance, and 0.0 otherwise. */
  lemma IrrOfNoFlows(initialInvestment: real, tolerance: real)
    requires tolerance > 0.0
    ensures Irr([], initialInvestment, tolerance)
         == Success(if Abs(initialInvestment) < tolerance then InitialRate else 0.0)
  {
  }

  /** The Newton loop of `calculate_irr`. */
  method CalculateIrr(cfs: seq<real>, initialInvestment: real, tolerance: real) returns (r: Result<real>)
    ensures r == Irr(cfs, initialInvestment, tolerance)
  {
    var rate := InitialRate;
    var step := 0;
    while step < MaxSteps
      invariant 0 <= step <= MaxSteps
      invariant NewtonFrom(cfs, initialInvestment, tolerance, rate, MaxSteps - step) == Irr(cfs, initialInvestment, tolerance)
    {
      var n := ComputeNpv(cfs, initialInvestment, rate);
      if n.Failure? {
        return Failure(n.error);
      }
      if Abs(n.value) < tolerance {
        return Success(rate);
      }
      var d := ComputeDnpv(cfs, rate);
      if Abs(d.value) < tolerance {
        break;
      }
      if d.value == 0.0 {
        return Failure(DivisionByZero);
      }
      rate := rate - n.value / d.value;
      step := step + 1;
    }
    return Success(0.0);
  }

  // ---------------------------------------------------------------------------
  // Guarded ratios

  /** Total proceeds over the size of the (signed) initial equity; 0 without equity. */
  function EquityMultiple(totalProceeds: real, initialEquity: real): real {
    var eq := Abs(initialEquity);
    if eq <= 0.0 then 0.0 else totalProceeds / eq
  }

  /** A year's cash flow over the size of the (signed) initial equity; 0 without equity. */
  function CashOnCash(annualCashflow: real, initialEquity: real): real {
    var eq := Abs(initialEquity);
    if eq <= 0.0 then 0.0 else annualCashflow / eq
  }

  /** NOI over debt service; 0 when there is no positive debt service. */
  function Dscr(noi: real, debtService: real): real {
    if debtService <= 0.0 then 0.0 else noi / debtService
  }

  /** Both equity ratios are 0 without equity and otherwise scale back to
      their numerator by the size of the equity, so the sign of the equity
      never matters. */
  lemma EquityRatios(amount: real, initialEquity: real)
    ensures initialEquity == 0.0 ==> EquityMultiple(amount, initialEquity) == 0.0 && CashOnCash(amount, initialEquity) == 0.0
    ensures initialEquity != 0.0 ==> EquityMultiple(amount, initialEquity) * Abs(initialEquity) == amount
    ensures initialEquity != 0.0 ==> CashOnCash(amount, initialEquity) * Abs(initialEquity) == amount
    ensures EquityMultiple(amount, initialEquity) == EquityMultiple(amount, -initialEquity)
    ensures CashOnCash(amount, initialEquity) == CashOnCash(amount, -initialEquity)
  {
  }

  /** DSCR is 0 without positive debt service and otherwise scales back to NOI. */
  lemma DscrMeaning(noi: real, debtService: real)
    ensures debtService <= 0.0 ==> Dscr(noi, debtService) == 0.0
    ensures debtService > 0.0 ==> Dscr(noi, debtService) * debtService == noi
  {
  }

  // ---------------------------------------------------------------------------
  // compute_metrics

  /** The levered cash flow of every period, in order. */
  function LeveredSeries(ps: seq<CashflowPeriod>): (r: seq<real>)
    ensures |r| == |ps|
    ensures forall i :: 0 <= i < |ps| ==> r[i] == ps[i].leveredCf
    decreases |ps|
  {
    if ps == [] then [] else LeveredSeries(ps[..|ps| - 1]) + [ps[|ps| - 1].leveredCf]
  }

  lemma {:induction false} LeveredSeriesSum(ps: seq<CashflowPeriod>)
    ensures Sum(LeveredSeries(ps)) == LeveredSum(ps)
    decreases |ps|
  {
    if ps != [] {
      LeveredSeriesSum(ps[..|ps| - 1]);
      var s := LeveredSeries(ps);
      assert s[..|s| - 1] == LeveredSeries(ps[..|ps| - 1]);
    }
  }

  /** The series handed to the IRR: one levered flow per year, then the exit
      cash as one more year. */
  function IrrSeries(periods: seq<CashflowPeriod>, exitProceeds: real): seq<real> {
    LeveredSeries(periods) + [exitProceeds]
  }

  /** Year-1 NOI over the size of the initial equity, 0 without equity. */
  function NoiYield(year1Noi: real, initialEquity: real): real {
    if initialEquity != 0.0 then year1Noi / Abs(initialEquity) else 0.0
  }

  /** Year-1 NOI over a price guessed as `initialEquity / 0.35`, 0 when that guess is 0.
      The guess keeps the sign of `initialEquity`. */
  function CapRate(year1Noi: real, initialEquity: real): real {
    var purchasePriceEst := initialEquity / 0.35;
    if purchasePriceEst != 0.0 then year1Noi / purchasePriceEst else 0.0
  }

  /** All six metrics; an empty projection gives six zeros, and the only
      failure is the IRR's. */
  function ComputeMetrics(periods: seq<CashflowPeriod>, initialEquity: real, exitProceeds: real): (r: Result<InvestmentMetrics>)
    ensures periods == [] ==> r == Success(InvestmentMetrics(0.0, 0.0, 0.0, 0.0, 0.0, 0.0))
    ensures periods != [] ==>
      (r.Failure? <==> Irr(IrrSeries(periods, exitProceeds), Abs(initialEquity), Tolerance).Failure?)
  {
    if periods == [] then Success(InvestmentMetrics(0.0, 0.0, 0.0, 0.0, 0.0, 0.0))
    else
      var totalProceeds := Sum(LeveredSeries(periods)) + exitProceeds;
      var year1 := periods[0];
      var irr := Irr(IrrSeries(periods, exitProceeds), Abs(initialEquity), Tolerance);
      if irr.Failure? then Failure(irr.error)
      else
        Success(InvestmentMetrics(
          irrPct := irr.value * 100.0,
          equityMultiple := Round(EquityMultiple(totalProceeds, initialEquity), 2),
          cashOnCashPct := CashOnCash(year1.leveredCf, initialEquity) * 100.0,
          dscr := Round(Dscr(year1.noi, year1.debtService), 2),
          noiYieldPct := NoiYield(year1.noi, initialEquity) * 100.0,
          capRatePct := CapRate(year1.noi, initialEquity) * 100.0))
  }

  /** The reported IRR, as a fraction, is the 0.0 fallback or a rate at which
      the NPV of the levered flows followed by the exit cash is within the
      tolerance of zero. */
  lemma MetricsIrr(periods: seq<CashflowPeriod>, initialEquity: real, exitProceeds: real)
    requires periods != [] && ComputeMetrics(periods, initialEquity, exitProceeds).Success?
    ensures var rate := ComputeMetrics(periods, initialEquity, exitProceeds).value.irrPct / 100.0;
      var series := IrrSeries(periods, exitProceeds);
      |series| == |periods| + 1 && series[|periods|] == exitProceeds &&
      AcceptableIrr(series, Abs(initialEquity), Tolerance, rate)
  {
    IrrReturnContract(IrrSeries(periods, exitProceeds), Abs(initialEquity), Tolerance);
  }

  /** Equity multiple: within half a cent of all levered cash plus the exit
      cash over the size of the equity, and 0 without equity. */
  lemma MetricsEquityMultiple(periods: seq<CashflowPeriod>, initialEquity: real, exitProceeds: real)
    requires periods != [] && ComputeMetrics(periods, initialEquity, exitProceeds).Success?
    ensures var m := ComputeMetrics(periods, initialEquity, exitProceeds).value;
      && (initialEquity == 0.0 ==> m.equityMultiple == 0.0)
      && (initialEquity != 0.0 ==>
            Abs(m.equityMultiple - (LeveredSum(periods) + exitProceeds) / Abs(initialEquity)) * 100.0 <= 0.5)
  {
    LeveredSeriesSum(periods);
    var x := EquityMultiple(Sum(LeveredSeries(periods)) + exitProceeds, initialEquity);
    RoundError(x, 2);
    RoundZero(2);
    assert Pow(10.0, 2) == 100.0 by {
      assert Pow(10.0, 1) == 10.0 * Pow(10.0, 0);
    }
  }

  /** DSCR: within half a cent of year-1 NOI over year-1 debt service, and 0
      when that debt service is not positive. */
  lemma MetricsDscr(periods: seq<CashflowPeriod>, initialEquity: real, exitProceeds: real)
    requires periods != [] && ComputeMetrics(periods, initialEquity, exitProceeds).Success?
    ensures var m := ComputeMetrics(periods, initialEquity, exitProceeds).value;
      && (periods[0].debtService <= 0.0 ==> m.dscr == 0.0)
      && (periods[0].debtService > 0.0 ==>
            Abs(m.dscr - periods[0].noi / periods[0].debtService) * 100.0 <= 0.5)
  {
    RoundError(Dscr(periods[0].noi, periods[0].debtService), 2);
    RoundZero(2);
    assert Pow(10.0, 2) == 100.0 by {
      assert Pow(10.0, 1) == 10.0 * Pow(10.0, 0);
    }
  }

  /** Cash-on-cash and the two yields as percentages of the initial equity:
      all three are 0 without equity; cash-on-cash and the NOI yield use its
      size, the cap rate its sign, through a price guessed as equity / 0.35. */
  lemma MetricsYields(periods: seq<CashflowPeriod>, initialEquity: real, exitProceeds: real)
    requires periods != [] && ComputeMetrics(periods, initialEquity, exitProceeds).Success?
    ensures var m := ComputeMetrics(periods, initialEquity, exitProceeds).value;
      && (initialEquity == 0.0 ==> m.cashOnCashPct == 0.0 && m.noiYieldPct == 0.0 && m.capRatePct == 0.0)
      && (initialEquity != 0.0 ==>
            && m.cashOnCashPct * Abs(initialEquity) == 100.0 * periods[0].leveredCf
            && m.noiYieldPct * Abs(initialEquity) == 100.0 * periods[0].noi
            && m.capRatePct * initialEquity == 35.0 * periods[0].noi)
  {
    var m := ComputeMetrics(periods, initialEquity, exitProceeds).value;
    var e := initialEquity;
    if e != 0.0 {
      var coc := CashOnCash(periods[0].leveredCf, e);
      assert m.cashOnCashPct == coc * 100.0;
      YieldScale(coc, Abs(e), periods[0].leveredCf);
      var y := NoiYield(periods[0].noi, e);
      YieldScale(y, Abs(e), periods[0].noi);
      CapRateScale(periods[0].noi, e);
      assert m.capRatePct == CapRate(periods[0].noi, e) * 100.0;
    }
  }

  lemma YieldScale(y: real, size: real, noi: real)
    requires size > 0.0 && y == noi / size
    ensures (y * 100.0) * size == 100.0 * noi
  {
  }

  lemma CapRateScale(noi: real, e: real)
    requires e != 0.0
    ensures (CapRate(noi, e) * 100.0) * e == 35.0 * noi
  {
    var est := e / 0.35;
    assert est != 0.0;
    var c := noi / est;
    assert c * est == noi;
    assert c * e == 0.35 * noi;
  }
}
