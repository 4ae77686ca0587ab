/** The cashflow projector: one record per hold year with income, operating
    costs, the loan schedule, capex and levered/unlevered cash flow, plus the
    exit formula. */
module Cashflow {

  import opened Outcomes
  import opened Numerics

  /** One operating year of the projection. */
  datatype CashflowPeriod = CashflowPeriod(
    period: int,
    egi: real,
    opex: real,
    noi: real,
    debtService: real,
    interestExpense: real,
    principalAmortization: real,
    loanBalanceBegin: real,
    loanBalanceEnd: real,
    capex: real,
    leveredCf: real,
    unleveredCf: real,
    cumulativeEquity: real)

  /** The arguments of the projector that it reads. It also takes an exit cap
      rate and exit costs, which it never reads; `CalculateCashflows` takes them
      as separate parameters. */
  datatype ProjectionArgs = ProjectionArgs(
    purchasePrice: real,
    holdPeriod: int,
    grossRent: real,
    vacancyPct: real,
    rentGrowthPct: real,
    opexPct: real,
    capexReservePct: real,
    ltvPct: real,
    interestRate: real,
    amortizationYears: int,
    interestOnly: bool,
    acquisitionCostsPct: real)

  /** The price plus acquisition costs. */
  function TotalCost(purchasePrice: real, acquisitionCostsPct: real): real {
    purchasePrice * (1.0 + acquisitionCostsPct)
  }

  function Equity(a: ProjectionArgs): real {
    TotalCost(a.purchasePrice, a.acquisitionCostsPct) * (1.0 - a.ltvPct)
  }

  function LoanAmount(a: ProjectionArgs): real {
    TotalCost(a.purchasePrice, a.acquisitionCostsPct) * a.ltvPct
  }

  /** Equity and loan together finance the price plus acquisition costs. */
  lemma CapitalSplit(a: ProjectionArgs)
    ensures Equity(a) + LoanAmount(a) == TotalCost(a.purchasePrice, a.acquisitionCostsPct)
  {
  }

  /** Level monthly payment of an annuity with `n` monthly payments at monthly
      rate `m`, where `g` is `(1 + m) ** n`. */
  function MonthlyPayment(loan: real, m: real, g: real): real
    requires g != 1.0
  {
    loan * (m * g) / (g - 1.0)
  }

  /** The yearly debt service fixed before the first period: interest only, or
      twelve level monthly annuity payments. The annuity divides by
      `(1 + m) ** n - 1`, which is zero at a zero rate. */
  function AnnualDebtService(a: ProjectionArgs): Result<real> {
    if a.interestOnly then Success(LoanAmount(a) * a.interestRate)
    else AmortizingDebtService(LoanAmount(a), a.interestRate, a.amortizationYears)
  }

  /** An interest-only loan pays the loan amount times the rate every year. */
  lemma InterestOnlyDebtService(a: ProjectionArgs)
    requires a.interestOnly
    ensures AnnualDebtService(a).Success?
    ensures AnnualDebtService(a).value == LoanAmount(a) * a.interestRate
  {
  }

  /** Twelve level monthly payments of an annuity over `years` years. */
  function AmortizingDebtService(loan: real, rate: real, years: int): Result<real> {
    var m := rate / 12.0;
    var g := PowInt(1.0 + m, years * 12);
    if g.Failure? then Failure(g.error)
    else if g.value - 1.0 == 0.0 then Failure(DivisionByZero)
    else Success(MonthlyPayment(loan, m, g.value) * 12.0)
  }

  /** Number of records the projection produces: `range(1, hold + 1)`. */
  function HoldCount(a: ProjectionArgs): nat {
    if a.holdPeriod > 0 then a.holdPeriod else 0
  }

  /** Effective gross income of period `t`: growth is applied already in year 1. */
  function EgiAt(a: ProjectionArgs, t: nat): real {
    a.grossRent * (1.0 - a.vacancyPct) * Pow(1.0 + a.rentGrowthPct, t)
  }

  /** A year of growth takes the EGI of year `t` to that of year `t + 1`. */
  lemma EgiStep(a: ProjectionArgs, t: nat, egi: real)
    requires egi == EgiAt(a, t)
    ensures egi * (1.0 + a.rentGrowthPct) == EgiAt(a, t + 1)
  {
    var x := 1.0 + a.rentGrowthPct;
    var b := a.grossRent * (1.0 - a.vacancyPct);
    assert Pow(x, t + 1) == x * Pow(x, t);
    assert (b * Pow(x, t)) * x == b * (x * Pow(x, t));
  }

  /** Capex reserve of period `t`: the reserve share of year-0 EGI, grown `t - 1` times. */
  function CapexAt(a: ProjectionArgs, t: nat): real
    requires t >= 1
  {
    a.grossRent * (1.0 - a.vacancyPct) * a.capexReservePct * Pow(1.0 + a.rentGrowthPct, t - 1)
  }

  /** Cumulative equity before period 1: the equity and, a second time, the
      acquisition costs. */
  function InitialCumulativeEquity(a: ProjectionArgs): real {
    -Equity(a) - a.purchasePrice * a.acquisitionCostsPct
  }

  /** The record of period `t`, given its EGI, the balance it opens with and
      the cumulative equity before it. */
  function PeriodAt(a: ProjectionArgs, ads: real, t: nat, egi: real, balanceBegin: real, cumulativeBefore: real): CashflowPeriod
    requires t >= 1
  {
    var opex := egi * a.opexPct;
    var noi := egi - opex;
    var capex := CapexAt(a, t);
    var interest := balanceBegin * a.interestRate;
    var principal := if a.interestOnly then 0.0 else ads - interest;
    var balanceEnd := Max(0.0, balanceBegin - principal);
    var debtService := interest + principal;
    var levered := noi - debtService - capex;
    CashflowPeriod(t, egi, opex, noi, debtService, interest, principal, balanceBegin,
                   balanceEnd, capex, levered, noi - capex, cumulativeBefore + levered)
  }

  /** The balance the next period opens with. */
  function OpeningBalance(a: ProjectionArgs, prev: seq<CashflowPeriod>): real {
    if prev == [] then LoanAmount(a) else prev[|prev| - 1].loanBalanceEnd
  }

  /** The cumulative equity before the next period. */
  function CumulativeBefore(a: ProjectionArgs, prev: seq<CashflowPeriod>): real {
    if prev == [] then InitialCumulativeEquity(a) else prev[|prev| - 1].cumulativeEquity
  }

  /** The first `n` records, built the way the loop appends them. */
  function Schedule(a: ProjectionArgs, ads: real, n: nat): seq<CashflowPeriod>
    decreases n
  {
    if n == 0 then []
    else
      var prev := Schedule(a, ads, n - 1);
      prev + [PeriodAt(a, ads, n, EgiAt(a, n), OpeningBalance(a, prev), CumulativeBefore(a, prev))]
  }

  /** The projection: fails only where the annuity divides by zero. */
  function Cashflows(a: ProjectionArgs): Result<seq<CashflowPeriod>> {
    match AnnualDebtService(a)
    case Failure(e) => Failure(e)
    case Success(ads) => Success(Schedule(a, ads, HoldCount(a)))
  }

  /** The yearly debt service, computed before the loop. */
  method ComputeAnnualDebtService(a: ProjectionArgs) returns (r: Result<real>)
    ensures r == AnnualDebtService(a)
  {
    if a.interestOnly {
      r := Success(LoanAmount(a) * a.interestRate);
      InterestOnlyDebtService(a);
      assert r.value == AnnualDebtService(a).value;
      return;
    }
    r := ComputeAmortizingDebtService(LoanAmount(a), a.interestRate, a.amortizationYears);
  }

  /** Twelve level monthly payments; fails where `(1 + m) ** n - 1` is zero. */
  method ComputeAmortizingDebtService(loan: real, rate: real, years: int) returns (r: Result<real>)
    ensures r == AmortizingDebtService(loan, rate, years)
  {
    var monthlyRate := rate / 12.0;
    var nPayments := years * 12;
    var growth := PowInt(1.0 + monthlyRate, nPayments);
    if growth.Failure? {
      return Failure(growth.error);
    }
    if growth.value - 1.0 == 0.0 {
      return Failure(DivisionByZero);
    }
    var monthlyPayment := MonthlyPayment(loan, monthlyRate, growth.value);
    return Success(monthlyPayment * 12.0);
  }

  /** The body of the projector's loop: the record of period `t`. */
  method ComputePeriod(a: ProjectionArgs, annualDebtService: real, t: nat, egi: real,
                       balanceBegin: real, cumulativeBefore: real)
    returns (record: CashflowPeriod)
    requires t >= 1
    ensures record == PeriodAt(a, annualDebtService, t, egi, balanceBegin, cumulativeBefore)
  {
    var opex := egi * a.opexPct;
    var noi := egi - opex;
    var capex := CapexAt(a, t);

    var interestExpense := balanceBegin * a.interestRate;
    var principalAmortization := annualDebtService - interestExpense;
    if a.interestOnly {
      principalAmortization := 0.0;
    }
    var balanceEnd := Max(0.0, balanceBegin - principalAmortization);

    var debtService := interestExpense + principalAmortization;
    var leveredCf := noi - debtService - capex;
    var unleveredCf := noi - capex;

    record := CashflowPeriod(t, egi, opex, noi, debtService, interestExpense,
                             principalAmortization, balanceBegin, balanceEnd, capex,
                             leveredCf, unleveredCf, cumulativeBefore + leveredCf);
  }

  /** The projector: fixes the debt service, then runs the yearly loop. */
  method CalculateCashflows(a: ProjectionArgs, exitCapRate: real, exitCostsPct: real)
    returns (res: Result<seq<CashflowPeriod>>)
    ensures res == Cashflows(a)
  {
    var debt := ComputeAnnualDebtService(a);
    if debt.Failure? {
      return Failure(debt.error);
    }
    var periods := ProjectPeriods(a, debt.value);
    return Success(periods);
  }

  /** The projector's loop: compounds EGI, runs the loan balance and accumulates
      cumulative equity period by period. */
  method ProjectPeriods(a: ProjectionArgs, annualDebtService: real) returns (periods: seq<CashflowPeriod>)
    ensures periods == Schedule(a, annualDebtService, HoldCount(a))
  {
    var cumulativeEquity := -Equity(a) - a.purchasePrice * a.acquisitionCostsPct;
    var egi := a.grossRent * (1.0 - a.vacancyPct);
    var balance := LoanAmount(a);
    periods := [];

    var period := 1;
    while period <= a.holdPeriod
      invariant 1 <= period && period - 1 <= HoldCount(a)
      invariant period <= a.holdPeriod ==> period - 1 < HoldCount(a)
      invariant periods == Schedule(a, annualDebtService, period - 1)
      invariant egi == EgiAt(a, period - 1)
      invariant balance == OpeningBalance(a, periods)
      invariant cumulativeEquity == CumulativeBefore(a, periods)
    {
      EgiStep(a, period - 1, egi);
      egi := egi * (1.0 + a.rentGrowthPct);
      var record := ComputePeriod(a, annualDebtService, period, egi, balance, cumulativeEquity);
      ScheduleAppend(a, annualDebtService, period - 1, egi, balance, cumulativeEquity, record);
      balance := record.loanBalanceEnd;
      cumulativeEquity := record.cumulativeEquity;
      periods := periods + [record];
      period := period + 1;
    }
  }

  // ---------------------------------------------------------------------------
  // Shape of the schedule

  /** One more period appends the record computed from the schedule so far. */
  lemma ScheduleStep(a: ProjectionArgs, ads: real, n: nat)
    ensures Schedule(a, ads, n + 1)
         == Schedule(a, ads, n) + [PeriodAt(a, ads, n + 1, EgiAt(a, n + 1),
                                            OpeningBalance(a, Schedule(a, ads, n)),
                                            CumulativeBefore(a, Schedule(a, ads, n)))]
  {
  }

  /** The loop's record appended to the schedule so far is the next schedule. */
  lemma ScheduleAppend(a: ProjectionArgs, ads: real, n: nat, egi: real, balance: real, cumulative: real,
                       record: CashflowPeriod)
    requires egi == EgiAt(a, n + 1)
    requires balance == OpeningBalance(a, Schedule(a, ads, n))
    requires cumulative == CumulativeBefore(a, Schedule(a, ads, n))
    requires record == PeriodAt(a, ads, n + 1, egi, balance, cumulative)
    ensures Schedule(a, ads, n + 1) == Schedule(a, ads, n) + [record]
  {
    ScheduleStep(a, ads, n);
  }

  lemma {:induction false} ScheduleShape(a: ProjectionArgs, ads: real, n: nat)
    ensures |Schedule(a, ads, n)| == n
    ensures forall k :: 0 <= k < n ==> Schedule(a, ads, n)[k].period == k + 1
    decreases n
  {
    if n > 0 {
      ScheduleShape(a, ads, n - 1);
    }
  }

  lemma {:induction false} SchedulePrefix(a: ProjectionArgs, ads: real, m: nat, n: nat)
    requires m <= n
    ensures |Schedule(a, ads, n)| == n
    ensures Schedule(a, ads, n)[..m] == Schedule(a, ads, m)
    decreases n
  {
    ScheduleShape(a, ads, n);
    if m < n {
      SchedulePrefix(a, ads, m, n - 1);
      ScheduleShape(a, ads, n - 1);
      assert Schedule(a, ads, n)[..n - 1] == Schedule(a, ads, n - 1);
      assert Schedule(a, ads, n)[..m] == Schedule(a, ads, n)[..n - 1][..m];
    }
  }

  /** Record `k` (0-based) of any longer schedule is period `k + 1` computed from the
      first `k` records. */
  lemma ScheduleAt(a: ProjectionArgs, ads: real, n: nat, k: nat)
    requires k < n
    ensures |Schedule(a, ads, n)| == n
    ensures Schedule(a, ads, n)[k]
         == PeriodAt(a, ads, k + 1, EgiAt(a, k + 1), OpeningBalance(a, Schedule(a, ads, k)), CumulativeBefore(a, Schedule(a, ads, k)))
  {
    SchedulePrefix(a, ads, k + 1, n);
    ScheduleShape(a, ads, k + 1);
    assert Schedule(a, ads, n)[k] == Schedule(a, ads, n)[..k + 1][k];
  }

  /** The projection has exactly hold-period records, numbered 1..hold in order. */
  lemma CashflowsShape(a: ProjectionArgs)
    requires Cashflows(a).Success?
    ensures |Cashflows(a).value| == HoldCount(a)
    ensures forall k :: 0 <= k < HoldCount(a) ==> Cashflows(a).value[k].period == k + 1
  {
    ScheduleShape(a, AnnualDebtService(a).value, HoldCount(a));
  }

  /** Income side of record `k` (0-based): EGI grows from the vacancy-adjusted
      rent already in year 1, opex is a share of EGI, and the capex reserve is
      the reserve share of the previous year's EGI. */
  predicate IncomeFormulas(a: ProjectionArgs, k: nat, p: CashflowPeriod) {
    && p.period == k + 1
    && p.egi == EgiAt(a, k + 1)
    && p.opex == p.egi * a.opexPct
    && p.noi == p.egi - p.opex
    && p.capex == a.capexReservePct * EgiAt(a, k)
  }

  /** Loan side of a record: a year's interest on the opening balance, principal
      as what is left of the annual debt service (none when interest only), and
      the closing balance floored at zero. */
  predicate LoanFormulas(a: ProjectionArgs, ads: real, p: CashflowPeriod) {
    && p.interestExpense == p.loanBalanceBegin * a.interestRate
    && p.principalAmortization == (if a.interestOnly then 0.0 else ads - p.interestExpense)
    && p.debtService == p.interestExpense + p.principalAmortization
    && p.loanBalanceEnd == Max(0.0, p.loanBalanceBegin - p.principalAmortization)
  }

  /** Cash flow of a record: unlevered is NOI less capex, levered also less debt service. */
  predicate CashFormulas(p: CashflowPeriod) {
    && p.unleveredCf == p.noi - p.capex
    && p.leveredCf == p.noi - p.debtService - p.capex
  }

  /** Every record the step function builds satisfies the three formula groups. */
  lemma PeriodAtFormulas(a: ProjectionArgs, ads: real, k: nat, egi: real, balanceBegin: real, cumulativeBefore: real)
    requires egi == EgiAt(a, k + 1)
    ensures var p := PeriodAt(a, ads, k + 1, egi, balanceBegin, cumulativeBefore);
      && IncomeFormulas(a, k, p) && LoanFormulas(a, ads, p) && CashFormulas(p)
      && p.loanBalanceBegin == balanceBegin
      && p.cumulativeEquity == cumulativeBefore + p.leveredCf
  {
    CapexLagsEgi(a, k + 1);
  }

  /** Record `k` of the schedule satisfies the formulas, opens with the balance
      the previous record closed with and carries the running cumulative equity. */
  lemma ScheduleFormulas(a: ProjectionArgs, ads: real, n: nat, k: nat)
    requires k < n
    ensures |Schedule(a, ads, n)| == n
    ensures var p := Schedule(a, ads, n)[k];
      && IncomeFormulas(a, k, p) && LoanFormulas(a, ads, p) && CashFormulas(p)
      && p.loanBalanceBegin == OpeningBalance(a, Schedule(a, ads, k))
      && p.cumulativeEquity == CumulativeBefore(a, Schedule(a, ads, k)) + p.leveredCf
  {
    var prev := Schedule(a, ads, k);
    ScheduleAt(a, ads, n, k);
    PeriodAtFormulas(a, ads, k, EgiAt(a, k + 1), OpeningBalance(a, prev), CumulativeBefore(a, prev));
  }

  /** The capex reserve of year `t` is the reserve share of year `t - 1`'s EGI,
      with year 0 the vacancy-adjusted rent before any growth. */
  lemma CapexLagsEgi(a: ProjectionArgs, t: nat)
    requires t >= 1
    ensures CapexAt(a, t) == a.capexReservePct * EgiAt(a, t - 1)
  {
    var b := a.grossRent * (1.0 - a.vacancyPct);
    var q := Pow(1.0 + a.rentGrowthPct, t - 1);
    assert b * a.capexReservePct * q == a.capexReservePct * (b * q);
  }

  /** The loan balance is chained from the loan amount and floored at zero. */
  lemma LoanBalanceChain(a: ProjectionArgs, ads: real, n: nat, k: nat)
    requires k < n
    ensures |Schedule(a, ads, n)| == n
    ensures var ps := Schedule(a, ads, n);
      && (k == 0 ==> ps[0].loanBalanceBegin == LoanAmount(a))
      && (k > 0 ==> ps[k].loanBalanceBegin == ps[k - 1].loanBalanceEnd)
      && ps[k].loanBalanceEnd >= 0.0
  {
    ScheduleFormulas(a, ads, n, k);
    if k > 0 {
      SchedulePrefix(a, ads, k, n);
      assert Schedule(a, ads, k)[k - 1] == Schedule(a, ads, n)[k - 1];
    }
  }

  /** Every balance the schedule opens a period with is non-negative when the loan is. */
  lemma BalanceNonNegative(a: ProjectionArgs, ads: real, n: nat, k: nat)
    requires k < n && LoanAmount(a) >= 0.0
    ensures |Schedule(a, ads, n)| == n
    ensures Schedule(a, ads, n)[k].loanBalanceBegin >= 0.0
  {
    LoanBalanceChain(a, ads, n, k);
    if k > 0 {
      LoanBalanceChain(a, ads, n, k - 1);
    }
  }

  /** An interest-only year at balance `L`: no principal is repaid, the
      balance stays at `L` and the debt service is `L` times the rate. */
  predicate InterestOnlyPeriod(p: CashflowPeriod, L: real, rate: real) {
    && p.principalAmortization == 0.0
    && p.loanBalanceBegin == L && p.loanBalanceEnd == L
    && p.debtService == L * rate
  }

  /** Interest only: every year of the schedule is an interest-only year at
      the loan amount, whatever the annual figure computed up front. */
  lemma {:induction false} InterestOnlySchedule(a: ProjectionArgs, ads: real, n: nat, k: nat)
    requires a.interestOnly && k < n && LoanAmount(a) >= 0.0
    ensures |Schedule(a, ads, n)| == n
    ensures InterestOnlyPeriod(Schedule(a, ads, n)[k], LoanAmount(a), a.interestRate)
    decreases k
  {
    LoanBalanceChain(a, ads, n, k);
    ScheduleLoanFormulas(a, ads, n, k);
    if k > 0 {
      InterestOnlySchedule(a, ads, n, k - 1);
    }
    InterestOnlyRecord(a, ads, Schedule(a, ads, n)[k], LoanAmount(a));
  }

  lemma ScheduleLoanFormulas(a: ProjectionArgs, ads: real, n: nat, k: nat)
    requires k < n
    ensures |Schedule(a, ads, n)| == n
    ensures LoanFormulas(a, ads, Schedule(a, ads, n)[k])
  {
    ScheduleFormulas(a, ads, n, k);
  }

  /** One interest-only record opening at balance `L` is an interest-only year at `L`. */
  lemma InterestOnlyRecord(a: ProjectionArgs, ads: real, p: CashflowPeriod, L: real)
    requires a.interestOnly && LoanFormulas(a, ads, p) && p.loanBalanceBegin == L && L >= 0.0
    ensures InterestOnlyPeriod(p, L, a.interestRate)
  {
  }

  /** Amortizing: every period's debt service is the annual figure computed up
      front, also after the balance has been floored at zero. */
  lemma AmortizingDebtServiceConstant(a: ProjectionArgs, ads: real, n: nat, k: nat)
    requires !a.interestOnly && k < n
    ensures |Schedule(a, ads, n)| == n
    ensures Schedule(a, ads, n)[k].debtService == ads
  {
    ScheduleFormulas(a, ads, n, k);
  }

  /** With a validated rate and term, an amortizing projection succeeds exactly
      when the rate is positive: at 0% the annuity divides by zero. */
  lemma AmortizingNeedsPositiveRate(a: ProjectionArgs)
    requires !a.interestOnly && a.interestRate >= 0.0 && a.amortizationYears >= 1
    ensures Cashflows(a).Success? <==> a.interestRate > 0.0
  {
    var m := a.interestRate / 12.0;
    var n: nat := a.amortizationYears * 12;
    if a.interestRate > 0.0 {
      PowAboveOne(1.0 + m, n);
    } else {
      PowOne(n);
    }
  }

  function LeveredSum(ps: seq<CashflowPeriod>): real
    decreases |ps|
  {
    if ps == [] then 0.0 else LeveredSum(ps[..|ps| - 1]) + ps[|ps| - 1].leveredCf
  }

  lemma {:induction false} CumulativeOfSchedule(a: ProjectionArgs, ads: real, n: nat)
    ensures CumulativeBefore(a, Schedule(a, ads, n)) == InitialCumulativeEquity(a) + LeveredSum(Schedule(a, ads, n))
    decreases n
  {
    if n > 0 {
      CumulativeOfSchedule(a, ads, n - 1);
      var s := Schedule(a, ads, n);
      assert s[..|s| - 1] == Schedule(a, ads, n - 1);
    }
  }

  /** Per period, levered and unlevered cash flow differ by the debt service,
      and cumulative equity is the opening outlay plus all levered cash flow so far. */
  lemma CashflowIdentities(a: ProjectionArgs, ads: real, n: nat, k: nat)
    requires k < n
    ensures |Schedule(a, ads, n)| == n
    ensures var ps := Schedule(a, ads, n);
      && ps[k].unleveredCf - ps[k].leveredCf == ps[k].debtService
      && ps[k].unleveredCf == ps[k].noi - ps[k].capex
      && ps[k].cumulativeEquity == InitialCumulativeEquity(a) + LeveredSum(ps[..k + 1])
  {
    ScheduleFormulas(a, ads, n, k);
    CumulativeRunningSum(a, ads, n, k);
  }

  lemma CumulativeRunningSum(a: ProjectionArgs, ads: real, n: nat, k: nat)
    requires k < n
    ensures |Schedule(a, ads, n)| == n
    ensures var ps := Schedule(a, ads, n);
      ps[k].cumulativeEquity == InitialCumulativeEquity(a) + LeveredSum(ps[..k + 1])
  {
    var ps := Schedule(a, ads, n);
    ScheduleFormulas(a, ads, n, k);
    SchedulePrefix(a, ads, k, n);
    CumulativeOfSchedule(a, ads, k);
    assert ps[..k + 1][..k] == ps[..k];
    assert LeveredSum(ps[..k + 1]) == LeveredSum(ps[..k]) + ps[k].leveredCf;
  }

  // ---------------------------------------------------------------------------
  // The loan schedule against the monthly annuity it is priced from

  /** Balance after `k` months of monthly compounding at rate `m` with payment `p`. */
  function MonthlyBalance(loan: real, m: real, p: real, k: nat): real
    decreases k
  {
    if k == 0 then loan else MonthlyBalance(loan, m, p, k - 1) * (1.0 + m) - p
  }

  /** `1 + y + ... + y ** (k - 1)`: what `k` unit payments grow to. */
  function GeomSum(y: real, k: nat): real
    decreases k
  {
    if k == 0 then 0.0 else y * GeomSum(y, k - 1) + 1.0
  }

  /** The balance after `k` months is the loan grown `k` months less the grown payments. */
  predicate BalanceClosedForm(loan: real, m: real, p: real, k: nat) {
    MonthlyBalance(loan, m, p, k) == loan * Pow(1.0 + m, k) - p * GeomSum(1.0 + m, k)
  }

  lemma ClosedFormStep(loan: real, m: real, p: real, b: real, g: real, s: real)
    requires b == loan * g - p * s
    ensures b * (1.0 + m) - p == loan * ((1.0 + m) * g) - p * ((1.0 + m) * s + 1.0)
  {
  }

  lemma ClosedFormAt(loan: real, m: real, p: real, k: nat)
    requires k > 0 && BalanceClosedForm(loan, m, p, k - 1)
    ensures BalanceClosedForm(loan, m, p, k)
  {
    ClosedFormStep(loan, m, p, MonthlyBalance(loan, m, p, k - 1), Pow(1.0 + m, k - 1), GeomSum(1.0 + m, k - 1));
  }

  lemma {:induction false} MonthlyBalanceClosedForm(loan: real, m: real, p: real, k: nat)
    ensures BalanceClosedForm(loan, m, p, k)
    decreases k
  {
    if k > 0 {
      MonthlyBalanceClosedForm(loan, m, p, k - 1);
      ClosedFormAt(loan, m, p, k);
    }
  }

  lemma GeomStep(m: real, s: real, g: real)
    requires s * m == g - 1.0
    ensures ((1.0 + m) * s + 1.0) * m == (1.0 + m) * g - 1.0
  {
    assert ((1.0 + m) * s + 1.0) * m == (1.0 + m) * (s * m) + m;
  }

  /** The geometric sum in closed form: `m * sum == (1 + m) ** k - 1`. */
  lemma {:induction false} GeomSumTimesRate(m: real, k: nat)
    ensures GeomSum(1.0 + m, k) * m == Pow(1.0 + m, k) - 1.0
    decreases k
  {
    if k > 0 {
      GeomSumTimesRate(m, k - 1);
      GeomStep(m, GeomSum(1.0 + m, k - 1), Pow(1.0 + m, k - 1));
    }
  }

  lemma AnnuityIdentity(loan: real, m: real, g: real, s: real)
    requires g != 1.0 && s * m == g - 1.0
    ensures loan * g - MonthlyPayment(loan, m, g) * s == 0.0
  {
    var p := MonthlyPayment(loan, m, g);
    assert p * (g - 1.0) == loan * (m * g);
    assert p * (s * m) == loan * (m * g);
    assert (p * s) * m == (loan * g) * m;
    assert m != 0.0;
  }

  /** The monthly payment the engine prices the loan with repays it exactly after
      `n` monthly instalments under monthly compounding. */
  lemma AnnuityRepaysLoan(loan: real, m: real, n: nat)
    requires Pow(1.0 + m, n) != 1.0
    ensures MonthlyBalance(loan, m, MonthlyPayment(loan, m, Pow(1.0 + m, n)), n) == 0.0
  {
    var g := Pow(1.0 + m, n);
    MonthlyBalanceClosedForm(loan, m, MonthlyPayment(loan, m, g), n);
    GeomSumTimesRate(m, n);
    AnnuityIdentity(loan, m, g, GeomSum(1.0 + m, n));
  }

  /** What a year of the engine's schedule leaves of a one-year loan, over plain
      numbers: a year's interest `L * r` on the opening balance against twelve
      annuity payments priced at `r / 12` leaves a positive remainder when
      `g = (1 + r / 12) ** 12 > 1 + r`. */
  lemma OneYearRemainder(L: real, r: real, g: real, ads: real)
    requires L > 0.0 && r > 0.0 && g > 1.0 + r
    requires ads == MonthlyPayment(L, r / 12.0, g) * 12.0
    ensures L - (ads - L * r) > 0.0
  {
    var m := r / 12.0;
    var p := MonthlyPayment(L, m, g);
    assert p * (g - 1.0) == L * (m * g);
    assert (p * 12.0) * (g - 1.0) == L * (r * g);
    MulPos(L, g - 1.0 - r);
    assert (L - (p * 12.0 - L * r)) * (g - 1.0) == L * (g - 1.0 - r);
  }

  /** The yearly schedule charges a year's interest on the opening balance while
      the payment is a monthly annuity, so a one-year amortizing loan with a
      positive rate is not repaid by the end of its term. */
  lemma OneYearLoanNotRepaid(a: ProjectionArgs)
    requires !a.interestOnly && a.amortizationYears == 1 && a.interestRate > 0.0
    requires a.holdPeriod >= 1 && LoanAmount(a) > 0.0
    ensures Cashflows(a).Success? && |Cashflows(a).value| >= 1
    ensures Cashflows(a).value[0].loanBalanceEnd > 0.0
  {
    var r := a.interestRate;
    var L := LoanAmount(a);
    PowAboveLinear(r / 12.0, 12);
    var g := Pow(1.0 + r / 12.0, 12);
    var ads := OneYearDebtService(a);
    OneYearRemainder(L, r, g, ads);
    ScheduleLoanFormulas(a, ads, HoldCount(a), 0);
    LoanBalanceChain(a, ads, HoldCount(a), 0);
    AmortizingRecordEnd(a, ads, Schedule(a, ads, HoldCount(a))[0], L);
  }

  /** A one-year amortizing loan at a positive rate pays twelve monthly
      annuity instalments priced over twelve months. */
  lemma OneYearDebtService(a: ProjectionArgs) returns (ads: real)
    requires !a.interestOnly && a.amortizationYears == 1 && a.interestRate > 0.0
    ensures AnnualDebtService(a) == Success(ads)
    ensures ads == MonthlyPayment(LoanAmount(a), a.interestRate / 12.0, Pow(1.0 + a.interestRate / 12.0, 12)) * 12.0
  {
    AmortizingNeedsPositiveRate(a);
    ads := AnnualDebtService(a).value;
  }

  /** An amortizing record opening at `L` closes above zero when `L` exceeds
      the principal part of the payment. */
  lemma AmortizingRecordEnd(a: ProjectionArgs, ads: real, p: CashflowPeriod, L: real)
    requires !a.interestOnly && LoanFormulas(a, ads, p) && p.loanBalanceBegin == L
    requires L - (ads - L * a.interestRate) > 0.0
    ensures p.loanBalanceEnd > 0.0
  {
  }

  // ---------------------------------------------------------------------------
  // Exit

  /** Sale proceeds after costs at a cap rate, and what is left for equity after
      repaying `loanAmount`. */
  function CalculateExit(noiFinal: real, exitCapRate: real, exitCostsPct: real, loanAmount: real): (real, real)
    requires exitCapRate != 0.0
  {
    var exitValue := noiFinal / exitCapRate;
    var exitProceeds := exitValue * (1.0 - exitCostsPct);
    (exitProceeds, exitProceeds - loanAmount)
  }

  /** Capitalised at the cap rate, the proceeds are the NOI after exit costs;
      equity gets what is left after repaying the loan. */
  lemma ExitFormula(noiFinal: real, exitCapRate: real, exitCostsPct: real, loanAmount: real)
    requires exitCapRate != 0.0
    ensures var r := CalculateExit(noiFinal, exitCapRate, exitCostsPct, loanAmount);
      r.0 * exitCapRate == noiFinal * (1.0 - exitCostsPct) && r.1 + loanAmount == r.0
  {
  }
}
