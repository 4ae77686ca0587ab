/** The six assumption groups of an underwriting request, with the range
    constraints the backend's request model enforces before the engine runs,
    and the defaults it fills in for omitted fields. */
module Assumptions {

  datatype DealSetup = DealSetup(purchasePrice: real, holdPeriodYears: int, acquisitionCostsPct: real)

  datatype IncomeAssumptions = IncomeAssumptions(grossRent: real, vacancyPct: real, rentGrowthPct: real)

  /** `opexPerSf` and `inflationPct` are accepted and range-checked but never read by the engine. */
  datatype OperatingCostAssumptions = OperatingCostAssumptions(opexPerSf: real, opexPctOfEgi: real, inflationPct: real)

  /** `capexTiming` is accepted but never read by the engine. */
  datatype CapexAssumptions = CapexAssumptions(capexReservePct: real, capexTiming: seq<real>)

  datatype FinancingAssumptions = FinancingAssumptions(ltvPct: real, interestRatePct: real, amortizationYears: int, interestOnly: bool)

  datatype ExitAssumptions = ExitAssumptions(exitCapRatePct: real, exitCostsPct: real)

  datatype UnderwritingInput = UnderwritingInput(
    deal: DealSetup,
    income: IncomeAssumptions,
    operating: OperatingCostAssumptions,
    capex: CapexAssumptions,
    financing: FinancingAssumptions,
    exit: ExitAssumptions)

  predicate ValidDeal(d: DealSetup) {
    && d.purchasePrice > 0.0
    && 1 <= d.holdPeriodYears <= 30
    && 0.0 <= d.acquisitionCostsPct <= 0.10
  }

  predicate ValidIncome(i: IncomeAssumptions) {
    && i.grossRent > 0.0
    && 0.0 <= i.vacancyPct <= 0.30
    && -0.10 <= i.rentGrowthPct <= 0.15
  }

  predicate ValidOperating(o: OperatingCostAssumptions) {
    && o.opexPerSf >= 0.0
    && 0.0 <= o.opexPctOfEgi <= 0.60
    && 0.0 <= o.inflationPct <= 0.10
  }

  predicate ValidCapex(c: CapexAssumptions) {
    0.0 <= c.capexReservePct <= 0.15
  }

  predicate ValidFinancing(f: FinancingAssumptions) {
    && 0.0 <= f.ltvPct <= 0.90
    && 0.0 <= f.interestRatePct <= 0.15
    && 1 <= f.amortizationYears <= 30
  }

  predicate ValidExit(e: ExitAssumptions) {
    && 0.02 <= e.exitCapRatePct <= 0.12
    && 0.0 <= e.exitCostsPct <= 0.10
  }

  /** An input the request model accepts: every field within its declared range. */
  predicate Valid(input: UnderwritingInput) {
    && ValidDeal(input.deal)
    && ValidIncome(input.income)
    && ValidOperating(input.operating)
    && ValidCapex(input.capex)
    && ValidFinancing(input.financing)
    && ValidExit(input.exit)
  }

  /** A deal with only the required fields given. */
  function DealWithDefaults(purchasePrice: real, holdPeriodYears: int): (d: DealSetup)
    ensures d.purchasePrice == purchasePrice && d.holdPeriodYears == holdPeriodYears
    ensures purchasePrice > 0.0 && 1 <= holdPeriodYears <= 30 ==> ValidDeal(d)
    ensures d.acquisitionCostsPct == 0.03
  {
    DealSetup(purchasePrice, holdPeriodYears, 0.03)
  }

  /** Income with only the gross rent given. */
  function IncomeWithDefaults(grossRent: real): (i: IncomeAssumptions)
    ensures i.grossRent == grossRent
    ensures grossRent > 0.0 <==> ValidIncome(i)
    ensures i.vacancyPct == 0.05 && i.rentGrowthPct == 0.03
  {
    IncomeAssumptions(grossRent, 0.05, 0.03)
  }

  function DefaultOperating(): (o: OperatingCostAssumptions)
    ensures ValidOperating(o)
    ensures o.opexPctOfEgi == 0.35
  {
    OperatingCostAssumptions(0.0, 0.35, 0.025)
  }

  function DefaultCapex(): (c: CapexAssumptions)
    ensures ValidCapex(c)
    ensures c.capexReservePct == 0.05 && c.capexTiming == []
  {
    CapexAssumptions(0.05, [])
  }

  function DefaultFinancing(): (f: FinancingAssumptions)
    ensures ValidFinancing(f)
    ensures f.ltvPct == 0.65 && f.interestRatePct == 0.055
    ensures f.amortizationYears == 30 && !f.interestOnly
  {
    FinancingAssumptions(0.65, 0.055, 30, false)
  }

  function DefaultExit(): (e: ExitAssumptions)
    ensures ValidExit(e)
    ensures e.exitCapRatePct == 0.05 && e.exitCostsPct == 0.04
  {
    ExitAssumptions(0.05, 0.04)
  }

  /** What a valid input guarantees the engine: a non-empty hold period, positive
      price and rent, positive equity and a non-zero exit cap rate. */
  lemma ValidInputGuarantees(input: UnderwritingInput)
    requires Valid(input)
    ensures input.deal.holdPeriodYears >= 1
    ensures input.deal.purchasePrice > 0.0 && input.income.grossRent > 0.0
    ensures input.exit.exitCapRatePct > 0.0
    ensures input.deal.purchasePrice * (1.0 + input.deal.acquisitionCostsPct) * (1.0 - input.financing.ltvPct) > 0.0
    ensures input.deal.purchasePrice * (1.0 + input.deal.acquisitionCostsPct) * input.financing.ltvPct >= 0.0
  {
    var total := input.deal.purchasePrice * (1.0 + input.deal.acquisitionCostsPct);
    assert total > 0.0;
    assert total * (1.0 - input.financing.ltvPct) > 0.0;
  }

  /** The validator accepts a zero interest rate on an amortizing loan. */
  lemma ZeroRateAmortizingIsValid(input: UnderwritingInput)
    requires Valid(input)
    ensures Valid(input.(financing := input.financing.(interestRatePct := 0.0, interestOnly := false)))
  {
  }
}
