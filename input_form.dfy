/** The input form: single-field edits of the request it holds, and the
    submitted request, whose price may be derived from an entry yield. */
module InputForm {

  import opened Numerics
  import opened Assumptions
  import opened Cashflow
  import Underwriting

  /** The form's starting request. */
  const DefaultInput: UnderwritingInput := UnderwritingInput(
    DealSetup(5000000.0, 5, 0.03),
    IncomeAssumptions(450000.0, 0.05, 0.03),
    OperatingCostAssumptions(0.0, 0.35, 0.025),
    CapexAssumptions(0.05, []),
    FinancingAssumptions(0.65, 0.055, 30, false),
    ExitAssumptions(0.055, 0.04))

  /** The default request lies within the request model's bounds. */
  lemma DefaultInputValid()
    ensures Valid(DefaultInput)
  {
  }

  // ----- handleSubmit -----

  datatype PriceInputMode = Fixed | EntryYield

  /** Year-one NOI before any rent growth: gross rent less vacancy less the
      operating-cost share. */
  function UngrownNoi(income: IncomeAssumptions, operating: OperatingCostAssumptions): real {
    income.grossRent * (1.0 - income.vacancyPct) * (1.0 - operating.opexPctOfEgi)
  }

  /** The request sent on submit. In entry-yield mode the price is the NOI
      capitalised at the yield, given in percent; a yield that is not positive
      leaves the price as it is. */
  function HandleSubmit(input: UnderwritingInput, mode: PriceInputMode, entryYield: real): (payload: UnderwritingInput)
    ensures mode == Fixed ==> payload == input
    ensures mode == EntryYield && entryYield > 0.0 ==>
      payload.deal.purchasePrice * (entryYield / 100.0) == UngrownNoi(input.income, input.operating)
    ensures entryYield <= 0.0 ==> payload == input
    ensures payload.(deal := payload.deal.(purchasePrice := input.deal.purchasePrice)) == input
  {
    if mode == EntryYield then
      var price := if entryYield > 0.0 then UngrownNoi(input.income, input.operating) / (entryYield / 100.0)
                   else input.deal.purchasePrice;
      input.(deal := input.deal.(purchasePrice := price))
    else input
  }

  /** The price derived from a yield, projected by the engine: the price at
      that yield is the un-grown year-one NOI, and the engine's year-1 NOI is
      that NOI grown by one year of rent growth, since the projection grows
      rent already in year 1. */
  lemma EntryYieldPriceMeetsFirstYear(input: UnderwritingInput, entryYield: real)
    requires entryYield > 0.0
    requires var a := Underwriting.ProjectionOf(HandleSubmit(input, EntryYield, entryYield), input.income.rentGrowthPct);
      Cashflows(a).Success? && HoldCount(a) > 0
    ensures var payload := HandleSubmit(input, EntryYield, entryYield);
      var a := Underwriting.ProjectionOf(payload, input.income.rentGrowthPct);
      && payload.deal.purchasePrice * (entryYield / 100.0) == UngrownNoi(input.income, input.operating)
      && Cashflows(a).value[0].noi == Grown(UngrownNoi(input.income, input.operating), input.income.rentGrowthPct)
  {
    var payload := HandleSubmit(input, EntryYield, entryYield);
    var a := Underwriting.ProjectionOf(payload, input.income.rentGrowthPct);
    FirstYearNoi(a);
    assert BaseNoi(a) == UngrownNoi(input.income, input.operating);
  }

  /** The engine's year-1 NOI, from the per-period formulas. */
  lemma FirstYearNoi(a: ProjectionArgs)
    requires Cashflows(a).Success? && HoldCount(a) > 0
    ensures Cashflows(a).value[0].noi == Grown(BaseNoi(a), a.rentGrowthPct)
  {
    var ads := AnnualDebtService(a).value;
    ScheduleAt(a, ads, HoldCount(a), 0);
    PeriodAtFormulas(a, ads, 0, EgiAt(a, 1), OpeningBalance(a, []), CumulativeBefore(a, []));
    NoiFromIncome(a, Cashflows(a).value[0]);
  }

  lemma NoiFromIncome(a: ProjectionArgs, p: CashflowPeriod)
    requires IncomeFormulas(a, 0, p)
    ensures p.noi == Grown(BaseNoi(a), a.rentGrowthPct)
  {
    var base := a.grossRent * (1.0 - a.vacancyPct);
    PowFirst(1.0 + a.rentGrowthPct);
    OneYearOfGrowth(base, a.opexPct, a.rentGrowthPct, p.egi, p.noi);
  }

  /** The un-grown year-one NOI of a projection. */
  function BaseNoi(a: ProjectionArgs): real {
    a.grossRent * (1.0 - a.vacancyPct) * (1.0 - a.opexPct)
  }

  function Grown(x: real, g: real): real {
    x * (1.0 + g)
  }

  lemma OneYearOfGrowth(base: real, opexPct: real, g: real, egi: real, noi: real)
    requires egi == base * (1.0 + g) && noi == egi - egi * opexPct
    ensures noi == Grown(base * (1.0 - opexPct), g)
  {
  }

  // ----- update -----

  /** The scalar fields `update` addresses as a section and a key. */
  datatype Field =
    | PurchasePrice | HoldPeriodYears | AcquisitionCostsPct
    | GrossRent | VacancyPct | RentGrowthPct
    | OpexPerSf | OpexPctOfEgi | InflationPct
    | CapexReservePct
    | LtvPct | InterestRatePct | AmortizationYears | InterestOnly
    | ExitCapRatePct | ExitCostsPct

  datatype Section = Deal | Income | Operating | Capex | Financing | Exit

  function SectionOf(f: Field): Section {
    match f
    case PurchasePrice | HoldPeriodYears | AcquisitionCostsPct => Deal
    case GrossRent | VacancyPct | RentGrowthPct => Income
    case OpexPerSf | OpexPctOfEgi | InflationPct => Operating
    case CapexReservePct => Capex
    case LtvPct | InterestRatePct | AmortizationYears | InterestOnly => Financing
    case ExitCapRatePct | ExitCostsPct => Exit
  }

  /** A field's value: a number, a whole number of years, or a flag. */
  datatype FieldValue = Num(x: real) | Whole(n: int) | Flag(b: bool)

  /** The value kind each field holds. */
  predicate Fits(f: Field, v: FieldValue) {
    match f
    case HoldPeriodYears | AmortizationYears => v.Whole?
    case InterestOnly => v.Flag?
    case _ => v.Num?
  }

  function Get(input: UnderwritingInput, f: Field): (v: FieldValue)
    ensures Fits(f, v)
  {
    match f
    case PurchasePrice => Num(input.deal.purchasePrice)
    case HoldPeriodYears => Whole(input.deal.holdPeriodYears)
    case AcquisitionCostsPct => Num(input.deal.acquisitionCostsPct)
    case GrossRent => Num(input.income.grossRent)
    case VacancyPct => Num(input.income.vacancyPct)
    case RentGrowthPct => Num(input.income.rentGrowthPct)
    case OpexPerSf => Num(input.operating.opexPerSf)
    case OpexPctOfEgi => Num(input.operating.opexPctOfEgi)
    case InflationPct => Num(input.operating.inflationPct)
    case CapexReservePct => Num(input.capex.capexReservePct)
    case LtvPct => Num(input.financing.ltvPct)
    case InterestRatePct => Num(input.financing.interestRatePct)
    case AmortizationYears => Whole(input.financing.amortizationYears)
    case InterestOnly => Flag(input.financing.interestOnly)
    case ExitCapRatePct => Num(input.exit.exitCapRatePct)
    case ExitCostsPct => Num(input.exit.exitCostsPct)
  }

  /** `update(section, key, value)`: the request with one section replaced by a
      copy in which one key holds the new value. */
  function Update(input: UnderwritingInput, f: Field, v: FieldValue): (r: UnderwritingInput)
    requires Fits(f, v)
    ensures Get(r, f) == v
  {
    match f
    case PurchasePrice => input.(deal := input.deal.(purchasePrice := v.x))
    case HoldPeriodYears => input.(deal := input.deal.(holdPeriodYears := v.n))
    case AcquisitionCostsPct => input.(deal := input.deal.(acquisitionCostsPct := v.x))
    case GrossRent => input.(income := input.income.(grossRent := v.x))
    case VacancyPct => input.(income := input.income.(vacancyPct := v.x))
    case RentGrowthPct => input.(income := input.income.(rentGrowthPct := v.x))
    case OpexPerSf => input.(operating := input.operating.(opexPerSf := v.x))
    case OpexPctOfEgi => input.(operating := input.operating.(opexPctOfEgi := v.x))
    case InflationPct => input.(operating := input.operating.(inflationPct := v.x))
    case CapexReservePct => input.(capex := input.capex.(capexReservePct := v.x))
    case LtvPct => input.(financing := input.financing.(ltvPct := v.x))
    case InterestRatePct => input.(financing := input.financing.(interestRatePct := v.x))
    case AmortizationYears => input.(financing := input.financing.(amortizationYears := v.n))
    case InterestOnly => input.(financing := input.financing.(interestOnly := v.b))
    case ExitCapRatePct => input.(exit := input.exit.(exitCapRatePct := v.x))
    case ExitCostsPct => input.(exit := input.exit.(exitCostsPct := v.x))
  }

  /** The sections `f` does not belong to are untouched, and so is the capex
      timing list, which no key addresses. */
  predicate OtherSectionsKept(input: UnderwritingInput, r: UnderwritingInput, s: Section) {
    && (s != Deal ==> r.deal == input.deal)
    && (s != Income ==> r.income == input.income)
    && (s != Operating ==> r.operating == input.operating)
    && (s != Capex ==> r.capex == input.capex)
    && (s != Financing ==> r.financing == input.financing)
    && (s != Exit ==> r.exit == input.exit)
    && r.capex.capexTiming == input.capex.capexTiming
  }

  /** `update` changes exactly the one field it names: reading that field
      gives the new value, reading any other gives the old one, and every
      other section is the same. */
  lemma UpdateChangesOneField(input: UnderwritingInput, f: Field, v: FieldValue, g: Field)
    requires Fits(f, v)
    ensures Get(Update(input, f, v), g) == if g == f then v else Get(input, g)
    ensures OtherSectionsKept(input, Update(input, f, v), SectionOf(f))
  {
  }

  /** Writing back the value a field already holds changes nothing. */
  lemma UpdateWithCurrentValue(input: UnderwritingInput, f: Field)
    ensures Update(input, f, Get(input, f)) == input
  {
  }
}
