/** The cash flow table: a purchase column, one column per projected year and
    a sale column, and ten labelled rows whose cells are numbers or blanks. */
module CashflowTable {

  import opened Outcomes
  import opened DecimalText
  import opened Assumptions
  import opened Cashflow
  import opened Underwriting

  /** A table row; `None` is a blank cell. */
  datatype Row = Row(title: string, values: seq<Option<real>>)

  /** The per-year quantities the table lists. */
  datatype PeriodField = Egi | Opex | Noi | Interest | Amortization | LoanBegin | LoanEnd | LeveredCf

  function FieldOf(p: CashflowPeriod, f: PeriodField): real {
    match f
    case Egi => p.egi
    case Opex => p.opex
    case Noi => p.noi
    case Interest => p.interestExpense
    case Amortization => p.principalAmortization
    case LoanBegin => p.loanBalanceBegin
    case LoanEnd => p.loanBalanceEnd
    case LeveredCf => p.leveredCf
  }

  /** `cashflows.map((c) => c.<field>)`. */
  function YearValues(ps: seq<CashflowPeriod>, f: PeriodField): (r: seq<Option<real>>)
    ensures |r| == |ps|
    ensures forall k :: 0 <= k < |ps| ==> r[k] == Some(FieldOf(ps[k], f))
  {
    seq(|ps|, k requires 0 <= k < |ps| => Some(FieldOf(ps[k], f)))
  }

  function Blanks(n: nat): (r: seq<Option<real>>)
    ensures |r| == n && forall k :: 0 <= k < n ==> r[k] == None
  {
    seq(n, k => None)
  }

  /** A row with blank purchase and sale cells around the yearly values. */
  function YearRow(title: string, ps: seq<CashflowPeriod>, f: PeriodField): Row {
    Row(title, [None] + YearValues(ps, f) + [None])
  }

  /** The first row: the price under "Purchase", the exit value under "Sale". */
  function ValueCells(o: UnderwritingOutput): seq<Option<real>> {
    [Some(o.purchasePrice)] + Blanks(|o.cashflows|) + [Some(o.exitValue)]
  }

  /** The opening balances, with year 1's repeated under "Purchase". */
  function LoanBeginCells(ps: seq<CashflowPeriod>): seq<Option<real>> {
    [if |ps| > 0 then Some(ps[0].loanBalanceBegin) else None] + YearValues(ps, LoanBegin) + [None]
  }

  /** The closing balances, with 0 under "Sale". */
  function LoanEndCells(ps: seq<CashflowPeriod>): seq<Option<real>> {
    [None] + YearValues(ps, LoanEnd) + [Some(0.0)]
  }

  /** The last row: the exit proceeds under "Sale" only. */
  function ProceedsCells(o: UnderwritingOutput): seq<Option<real>> {
    Blanks(|o.cashflows| + 1) + [Some(o.exitProceeds)]
  }

  /** The `rows` array, in display order. */
  function Rows(o: UnderwritingOutput): seq<Row> {
    var ps := o.cashflows;
    [ Row("Purchase / sale value", ValueCells(o)),
      YearRow("Rental income (EGI)", ps, Egi),
      YearRow("OPEX", ps, Opex),
      YearRow("NOI", ps, Noi),
      YearRow("Interest", ps, Interest),
      YearRow("Amortization", ps, Amortization),
      Row("Loan (begin)", LoanBeginCells(ps)),
      Row("Loan (end)", LoanEndCells(ps)),
      YearRow("Levered CF", ps, LeveredCf),
      Row("Net proceeds", ProceedsCells(o)) ]
  }

  /** The `columns` array: the column headings. */
  function Columns(ps: seq<CashflowPeriod>): seq<string> {
    ["Purchase"] + seq(|ps|, k requires 0 <= k < |ps| => "Year " + IntToString(ps[k].period)) + ["Sale"]
  }

  /** The rows whose cells are exactly the yearly values of one field, and
      which field that is. */
  function YearRowField(i: nat): Option<PeriodField> {
    if i == 1 then Some(Egi) else if i == 2 then Some(Opex) else if i == 3 then Some(Noi)
    else if i == 4 then Some(Interest) else if i == 5 then Some(Amortization)
    else if i == 8 then Some(LeveredCf) else None
  }

  // ----- layout -----

  /** The headings are "Purchase", a "Year p" per period in order, and "Sale". */
  lemma ColumnsLayout(ps: seq<CashflowPeriod>)
    ensures var cs := Columns(ps);
      && |cs| == |ps| + 2
      && cs[0] == "Purchase" && cs[|ps| + 1] == "Sale"
      && forall k :: 0 <= k < |ps| ==> cs[k + 1] == "Year " + IntToString(ps[k].period)
  {
  }

  /** Every row has a cell per column; rows 0, 6, 7 and 9 are the price,
      loan and proceeds rows, the others the plain yearly rows. */
  lemma RowsLayout(o: UnderwritingOutput)
    ensures |Rows(o)| == 10
    ensures forall i :: 0 <= i < 10 ==> |Rows(o)[i].values| == |o.cashflows| + 2
    ensures Rows(o)[0].values == ValueCells(o) && Rows(o)[9].values == ProceedsCells(o)
    ensures Rows(o)[6].values == LoanBeginCells(o.cashflows) && Rows(o)[7].values == LoanEndCells(o.cashflows)
    ensures forall i :: 0 <= i < 10 && YearRowField(i).Some? ==>
      Rows(o)[i].values == YearRow(Rows(o)[i].title, o.cashflows, YearRowField(i).value).values
  {
  }

  /** The six plain yearly rows: blank in the purchase and sale columns, and
      column k + 1 holds period k's value. */
  lemma YearRowsLayout(o: UnderwritingOutput, i: nat)
    requires i < 10 && YearRowField(i).Some?
    ensures var row := Rows(o)[i].values;
      var n := |o.cashflows|;
      && row[0] == None && row[n + 1] == None
      && forall k :: 0 <= k < n ==> row[k + 1] == Some(FieldOf(o.cashflows[k], YearRowField(i).value))
  {
    var n := |o.cashflows|;
    var f := YearRowField(i).value;
    assert Rows(o)[i] == YearRow(Rows(o)[i].title, o.cashflows, f);
    var row := Rows(o)[i].values;
    forall k | 0 <= k < n
      ensures row[k + 1] == Some(FieldOf(o.cashflows[k], f))
    {
      assert row[k + 1] == YearValues(o.cashflows, f)[k];
    }
  }

  /** The loan rows: the begin row repeats year 1's opening balance under
      "Purchase" (blank without years) and is blank under "Sale"; the end row
      is blank under "Purchase" and shows 0 under "Sale" whatever the last
      closing balance. */
  lemma LoanRowsLayout(ps: seq<CashflowPeriod>)
    ensures var n := |ps|;
      var begin := LoanBeginCells(ps);
      var end := LoanEndCells(ps);
      && |begin| == n + 2 && |end| == n + 2
      && begin[0] == (if n > 0 then Some(ps[0].loanBalanceBegin) else None)
      && begin[n + 1] == None
      && end[0] == None
      && end[n + 1] == Some(0.0)
      && forall k :: 1 <= k <= n ==>
           begin[k] == Some(ps[k - 1].loanBalanceBegin) && end[k] == Some(ps[k - 1].loanBalanceEnd)
  {
    var n := |ps|;
    var begin := LoanBeginCells(ps);
    var end := LoanEndCells(ps);
    forall k | 1 <= k <= n
      ensures begin[k] == Some(ps[k - 1].loanBalanceBegin) && end[k] == Some(ps[k - 1].loanBalanceEnd)
    {
      assert begin[k] == YearValues(ps, LoanBegin)[k - 1];
      assert end[k] == YearValues(ps, LoanEnd)[k - 1];
    }
  }

  /** The first and last rows: price and exit value at the two ends of the
      first, exit proceeds only in the sale column of the last. */
  lemma OuterRowsLayout(o: UnderwritingOutput)
    ensures var n := |o.cashflows|;
      var value := ValueCells(o);
      var proceeds := ProceedsCells(o);
      && |value| == n + 2 && |proceeds| == n + 2
      && value[0] == Some(o.purchasePrice) && value[n + 1] == Some(o.exitValue)
      && (forall k :: 1 <= k <= n ==> value[k] == None)
      && (forall k :: 0 <= k <= n ==> proceeds[k] == None)
      && proceeds[n + 1] == Some(o.exitProceeds)
  {
    var n := |o.cashflows|;
    var value := ValueCells(o);
    var proceeds := ProceedsCells(o);
    forall k | 1 <= k <= n
      ensures value[k] == None
    {
      assert value[k] == Blanks(n)[k - 1];
    }
    forall k | 0 <= k <= n
      ensures proceeds[k] == None
    {
      assert proceeds[k] == Blanks(n + 1)[k];
    }
  }

  // ----- the table of an underwriting result -----

  /** For an engine result the headings are "Purchase", "Year 1" to "Year n"
      and "Sale", all different, as the columns' React keys must be. */
  lemma UnderwritingColumns(input: UnderwritingInput)
    requires Underwrite(input).Success?
    ensures var o := Underwrite(input).value;
      var cs := Columns(o.cashflows);
      && (forall k :: 1 <= k <= |o.cashflows| ==> cs[k] == "Year " + NatToString(k))
      && forall j, l :: 0 <= j < l < |cs| ==> cs[j] != cs[l]
  {
    var o := Underwrite(input).value;
    UnderwritingPeriods(input);
    var cs := Columns(o.cashflows);
    var n := |o.cashflows|;
    forall j, l | 0 <= j < l < |cs|
      ensures cs[j] != cs[l]
    {
      if 1 <= j && l <= n {
        NatToStringInjective(j, l);
        assert cs[j] == "Year " + NatToString(j) && cs[l] == "Year " + NatToString(l);
        assert cs[j][5..] != cs[l][5..];
      } else if j == 0 {
        assert cs[j][0] == 'P' && cs[l][0] != 'P';
      } else {
        assert cs[l][0] == 'S' && cs[j][0] != 'S';
      }
    }
  }

  /** Opening balances chained to the loan amount and to each previous
      closing balance. */
  predicate BalancesChained(ps: seq<CashflowPeriod>, loan: real) {
    && (|ps| > 0 ==> ps[0].loanBalanceBegin == loan)
    && forall k :: 1 <= k < |ps| ==> ps[k].loanBalanceBegin == ps[k - 1].loanBalanceEnd
  }

  lemma ScheduleChained(a: ProjectionArgs, ads: real, n: nat)
    ensures BalancesChained(Schedule(a, ads, n), LoanAmount(a))
  {
    var ps := Schedule(a, ads, n);
    if n > 0 {
      LoanBalanceChain(a, ads, n, 0);
    }
    forall k | 1 <= k < |ps|
      ensures ps[k].loanBalanceBegin == ps[k - 1].loanBalanceEnd
    {
      LoanBalanceChain(a, ads, n, k);
    }
  }

  /** Chained balances make the two loan rows read on without a gap. */
  lemma ChainedLoanRows(ps: seq<CashflowPeriod>, loan: real)
    requires BalancesChained(ps, loan) && |ps| > 0
    ensures LoanBeginCells(ps)[0] == Some(loan) && LoanBeginCells(ps)[1] == Some(loan)
    ensures forall k :: 1 <= k < |ps| ==> LoanBeginCells(ps)[k + 1] == LoanEndCells(ps)[k]
  {
    LoanRowsLayout(ps);
  }

  /** For an engine result the balance columns read on without a gap: the
      purchase column and year 1 open at the loan amount, and each year opens
      at the previous year's closing balance. */
  lemma UnderwritingLoanRows(input: UnderwritingInput)
    requires Underwrite(input).Success? && input.deal.holdPeriodYears >= 1
    ensures var o := Underwrite(input).value;
      var begin := LoanBeginCells(o.cashflows);
      && begin[0] == Some(o.debtAmount) && begin[1] == Some(o.debtAmount)
      && forall k :: 1 <= k < |o.cashflows| ==> begin[k + 1] == LoanEndCells(o.cashflows)[k]
  {
    var o := Underwrite(input).value;
    var a := ProjectionOf(input, input.income.rentGrowthPct);
    UnderwriteFields(input);
    UnderwritingPeriods(input);
    ScheduleChained(a, AnnualDebtService(a).value, HoldCount(a));
    ChainedLoanRows(o.cashflows, o.debtAmount);
  }
}
