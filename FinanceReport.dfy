/**
 * The report of RGZ/bot_RGZ.py: the rate used for the chosen currency (with its
 * rouble shortcut and fallback) and the loop that converts every stored
 * operation and totals income and expense.
 */
module FinanceReport {
  import opened Wrappers
  import RateService

  /** A calendar date as stored in the `operations.date` column. */
  datatype Date = Date(day: nat, month: nat, year: int)

  /** One row of `SELECT type_operation, sum, date FROM operations ...`; amounts are in roubles. */
  datatype Row = Row(typeOperation: string, sum: real, date: Date)

  /** Only the type 'income' counts as income; every other row is an expense. */
  predicate IsIncome(row: Row)
  {
    row.typeOperation == "income"
  }

  /** One line of the report: up or down arrow, date, converted amount. */
  datatype Line = Line(income: bool, date: Date, amount: real)

  /** The three summary lines and the per-operation lines of a report. */
  datatype Summary = Summary(totalIncome: real, totalExpense: real, balance: real, lines: seq<Line>)

  function LineOf(row: Row, rate: real): Line
    requires rate != 0.0
  {
    Line(IsIncome(row), row.date, row.sum / rate)
  }

  /** Sum of the converted income amounts. */
  function IncomeTotal(rows: seq<Row>, rate: real): real
    requires rate != 0.0
  {
    if rows == [] then 0.0
    else (if IsIncome(rows[0]) then rows[0].sum / rate else 0.0) + IncomeTotal(rows[1..], rate)
  }

  /** Sum of the converted amounts of every other row. */
  function ExpenseTotal(rows: seq<Row>, rate: real): real
    requires rate != 0.0
  {
    if rows == [] then 0.0
    else (if IsIncome(rows[0]) then 0.0 else rows[0].sum / rate) + ExpenseTotal(rows[1..], rate)
  }

  /** Sum of the stored amounts, in roubles. */
  function StoredTotal(rows: seq<Row>): real
  {
    if rows == [] then 0.0 else rows[0].sum + StoredTotal(rows[1..])
  }

  /** `s` is the report of `rows` converted at `rate`: both totals, their difference, and one line per row in order. */
  predicate Describes(s: Summary, rows: seq<Row>, rate: real)
    requires rate != 0.0
  {
    && s.totalIncome == IncomeTotal(rows, rate)
    && s.totalExpense == ExpenseTotal(rows, rate)
    && s.balance == s.totalIncome - s.totalExpense
    && |s.lines| == |rows|
    && forall i :: 0 <= i < |rows| ==> s.lines[i] == LineOf(rows[i], rate)
  }

  lemma {:induction false} TotalsAppend(rows: seq<Row>, row: Row, rate: real)
    requires rate != 0.0
    ensures IncomeTotal(rows + [row], rate) == IncomeTotal(rows, rate) + (if IsIncome(row) then row.sum / rate else 0.0)
    ensures ExpenseTotal(rows + [row], rate) == ExpenseTotal(rows, rate) + (if IsIncome(row) then 0.0 else row.sum / rate)
  {
    if rows == [] {
      assert [] + [row] == [row];
      assert [row][1..] == [];
    } else {
      assert (rows + [row])[1..] == rows[1..] + [row];
      TotalsAppend(rows[1..], row, rate);
    }
  }

  /**
   * The loop of lines 453-473. The first division by a zero rate raises
   * ZeroDivisionError, which ends the report (None).
   */
  method Totals(rows: seq<Row>, rate: real) returns (r: Option<Summary>)
    ensures r.None? <==> rows != [] && rate == 0.0
    ensures rows == [] ==> r == Some(Summary(0.0, 0.0, 0.0, []))
    ensures rate != 0.0 ==> r.Some? && Describes(r.value, rows, rate)
  {
    var totalIncome, totalExpense := 0.0, 0.0;
    var lines: seq<Line> := [];
    for i := 0 to |rows|
      invariant rate == 0.0 ==> i == 0 && totalIncome == 0.0 && totalExpense == 0.0
      invariant rate != 0.0 ==> totalIncome == IncomeTotal(rows[..i], rate)
      invariant rate != 0.0 ==> totalExpense == ExpenseTotal(rows[..i], rate)
      invariant |lines| == i
      invariant rate != 0.0 ==> forall k :: 0 <= k < i ==> lines[k] == LineOf(rows[k], rate)
    {
      if rate == 0.0 {
        return None;
      }
      var op := rows[i];
      var amount := op.sum / rate;
      TotalsAppend(rows[..i], op, rate);
      assert rows[..i + 1] == rows[..i] + [op];
      if op.typeOperation == "income" {
        totalIncome := totalIncome + amount;
      } else {
        totalExpense := totalExpense + amount;
      }
      lines := lines + [Line(op.typeOperation == "income", op.date, amount)];
    }
    assert rows[..|rows|] == rows;
    var balance := totalIncome - totalExpense;
    r := Some(Summary(totalIncome, totalExpense, balance, lines));
  }

  /** Converting each amount then adding equals adding in roubles then converting once. */
  lemma {:induction false} TotalsConvertStoredTotal(rows: seq<Row>, rate: real)
    requires rate != 0.0
    ensures IncomeTotal(rows, rate) + ExpenseTotal(rows, rate) == StoredTotal(rows) / rate
  {
    if rows != [] {
      TotalsConvertStoredTotal(rows[1..], rate);
      assert rows[0].sum / rate + StoredTotal(rows[1..]) / rate == (rows[0].sum + StoredTotal(rows[1..])) / rate;
    }
  }

  /** In the base currency (rate 1) every converted amount is the stored amount. */
  lemma BaseCurrencyIdentity(rows: seq<Row>)
    ensures forall i :: 0 <= i < |rows| ==> LineOf(rows[i], 1.0).amount == rows[i].sum
    ensures IncomeTotal(rows, 1.0) + ExpenseTotal(rows, 1.0) == StoredTotal(rows)
  {
    TotalsConvertStoredTotal(rows, 1.0);
  }

  /** One expense of 1500.50 reported in roubles: a single expense line and a balance of -1500.50. */
  lemma SingleExpenseBalance(d: Date)
    ensures IncomeTotal([Row("expense", 1500.50, d)], 1.0) == 0.0
    ensures ExpenseTotal([Row("expense", 1500.50, d)], 1.0) == 1500.50
    ensures LineOf(Row("expense", 1500.50, d), 1.0) == Line(false, d, 1500.50)
    ensures IncomeTotal([Row("expense", 1500.50, d)], 1.0) - ExpenseTotal([Row("expense", 1500.50, d)], 1.0) == -1500.50
  {
    assert [Row("expense", 1500.50, d)][1..] == [];
  }

  /** `get_exchange_rate`: 1.0 for the rouble with no request; otherwise what the rate service answers, None on any failure. */
  function ExchangeRate(currency: string, fetchRate: string -> Option<real>): (r: Option<real>)
    ensures currency == "RUB" ==> r == Some(1.0)
    ensures currency != "RUB" ==> r == fetchRate(currency)
  {
    if currency == "RUB" then Some(1.0) else fetchRate(currency)
  }

  /** The currency a report is shown in, the rate it divides by, and whether it fell back to roubles. */
  datatype RateChoice = RateChoice(currency: string, rate: real, fellBack: bool)

  /** Lines 416-426: a failed lookup silently turns the report into a rouble report. */
  function ReportRate(currency: string, fetchRate: string -> Option<real>): (c: RateChoice)
    ensures c.fellBack <==> ExchangeRate(currency, fetchRate).None?
    ensures c.fellBack ==> c.currency == "RUB" && c.rate == 1.0 && currency != "RUB"
    ensures !c.fellBack ==> c.currency == currency && ExchangeRate(currency, fetchRate) == Some(c.rate)
  {
    if currency == "RUB" then RateChoice("RUB", 1.0, false)
    else match ExchangeRate(currency, fetchRate)
      case None => RateChoice("RUB", 1.0, true)
      case Some(rate) => RateChoice(currency, rate, false)
  }

  /** The request of lines 88-103 answered by the rate service: the rate on status 200, None otherwise. */
  function ServiceLookup(currency: string): (r: Option<real>)
    ensures r.Some? <==> RateService.Text.Upper(currency) in RateService.CurrencyRates
    ensures r.Some? ==> r.value == RateService.CurrencyRates[RateService.Text.Upper(currency)] && r.value > 0.0
  {
    var response := RateService.GetExchangeRate(Some(currency));
    if response.status == 200 && response.body.Quote? then Some(response.body.rate) else None
  }

  /**
   * Against the rate service, a rate is known exactly for the rouble and for the
   * table currencies in any letter case, and it is always positive.
   */
  lemma ExchangeRateFromService(currency: string)
    ensures ExchangeRate(currency, ServiceLookup).Some? <==>
              currency == "RUB" || RateService.Text.Upper(currency) in RateService.CurrencyRates
    ensures ExchangeRate(currency, ServiceLookup).Some? ==> ExchangeRate(currency, ServiceLookup).value > 0.0
  {
  }

  /**
   * Against the rate service, none of the four report currencies falls back,
   * and the rate is positive. The rouble owes this to the shortcut: the service
   * itself does not know "RUB".
   */
  lemma ServiceNeverFallsBack(currency: string)
    requires currency in ["RUB", "USD", "EUR", "CNY"]
    ensures !ReportRate(currency, ServiceLookup).fellBack
    ensures ReportRate(currency, ServiceLookup).currency == currency
    ensures ReportRate(currency, ServiceLookup).rate > 0.0
    ensures ServiceLookup("RUB") == None
  {
    RateService.RoubleUnknown();
    if currency != "RUB" {
      RateService.Text.UpperOfUpper(currency);
    }
  }
}
