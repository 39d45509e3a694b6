/** The reporting side of `RestaurantSystem`: the nine-line text summary and
    the three-sheet workbook export. Figures stay numbers; how Python prints
    a number is the parameter `show`. */
module Report {
  import opened Text
  import opened Clock
  import opened Store

  /** A summary line: fixed text, or a label followed by a printed figure. */
  datatype Line = Heading(text: string) | Figure(caption: string, value: real)

  function Render(line: Line, show: real -> string): string {
    match line
    case Heading(text) => text
    case Figure(caption, value) => caption + show(value)
  }

  const TotalExpensesLabel := "Total Expenses: "
  const CashInHandLabel := "Cash in Hand (cash sales - expenses): "

  function MethodLabel(m: string): string {
    "  " + m + ": "
  }

  /** The lines of `summary_text`: two headings, one line per key of the
      totals in the dictionary's order, the expense total, cash in hand.
      Every figure is the all-time figure of the ledger. */
  function SummaryLines(l: Ledger): (lines: seq<Line>)
    ensures |lines| == 9
    ensures lines[0] == Heading("=== Daily Summary ===")
    ensures lines[1] == Heading("Sales by Payment Type:")
    ensures forall i :: 0 <= i < |Methods| ==>
      lines[2 + i] == Figure(MethodLabel(Methods[i]), MethodTotal(l.sales, Methods[i]))
    ensures lines[7] == Figure(TotalExpensesLabel, Sum(Amounts(l.expenses)))
    ensures lines[8] == Figure(CashInHandLabel, MethodTotal(l.sales, "cash") - Sum(Amounts(l.expenses)))
  {
    var totals := TotalSalesByPayment(l);
    var heads := [Heading("=== Daily Summary ==="), Heading("Sales by Payment Type:")];
    var body := MethodLines(totals);
    var tail := [Figure(TotalExpensesLabel, TotalExpenses(l)), Figure(CashInHandLabel, CashInHand(l))];
    assert forall i :: 0 <= i < |Methods| ==> (heads + body + tail)[2 + i] == body[i];
    heads + body + tail
  }

  /** One `  method: total` line per bucket, in the buckets' order. */
  function MethodLines(totals: seq<Bucket>): (lines: seq<Line>)
    ensures |lines| == |totals|
    ensures forall i :: 0 <= i < |totals| ==> lines[i] == Figure(MethodLabel(totals[i].key), totals[i].total)
  {
    seq(|totals|, i requires 0 <= i < |totals| => Figure(MethodLabel(totals[i].key), totals[i].total))
  }

  /** The fixed text of a line: all of a heading, the caption of a figure. */
  function Caption(line: Line): string {
    match line
    case Heading(text) => text
    case Figure(caption, _) => caption
  }

  lemma RenderHasNoNewline(line: Line, show: real -> string)
    requires forall x :: '\n' !in show(x)
    requires '\n' !in Caption(line)
    ensures '\n' !in Render(line, show)
  {
    match line
    case Heading(_) =>
    case Figure(caption, value) =>
      assert '\n' !in show(value);
  }

  lemma MethodLabelsHaveNoNewline()
    ensures forall m :: m in Methods ==> '\n' !in MethodLabel(m)
  {
    forall m | m in Methods
      ensures '\n' !in MethodLabel(m)
    {
      assert '\n' !in m;
    }
  }

  lemma HeadingsHaveNoNewline()
    ensures '\n' !in "=== Daily Summary ===" && '\n' !in "Sales by Payment Type:"
  {
  }

  lemma FigureLabelsHaveNoNewline()
    ensures '\n' !in TotalExpensesLabel && '\n' !in CashInHandLabel
  {
  }

  lemma SummaryCaptionsHaveNoNewline(lines: seq<Line>)
    requires |lines| == 9
    requires Caption(lines[0]) == "=== Daily Summary ===" && Caption(lines[1]) == "Sales by Payment Type:"
    requires forall i :: 0 <= i < |Methods| ==> Caption(lines[2 + i]) == MethodLabel(Methods[i])
    requires Caption(lines[7]) == TotalExpensesLabel && Caption(lines[8]) == CashInHandLabel
    ensures forall k :: 0 <= k < 9 ==> '\n' !in Caption(lines[k])
  {
    MethodLabelsHaveNoNewline();
    HeadingsHaveNoNewline();
    FigureLabelsHaveNoNewline();
    forall k | 0 <= k < 9
      ensures '\n' !in Caption(lines[k])
    {
      if 2 <= k < 7 {
        assert Caption(lines[k]) == MethodLabel(Methods[k - 2]);
      }
    }
  }

  /** Each line rendered on its own. */
  function RenderAll(lines: seq<Line>, show: real -> string): (rs: seq<string>)
    ensures |rs| == |lines|
    ensures forall i :: 0 <= i < |lines| ==> rs[i] == Render(lines[i], show)
  {
    seq(|lines|, i requires 0 <= i < |lines| => Render(lines[i], show))
  }

  /** The rendered summary lines, whatever the printer. */
  lemma RenderedSummary(l: Ledger, show: real -> string)
    ensures var parts := RenderAll(SummaryLines(l), show);
      && |parts| == 9
      && parts[0] == "=== Daily Summary ==="
      && parts[1] == "Sales by Payment Type:"
      && (forall i :: 0 <= i < |Methods| ==>
            parts[2 + i] == MethodLabel(Methods[i]) + show(MethodTotal(l.sales, Methods[i])))
      && parts[7] == TotalExpensesLabel + show(Sum(Amounts(l.expenses)))
      && parts[8] == CashInHandLabel + show(MethodTotal(l.sales, "cash") - Sum(Amounts(l.expenses)))
  {
    assert Methods[0] == "cash";
  }

  /** No rendered summary line holds a newline when no printed number does. */
  lemma RenderedSummaryHasNoNewline(l: Ledger, show: real -> string)
    requires forall x :: '\n' !in show(x)
    ensures forall k :: 0 <= k < 9 ==> '\n' !in RenderAll(SummaryLines(l), show)[k]
  {
    var lines := SummaryLines(l);
    SummaryCaptionsHaveNoNewline(lines);
    forall k | 0 <= k < 9
      ensures '\n' !in RenderAll(lines, show)[k]
    {
      RenderHasNoNewline(lines[k], show);
    }
  }

  /** As long as printing a number never produces a newline, the rendered
      summary lines joined with newlines split back into exactly those nine
      lines, the method lines in the fixed key order. */
  lemma SummaryLinesSplit(l: Ledger, show: real -> string)
    requires forall x :: '\n' !in show(x)
    ensures var parts := Split(Join(RenderAll(SummaryLines(l), show)));
      && |parts| == 9
      && parts[0] == "=== Daily Summary ==="
      && parts[1] == "Sales by Payment Type:"
      && (forall i :: 0 <= i < |Methods| ==>
            parts[2 + i] == MethodLabel(Methods[i]) + show(MethodTotal(l.sales, Methods[i])))
      && parts[7] == TotalExpensesLabel + show(Sum(Amounts(l.expenses)))
      && parts[8] == CashInHandLabel + show(MethodTotal(l.sales, "cash") - Sum(Amounts(l.expenses)))
  {
    RenderedSummaryHasNoNewline(l, show);
    SplitJoin(RenderAll(SummaryLines(l), show));
    RenderedSummary(l, show);
  }

  /** `SummaryLinesSplit` for any printer, as an implication. */
  lemma SummaryLinesSplitIf(l: Ledger, show: real -> string)
    ensures (forall x :: '\n' !in show(x)) ==>
      var parts := Split(Join(RenderAll(SummaryLines(l), show)));
      && |parts| == 9
      && parts[0] == "=== Daily Summary ==="
      && parts[1] == "Sales by Payment Type:"
      && (forall i :: 0 <= i < |Methods| ==>
            parts[2 + i] == MethodLabel(Methods[i]) + show(MethodTotal(l.sales, Methods[i])))
      && parts[7] == TotalExpensesLabel + show(Sum(Amounts(l.expenses)))
      && parts[8] == CashInHandLabel + show(MethodTotal(l.sales, "cash") - Sum(Amounts(l.expenses)))
  {
    if forall x :: '\n' !in show(x) {
      SummaryLinesSplit(l, show);
    }
  }

  /** `summary_text`: the rendered lines joined with newlines. As long as
      printing a number never produces a newline, the text splits back into
      exactly nine lines: the headings, one line per key in the fixed order
      with that key's all-time sum, the expense total and cash in hand. */
  function SummaryText(l: Ledger, show: real -> string): (r: string)
    ensures (forall x :: '\n' !in show(x)) ==>
      var parts := Split(r);
      && |parts| == 9
      && parts[0] == "=== Daily Summary ==="
      && parts[1] == "Sales by Payment Type:"
      && (forall i :: 0 <= i < |Methods| ==>
            parts[2 + i] == MethodLabel(Methods[i]) + show(MethodTotal(l.sales, Methods[i])))
      && parts[7] == TotalExpensesLabel + show(Sum(Amounts(l.expenses)))
      && parts[8] == CashInHandLabel + show(MethodTotal(l.sales, "cash") - Sum(Amounts(l.expenses)))
  {
    SummaryLinesSplitIf(l, show);
    Join(RenderAll(SummaryLines(l), show))
  }

  // --------------------------------------------------------------- export

  /** A spreadsheet cell: text or a number. */
  datatype Cell = Str(text: string) | Num(value: real)

  type Row = seq<Cell>

  datatype Sheet = Sheet(title: string, rows: seq<Row>)

  const SalesHeader: Row := [Str("Item"), Str("Price"), Str("Date"), Str("Payment Type")]
  const ExpensesHeader: Row := [Str("Description"), Str("Amount"), Str("Date")]

  function SaleCells(r: SaleRow): Row {
    [Str(r.item), Num(r.price), Str(r.date), Str(r.paymentType)]
  }

  function ExpenseCells(r: ExpenseRow): Row {
    [Str(r.description), Num(r.amount), Str(r.date)]
  }

  /** The data rows of "Sales Today": one row of cells per selected row, in
      the query's order. A row of cells occurs as often as the selected row
      it shows, since distinct rows show as distinct cells. */
  function SaleRowsCells(rows: seq<SaleRow>): (body: seq<Row>)
    ensures |body| == |rows|
    ensures forall i :: 0 <= i < |rows| ==> body[i] == SaleCells(rows[i])
    ensures forall r :: multiset(body)[SaleCells(r)] == multiset(rows)[r]
  {
    if |rows| == 0 then []
    else
      var init := rows[..|rows| - 1];
      var last := rows[|rows| - 1];
      assert rows == init + [last];
      assert forall r :: SaleCells(r) == SaleCells(last) ==> r == last by {
        forall r | SaleCells(r) == SaleCells(last) ensures r == last {
          assert SaleCells(r)[0] == SaleCells(last)[0] && SaleCells(r)[1] == SaleCells(last)[1];
          assert SaleCells(r)[2] == SaleCells(last)[2] && SaleCells(r)[3] == SaleCells(last)[3];
        }
      }
      SaleRowsCells(init) + [SaleCells(last)]
  }

  /** The data rows of "Expenses Today", with the same guarantees. */
  function ExpenseRowsCells(rows: seq<ExpenseRow>): (body: seq<Row>)
    ensures |body| == |rows|
    ensures forall i :: 0 <= i < |rows| ==> body[i] == ExpenseCells(rows[i])
    ensures forall r :: multiset(body)[ExpenseCells(r)] == multiset(rows)[r]
  {
    if |rows| == 0 then []
    else
      var init := rows[..|rows| - 1];
      var last := rows[|rows| - 1];
      assert rows == init + [last];
      assert forall r :: ExpenseCells(r) == ExpenseCells(last) ==> r == last by {
        forall r | ExpenseCells(r) == ExpenseCells(last) ensures r == last {
          assert ExpenseCells(r)[0] == ExpenseCells(last)[0] && ExpenseCells(r)[1] == ExpenseCells(last)[1];
          assert ExpenseCells(r)[2] == ExpenseCells(last)[2];
        }
      }
      ExpenseRowsCells(init) + [ExpenseCells(last)]
  }

  /** The "Summary" sheet: a title row, a blank row, the section heading,
      one [method, total] row per key in the dictionary's order, a blank
      row, the expense total and cash in hand. */
  function SummarySheet(l: Ledger): (s: Sheet)
    ensures s.title == "Summary" && |s.rows| == 11
    ensures s.rows[0] == [Str("Restaurant Daily Summary")] && s.rows[1] == []
    ensures s.rows[2] == [Str("Sales by Payment Type")] && s.rows[8] == []
    ensures forall i :: 0 <= i < |Methods| ==>
      s.rows[3 + i] == [Str(Methods[i]), Num(MethodTotal(l.sales, Methods[i]))]
    ensures s.rows[9] == [Str("Total Expenses"), Num(Sum(Amounts(l.expenses)))]
    ensures s.rows[10] == [Str("Cash in Hand (cash-expenses)"),
                           Num(MethodTotal(l.sales, "cash") - Sum(Amounts(l.expenses)))]
  {
    var totals := TotalSalesByPayment(l);
    Sheet("Summary",
      [[Str("Restaurant Daily Summary")], [], [Str("Sales by Payment Type")]]
      + seq(|totals|, i requires 0 <= i < |totals| => [Str(totals[i].key), Num(totals[i].total)])
      + [[], [Str("Total Expenses"), Num(TotalExpenses(l))],
         [Str("Cash in Hand (cash-expenses)"), Num(CashInHand(l))]])
  }

  /** A sheet with a header row followed by one row per record. */
  function Table(title: string, header: Row, body: seq<Row>): (s: Sheet)
    ensures s.title == title && |s.rows| == |body| + 1
    ensures s.rows[0] == header && s.rows[1..] == body
  {
    Sheet(title, [header] + body)
  }

  /** The workbook `export_to_excel` builds before saving it: the summary,
      then today's sales, then today's expenses. The two "today" sheets each
      read the clock on their own: `nowSales` and `nowExpenses` may fall on
      different days when the export runs across midnight. Each sheet holds
      exactly one data row per record its query selects. */
  function Export(l: Ledger, nowSales: DateTime, nowExpenses: DateTime): (book: seq<Sheet>)
    requires ValidDateTime(nowSales) && ValidDateTime(nowExpenses)
    ensures |book| == 3
    ensures book[0] == SummarySheet(l)
    ensures book[1].title == "Sales Today"
    ensures |book[1].rows| == |SalePositions(l.sales, DateText(nowSales.date))| + 1
    ensures book[2].title == "Expenses Today"
    ensures |book[2].rows| == |ExpensePositions(l.expenses, DateText(nowExpenses.date))| + 1
    ensures book[1].rows[0] == SalesHeader && book[2].rows[0] == ExpensesHeader
    ensures forall r :: multiset(book[1].rows[1..])[SaleCells(r)] ==
                        |SalePositionsOf(l.sales, DateText(nowSales.date), r)|
    ensures forall r :: multiset(book[2].rows[1..])[ExpenseCells(r)] ==
                        |ExpensePositionsOf(l.expenses, DateText(nowExpenses.date), r)|
  {
    var sales := SalesToday(l, nowSales);
    var expenses := ExpensesToday(l, nowExpenses);
    [ SummarySheet(l),
      Table("Sales Today", SalesHeader, SaleRowsCells(sales)),
      Table("Expenses Today", ExpensesHeader, ExpenseRowsCells(expenses)) ]
  }

  /** The summary sheet carries the same figures, in the same order, as the
      text summary. */
  lemma SummarySheetAgreesWithText(l: Ledger)
    ensures var rows := SummarySheet(l).rows;
      var lines := SummaryLines(l);
      && (forall i :: 2 <= i < 7 ==> lines[i].Figure? && rows[i + 1][1] == Num(lines[i].value))
      && lines[7].Figure? && rows[9][1] == Num(lines[7].value)
      && lines[8].Figure? && rows[10][1] == Num(lines[8].value)
  {
    var rows := SummarySheet(l).rows;
    var lines := SummaryLines(l);
    forall i | 2 <= i < 7
      ensures lines[i].Figure? && rows[i + 1][1] == Num(lines[i].value)
    {
      var m := Methods[i - 2];
      assert lines[i] == Figure(MethodLabel(m), MethodTotal(l.sales, m));
      assert rows[i + 1] == [Str(m), Num(MethodTotal(l.sales, m))];
    }
  }

  /** A stored sale appears as a data row of the "Sales Today" sheet exactly
      when it was stamped on the day of the sales sheet's clock reading. */
  lemma ExportSalesSheetIsToday(l: Ledger, nowSales: DateTime, nowExpenses: DateTime, k: int, t: DateTime)
    requires ValidDateTime(nowSales) && ValidDateTime(nowExpenses) && ValidDateTime(t)
    requires 0 <= k < |l.sales| && l.sales[k].date == Stamp(t)
    ensures SaleCells(SaleRowOf(l.sales[k])) in Export(l, nowSales, nowExpenses)[1].rows[1..] <==> t.date == nowSales.date
  {
    var sales := SalesToday(l, nowSales);
    var body := Export(l, nowSales, nowExpenses)[1].rows[1..];
    var row := SaleRowOf(l.sales[k]);
    if row in sales {
      var i :| 0 <= i < |sales| && sales[i] == row;
      assert body[i] == SaleCells(row);
    }
    if SaleCells(row) in body {
      var i :| 0 <= i < |body| && body[i] == SaleCells(row);
      assert SaleCells(sales[i]) == SaleCells(row);
      assert sales[i] == row;
    }
  }

  /** An expense appears as a data row of the "Expenses Today" sheet exactly
      when it was stamped on the day of the expenses sheet's clock reading. */
  lemma ExportExpensesSheetIsToday(l: Ledger, nowSales: DateTime, nowExpenses: DateTime, k: int, t: DateTime)
    requires ValidDateTime(nowSales) && ValidDateTime(nowExpenses) && ValidDateTime(t)
    requires 0 <= k < |l.expenses| && l.expenses[k].date == Stamp(t)
    ensures ExpenseCells(ExpenseRowOf(l.expenses[k])) in Export(l, nowSales, nowExpenses)[2].rows[1..] <==> t.date == nowExpenses.date
  {
    var expenses := ExpensesToday(l, nowExpenses);
    var body := Export(l, nowSales, nowExpenses)[2].rows[1..];
    var row := ExpenseRowOf(l.expenses[k]);
    if row in expenses {
      var i :| 0 <= i < |expenses| && expenses[i] == row;
      assert body[i] == ExpenseCells(row);
    }
    if ExpenseCells(row) in body {
      var i :| 0 <= i < |body| && body[i] == ExpenseCells(row);
      assert ExpenseCells(expenses[i]) == ExpenseCells(row);
      assert expenses[i] == row;
    }
  }
}
