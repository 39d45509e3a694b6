# IcyFlame sales ledger in Dafny

This project models the bookkeeping core of the IcyFlame restaurant
point-of-sale program: the `RestaurantSystem` class. That class keeps two
append-only tables, `sales` and `expenses`. Everything else it does is derived
from those tables:

- totals per payment method over a fixed set of five methods
  (cash, ewallet, orangemoney, smega, myzaka);
- the total of all expenses;
- cash in hand, which is cash sales minus expenses;
- the records stamped "today";
- a nine-line text summary;
- a three-sheet spreadsheet export.

The SQLite database is modelled as a value `Ledger(sales, expenses)` of two
sequences in insertion order. Each operation is a pure function of that
value. The clock (`datetime.now()`) becomes a `now: DateTime` parameter.
Money is an exact `real`.

Modules, one per concern:

- `Text` (`text.dfy`): ASCII lowercasing; the prefix form of SQL `LIKE`;
  Python's `"\n".join` with a splitting inverse.
- `Clock` (`clock.dfy`): dates and times; the zero-padded `strftime`
  renderings `%Y-%m-%d %H:%M:%S` (stored timestamp) and `%Y-%m-%d` (the
  "today" pattern); each parses back to the moment or date it renders.
- `Store` (`store.dfy`): the tables; `record_sale` / `record_expense`;
  SQLite `SUM` with its NULL on no rows; the `GROUP BY payment_type` query;
  the loop that copies group sums into the five-key totals dictionary;
  `total_expenses`, `cash_in_hand`; the two "today" queries.
- `StoreLemmas` (`store_lemmas.dfy`): how each write moves the derived
  figures and the "today" queries, and the worked scenarios (Burger / Soda
  and Ice / negative cash).
- `Report` (`report.dfy`): the lines of `summary_text` and their joined text;
  the workbook that `export_to_excel` builds.

Behaviour kept exactly as the code has it:

- The totals and the expense total range over **all** rows ever recorded,
  although the text calls itself a "Daily Summary".
- A payment type outside the five keys is stored but adds to no bucket.
- `total_expenses` reads SQL's NULL (no rows) as 0.
- Cash in hand is not clamped and can be negative.

The model follows the code:

- The store checks neither the sign of a price or amount, nor that text
  fields are non-empty, nor that the payment type is one of the five. So
  `RecordSale` and `RecordExpense` have no precondition beyond a valid clock
  reading.
- "Today" is the SQL test `date LIKE 'YYYY-MM-DD%'`, not a parsed-date
  comparison. `Clock.StampMatchesDate` proves the two agree for stored
  timestamps.

## Model

| member | source | states |
|---|---|---|
| Text.Lower | IcyFlame_Sales_System.py:32 | the stored payment type keeps its length, has no upper-case ASCII letter, keeps every other character, and each capital becomes its lower-case letter |
| Text.LowerIdempotent | IcyFlame_Sales_System.py:213 | lowercasing an already lowercased payment type (the form does it, then the store does it again) changes nothing |
| Text.LikePrefixIsStartsWith | IcyFlame_Sales_System.py:71-74 | for a date pattern of digits and dashes, `date LIKE pattern || '%'` holds exactly when the date text starts with the pattern |
| Text.SplitJoin | IcyFlame_Sales_System.py:67 | joining lines with "\n" loses nothing: splitting the result on "\n" gives the lines back when no line holds a newline |
| Clock.DigitsRoundTrip | IcyFlame_Sales_System.py:32 | a zero-padded decimal field of the timestamp parses back to the number it renders |
| Clock.DateText | IcyFlame_Sales_System.py:70 | today's pattern is ten characters, dashes at positions 4 and 7, only digits and dashes |
| Clock.Stamp | IcyFlame_Sales_System.py:32 | the stored timestamp is 19 characters and begins with the ten-character date of its moment |
| Clock.StampRoundTrip | IcyFlame_Sales_System.py:32 | the stored `YYYY-MM-DD HH:MM:SS` text of a valid moment parses back to that moment |
| Clock.DateTextRoundTrip | IcyFlame_Sales_System.py:70 | the `YYYY-MM-DD` text of a valid date parses back to that date, so distinct dates give distinct patterns |
| Clock.StampMatchesDate | IcyFlame_Sales_System.py:32 | a row stamped at time t matches the LIKE pattern of date d exactly when t falls on d |
| Store.RecordSale | IcyFlame_Sales_System.py:28-33 | appends exactly one sale after the existing ones; it holds the given item and price, the stamp of `now` and the lowercased payment type; expenses unchanged; ids stay 1..n |
| Store.RecordExpense | IcyFlame_Sales_System.py:35-40 | appends exactly one expense after the existing ones with the given description, amount and stamp of `now`; sales unchanged; ids stay 1..n |
| Store.SqlSum | IcyFlame_Sales_System.py:52-53 | SQL SUM fed row by row is NULL exactly on an empty table and otherwise equals the column sum |
| Store.TotalExpenses | IcyFlame_Sales_System.py:51-54 | the expense total is the sum of all amounts ever recorded, and 0 rather than absent when there are none |
| Store.MethodTotalAbsent | IcyFlame_Sales_System.py:45 | a payment type with no stored sale sums to 0, the value its bucket keeps from the initial dictionary |
| Store.GroupBy | IcyFlame_Sales_System.py:43-44 | the GROUP BY query yields one row per distinct stored payment type, for exactly the types that occur, each holding that type's price sum |
| Store.Assign | IcyFlame_Sales_System.py:46-48 | the loop never adds or moves a key; a key no row names keeps its value; a key some row names ends with the last such row's total |
| Store.TotalSalesByPayment | IcyFlame_Sales_System.py:42-49 | the totals have exactly the keys cash, ewallet, orangemoney, smega, myzaka in that order; each holds the price sum of all sales stored under that key, 0 if none |
| Store.CashInHand | IcyFlame_Sales_System.py:56-59 | cash in hand is the cash price sum minus the sum of all expense amounts, with no clamping |
| Store.SalesOn | IcyFlame_Sales_System.py:69-75 | one row per stored sale whose date matches the pattern: as many rows as matching sales, each row occurring as often as the matching sales with that item, price, date and type |
| Store.ExpensesOn | IcyFlame_Sales_System.py:77-83 | one row per stored expense whose date matches the pattern: as many rows as matching expenses, each row occurring as often as the matching expenses with that description, amount and date |
| Store.SalesToday | IcyFlame_Sales_System.py:69-75 | as many rows as sales matching today's pattern, each row as often as the matching sales that select as it; a sale stamped at t is listed exactly when t falls on the day of `now` |
| Store.ExpensesToday | IcyFlame_Sales_System.py:77-83 | as many rows as expenses matching today's pattern, each row as often as the matching expenses that select as it; an expense stamped at t is listed exactly when t falls on the day of `now` |
| StoreLemmas.RecordSaleTotals | IcyFlame_Sales_System.py:28-59 | a recorded sale adds its price to the bucket of its lowercased type and to no other; the expense total is unchanged; cash in hand grows only for a cash sale |
| StoreLemmas.UnknownMethodStoredNotTotalled | IcyFlame_Sales_System.py:45-48 | a sale of a type outside the five leaves totals and cash in hand unchanged, yet is listed among today's sales |
| StoreLemmas.FormLowercasingIsHarmless | IcyFlame_Sales_System.py:213-215 | recording with a payment type the form already lowercased stores the same ledger as recording the raw type |
| StoreLemmas.MixedCaseCashLandsInCash | IcyFlame_Sales_System.py:32-48 | a sale entered as "Cash" adds its price to the cash bucket |
| StoreLemmas.RecordExpenseTotals | IcyFlame_Sales_System.py:35-59 | a recorded expense leaves the sales totals unchanged, adds its amount to the expense total and subtracts it from cash in hand |
| StoreLemmas.RecordSaleToday | IcyFlame_Sales_System.py:28-33 | a sale recorded at `now` adds exactly its row to the multiset of that day's sales (last, in the model's table order), leaves that day's expenses alone and changes no other day's sales |
| StoreLemmas.RecordExpenseToday | IcyFlame_Sales_System.py:35-40 | an expense recorded at `now` adds exactly its row to the multiset of that day's expenses (last, in the model's table order), leaves that day's sales alone and changes no other day's expenses |
| StoreLemmas.BurgerScenario | IcyFlame_Sales_System.py:42-49 | "Burger", 25.50, "Cash" on a new database gives cash 25.50 and 0 for the other four keys, in key order |
| StoreLemmas.SodaAndIceScenario | IcyFlame_Sales_System.py:56-59 | a 5.0 cash sale and a 2.0 expense leave 3.0 in hand |
| StoreLemmas.CashInHandCanBeNegative | IcyFlame_Sales_System.py:59 | a 2.0 expense with no sales leaves -2.0 in hand: nothing clamps at zero |
| Report.SummaryLines | IcyFlame_Sales_System.py:61-66 | the summary has nine lines: two headings; one line per key in order with that key's all-time sum; the all-time expense total; cash in hand as cash sales minus all expenses |
| Report.SummaryText | IcyFlame_Sales_System.py:61-67 | if numbers print without newlines, the summary text splits into exactly nine lines: the headings, each key's all-time sum in key order, the expense total, cash in hand |
| Report.SummarySheet | IcyFlame_Sales_System.py:88-98 | the "Summary" sheet has 11 rows: title, blank, heading, five [method, sum] rows in key order, blank, total expenses, cash in hand |
| Report.Export | IcyFlame_Sales_System.py:85-110 | the workbook has sheets Summary, "Sales Today", "Expenses Today" in that order; the fixed headers; exactly one data row per sale matching the sales sheet's own clock reading, each row of cells occurring as often as the matching sales it shows, and likewise for expenses under their own reading |
| Report.SummarySheetAgreesWithText | IcyFlame_Sales_System.py:94-98 | the summary sheet's figures equal the text summary's figures line for line |
| Report.ExportSalesSheetIsToday | IcyFlame_Sales_System.py:100-104 | a stored sale's four cells form a data row of "Sales Today" exactly when it was stamped on the day of the clock reading that sheet's query took |
| Report.ExportExpensesSheetIsToday | IcyFlame_Sales_System.py:106-110 | a stored expense's three cells form a data row of "Expenses Today" exactly when it was stamped on the day of the clock reading that sheet's query took |

## Left out

- SQLite itself (IcyFlame_Sales_System.py:9-26): the connection, SQL text and
  schema creation. The tables are sequences, and the aggregates are folds over
  them.
- Failure of a sqlite3 call or of `wb.save` (sqlite3.Error, OSError). These
  come from I/O, and the model performs none.
- Row order of the two "today" queries. They have no ORDER BY, so SQLite
  may return the rows in any order. The model answers in table order. Its
  contracts on the queries state which rows come back and how many times
  each does, not their order. StoreLemmas.RecordSaleToday and
  StoreLemmas.RecordExpenseToday also state that the new row comes last;
  that is the model's table order, which SQLite does not promise, and the
  order-free fact is their multiset clause.
- `datetime.now()`: the current time is the parameter `now`. The export
  reads the clock once per "today" sheet, so `Report.Export` takes two
  readings, `nowSales` and `nowExpenses`.
- Clock: the model accepts only years 1000 to 9999. Years below 1000 would
  hit the C library's unpadded `%Y`.
- Report.Export: openpyxl's conversion of each appended value
  (IcyFlame_Sales_System.py:104, 110) is not modelled. It cuts text longer
  than 32,767 characters, raises `IllegalCharacterError` (uncaught, so the
  export fails) for control characters U+0000-U+0008, U+000B, U+000C and
  U+000E-U+001F, and makes a string starting with "=" a formula cell. The
  model writes every item, description, date and payment type as a plain
  `Str` cell of the full text.
- The workbook object and `wb.save(filename)` (IcyFlame_Sales_System.py:86,
  112). The workbook is plain data: a sequence of titled sheets of rows. The
  file name `export_to_excel` returns is its argument unchanged, so the model
  does not return it.
- Float behaviour: IEEE rounding of the REAL columns and Python's `str()` of
  numbers. Money is an exact `real`. The summary's number rendering is the
  parameter `show`. Python prints the initial integer 0 of an empty bucket
  as "0" but a float sum of zero-price sales as "0.0". Both reach `show` as
  the real 0.0, so no `show` can tell them apart; the model does not keep
  the difference.
- Text.Lower: ASCII lowercasing only; the non-ASCII case folding of Python's
  `str.lower` is dropped. This can change which bucket a sale lands in: the
  KELVIN SIGN (U+212A) lowercases to `k`, so Python stores "MYZA\u212AA" as
  "myzaka" and counts it under myzaka, while the model keeps the sign and
  treats the type as unknown. StoreLemmas.UnknownMethodStoredNotTotalled
  and StoreLemmas.RecordSaleTotals speak of this ASCII-only lowercasing.
- The `RestaurantApp` tkinter interface (IcyFlame_Sales_System.py:116-270):
  its widgets, message boxes, `float()` parsing of prices and amounts, and
  its non-empty-field checks. The store accepts whatever it is given, so its
  functions carry no such precondition.
