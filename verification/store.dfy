/** The ledger store of `RestaurantSystem`: two append-only tables (sales and
    expenses) and the read-side queries over them. The SQLite tables become
    sequences in insertion order, `GROUP BY`/`SUM` become folds, and the clock
    is the parameter `now`. */
module Store {
  import opened Text
  import opened Clock

  datatype Option<T> = None | Some(value: T)

  /** A row of the `sales` table. */
  datatype Sale = Sale(id: nat, item: string, price: real, date: string, paymentType: string)

  /** A row of the `expenses` table. */
  datatype Expense = Expense(id: nat, description: string, amount: real, date: string)

  datatype Ledger = Ledger(sales: seq<Sale>, expenses: seq<Expense>)

  /** The keys of the totals dictionary, in its insertion order. */
  const Methods: seq<string> := ["cash", "ewallet", "orangemoney", "smega", "myzaka"]

  /** The database as `create_tables` leaves a new file: both tables empty. */
  const EmptyLedger := Ledger([], [])

  /** `AUTOINCREMENT` keys in a table nothing is ever deleted from: the n-th
      row inserted has id n. */
  predicate WellFormed(l: Ledger) {
    && (forall i :: 0 <= i < |l.sales| ==> l.sales[i].id == i + 1)
    && (forall i :: 0 <= i < |l.expenses| ==> l.expenses[i].id == i + 1)
  }

  // ---------------------------------------------------------------- writes

  /** `record_sale`: one INSERT stamped with the current time, payment type
      lowercased. */
  function RecordSale(l: Ledger, item: string, price: real, paymentType: string, now: DateTime): (l': Ledger)
    requires ValidDateTime(now)
    ensures l'.expenses == l.expenses
    ensures |l'.sales| == |l.sales| + 1
    ensures l'.sales[..|l.sales|] == l.sales
    ensures var s := l'.sales[|l.sales|];
      && s.item == item && s.price == price
      && s.date == Stamp(now)
      && s.paymentType == Lower(paymentType)
    ensures WellFormed(l) ==> WellFormed(l')
  {
    l.(sales := l.sales + [Sale(|l.sales| + 1, item, price, Stamp(now), Lower(paymentType))])
  }

  /** `record_expense`: one INSERT stamped with the current time. */
  function RecordExpense(l: Ledger, description: string, amount: real, now: DateTime): (l': Ledger)
    requires ValidDateTime(now)
    ensures l'.sales == l.sales
    ensures |l'.expenses| == |l.expenses| + 1
    ensures l'.expenses[..|l.expenses|] == l.expenses
    ensures var e := l'.expenses[|l.expenses|];
      && e.description == description && e.amount == amount
      && e.date == Stamp(now)
    ensures WellFormed(l) ==> WellFormed(l')
  {
    l.(expenses := l.expenses + [Expense(|l.expenses| + 1, description, amount, Stamp(now))])
  }

  // ------------------------------------------------------- SQL aggregates

  /** Reference sum of a column. */
  function Sum(xs: seq<real>): real {
    if |xs| == 0 then 0.0 else Sum(xs[..|xs| - 1]) + xs[|xs| - 1]
  }

  lemma {:induction false} SumCons(xs: seq<real>)
    requires |xs| > 0
    ensures Sum(xs) == xs[0] + Sum(xs[1..])
  {
    if |xs| > 1 {
      var init := xs[..|xs| - 1];
      SumCons(init);
      assert xs[1..][..|xs[1..]| - 1] == init[1..];
    }
  }

  function ValueOrZero(acc: Option<real>): real {
    match acc
    case None => 0.0
    case Some(v) => v
  }

  /** SQLite's `SUM` aggregate fed one row at a time: it stays NULL until the
      first row arrives. */
  function SumFrom(acc: Option<real>, xs: seq<real>): Option<real>
    decreases |xs|
  {
    if |xs| == 0 then acc else SumFrom(Some(ValueOrZero(acc) + xs[0]), xs[1..])
  }

  lemma {:induction false} SumFromAdds(acc: Option<real>, xs: seq<real>)
    requires |xs| > 0
    ensures SumFrom(acc, xs) == Some(ValueOrZero(acc) + Sum(xs))
    decreases |xs|
  {
    var next := Some(ValueOrZero(acc) + xs[0]);
    SumCons(xs);
    if |xs| == 1 {
      assert xs[1..] == [];
    } else {
      SumFromAdds(next, xs[1..]);
    }
  }

  /** `SUM(column)` over a whole table: NULL on an empty table, otherwise
      the sum of the column. */
  function SqlSum(xs: seq<real>): (r: Option<real>)
    ensures r.None? <==> |xs| == 0
    ensures r.Some? ==> r.value == Sum(xs)
  {
    if |xs| > 0 then SumFromAdds(None, xs); SumFrom(None, xs) else SumFrom(None, xs)
  }

  function Amounts(expenses: seq<Expense>): (xs: seq<real>)
    ensures |xs| == |expenses|
    ensures forall i :: 0 <= i < |xs| ==> xs[i] == expenses[i].amount
  {
    seq(|expenses|, i requires 0 <= i < |expenses| => expenses[i].amount)
  }

  /** `total_expenses`: the SQL sum, with NULL (no rows) read as 0. */
  function TotalExpenses(l: Ledger): (r: real)
    ensures r == Sum(Amounts(l.expenses))
    ensures |l.expenses| == 0 ==> r == 0.0
  {
    match SqlSum(Amounts(l.expenses))
    case None => 0.0
    case Some(total) => if total != 0.0 then total else 0.0
  }

  // ------------------------------------------------- totals by payment type

  /** Reference definition: the sum of the prices of the sales whose stored
      payment type is exactly `m`. */
  function MethodTotal(sales: seq<Sale>, m: string): real {
    if |sales| == 0 then 0.0
    else
      var s := sales[|sales| - 1];
      MethodTotal(sales[..|sales| - 1], m) + (if s.paymentType == m then s.price else 0.0)
  }

  predicate Occurs(sales: seq<Sale>, m: string) {
    exists k :: 0 <= k < |sales| && sales[k].paymentType == m
  }

  lemma {:induction false} MethodTotalAbsent(sales: seq<Sale>, m: string)
    requires !Occurs(sales, m)
    ensures MethodTotal(sales, m) == 0.0
  {
    if |sales| > 0 {
      var init := sales[..|sales| - 1];
      assert !Occurs(init, m) by {
        forall k | 0 <= k < |init|
          ensures init[k].paymentType != m
        {
          assert init[k] == sales[k];
        }
      }
      MethodTotalAbsent(init, m);
    }
  }

  /** One row of `SELECT payment_type, SUM(price) FROM sales GROUP BY payment_type`. */
  datatype Group = Group(paymentType: string, total: real)

  predicate HasGroup(g: seq<Group>, m: string) {
    exists i :: 0 <= i < |g| && g[i].paymentType == m
  }

  predicate DistinctKeys(g: seq<Group>) {
    forall i, j :: 0 <= i < j < |g| ==> g[i].paymentType != g[j].paymentType
  }

  /** Feeds one sale into the groups: its group's sum grows by the price, or
      a new group starts with it. */
  function AddToGroups(g: seq<Group>, m: string, p: real): seq<Group> {
    if HasGroup(g, m) then
      seq(|g|, i requires 0 <= i < |g| => if g[i].paymentType == m then Group(m, g[i].total + p) else g[i])
    else
      g + [Group(m, p)]
  }

  /** Appending one sale to the table and feeding it to the groups keeps the
      groups in agreement with the table. */
  lemma GroupByStep(init: seq<Sale>, s: Sale, g0: seq<Group>)
    requires DistinctKeys(g0)
    requires forall m :: HasGroup(g0, m) <==> Occurs(init, m)
    requires forall i :: 0 <= i < |g0| ==> g0[i].total == MethodTotal(init, g0[i].paymentType)
    ensures var sales := init + [s];
      var g := AddToGroups(g0, s.paymentType, s.price);
      && DistinctKeys(g)
      && (forall m :: HasGroup(g, m) <==> Occurs(sales, m))
      && (forall i :: 0 <= i < |g| ==> g[i].total == MethodTotal(sales, g[i].paymentType))
  {
    var sales := init + [s];
    var g := AddToGroups(g0, s.paymentType, s.price);
    assert sales[..|sales| - 1] == init;
    forall m ensures Occurs(sales, m) <==> Occurs(init, m) || s.paymentType == m {
      if Occurs(init, m) {
        var k :| 0 <= k < |init| && init[k].paymentType == m;
        assert sales[k] == init[k];
      }
      if Occurs(sales, m) && s.paymentType != m {
        var k :| 0 <= k < |sales| && sales[k].paymentType == m;
        assert init[k] == sales[k];
      }
      if s.paymentType == m {
        assert sales[|sales| - 1] == s;
      }
    }
    if HasGroup(g0, s.paymentType) {
      forall m ensures HasGroup(g, m) <==> HasGroup(g0, m) {
        if HasGroup(g0, m) {
          var k :| 0 <= k < |g0| && g0[k].paymentType == m;
          assert g[k].paymentType == m;
        }
        if HasGroup(g, m) {
          var k :| 0 <= k < |g| && g[k].paymentType == m;
          assert g0[k].paymentType == m;
        }
      }
    } else {
      forall m ensures HasGroup(g, m) <==> HasGroup(g0, m) || m == s.paymentType {
        if HasGroup(g0, m) {
          var k :| 0 <= k < |g0| && g0[k].paymentType == m;
          assert g[k].paymentType == m;
        }
        if HasGroup(g, m) && m != s.paymentType {
          var k :| 0 <= k < |g| && g[k].paymentType == m;
          assert g0[k].paymentType == m;
        }
        if m == s.paymentType {
          assert g[|g0|].paymentType == m;
        }
      }
      MethodTotalAbsent(init, s.paymentType);
    }
  }

  /** The GROUP BY query: one row per distinct stored payment type, holding
      the sum of that type's prices. */
  function GroupBy(sales: seq<Sale>): (g: seq<Group>)
    ensures DistinctKeys(g)
    ensures forall m :: HasGroup(g, m) <==> Occurs(sales, m)
    ensures forall i :: 0 <= i < |g| ==> g[i].total == MethodTotal(sales, g[i].paymentType)
  {
    if |sales| == 0 then []
    else
      var init := sales[..|sales| - 1];
      var s := sales[|sales| - 1];
      var g0 := GroupBy(init);
      GroupByStep(init, s, g0);
      assert sales == init + [s];
      AddToGroups(g0, s.paymentType, s.price)
  }

  /** A bucket of the totals dictionary. */
  datatype Bucket = Bucket(key: string, total: real)

  /** The totals dictionary before the loop: the five method keys in their
      fixed order, each starting at zero. */
  const InitialTotals: seq<Bucket> :=
    [Bucket("cash", 0.0), Bucket("ewallet", 0.0), Bucket("orangemoney", 0.0),
     Bucket("smega", 0.0), Bucket("myzaka", 0.0)]

  /** One pass of the loop body: a grouped row whose type is already a key
      overwrites that key's total; a row of any other type changes nothing. */
  function Put(t: seq<Bucket>, row: Group): seq<Bucket> {
    seq(|t|, i requires 0 <= i < |t| => if t[i].key == row.paymentType then Bucket(t[i].key, row.total) else t[i])
  }

  /** No later row of `rows` has the key of row `j`. */
  predicate LastOfKey(rows: seq<Group>, j: int)
    requires 0 <= j < |rows|
  {
    forall k :: j < k < |rows| ==> rows[k].paymentType != rows[j].paymentType
  }

  /** The loop over the cursor, rows taken in order: the keys of `t` never
      change, a bucket no row names keeps its value, and a bucket some row
      names ends up holding the last such row's total. */
  function Assign(t: seq<Bucket>, rows: seq<Group>): (r: seq<Bucket>)
    ensures |r| == |t|
    ensures forall i :: 0 <= i < |t| ==> r[i].key == t[i].key
    ensures forall i :: 0 <= i < |t| && !HasGroup(rows, t[i].key) ==> r[i] == t[i]
    ensures forall i, j :: 0 <= i < |t| && 0 <= j < |rows| && rows[j].paymentType == t[i].key && LastOfKey(rows, j) ==>
      r[i].total == rows[j].total
  {
    if |rows| == 0 then t
    else
      var init := rows[..|rows| - 1];
      var r0 := Assign(t, init);
      assert forall m :: HasGroup(init, m) ==> HasGroup(rows, m) by {
        forall m | HasGroup(init, m) ensures HasGroup(rows, m) {
          var k :| 0 <= k < |init| && init[k].paymentType == m;
          assert rows[k] == init[k];
        }
      }
      assert forall j :: 0 <= j < |init| && LastOfKey(rows, j) ==> LastOfKey(init, j) by {
        forall j | 0 <= j < |init| && LastOfKey(rows, j) ensures LastOfKey(init, j) {
          forall k | j < k < |init| ensures init[k].paymentType != init[j].paymentType {
            assert init[k] == rows[k] && init[j] == rows[j];
          }
        }
      }
      assert forall m :: HasGroup(rows, m) && rows[|rows| - 1].paymentType != m ==> HasGroup(init, m) by {
        forall m | HasGroup(rows, m) && rows[|rows| - 1].paymentType != m ensures HasGroup(init, m) {
          var k :| 0 <= k < |rows| && rows[k].paymentType == m;
          assert init[k] == rows[k];
        }
      }
      Put(r0, rows[|rows| - 1])
  }

  /** `total_sales_by_payment`: exactly the five keys, in order, each holding
      the sum of the prices of every sale ever stored under that key. */
  function TotalSalesByPayment(l: Ledger): (t: seq<Bucket>)
    ensures |t| == |Methods|
    ensures forall i :: 0 <= i < |Methods| ==> t[i].key == Methods[i]
    ensures forall i :: 0 <= i < |Methods| ==> t[i].total == MethodTotal(l.sales, Methods[i])
  {
    var g := GroupBy(l.sales);
    var t := Assign(InitialTotals, g);
    assert forall i :: 0 <= i < |Methods| ==> t[i].total == MethodTotal(l.sales, Methods[i]) by {
      forall i | 0 <= i < |Methods| ensures t[i].total == MethodTotal(l.sales, Methods[i]) {
        var m := Methods[i];
        assert InitialTotals[i].key == m;
        if HasGroup(g, m) {
          var j :| 0 <= j < |g| && g[j].paymentType == m;
          assert LastOfKey(g, j);
        } else {
          MethodTotalAbsent(l.sales, m);
        }
      }
    }
    t
  }

  /** `dict.get(key, default)` on the totals. */
  function Get(t: seq<Bucket>, key: string, default: real): real {
    if |t| == 0 then default
    else if t[0].key == key then t[0].total
    else Get(t[1..], key, default)
  }

  /** `cash_in_hand`: cash sales minus expenses, with no clamping. */
  function CashInHand(l: Ledger): (r: real)
    ensures r == MethodTotal(l.sales, "cash") - Sum(Amounts(l.expenses))
  {
    var totals := TotalSalesByPayment(l);
    assert totals[0].key == "cash";
    var cashSales := Get(totals, "cash", 0.0);
    (if cashSales != 0.0 then cashSales else 0.0) - TotalExpenses(l)
  }

  // -------------------------------------------------------- "today" queries

  /** The columns `get_sales_today` selects (the id is not selected). */
  datatype SaleRow = SaleRow(item: string, price: real, date: string, paymentType: string)

  /** The columns `get_expenses_today` selects. */
  datatype ExpenseRow = ExpenseRow(description: string, amount: real, date: string)

  function SaleRowOf(s: Sale): SaleRow {
    SaleRow(s.item, s.price, s.date, s.paymentType)
  }

  function ExpenseRowOf(e: Expense): ExpenseRow {
    ExpenseRow(e.description, e.amount, e.date)
  }

  /** The positions of the sales whose date passes the `LIKE` test. */
  function SalePositions(sales: seq<Sale>, day: string): set<int> {
    set k | 0 <= k < |sales| && LikePrefix(sales[k].date, day)
  }

  /** The positions of those sales that select as the row `r`. */
  function SalePositionsOf(sales: seq<Sale>, day: string, r: SaleRow): set<int> {
    set k | 0 <= k < |sales| && LikePrefix(sales[k].date, day) && SaleRowOf(sales[k]) == r
  }

  lemma SalePositionsStep(sales: seq<Sale>, day: string)
    requires |sales| > 0
    ensures var n := |sales| - 1;
      |SalePositions(sales, day)| == |SalePositions(sales[..n], day)| + (if LikePrefix(sales[n].date, day) then 1 else 0)
  {
    var n := |sales| - 1;
    var a := SalePositions(sales[..n], day);
    assert forall k :: k in a <==> 0 <= k < n && LikePrefix(sales[k].date, day);
    if LikePrefix(sales[n].date, day) {
      assert SalePositions(sales, day) == a + {n};
    } else {
      assert SalePositions(sales, day) == a;
    }
  }

  lemma SalePositionsOfStep(sales: seq<Sale>, day: string, r: SaleRow)
    requires |sales| > 0
    ensures var n := |sales| - 1;
      |SalePositionsOf(sales, day, r)| ==
        |SalePositionsOf(sales[..n], day, r)| + (if LikePrefix(sales[n].date, day) && SaleRowOf(sales[n]) == r then 1 else 0)
  {
    var n := |sales| - 1;
    var a := SalePositionsOf(sales[..n], day, r);
    assert forall k :: k in a <==> 0 <= k < n && LikePrefix(sales[k].date, day) && SaleRowOf(sales[k]) == r;
    if LikePrefix(sales[n].date, day) && SaleRowOf(sales[n]) == r {
      assert SalePositionsOf(sales, day, r) == a + {n};
    } else {
      assert SalePositionsOf(sales, day, r) == a;
    }
  }

  /** A row occurs in `rows` exactly when some matching sale selects as it,
      once `rows` holds each row as often as matching sales select as it. */
  lemma SaleRowsPresent(sales: seq<Sale>, day: string, rows: seq<SaleRow>)
    requires forall r :: multiset(rows)[r] == |SalePositionsOf(sales, day, r)|
    ensures forall r :: r in rows <==>
      exists k :: 0 <= k < |sales| && LikePrefix(sales[k].date, day) && SaleRowOf(sales[k]) == r
  {
    forall r
      ensures r in rows <==> exists k :: 0 <= k < |sales| && LikePrefix(sales[k].date, day) && SaleRowOf(sales[k]) == r
    {
      if r in rows {
        assert multiset(rows)[r] > 0;
        var k :| k in SalePositionsOf(sales, day, r);
      }
      if exists k :: 0 <= k < |sales| && LikePrefix(sales[k].date, day) && SaleRowOf(sales[k]) == r {
        var k :| 0 <= k < |sales| && LikePrefix(sales[k].date, day) && SaleRowOf(sales[k]) == r;
        assert k in SalePositionsOf(sales, day, r);
      }
    }
  }

  /** `SELECT item, price, date, payment_type FROM sales WHERE date LIKE day || '%'`:
      one row per matching sale, so a row occurs as often as there are
      matching sales that select as it. The query has no ORDER BY; the model
      answers in table order. */
  function SalesOn(sales: seq<Sale>, day: string): (rows: seq<SaleRow>)
    ensures |rows| == |SalePositions(sales, day)|
    ensures forall r :: multiset(rows)[r] == |SalePositionsOf(sales, day, r)|
    ensures forall r :: r in rows <==>
      exists k :: 0 <= k < |sales| && LikePrefix(sales[k].date, day) && SaleRowOf(sales[k]) == r
  {
    if |sales| == 0 then []
    else
      var init := sales[..|sales| - 1];
      var s := sales[|sales| - 1];
      var rows0 := SalesOn(init, day);
      var rows := rows0 + (if LikePrefix(s.date, day) then [SaleRowOf(s)] else []);
      SalePositionsStep(sales, day);
      forall r
        ensures multiset(rows)[r] == |SalePositionsOf(sales, day, r)|
      {
        SalePositionsOfStep(sales, day, r);
      }
      SaleRowsPresent(sales, day, rows);
      rows
  }

  /** The positions of the expenses whose date passes the `LIKE` test. */
  function ExpensePositions(expenses: seq<Expense>, day: string): set<int> {
    set k | 0 <= k < |expenses| && LikePrefix(expenses[k].date, day)
  }

  /** The positions of those expenses that select as the row `r`. */
  function ExpensePositionsOf(expenses: seq<Expense>, day: string, r: ExpenseRow): set<int> {
    set k | 0 <= k < |expenses| && LikePrefix(expenses[k].date, day) && ExpenseRowOf(expenses[k]) == r
  }

  lemma ExpensePositionsStep(expenses: seq<Expense>, day: string)
    requires |expenses| > 0
    ensures var n := |expenses| - 1;
      |ExpensePositions(expenses, day)| == |ExpensePositions(expenses[..n], day)| + (if LikePrefix(expenses[n].date, day) then 1 else 0)
  {
    var n := |expenses| - 1;
    var a := ExpensePositions(expenses[..n], day);
    assert forall k :: k in a <==> 0 <= k < n && LikePrefix(expenses[k].date, day);
    if LikePrefix(expenses[n].date, day) {
      assert ExpensePositions(expenses, day) == a + {n};
    } else {
      assert ExpensePositions(expenses, day) == a;
    }
  }

  lemma ExpensePositionsOfStep(expenses: seq<Expense>, day: string, r: ExpenseRow)
    requires |expenses| > 0
    ensures var n := |expenses| - 1;
      |ExpensePositionsOf(expenses, day, r)| ==
        |ExpensePositionsOf(expenses[..n], day, r)| + (if LikePrefix(expenses[n].date, day) && ExpenseRowOf(expenses[n]) == r then 1 else 0)
  {
    var n := |expenses| - 1;
    var a := ExpensePositionsOf(expenses[..n], day, r);
    assert forall k :: k in a <==> 0 <= k < n && LikePrefix(expenses[k].date, day) && ExpenseRowOf(expenses[k]) == r;
    if LikePrefix(expenses[n].date, day) && ExpenseRowOf(expenses[n]) == r {
      assert ExpensePositionsOf(expenses, day, r) == a + {n};
    } else {
      assert ExpensePositionsOf(expenses, day, r) == a;
    }
  }

  /** A row occurs in `rows` exactly when some matching expense selects as it,
      once `rows` holds each row as often as matching expenses select as it. */
  lemma ExpenseRowsPresent(expenses: seq<Expense>, day: string, rows: seq<ExpenseRow>)
    requires forall r :: multiset(rows)[r] == |ExpensePositionsOf(expenses, day, r)|
    ensures forall r :: r in rows <==>
      exists k :: 0 <= k < |expenses| && LikePrefix(expenses[k].date, day) && ExpenseRowOf(expenses[k]) == r
  {
    forall r
      ensures r in rows <==> exists k :: 0 <= k < |expenses| && LikePrefix(expenses[k].date, day) && ExpenseRowOf(expenses[k]) == r
    {
      if r in rows {
        assert multiset(rows)[r] > 0;
        var k :| k in ExpensePositionsOf(expenses, day, r);
      }
      if exists k :: 0 <= k < |expenses| && LikePrefix(expenses[k].date, day) && ExpenseRowOf(expenses[k]) == r {
        var k :| 0 <= k < |expenses| && LikePrefix(expenses[k].date, day) && ExpenseRowOf(expenses[k]) == r;
        assert k in ExpensePositionsOf(expenses, day, r);
      }
    }
  }

  /** `SELECT description, amount, date FROM expenses WHERE date LIKE day || '%'`:
      one row per matching expense. */
  function ExpensesOn(expenses: seq<Expense>, day: string): (rows: seq<ExpenseRow>)
    ensures |rows| == |ExpensePositions(expenses, day)|
    ensures forall r :: multiset(rows)[r] == |ExpensePositionsOf(expenses, day, r)|
    ensures forall r :: r in rows <==>
      exists k :: 0 <= k < |expenses| && LikePrefix(expenses[k].date, day) && ExpenseRowOf(expenses[k]) == r
  {
    if |expenses| == 0 then []
    else
      var init := expenses[..|expenses| - 1];
      var e := expenses[|expenses| - 1];
      var rows0 := ExpensesOn(init, day);
      var rows := rows0 + (if LikePrefix(e.date, day) then [ExpenseRowOf(e)] else []);
      ExpensePositionsStep(expenses, day);
      forall r
        ensures multiset(rows)[r] == |ExpensePositionsOf(expenses, day, r)|
      {
        ExpensePositionsOfStep(expenses, day, r);
      }
      ExpenseRowsPresent(expenses, day, rows);
      rows
  }

  /** `get_sales_today`, with the clock reading passed in: one row per sale
      of the day, and a sale stamped at `t` is listed exactly when `t` falls
      on the day of `now`. */
  function SalesToday(l: Ledger, now: DateTime): (rows: seq<SaleRow>)
    requires ValidDateTime(now)
    ensures |rows| == |SalePositions(l.sales, DateText(now.date))|
    ensures forall r :: multiset(rows)[r] == |SalePositionsOf(l.sales, DateText(now.date), r)|
    ensures forall k, t :: 0 <= k < |l.sales| && ValidDateTime(t) && l.sales[k].date == Stamp(t) ==>
      (SaleRowOf(l.sales[k]) in rows <==> t.date == now.date)
  {
    assert forall t :: ValidDateTime(t) ==> (LikePrefix(Stamp(t), DateText(now.date)) <==> t.date == now.date) by {
      forall t | ValidDateTime(t) {
        StampMatchesDate(t, now.date);
      }
    }
    SalesOn(l.sales, DateText(now.date))
  }

  /** `get_expenses_today`, with the clock reading passed in: one row per
      expense of the day, and an expense stamped at `t` is listed exactly
      when `t` falls on the day of `now`. */
  function ExpensesToday(l: Ledger, now: DateTime): (rows: seq<ExpenseRow>)
    requires ValidDateTime(now)
    ensures |rows| == |ExpensePositions(l.expenses, DateText(now.date))|
    ensures forall r :: multiset(rows)[r] == |ExpensePositionsOf(l.expenses, DateText(now.date), r)|
    ensures forall k, t :: 0 <= k < |l.expenses| && ValidDateTime(t) && l.expenses[k].date == Stamp(t) ==>
      (ExpenseRowOf(l.expenses[k]) in rows <==> t.date == now.date)
  {
    assert forall t :: ValidDateTime(t) ==> (LikePrefix(Stamp(t), DateText(now.date)) <==> t.date == now.date) by {
      forall t | ValidDateTime(t) {
        StampMatchesDate(t, now.date);
      }
    }
    ExpensesOn(l.expenses, DateText(now.date))
  }
}
