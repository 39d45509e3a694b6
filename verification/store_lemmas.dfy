/** How the writes of the ledger store move its derived figures and the
    "today" queries, and the worked scenarios. */
module StoreLemmas {
  import opened Text
  import opened Clock
  import opened Store

  lemma {:induction false} MethodTotalAppend(sales: seq<Sale>, s: Sale, m: string)
    ensures MethodTotal(sales + [s], m) == MethodTotal(sales, m) + (if s.paymentType == m then s.price else 0.0)
  {
    assert (sales + [s])[..|sales|] == sales;
  }

  /** Recording a sale adds its price to the bucket of its lowercased payment
      type and to no other; expenses, and hence the expense total, are
      untouched, and cash in hand moves only for a cash sale. */
  lemma RecordSaleTotals(l: Ledger, item: string, price: real, paymentType: string, now: DateTime)
    requires ValidDateTime(now)
    ensures var l' := RecordSale(l, item, price, paymentType, now);
      var t := TotalSalesByPayment(l);
      var t' := TotalSalesByPayment(l');
      && (forall i :: 0 <= i < |Methods| ==>
            t'[i].total == t[i].total + (if Lower(paymentType) == Methods[i] then price else 0.0))
      && TotalExpenses(l') == TotalExpenses(l)
      && CashInHand(l') == CashInHand(l) + (if Lower(paymentType) == "cash" then price else 0.0)
  {
    var l' := RecordSale(l, item, price, paymentType, now);
    var s := l'.sales[|l.sales|];
    assert l'.sales == l.sales + [s];
    forall m {
      MethodTotalAppend(l.sales, s, m);
    }
  }

  /** A sale whose payment type is not one of the five is stored (it shows up
      among today's sales) but changes no total. */
  lemma UnknownMethodStoredNotTotalled(l: Ledger, item: string, price: real, paymentType: string, now: DateTime)
    requires ValidDateTime(now)
    requires Lower(paymentType) !in Methods
    ensures var l' := RecordSale(l, item, price, paymentType, now);
      && TotalSalesByPayment(l') == TotalSalesByPayment(l)
      && CashInHand(l') == CashInHand(l)
      && SaleRow(item, price, Stamp(now), Lower(paymentType)) in SalesToday(l', now)
  {
    var l' := RecordSale(l, item, price, paymentType, now);
    RecordSaleTotals(l, item, price, paymentType, now);
    var t := TotalSalesByPayment(l);
    var t' := TotalSalesByPayment(l');
    assert forall i :: 0 <= i < |Methods| ==> Lower(paymentType) != Methods[i];
    assert forall i :: 0 <= i < |Methods| ==> t'[i] == t[i];
    RecordSaleToday(l, item, price, paymentType, now);
  }

  /** The form lowercases the payment type before calling the store, which
      lowercases it again: the stored ledger is the same either way. */
  lemma FormLowercasingIsHarmless(l: Ledger, item: string, price: real, paymentType: string, now: DateTime)
    requires ValidDateTime(now)
    ensures RecordSale(l, item, price, Lower(paymentType), now) == RecordSale(l, item, price, paymentType, now)
  {
    LowerIdempotent(paymentType);
  }

  /** A sale entered as "Cash" lands in the cash bucket. */
  lemma MixedCaseCashLandsInCash(l: Ledger, item: string, price: real, now: DateTime)
    requires ValidDateTime(now)
    ensures TotalSalesByPayment(RecordSale(l, item, price, "Cash", now))[0].total
         == TotalSalesByPayment(l)[0].total + price
  {
    assert Lower("Cash") == "cash";
    RecordSaleTotals(l, item, price, "Cash", now);
  }

  /** Recording an expense adds its amount to the expense total and takes it
      out of cash in hand, leaving the sales totals alone. */
  lemma RecordExpenseTotals(l: Ledger, description: string, amount: real, now: DateTime)
    requires ValidDateTime(now)
    ensures var l' := RecordExpense(l, description, amount, now);
      && TotalSalesByPayment(l') == TotalSalesByPayment(l)
      && TotalExpenses(l') == TotalExpenses(l) + amount
      && CashInHand(l') == CashInHand(l) - amount
  {
    var l' := RecordExpense(l, description, amount, now);
    var xs := Amounts(l.expenses);
    var xs' := Amounts(l'.expenses);
    assert xs'[..|xs|] == xs;
    assert xs'[|xs|] == amount;
  }

  /** A sale recorded at `now` joins the sales of that day and those of no
      other day. In the model's table order it comes last; SQLite, with no
      ORDER BY, promises only the multiset. */
  lemma RecordSaleToday(l: Ledger, item: string, price: real, paymentType: string, now: DateTime)
    requires ValidDateTime(now)
    ensures var l' := RecordSale(l, item, price, paymentType, now);
      && multiset(SalesToday(l', now)) == multiset(SalesToday(l, now)) + multiset{SaleRow(item, price, Stamp(now), Lower(paymentType))}
      && SalesToday(l', now) == SalesToday(l, now) + [SaleRow(item, price, Stamp(now), Lower(paymentType))]
      && ExpensesToday(l', now) == ExpensesToday(l, now)
      && forall other :: ValidDateTime(other) && other.date != now.date ==> SalesToday(l', other) == SalesToday(l, other)
  {
    var l' := RecordSale(l, item, price, paymentType, now);
    assert l'.sales[..|l'.sales| - 1] == l.sales;
    StampMatchesDate(now, now.date);
    forall other | ValidDateTime(other) && other.date != now.date
      ensures SalesToday(l', other) == SalesToday(l, other)
    {
      StampMatchesDate(now, other.date);
    }
  }

  /** An expense recorded at `now` joins the expenses of that day and those
      of no other day. In the model's table order it comes last; SQLite
      promises only the multiset. */
  lemma RecordExpenseToday(l: Ledger, description: string, amount: real, now: DateTime)
    requires ValidDateTime(now)
    ensures var l' := RecordExpense(l, description, amount, now);
      && multiset(ExpensesToday(l', now)) == multiset(ExpensesToday(l, now)) + multiset{ExpenseRow(description, amount, Stamp(now))}
      && ExpensesToday(l', now) == ExpensesToday(l, now) + [ExpenseRow(description, amount, Stamp(now))]
      && SalesToday(l', now) == SalesToday(l, now)
      && forall other :: ValidDateTime(other) && other.date != now.date ==> ExpensesToday(l', other) == ExpensesToday(l, other)
  {
    var l' := RecordExpense(l, description, amount, now);
    assert l'.expenses[..|l'.expenses| - 1] == l.expenses;
    StampMatchesDate(now, now.date);
    forall other | ValidDateTime(other) && other.date != now.date
      ensures ExpensesToday(l', other) == ExpensesToday(l, other)
    {
      StampMatchesDate(now, other.date);
    }
  }

  /** "Burger", 25.50, "Cash" on a new database: the totals are the five keys
      with 25.50 under cash and 0 elsewhere. */
  lemma BurgerScenario(now: DateTime)
    requires ValidDateTime(now)
    ensures TotalSalesByPayment(RecordSale(EmptyLedger, "Burger", 25.50, "Cash", now))
         == [Bucket("cash", 25.50), Bucket("ewallet", 0.0), Bucket("orangemoney", 0.0),
             Bucket("smega", 0.0), Bucket("myzaka", 0.0)]
  {
    var l' := RecordSale(EmptyLedger, "Burger", 25.50, "Cash", now);
    MixedCaseCashLandsInCash(EmptyLedger, "Burger", 25.50, now);
    RecordSaleTotals(EmptyLedger, "Burger", 25.50, "Cash", now);
    assert Lower("Cash") == "cash";
  }

  /** A 5.0 cash sale and a 2.0 expense leave 3.0 in hand. */
  lemma SodaAndIceScenario(now: DateTime)
    requires ValidDateTime(now)
    ensures CashInHand(RecordExpense(RecordSale(EmptyLedger, "Soda", 5.0, "cash", now), "Ice", 2.0, now)) == 3.0
  {
    var l1 := RecordSale(EmptyLedger, "Soda", 5.0, "cash", now);
    RecordSaleTotals(EmptyLedger, "Soda", 5.0, "cash", now);
    assert Lower("cash") == "cash";
    RecordExpenseTotals(l1, "Ice", 2.0, now);
  }

  /** Cash in hand is not clamped at zero: an expense with no sales leaves it
      negative. */
  lemma CashInHandCanBeNegative(now: DateTime)
    requires ValidDateTime(now)
    ensures CashInHand(RecordExpense(EmptyLedger, "Ice", 2.0, now)) == -2.0
  {
    RecordExpenseTotals(EmptyLedger, "Ice", 2.0, now);
  }
}
