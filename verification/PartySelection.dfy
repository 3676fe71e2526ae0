/** Whose documents a party's statements, summary and balance are made of (src/lib/party-ledger.ts:33-77, 181-483). */
module PartySelection {
  import opened Wrappers
  import opened JsText
  import opened PartyLedger
  import opened PartyReconciliation

  // ---- Own documents ----

  predicate OwnInvoice(party: Party, inv: Invoice) {
    party.kind == Customer && party.customerId == Some(inv.customerId)
  }

  /** The vendor's name and the party's key agree once trimmed, and are not blank. */
  predicate OwnExpense(party: Party, e: Expense) {
    && party.kind == Supplier && party.vendorKey.Some? && e.vendor.Some?
    && Trim(party.vendorKey.value) != [] && Trim(e.vendor.value) == Trim(party.vendorKey.value)
  }

  lemma {:induction false} OfCustomerIff(invoices: seq<Invoice>, id: string, inv: Invoice)
    ensures inv in OfCustomer(invoices, id) <==> inv in invoices && inv.customerId == id
  {
    if invoices != [] { OfCustomerIff(invoices[1..], id, inv); }
  }

  lemma {:induction false} OfVendorIff(expenses: seq<Expense>, key: Text, e: Expense)
    ensures e in OfVendor(expenses, key) <==> e in expenses && e.vendor.Some? && Trim(e.vendor.value) == key
  {
    hide Trim;
    if expenses != [] { OfVendorIff(expenses[1..], key, e); }
  }

  lemma OwnInvoices(party: Party, invoices: seq<Invoice>, inv: Invoice)
    ensures inv in InvoicesFor(party, invoices) <==> inv in invoices && OwnInvoice(party, inv)
  {
    if party.customerId.Some? { OfCustomerIff(invoices, party.customerId.value, inv); }
  }

  lemma OwnExpenses(party: Party, expenses: seq<Expense>, e: Expense)
    ensures e in ExpensesFor(party, expenses) <==> e in expenses && OwnExpense(party, e)
  {
    hide Trim;
    if party.vendorKey.Some? { OfVendorIff(expenses, Trim(party.vendorKey.value), e); }
  }

  // ---- Foreign documents make no difference ----

  lemma {:induction false} OfCustomerSplit(a: seq<Invoice>, b: seq<Invoice>, id: string)
    ensures OfCustomer(a + b, id) == OfCustomer(a, id) + OfCustomer(b, id)
  {
    if a == [] {
      assert a + b == b;
    } else {
      assert (a + b)[1..] == a[1..] + b;
      OfCustomerSplit(a[1..], b, id);
    }
  }

  lemma {:induction false} OfVendorSplit(a: seq<Expense>, b: seq<Expense>, key: Text)
    ensures OfVendor(a + b, key) == OfVendor(a, key) + OfVendor(b, key)
  {
    hide Trim;
    if a == [] {
      assert a + b == b;
    } else {
      assert (a + b)[1..] == a[1..] + b;
      OfVendorSplit(a[1..], b, key);
    }
  }

  lemma SameInvoices(party: Party, a: seq<Invoice>, x: Invoice, b: seq<Invoice>)
    requires !OwnInvoice(party, x)
    ensures InvoicesFor(party, a + [x] + b) == InvoicesFor(party, a + b)
  {
    if party.kind == Customer && party.customerId.Some? {
      var id := party.customerId.value;
      OfCustomerSplit(a + [x], b, id);
      OfCustomerSplit(a, [x], id);
      OfCustomerSplit(a, b, id);
      assert OfCustomer([x], id) == [] by { assert [x][1..] == []; }
    }
  }

  lemma SameExpenses(party: Party, a: seq<Expense>, x: Expense, b: seq<Expense>)
    requires !OwnExpense(party, x)
    ensures ExpensesFor(party, a + [x] + b) == ExpensesFor(party, a + b)
  {
    hide Trim;
    if party.kind == Supplier && party.vendorKey.Some? && Trim(party.vendorKey.value) != [] {
      var key := Trim(party.vendorKey.value);
      OfVendorSplit(a + [x], b, key);
      OfVendorSplit(a, [x], key);
      OfVendorSplit(a, b, key);
      assert OfVendor([x], key) == [] by { assert [x][1..] == []; }
    }
  }

  /** An invoice of someone else, anywhere in the list, changes no statement, summary or balance. */
  lemma ForeignInvoiceMakesNoDifference(
    party: Party, a: seq<Invoice>, x: Invoice, b: seq<Invoice>, expenses: seq<Expense>, period: Period)
    requires !OwnInvoice(party, x)
    ensures PartyStatement(party, a + [x] + b, expenses, period) == PartyStatement(party, a + b, expenses, period)
    ensures PublicStatement(party, a + [x] + b, period) == PublicStatement(party, a + b, period)
    ensures PartySummary(party, a + [x] + b, expenses, period) == PartySummary(party, a + b, expenses, period)
    ensures CurrentBalance(party, a + [x] + b, expenses) == CurrentBalance(party, a + b, expenses)
  {
    hide InvoicesFor, ExpensesFor, Statement;
    SameInvoices(party, a, x, b);
  }

  /** So does an expense at someone else. */
  lemma ForeignExpenseMakesNoDifference(
    party: Party, invoices: seq<Invoice>, a: seq<Expense>, x: Expense, b: seq<Expense>, period: Period)
    requires !OwnExpense(party, x)
    ensures PartyStatement(party, invoices, a + [x] + b, period) == PartyStatement(party, invoices, a + b, period)
    ensures PartySummary(party, invoices, a + [x] + b, period) == PartySummary(party, invoices, a + b, period)
    ensures CurrentBalance(party, invoices, a + [x] + b) == CurrentBalance(party, invoices, a + b)
  {
    hide InvoicesFor, ExpensesFor, Statement;
    SameExpenses(party, a, x, b);
  }

  // ---- Which rows there are ----

  /** The entry is the invoice's sale, one of its payments, or its wallet use, dated in the period. */
  predicate ShowsInvoice(inv: Invoice, period: Period, showWallet: bool, e: Entry) {
    || (period(inv.createdAt) && e == Entry(inv.createdAt, SALE(inv.id), Some(inv.grandTotal), None))
    || (exists p <- inv.payments ::
          var at := if p.paidAt.Some? then p.paidAt.value else inv.createdAt;
          period(at) && e == Entry(at, PAYMENT_IN(p.id), None, Some(p.amount)))
    || (showWallet && inv.walletUsed > 1 && period(WalletTime(inv.payments, inv))
        && e == Entry(WalletTime(inv.payments, inv), WALLET(inv.id), None, Some(inv.walletUsed)))
  }

  /** The entry is the expense's purchase, or what of it is paid, dated in the period. */
  predicate ShowsExpense(x: Expense, period: Period, e: Entry) {
    && period(x.date)
    && (|| e == Entry(x.date, PURCHASE(x.id), Some(x.amount), None)
        || (x.status == PAID && e == Entry(x.date, PAYMENT_OUT(x.id), None, Some(x.amount)))
        || (x.status != PAID && x.amountPaid.Some? && x.amountPaid.value > 0
            && e == Entry(x.date, PAYMENT_OUT(x.id), None, x.amountPaid)))
  }

  lemma {:induction false} PaymentEntriesIff(ps: seq<Payment>, inv: Invoice, period: Period, e: Entry)
    ensures e in PaymentEntries(ps, inv, period) <==>
            exists p <- ps ::
              var at := if p.paidAt.Some? then p.paidAt.value else inv.createdAt;
              period(at) && e == Entry(at, PAYMENT_IN(p.id), None, Some(p.amount))
  {
    if ps != [] {
      PaymentEntriesIff(ps[1..], inv, period, e);
      assert ps == [ps[0]] + ps[1..];
    }
  }

  lemma {:induction false} CustomerEntriesIff(invs: seq<Invoice>, period: Period, showWallet: bool, e: Entry)
    ensures e in CustomerEntries(invs, period, showWallet) <==>
            exists inv <- invs :: ShowsInvoice(inv, period, showWallet, e)
  {
    hide PaymentEntries, WalletTime;
    if invs != [] {
      CustomerEntriesIff(invs[1..], period, showWallet, e);
      PaymentEntriesIff(invs[0].payments, invs[0], period, e);
      assert e in InvoiceEntries(invs[0], period, showWallet) <==> ShowsInvoice(invs[0], period, showWallet, e);
      assert invs == [invs[0]] + invs[1..];
    }
  }

  lemma ExpenseEntriesIff(x: Expense, period: Period, e: Entry)
    ensures e in ExpenseEntries(x, period) <==> ShowsExpense(x, period, e)
  {
    if AmountPaid(x) > 0 { assert x.amountPaid == Some(AmountPaid(x)); }
  }

  lemma {:induction false} SupplierEntriesIff(exps: seq<Expense>, period: Period, e: Entry)
    ensures e in SupplierEntries(exps, period) <==> exists x <- exps :: ShowsExpense(x, period, e)
  {
    hide ExpenseEntries, ShowsExpense;
    if exps != [] {
      SupplierEntriesIff(exps[1..], period, e);
      ExpenseEntriesIff(exps[0], period, e);
      assert exps == [exps[0]] + exps[1..];
    }
  }

  ghost predicate HasRow(lines: seq<Line>, voucher: Voucher, debit: Option<int>, credit: Option<int>)
    requires |lines| >= 2
  {
    exists l <- Body(lines) :: l.voucher == voucher && l.debit == debit && l.credit == credit
  }

  ghost predicate HasEntry(es: seq<Entry>, voucher: Voucher, debit: Option<int>, credit: Option<int>) {
    exists e <- es :: e.voucher == voucher && e.debit == debit && e.credit == credit
  }

  lemma InSorted(es: seq<Entry>, e: Entry)
    ensures e in SortedByTime(es) <==> e in es
  {
    SortKeeps(es);
    assert e in multiset(es) <==> e in es;
    assert e in multiset(SortedByTime(es)) <==> e in SortedByTime(es);
  }

  /** A statement's rows are its entries: none is dropped and none is made up. */
  lemma RowsAreEntries(
    es: seq<Entry>, opening: int, isPublic: bool, voucher: Voucher, debit: Option<int>, credit: Option<int>)
    ensures |Statement(es, opening, isPublic)| >= 2
    ensures HasRow(Statement(es, opening, isPublic), voucher, debit, credit) <==> HasEntry(es, voucher, debit, credit)
  {
    BodyIsRows(es, opening, isPublic);
    hide Statement, SortedByTime, Rows, Body, HasEntry;
    if l :| l in Body(Statement(es, opening, isPublic))
            && l.voucher == voucher && l.debit == debit && l.credit == credit {
      RowHasEntry(es, opening, l);
    }
    if HasEntry(es, voucher, debit, credit) { EntryHasRow(es, opening, voucher, debit, credit); }
  }

  lemma BodyIsRows(es: seq<Entry>, opening: int, isPublic: bool)
    ensures |Statement(es, opening, isPublic)| >= 2
    ensures Body(Statement(es, opening, isPublic)) == Rows(SortedByTime(es), opening)
  {}

  lemma RowHasEntry(es: seq<Entry>, opening: int, l: Line)
    requires l in Rows(SortedByTime(es), opening)
    ensures HasEntry(es, l.voucher, l.debit, l.credit)
  {
    hide SortedByTime, Rows;
    var sorted := SortedByTime(es);
    var i :| 0 <= i < |Rows(sorted, opening)| && Rows(sorted, opening)[i] == l;
    RowsAreAsMany(sorted, opening);
    RowBalance(sorted, opening, i);
    InSorted(es, sorted[i]);
  }

  lemma EntryHasRow(es: seq<Entry>, opening: int, voucher: Voucher, debit: Option<int>, credit: Option<int>)
    requires HasEntry(es, voucher, debit, credit)
    ensures exists l <- Rows(SortedByTime(es), opening) ::
              l.voucher == voucher && l.debit == debit && l.credit == credit
  {
    hide SortedByTime, Rows;
    var sorted := SortedByTime(es);
    var e :| e in es && e.voucher == voucher && e.debit == debit && e.credit == credit;
    InSorted(es, e);
    var i :| 0 <= i < |sorted| && sorted[i] == e;
    RowsAreAsMany(sorted, opening);
    RowBalance(sorted, opening, i);
    assert Rows(sorted, opening)[i] in Rows(sorted, opening);
  }

  /** Some own invoice of the party shows such an entry. */
  ghost predicate SomeOwnInvoiceShows(
    party: Party, invoices: seq<Invoice>, period: Period, showWallet: bool,
    voucher: Voucher, debit: Option<int>, credit: Option<int>)
  {
    exists inv, e :: inv in invoices && OwnInvoice(party, inv) && ShowsInvoice(inv, period, showWallet, e)
      && e.voucher == voucher && e.debit == debit && e.credit == credit
  }

  ghost predicate SomeOwnExpenseShows(
    party: Party, expenses: seq<Expense>, period: Period, voucher: Voucher, debit: Option<int>, credit: Option<int>)
  {
    exists x, e :: x in expenses && OwnExpense(party, x) && ShowsExpense(x, period, e)
      && e.voucher == voucher && e.debit == debit && e.credit == credit
  }

  lemma OwnEntries(
    party: Party, invoices: seq<Invoice>, period: Period, showWallet: bool,
    voucher: Voucher, debit: Option<int>, credit: Option<int>)
    ensures HasEntry(CustomerEntries(InvoicesFor(party, invoices), period, showWallet), voucher, debit, credit)
            <==> SomeOwnInvoiceShows(party, invoices, period, showWallet, voucher, debit, credit)
  {
    hide InvoicesFor, OwnInvoice, ShowsInvoice, CustomerEntries;
    var own := InvoicesFor(party, invoices);
    var es := CustomerEntries(own, period, showWallet);
    if e :| e in es && e.voucher == voucher && e.debit == debit && e.credit == credit {
      CustomerEntriesIff(own, period, showWallet, e);
      var inv :| inv in own && ShowsInvoice(inv, period, showWallet, e);
      OwnInvoices(party, invoices, inv);
    }
    if inv, e :| inv in invoices && OwnInvoice(party, inv) && ShowsInvoice(inv, period, showWallet, e)
                 && e.voucher == voucher && e.debit == debit && e.credit == credit {
      OwnInvoices(party, invoices, inv);
      CustomerEntriesIff(own, period, showWallet, e);
    }
  }

  lemma OwnExpenseEntries(
    party: Party, expenses: seq<Expense>, period: Period, voucher: Voucher, debit: Option<int>, credit: Option<int>)
    ensures HasEntry(SupplierEntries(ExpensesFor(party, expenses), period), voucher, debit, credit)
            <==> SomeOwnExpenseShows(party, expenses, period, voucher, debit, credit)
  {
    hide ExpensesFor, OwnExpense, ShowsExpense, SupplierEntries;
    var own := ExpensesFor(party, expenses);
    var es := SupplierEntries(own, period);
    if e :| e in es && e.voucher == voucher && e.debit == debit && e.credit == credit {
      SupplierEntriesIff(own, period, e);
      var x :| x in own && ShowsExpense(x, period, e);
      OwnExpenses(party, expenses, x);
    }
    if x, e :| x in expenses && OwnExpense(party, x) && ShowsExpense(x, period, e)
               && e.voucher == voucher && e.debit == debit && e.credit == credit {
      OwnExpenses(party, expenses, x);
      SupplierEntriesIff(own, period, e);
    }
  }

  /** A customer's statement has a row exactly where an own invoice's sale or payment falls in the period. */
  lemma CustomerRowsIff(
    party: Party, invoices: seq<Invoice>, expenses: seq<Expense>, period: Period,
    voucher: Voucher, debit: Option<int>, credit: Option<int>)
    requires party.kind == Customer
    ensures |PartyStatement(party, invoices, expenses, period)| >= 2
    ensures HasRow(PartyStatement(party, invoices, expenses, period), voucher, debit, credit)
            <==> SomeOwnInvoiceShows(party, invoices, period, false, voucher, debit, credit)
  {
    hide CustomerEntries, InvoicesFor, Statement, HasRow, HasEntry, SomeOwnInvoiceShows;
    RowsAreEntries(CustomerEntries(InvoicesFor(party, invoices), period, false), SignedOpening(party), false,
                   voucher, debit, credit);
    OwnEntries(party, invoices, period, false, voucher, debit, credit);
  }

  /** The public statement also has a row for the wallet use of each own invoice above one paisa. */
  lemma PublicRowsIff(
    party: Party, invoices: seq<Invoice>, period: Period, voucher: Voucher, debit: Option<int>, credit: Option<int>)
    ensures |PublicStatement(party, invoices, period)| >= 2
    ensures HasRow(PublicStatement(party, invoices, period), voucher, debit, credit)
            <==> SomeOwnInvoiceShows(party, invoices, period, true, voucher, debit, credit)
  {
    hide CustomerEntries, InvoicesFor, Statement, HasRow, HasEntry, SomeOwnInvoiceShows;
    RowsAreEntries(CustomerEntries(InvoicesFor(party, invoices), period, true), SignedOpening(party), true,
                   voucher, debit, credit);
    OwnEntries(party, invoices, period, true, voucher, debit, credit);
  }

  /** A supplier's statement has a row exactly where an own expense or its payment falls in the period. */
  lemma SupplierRowsIff(
    party: Party, invoices: seq<Invoice>, expenses: seq<Expense>, period: Period,
    voucher: Voucher, debit: Option<int>, credit: Option<int>)
    requires party.kind == Supplier
    ensures |PartyStatement(party, invoices, expenses, period)| >= 2
    ensures HasRow(PartyStatement(party, invoices, expenses, period), voucher, debit, credit)
            <==> SomeOwnExpenseShows(party, expenses, period, voucher, debit, credit)
  {
    hide SupplierEntries, ExpensesFor, Statement, HasRow, HasEntry, SomeOwnExpenseShows;
    RowsAreEntries(SupplierEntries(ExpensesFor(party, expenses), period), SignedOpening(party), false,
                   voucher, debit, credit);
    OwnExpenseEntries(party, expenses, period, voucher, debit, credit);
  }

  // ---- Opening and overdue ----

  /** What a customer owes us and what we owe a supplier count up; the other side counts down. */
  lemma OpeningHasItsSide(party: Party, amount: int)
    requires party.openingBalance == Some(amount) && amount >= 0
    ensures party.openingSide == None ==> SignedOpening(party) == amount
    ensures party.kind == Customer && party.openingSide == Some(ToCollect) ==> SignedOpening(party) == amount
    ensures party.kind == Customer && party.openingSide == Some(ToPay) ==> SignedOpening(party) == -amount
    ensures party.kind == Supplier && party.openingSide == Some(ToPay) ==> SignedOpening(party) == amount
    ensures party.kind == Supplier && party.openingSide == Some(ToCollect) ==> SignedOpening(party) == -amount
  {
  }

  /** No opening balance, or one below zero, counts as nothing. */
  lemma NoOpening(party: Party)
    requires party.openingBalance.Some? ==> party.openingBalance.value <= 0
    ensures SignedOpening(party) == 0
  {
  }

  lemma StatementsOpenAtOpening(party: Party, invoices: seq<Invoice>, expenses: seq<Expense>, period: Period)
    ensures var s := PartyStatement(party, invoices, expenses, period);
            s != [] && s[0].voucher == OPENING && s[0].balance == SignedOpening(party)
    ensures var p := PublicStatement(party, invoices, period);
            p != [] && p[0].voucher == OPENING && p[0].balance == SignedOpening(party)
  {
  }

  /** All of an invoice's outstanding amount is overdue: nothing, or over one paisa and not marked paid. */
  predicate OverdueOrSettled(inv: Invoice) {
    InvoiceOutstanding(inv) == 0 || (InvoiceOutstanding(inv) > 1 && !inv.paid)
  }

  /** What is overdue is part of what is outstanding, and all of it exactly when no invoice is excepted. */
  lemma {:induction false} OverdueIsOutstandingIff(invs: seq<Invoice>)
    ensures 0 <= Overdue(invs) <= TotalOutstanding(invs)
    ensures Overdue(invs) == TotalOutstanding(invs) <==> forall inv <- invs :: OverdueOrSettled(inv)
  {
    hide InvoiceOutstanding, OverdueOrSettled;
    if invs != [] {
      OverdueIsOutstandingIff(invs[1..]);
      OneOverdue(invs[0]);
      assert invs == [invs[0]] + invs[1..];
      assert (forall inv <- invs :: OverdueOrSettled(inv)) <==>
             OverdueOrSettled(invs[0]) && forall inv <- invs[1..] :: OverdueOrSettled(inv);
    }
  }

  lemma OneOverdue(inv: Invoice)
    ensures InvoiceOutstanding(inv) >= 0
    ensures OverdueOrSettled(inv) <==>
            InvoiceOutstanding(inv) == if InvoiceOutstanding(inv) > 1 && !inv.paid then InvoiceOutstanding(inv) else 0
  {
  }
}
