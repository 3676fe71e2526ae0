/** Statements reconcile with independently computed balances and summaries. */
module PartyReconciliation {
  import opened Wrappers
  import opened JsText
  import opened PartyLedger

  // ---- Order does not matter for the end ----

  /** A sum over entries: of both columns, or of one. */
  function Total(es: seq<Entry>, w: Entry -> int): int {
    if es == [] then 0 else w(es[0]) + Total(es[1..], w)
  }

  const DEBIT: Entry -> int := (e: Entry) => Amount(e.debit)
  const CREDIT: Entry -> int := (e: Entry) => Amount(e.credit)

  lemma {:induction false} TotalConcat(a: seq<Entry>, b: seq<Entry>, w: Entry -> int)
    ensures Total(a + b, w) == Total(a, w) + Total(b, w)
  {
    if a == [] { assert a + b == b; }
    else {
      assert (a + b)[1..] == a[1..] + b;
      TotalConcat(a[1..], b, w);
    }
  }

  lemma {:induction false} NetIsTotal(es: seq<Entry>)
    ensures Net(es) == Total(es, DEBIT) - Total(es, CREDIT)
  {
    if es != [] { NetIsTotal(es[1..]); }
  }

  lemma NetConcat(a: seq<Entry>, b: seq<Entry>)
    ensures Net(a + b) == Net(a) + Net(b)
  {
    NetIsTotal(a); NetIsTotal(b); NetIsTotal(a + b);
    TotalConcat(a, b, DEBIT);
    TotalConcat(a, b, CREDIT);
  }

  function RemoveFirst(es: seq<Entry>, e: Entry): seq<Entry> {
    if es == [] then [] else if es[0] == e then es[1..] else [es[0]] + RemoveFirst(es[1..], e)
  }

  lemma {:induction false} RemoveFirstTakes(es: seq<Entry>, e: Entry, w: Entry -> int)
    requires e in es
    ensures multiset(es) == multiset(RemoveFirst(es, e)) + multiset{e}
    ensures Total(es, w) == Total(RemoveFirst(es, e), w) + w(e)
  {
    assert es == [es[0]] + es[1..];
    if es[0] != e {
      RemoveFirstTakes(es[1..], e, w);
      assert RemoveFirst(es, e)[1..] == RemoveFirst(es[1..], e);
    }
  }

  /** Two arrangements of the same entries have the same totals. */
  lemma {:induction false} TotalOfPermutation(a: seq<Entry>, b: seq<Entry>, w: Entry -> int)
    requires multiset(a) == multiset(b)
    ensures Total(a, w) == Total(b, w)
    decreases |a|
  {
    if a == [] {
      assert |multiset(b)| == 0;
    } else {
      assert a == [a[0]] + a[1..];
      assert a[0] in multiset(b);
      RemoveFirstTakes(b, a[0], w);
      assert multiset(a[1..]) == multiset(a) - multiset{a[0]};
      assert multiset(RemoveFirst(b, a[0])) == multiset(b) - multiset{a[0]};
      TotalOfPermutation(a[1..], RemoveFirst(b, a[0]), w);
    }
  }

  lemma NetOfPermutation(a: seq<Entry>, b: seq<Entry>)
    requires multiset(a) == multiset(b)
    ensures Net(a) == Net(b)
  {
    NetIsTotal(a);
    NetIsTotal(b);
    TotalOfPermutation(a, b, DEBIT);
    TotalOfPermutation(a, b, CREDIT);
  }

  lemma NetOfSorted(es: seq<Entry>)
    ensures Net(SortedByTime(es)) == Net(es)
  {
    SortKeeps(es);
    NetOfPermutation(SortedByTime(es), es);
  }

  /** However entries of one moment are ordered, a statement closes at opening plus net. */
  lemma ClosingIsOpeningPlusNet(entries: seq<Entry>, opening: int, isPublic: bool)
    ensures Closing(Statement(entries, opening, isPublic)) == opening + Net(entries)
  {
    NetOfSorted(entries);
  }

  /** Each row's balance is the opening plus the net of the entries up to it. */
  lemma {:induction false} RowBalance(es: seq<Entry>, opening: int, i: nat)
    requires i < |es|
    ensures |Rows(es, opening)| == |es|
    ensures Rows(es, opening)[i] == Line(es[i].voucher, es[i].debit, es[i].credit, opening + Net(es[..i + 1]))
  {
    var b := opening + Amount(es[0].debit) - Amount(es[0].credit);
    if i == 0 {
      assert es[..1][1..] == [];
      RowsAreAsMany(es[1..], b);
    } else {
      RowBalance(es[1..], b, i - 1);
      assert es[..i + 1][1..] == es[1..][..i];
    }
  }

  lemma {:induction false} RowsAreAsMany(es: seq<Entry>, opening: int)
    ensures |Rows(es, opening)| == |es|
  {
    if es != [] { RowsAreAsMany(es[1..], opening + Amount(es[0].debit) - Amount(es[0].credit)); }
  }

  // ---- Customers, over all time ----

  function Overpaid(inv: Invoice): int {
    NonNegative(InvoicePaidTotal(inv) - inv.grandTotal)
  }

  function TotalOverpaid(invs: seq<Invoice>): int {
    if invs == [] then 0 else Overpaid(invs[0]) + TotalOverpaid(invs[1..])
  }

  /** Wallet use of at most one paisa, which statements leave out. */
  function HiddenWallet(invs: seq<Invoice>): int {
    if invs == [] then 0 else (if invs[0].walletUsed <= 1 then invs[0].walletUsed else 0) + HiddenWallet(invs[1..])
  }

  lemma {:induction false} NetOfPayments(ps: seq<Payment>, inv: Invoice)
    ensures Net(PaymentEntries(ps, inv, ALL_TIME)) == -PaidTotal(ps)
  {
    if ps != [] {
      NetOfPayments(ps[1..], inv);
      assert PaymentEntries(ps, inv, ALL_TIME)[1..] == PaymentEntries(ps[1..], inv, ALL_TIME);
    }
  }

  lemma NetOfInvoice(inv: Invoice)
    ensures Net(InvoiceEntries(inv, ALL_TIME, true)) + Overpaid(inv) ==
            InvoiceOutstanding(inv) + if inv.walletUsed <= 1 then inv.walletUsed else 0
  {
    NetOfPayments(inv.payments, inv);
    var sale, wallet := SaleEntries(inv, ALL_TIME), WalletEntries(inv, ALL_TIME);
    var paid := PaymentEntries(inv.payments, inv, ALL_TIME);
    NetConcat(sale, paid);
    NetConcat(sale + paid, wallet);
    assert Net(sale) == inv.grandTotal;
    assert Net(wallet) == if inv.walletUsed > 1 then -inv.walletUsed else 0;
  }

  lemma {:induction false} NetOfCustomer(invs: seq<Invoice>)
    ensures Net(CustomerEntries(invs, ALL_TIME, true)) + TotalOverpaid(invs) ==
        TotalOutstanding(invs) + HiddenWallet(invs)
  {
    hide InvoiceEntries, Overpaid, InvoiceOutstanding;
    if invs != [] {
      NetOfInvoice(invs[0]);
      NetOfCustomer(invs[1..]);
      NetConcat(InvoiceEntries(invs[0], ALL_TIME, true), CustomerEntries(invs[1..], ALL_TIME, true));
    }
  }

  /**
   * Over all time the public statement closes at the customer's current balance, less what was
   * overpaid, plus the wallet use it leaves out.
   */
  lemma PublicStatementReconciles(party: Party, invoices: seq<Invoice>, expenses: seq<Expense>)
    requires party.kind == Customer
    ensures var invs := InvoicesFor(party, invoices);
            Closing(PublicStatement(party, invoices, ALL_TIME)) + TotalOverpaid(invs) ==
            CurrentBalance(party, invoices, expenses) + HiddenWallet(invs)
  {
    var invs := InvoicesFor(party, invoices);
    ClosingIsOpeningPlusNet(CustomerEntries(invs, ALL_TIME, true), SignedOpening(party), true);
    NetOfCustomer(invs);
  }

  lemma {:induction false} HiddenOnlyOnePaisa(invs: seq<Invoice>)
    requires forall i :: 0 <= i < |invs| ==> invs[i].walletUsed >= 0
    ensures HiddenWallet(invs) >= 0
    ensures HiddenWallet(invs) == 0 <==> forall i :: 0 <= i < |invs| ==> invs[i].walletUsed != 1
  {
    if invs != [] {
      HiddenOnlyOnePaisa(invs[1..]);
      assert invs == [invs[0]] + invs[1..];
    }
  }

  /**
   * It reconciles exactly when the wallet uses of at most one paisa cancel out; where none is negative,
   * exactly when no invoice of the customer used precisely one paisa of wallet.
   */
  lemma PublicStatementReconcilesIff(party: Party, invoices: seq<Invoice>, expenses: seq<Expense>)
    requires party.kind == Customer
    ensures var invs := InvoicesFor(party, invoices);
            var reconciles := Closing(PublicStatement(party, invoices, ALL_TIME)) + TotalOverpaid(invs)
                              == CurrentBalance(party, invoices, expenses);
            && (reconciles <==> HiddenWallet(invs) == 0)
            && ((forall i :: 0 <= i < |invs| ==> invs[i].walletUsed >= 0) ==>
                  (reconciles <==> forall i :: 0 <= i < |invs| ==> invs[i].walletUsed != 1))
  {
    var invs := InvoicesFor(party, invoices);
    PublicStatementReconciles(party, invoices, expenses);
    if forall i :: 0 <= i < |invs| ==> invs[i].walletUsed >= 0 { HiddenOnlyOnePaisa(invs); }
  }

  /** An invoice of 100 with one paisa of wallet use: 99 are owed, and the statement closes at 100. */
  lemma OnePaisaIsLeftOut()
    ensures var party := Party(Customer, Some("c"), None, None, None);
            var invs := [Invoice("i", "c", 100, 1, 0, [], false)];
            && CurrentBalance(party, invs, []) == 99 && TotalOverpaid(InvoicesFor(party, invs)) == 0
            && Closing(PublicStatement(party, invs, ALL_TIME)) == 100
  {
    var party := Party(Customer, Some("c"), None, None, None);
    var inv := Invoice("i", "c", 100, 1, 0, [], false);
    assert [inv][1..] == [];
    assert OfCustomer([inv][1..], "c") == [];
    assert InvoicesFor(party, [inv]) == [inv] + [] == [inv];
    PublicStatementReconciles(party, [inv], []);
  }

  // ---- Suppliers, over all time ----

  function OverpaidExpense(e: Expense): int {
    if e.status == PAID then 0 else NonNegative(AmountPaid(e) - e.amount)
  }

  function TotalOverpaidExpenses(exps: seq<Expense>): int {
    if exps == [] then 0 else OverpaidExpense(exps[0]) + TotalOverpaidExpenses(exps[1..])
  }

  /** Negative amounts paid, which raise the balance owed but get no row. */
  function NegativePaid(exps: seq<Expense>): int {
    if exps == [] then 0
    else
      (if exps[0].status != PAID && AmountPaid(exps[0]) < 0 then AmountPaid(exps[0]) else 0)
      + NegativePaid(exps[1..])
  }

  lemma NetOfExpense(e: Expense)
    ensures Net(ExpenseEntries(e, ALL_TIME)) + OverpaidExpense(e) ==
            ExpenseOutstanding(e) + if e.status != PAID && AmountPaid(e) < 0 then AmountPaid(e) else 0
  {
    var buy := [Entry(e.date, PURCHASE(e.id), Some(e.amount), None)];
    var es := ExpenseEntries(e, ALL_TIME);
    var pay := es[1..];
    assert es == buy + pay;
    NetConcat(buy, pay);
    assert Net(buy) == e.amount;
    assert pay != [] ==> pay[1..] == [];
    assert Net(pay) == -if e.status == PAID then e.amount else NonNegative(AmountPaid(e));
  }

  lemma {:induction false} NetOfSupplier(exps: seq<Expense>)
    ensures Net(SupplierEntries(exps, ALL_TIME)) + TotalOverpaidExpenses(exps) == TotalOwed(exps) + NegativePaid(exps)
  {
    hide ExpenseEntries, OverpaidExpense, ExpenseOutstanding;
    if exps != [] {
      NetOfExpense(exps[0]);
      NetOfSupplier(exps[1..]);
      NetConcat(ExpenseEntries(exps[0], ALL_TIME), SupplierEntries(exps[1..], ALL_TIME));
    }
  }

  /** The supplier statement reconciles the same way, up to negative amounts paid. */
  lemma SupplierStatementReconciles(party: Party, invoices: seq<Invoice>, expenses: seq<Expense>)
    requires party.kind == Supplier
    ensures var exps := ExpensesFor(party, expenses);
            Closing(PartyStatement(party, invoices, expenses, ALL_TIME)) + TotalOverpaidExpenses(exps) ==
            CurrentBalance(party, invoices, expenses) + NegativePaid(exps)
  {
    var exps := ExpensesFor(party, expenses);
    ClosingIsOpeningPlusNet(SupplierEntries(exps, ALL_TIME), SignedOpening(party), false);
    NetOfSupplier(exps);
  }

  lemma {:induction false} NegativePaidIff(exps: seq<Expense>)
    ensures NegativePaid(exps) <= 0
    ensures NegativePaid(exps) == 0 <==> forall i :: 0 <= i < |exps| ==>
        exps[i].status == PAID || AmountPaid(exps[i]) >= 0
  {
    if exps != [] {
      NegativePaidIff(exps[1..]);
      assert exps == [exps[0]] + exps[1..];
    }
  }

  /** Exactly: no open expense of the supplier records a negative amount paid. */
  lemma SupplierStatementReconcilesIff(party: Party, invoices: seq<Invoice>, expenses: seq<Expense>)
    requires party.kind == Supplier
    ensures var exps := ExpensesFor(party, expenses);
            Closing(PartyStatement(party, invoices, expenses, ALL_TIME)) + TotalOverpaidExpenses(exps) ==
            CurrentBalance(party, invoices, expenses)
            <==> forall i :: 0 <= i < |exps| ==> exps[i].status == PAID || AmountPaid(exps[i]) >= 0
  {
    SupplierStatementReconciles(party, invoices, expenses);
    NegativePaidIff(ExpensesFor(party, expenses));
  }

  /** A pending expense of 100 with -30 recorded as paid: 130 are owed, and the statement closes at 100. */
  lemma NegativePaidIsLeftOut()
    ensures var party := Party(Supplier, None, Some([97]), None, None);
            var exps := [Expense("e", Some([97]), 100, Some(-30), 0, PENDING)];
            && CurrentBalance(party, [], exps) == 130 && TotalOverpaidExpenses(ExpensesFor(party, exps)) == 0
            && Closing(PartyStatement(party, [], exps, ALL_TIME)) == 100
  {
    var party := Party(Supplier, None, Some([97]), None, None);
    var e := Expense("e", Some([97]), 100, Some(-30), 0, PENDING);
    OfOneVendor(party, e);
    assert [e][1..] == [];
    SupplierStatementReconciles(party, [], [e]);
  }

  lemma OfOneVendor(party: Party, e: Expense)
    requires party.kind == Supplier && party.vendorKey == e.vendor == Some([97])
    ensures ExpensesFor(party, [e]) == [e]
  {
    var key: Text := [97];
    assert Trim(key) == key;
    assert OfVendor([e][1..], key) == [];
    assert OfVendor([e], key) == [e] + [] == [e];
  }

  // ---- The summary ----

  datatype Summary = Summary(current: int, overdue: int, salesOrPurchases: int, receivedOrPaid: int)

  function Sales(invs: seq<Invoice>, period: Period): int {
    if invs == [] then 0 else (if period(invs[0].createdAt) then invs[0].grandTotal else 0) + Sales(invs[1..], period)
  }

  function ReceivedFor(ps: seq<Payment>, inv: Invoice, period: Period): int {
    if ps == [] then 0
    else (if period(LedgerTime(ps[0], inv)) then ps[0].amount else 0) + ReceivedFor(ps[1..], inv, period)
  }

  function Received(invs: seq<Invoice>, period: Period): int {
    if invs == [] then 0 else ReceivedFor(invs[0].payments, invs[0], period) + Received(invs[1..], period)
  }

  function Overdue(invs: seq<Invoice>): int {
    if invs == [] then 0
    else
      (if InvoiceOutstanding(invs[0]) > 1 && !invs[0].paid then InvoiceOutstanding(invs[0]) else 0)
      + Overdue(invs[1..])
  }

  function OverdueExpenses(exps: seq<Expense>): int {
    if exps == [] then 0
    else (if ExpenseOutstanding(exps[0]) > 1 then ExpenseOutstanding(exps[0]) else 0) + OverdueExpenses(exps[1..])
  }

  function Purchases(exps: seq<Expense>, period: Period): int {
    if exps == [] then 0 else (if period(exps[0].date) then exps[0].amount else 0) + Purchases(exps[1..], period)
  }

  function PaidOut(e: Expense): int {
    if e.status == PAID then e.amount else if e.status == PARTIAL then AmountPaid(e) else 0
  }

  function Paid(exps: seq<Expense>, period: Period): int {
    if exps == [] then 0 else (if period(exps[0].date) then PaidOut(exps[0]) else 0) + Paid(exps[1..], period)
  }

  function PartySummary(party: Party, invoices: seq<Invoice>, expenses: seq<Expense>, period: Period): Summary {
    var invs, exps := InvoicesFor(party, invoices), ExpensesFor(party, expenses);
    var current := CurrentBalance(party, invoices, expenses);
    if party.kind == Customer then Summary(current, Overdue(invs), Sales(invs, period), Received(invs, period))
    else Summary(current, OverdueExpenses(exps), Purchases(exps, period), Paid(exps, period))
  }

  /** buildPartySummary: the folds, and the loops over payments, that the customer branch runs. */
  method BuildPartySummary(party: Party, invoices: seq<Invoice>, expenses: seq<Expense>, period: Period)
      returns (s: Summary)
    ensures s == PartySummary(party, invoices, expenses, period)
  {
    var invs, exps := InvoicesFor(party, invoices), ExpensesFor(party, expenses);
    var current := CurrentBalance(party, invoices, expenses);
    if party.kind == Supplier {
      return Summary(current, OverdueExpenses(exps), Purchases(exps, period), Paid(exps, period));
    }
    var totalReceived := 0;
    var i := 0;
    while i < |invs|
      invariant 0 <= i <= |invs|
      invariant totalReceived + Received(invs[i..], period) == Received(invs, period)
    {
      var inv := invs[i];
      assert invs[i..][1..] == invs[i + 1..];
      ghost var before := totalReceived;
      var k := 0;
      while k < |inv.payments|
        invariant 0 <= k <= |inv.payments|
        invariant totalReceived + ReceivedFor(inv.payments[k..], inv, period) ==
            before + ReceivedFor(inv.payments, inv, period)
      {
        assert inv.payments[k..][1..] == inv.payments[k + 1..];
        if period(LedgerTime(inv.payments[k], inv)) { totalReceived := totalReceived + inv.payments[k].amount; }
        k := k + 1;
      }
      i := i + 1;
    }
    return Summary(current, Overdue(invs), Sales(invs, period), totalReceived);
  }

  // ---- Column sums ----

  function Debits(ls: seq<Line>): int {
    if ls == [] then 0 else Amount(ls[0].debit) + Debits(ls[1..])
  }

  function Credits(ls: seq<Line>): int {
    if ls == [] then 0 else Amount(ls[0].credit) + Credits(ls[1..])
  }

  lemma {:induction false} RowColumns(es: seq<Entry>, opening: int)
    ensures Debits(Rows(es, opening)) == Total(es, DEBIT)
    ensures Credits(Rows(es, opening)) == Total(es, CREDIT)
  {
    if es != [] {
      var b := opening + Amount(es[0].debit) - Amount(es[0].credit);
      RowColumns(es[1..], b);
      assert Rows(es, opening)[1..] == Rows(es[1..], b);
    }
  }

  /** The statement's rows between its opening and closing lines. */
  function Body(lines: seq<Line>): seq<Line>
    requires |lines| >= 2
  {
    lines[1..|lines| - 1]
  }

  lemma StatementColumns(entries: seq<Entry>, opening: int, isPublic: bool)
    ensures var body := Body(Statement(entries, opening, isPublic));
            Debits(body) == Total(entries, DEBIT) && Credits(body) == Total(entries, CREDIT)
  {
    var es := SortedByTime(entries);
    SortKeeps(entries);
    TotalOfPermutation(es, entries, DEBIT);
    TotalOfPermutation(es, entries, CREDIT);
    RowColumns(es, opening);
    assert Body(Statement(entries, opening, isPublic)) == Rows(es, opening);
  }

  lemma {:induction false} PaymentColumns(ps: seq<Payment>, inv: Invoice, period: Period)
    ensures Total(PaymentEntries(ps, inv, period), DEBIT) == 0
    ensures Total(PaymentEntries(ps, inv, period), CREDIT) == ReceivedFor(ps, inv, period)
  {
    if ps != [] {
      PaymentColumns(ps[1..], inv, period);
      var head := if period(LedgerTime(ps[0], inv))
          then [Entry(LedgerTime(ps[0], inv), PAYMENT_IN(ps[0].id), None, Some(ps[0].amount))] else [];
      SplitColumns(head, PaymentEntries(ps[1..], inv, period));
      assert head != [] ==> head[1..] == [];
    }
  }

  lemma SplitColumns(a: seq<Entry>, b: seq<Entry>)
    ensures Total(a + b, DEBIT) == Total(a, DEBIT) + Total(b, DEBIT)
    ensures Total(a + b, CREDIT) == Total(a, CREDIT) + Total(b, CREDIT)
  {
    TotalConcat(a, b, DEBIT);
    TotalConcat(a, b, CREDIT);
  }

  lemma {:induction false} CustomerColumns(invs: seq<Invoice>, period: Period)
    ensures Total(CustomerEntries(invs, period, false), DEBIT) == Sales(invs, period)
    ensures Total(CustomerEntries(invs, period, false), CREDIT) == Received(invs, period)
  {
    if invs != [] {
      var inv := invs[0];
      CustomerColumns(invs[1..], period);
      SplitColumns(InvoiceEntries(inv, period, false), CustomerEntries(invs[1..], period, false));
      InvoiceColumns(inv, period);
    }
  }

  lemma InvoiceColumns(inv: Invoice, period: Period)
    ensures Total(InvoiceEntries(inv, period, false), DEBIT) == if period(inv.createdAt) then inv.grandTotal else 0
    ensures Total(InvoiceEntries(inv, period, false), CREDIT) == ReceivedFor(inv.payments, inv, period)
  {
    var sale, paid := SaleEntries(inv, period), PaymentEntries(inv.payments, inv, period);
    PaymentColumns(inv.payments, inv, period);
    SplitColumns(sale, paid);
    assert sale != [] ==> sale[1..] == [];
    assert InvoiceEntries(inv, period, false) == sale + paid;
  }

  /** For any period a customer statement's columns add up to the summary's sales and receipts. */
  lemma CustomerColumnsMatchSummary(party: Party, invoices: seq<Invoice>, expenses: seq<Expense>, period: Period)
    requires party.kind == Customer
    ensures var body := Body(PartyStatement(party, invoices, expenses, period));
            var summary := PartySummary(party, invoices, expenses, period);
            Debits(body) == summary.salesOrPurchases && Credits(body) == summary.receivedOrPaid
  {
    var invs := InvoicesFor(party, invoices);
    StatementColumns(CustomerEntries(invs, period, false), SignedOpening(party), false);
    CustomerColumns(invs, period);
  }

  /**
   * What a supplier statement shows as paid beyond the summary: part payments of expenses not marked
   * PARTIAL, which the summary leaves out, and negative ones marked PARTIAL, which it subtracts.
   */
  function UnmarkedPaid(exps: seq<Expense>, period: Period): int {
    if exps == [] then 0
    else
      var e := exps[0];
      (if !period(e.date) || e.status == PAID then 0
       else if e.status == PARTIAL then (if AmountPaid(e) < 0 then -AmountPaid(e) else 0)
       else NonNegative(AmountPaid(e)))
      + UnmarkedPaid(exps[1..], period)
  }

  /** Both count the same for an expense: it is paid, or what is recorded as paid fits its mark. */
  predicate PaidAsMarked(e: Expense) {
    match e.status
    case PAID => true
    case PARTIAL => AmountPaid(e) >= 0
    case _ => AmountPaid(e) <= 0
  }

  lemma {:induction false} UnmarkedPaidIff(exps: seq<Expense>, period: Period)
    ensures UnmarkedPaid(exps, period) >= 0
    ensures UnmarkedPaid(exps, period) == 0 <==> forall i :: 0 <= i < |exps| && period(exps[i].date) ==>
        PaidAsMarked(exps[i])
  {
    if exps != [] {
      UnmarkedPaidIff(exps[1..], period);
      assert exps == [exps[0]] + exps[1..];
    }
  }

  lemma {:induction false} SupplierColumns(exps: seq<Expense>, period: Period)
    ensures Total(SupplierEntries(exps, period), DEBIT) == Purchases(exps, period)
    ensures Total(SupplierEntries(exps, period), CREDIT) == Paid(exps, period) + UnmarkedPaid(exps, period)
  {
    if exps != [] {
      var e := exps[0];
      var es := ExpenseEntries(e, period);
      SupplierColumns(exps[1..], period);
      SplitColumns(es, SupplierEntries(exps[1..], period));
      ExpenseColumns(e, period);
    }
  }

  lemma ExpenseColumns(e: Expense, period: Period)
    ensures Total(ExpenseEntries(e, period), DEBIT) == if period(e.date) then e.amount else 0
    ensures Total(ExpenseEntries(e, period), CREDIT) ==
            if !period(e.date) then 0 else if e.status == PAID then e.amount else NonNegative(AmountPaid(e))
  {
    if period(e.date) {
      var buy := [Entry(e.date, PURCHASE(e.id), Some(e.amount), None)];
      var pay := if e.status == PAID || AmountPaid(e) > 0
                 then [Entry(e.date, PAYMENT_OUT(e.id), None,
                     Some(if e.status == PAID then e.amount else AmountPaid(e)))] else [];
      assert ExpenseEntries(e, period) == buy + pay;
      SplitColumns(buy, pay);
      assert buy[1..] == [] && (pay != [] ==> pay[1..] == []);
    }
  }

  /** For suppliers purchases match, and payments match up to part payments the summary does not count. */
  lemma SupplierColumnsAgainstSummary(party: Party, invoices: seq<Invoice>, expenses: seq<Expense>, period: Period)
    requires party.kind == Supplier
    ensures var body := Body(PartyStatement(party, invoices, expenses, period));
            var summary := PartySummary(party, invoices, expenses, period);
            && Debits(body) == summary.salesOrPurchases
            && Credits(body) == summary.receivedOrPaid + UnmarkedPaid(ExpensesFor(party, expenses), period)
  {
    var exps := ExpensesFor(party, expenses);
    StatementColumns(SupplierEntries(exps, period), SignedOpening(party), false);
    SupplierColumns(exps, period);
  }

  /** The columns match the summary exactly when every expense of the period is paid as marked. */
  lemma SupplierColumnsMatchIff(party: Party, invoices: seq<Invoice>, expenses: seq<Expense>, period: Period)
    requires party.kind == Supplier
    ensures var body := Body(PartyStatement(party, invoices, expenses, period));
            var exps := ExpensesFor(party, expenses);
            Credits(body) == PartySummary(party, invoices, expenses, period).receivedOrPaid
            <==> forall i :: 0 <= i < |exps| && period(exps[i].date) ==> PaidAsMarked(exps[i])
  {
    SupplierColumnsAgainstSummary(party, invoices, expenses, period);
    UnmarkedPaidIff(ExpensesFor(party, expenses), period);
  }

  /** A pending expense of 100 with 40 paid: the statement shows 40, the summary nothing. */
  lemma SupplierColumnsCanDiffer()
    ensures var party := Party(Supplier, None, Some([97]), None, None);
            var exps := [Expense("e", Some([97]), 100, Some(40), 0, PENDING)];
            && Credits(Body(PartyStatement(party, [], exps, ALL_TIME))) == 40
            && PartySummary(party, [], exps, ALL_TIME).receivedOrPaid == 0
  {
    var party := Party(Supplier, None, Some([97]), None, None);
    var e := Expense("e", Some([97]), 100, Some(40), 0, PENDING);
    OfOneVendor(party, e);
    assert [e][1..] == [];
    SupplierColumnsAgainstSummary(party, [], [e], ALL_TIME);
  }
}
