/** Party statements, balances and summaries (src/lib/party-ledger.ts), in paise. */
module PartyLedger {
  import opened Wrappers
  import opened JsText

  datatype PartyKind = Customer | Supplier
  datatype Side = ToCollect | ToPay

  datatype Party = Party(
    kind: PartyKind, customerId: Option<string>, vendorKey: Option<Text>, openingBalance: Option<int>,
    openingSide: Option<Side>)

  datatype Payment = Payment(id: string, amount: int, paidAt: Option<int>)

  datatype Invoice = Invoice(
    id: string, customerId: string, grandTotal: int, walletUsed: int, createdAt: int, payments: seq<Payment>,
    paid: bool)

  datatype ExpenseStatus = PAID | PARTIAL | PENDING | OVERDUE

  datatype Expense = Expense(id: string, vendor: Option<Text>, amount: int, amountPaid: Option<int>, date: int,
      status: ExpenseStatus)

  /** A period is any condition on timestamps. */
  type Period = int -> bool

  const ALL_TIME: Period := t => true

  // ---- Balances ----

  function NonNegative(n: int): int {
    if n > 0 then n else 0
  }

  function PaidTotal(ps: seq<Payment>): int {
    if ps == [] then 0 else ps[0].amount + PaidTotal(ps[1..])
  }

  function InvoicePaidTotal(inv: Invoice): int {
    PaidTotal(inv.payments) + inv.walletUsed
  }

  function InvoiceOutstanding(inv: Invoice): int {
    NonNegative(inv.grandTotal - InvoicePaidTotal(inv))
  }

  function AmountPaid(e: Expense): int {
    if e.amountPaid.Some? then e.amountPaid.value else 0
  }

  function ExpenseOutstanding(e: Expense): int {
    if e.status == PAID then 0 else NonNegative(e.amount - AmountPaid(e))
  }

  function InvoicesFor(party: Party, invoices: seq<Invoice>): seq<Invoice> {
    if party.kind == Customer && party.customerId.Some? then OfCustomer(invoices, party.customerId.value) else []
  }

  function OfCustomer(invoices: seq<Invoice>, id: string): seq<Invoice> {
    if invoices == [] then []
    else (if invoices[0].customerId == id then [invoices[0]] else []) + OfCustomer(invoices[1..], id)
  }

  function ExpensesFor(party: Party, expenses: seq<Expense>): seq<Expense> {
    if party.kind == Supplier && party.vendorKey.Some? && Trim(party.vendorKey.value) != []
    then OfVendor(expenses, Trim(party.vendorKey.value))
    else []
  }

  function OfVendor(expenses: seq<Expense>, key: Text): seq<Expense> {
    if expenses == [] then []
    else (if expenses[0].vendor.Some? && Trim(expenses[0].vendor.value) == key then [expenses[0]] else [])
         + OfVendor(expenses[1..], key)
  }

  function SignedOpening(party: Party): int {
    var amount := NonNegative(if party.openingBalance.Some? then party.openingBalance.value else 0);
    var own := if party.kind == Customer then ToCollect else ToPay;
    if (if party.openingSide.Some? then party.openingSide.value else own) == own then amount else -amount
  }

  function TotalOutstanding(invs: seq<Invoice>): int {
    if invs == [] then 0 else InvoiceOutstanding(invs[0]) + TotalOutstanding(invs[1..])
  }

  function TotalOwed(exps: seq<Expense>): int {
    if exps == [] then 0 else ExpenseOutstanding(exps[0]) + TotalOwed(exps[1..])
  }

  function CurrentBalance(party: Party, invoices: seq<Invoice>, expenses: seq<Expense>): int {
    SignedOpening(party)
    + if party.kind == Customer then TotalOutstanding(InvoicesFor(party, invoices))
      else TotalOwed(ExpensesFor(party, expenses))
  }

  // ---- Ledger entries ----

  datatype Voucher =
    | OPENING | CLOSING | SALE(id: string) | PAYMENT_IN(id: string) | WALLET(id: string)
    | PURCHASE(id: string) | PAYMENT_OUT(id: string)

  datatype Entry = Entry(at: int, voucher: Voucher, debit: Option<int>, credit: Option<int>)

  datatype Line = Line(voucher: Voucher, debit: Option<int>, credit: Option<int>, balance: int)

  function LedgerTime(p: Payment, inv: Invoice): int {
    if p.paidAt.Some? then p.paidAt.value else inv.createdAt
  }

  /** The latest payment time of an invoice, or its own date when nothing was paid. */
  function WalletTime(ps: seq<Payment>, inv: Invoice): int {
    if ps == [] then inv.createdAt
    else if |ps| == 1 then LedgerTime(ps[0], inv)
    else
      var rest := WalletTime(ps[1..], inv);
      if LedgerTime(ps[0], inv) > rest then LedgerTime(ps[0], inv) else rest
  }

  function PaymentEntries(ps: seq<Payment>, inv: Invoice, period: Period): seq<Entry> {
    if ps == [] then []
    else
      var at := LedgerTime(ps[0], inv);
      (if period(at) then [Entry(at, PAYMENT_IN(ps[0].id), None, Some(ps[0].amount))] else [])
          + PaymentEntries(ps[1..], inv, period)
  }

  function SaleEntries(inv: Invoice, period: Period): seq<Entry> {
    if period(inv.createdAt) then [Entry(inv.createdAt, SALE(inv.id), Some(inv.grandTotal), None)] else []
  }

  /** Wallet use up to one paisa gets no row. */
  function WalletEntries(inv: Invoice, period: Period): seq<Entry> {
    var at := WalletTime(inv.payments, inv);
    if inv.walletUsed > 1 && period(at) then [Entry(at, WALLET(inv.id), None, Some(inv.walletUsed))] else []
  }

  function InvoiceEntries(inv: Invoice, period: Period, showWallet: bool): seq<Entry> {
    SaleEntries(inv, period) + PaymentEntries(inv.payments, inv, period)
    + if showWallet then WalletEntries(inv, period) else []
  }

  function CustomerEntries(invs: seq<Invoice>, period: Period, showWallet: bool): seq<Entry> {
    if invs == [] then []
    else InvoiceEntries(invs[0], period, showWallet) + CustomerEntries(invs[1..], period, showWallet)
  }

  function ExpenseEntries(e: Expense, period: Period): seq<Entry> {
    if !period(e.date) then []
    else
      [Entry(e.date, PURCHASE(e.id), Some(e.amount), None)]
      + if e.status == PAID || AmountPaid(e) > 0
        then [Entry(e.date, PAYMENT_OUT(e.id), None, Some(if e.status == PAID then e.amount else AmountPaid(e)))]
        else []
  }

  function SupplierEntries(exps: seq<Expense>, period: Period): seq<Entry> {
    if exps == [] then [] else ExpenseEntries(exps[0], period) + SupplierEntries(exps[1..], period)
  }

  // ---- Ordering: the engine's stable sort by time ----

  function Insert(e: Entry, es: seq<Entry>): seq<Entry> {
    if es == [] || e.at <= es[0].at then [e] + es else [es[0]] + Insert(e, es[1..])
  }

  function SortedByTime(es: seq<Entry>): seq<Entry> {
    if es == [] then [] else Insert(es[0], SortedByTime(es[1..]))
  }

  predicate Ascending(es: seq<Entry>) {
    |es| <= 1 || (es[0].at <= es[1].at && Ascending(es[1..]))
  }

  lemma {:induction false} AscendingIsOrdered(es: seq<Entry>, i: nat, j: nat)
    requires Ascending(es) && i <= j < |es|
    ensures es[i].at <= es[j].at
    decreases j
  {
    if i > 0 { AscendingIsOrdered(es[1..], i - 1, j - 1); }
    else if j > 0 { AscendingIsOrdered(es[1..], 0, j - 1); }
  }

  lemma {:induction false} InsertAscends(e: Entry, es: seq<Entry>)
    requires Ascending(es)
    ensures Ascending(Insert(e, es))
    ensures Insert(e, es) != [] && Insert(e, es)[0] == if es == [] || e.at <= es[0].at then e else es[0]
  {
    if es != [] && e.at > es[0].at {
      InsertAscends(e, es[1..]);
      assert Insert(e, es)[1..] == Insert(e, es[1..]);
    } else {
      assert Insert(e, es)[1..] == es;
    }
  }

  lemma {:induction false} InsertAdds(e: Entry, es: seq<Entry>)
    ensures multiset(Insert(e, es)) == multiset([e]) + multiset(es)
  {
    if es != [] && e.at > es[0].at {
      InsertAdds(e, es[1..]);
      assert es == [es[0]] + es[1..];
    }
  }

  /** Sorting orders the entries by time and neither drops nor adds any. */
  lemma {:induction false} SortKeeps(es: seq<Entry>)
    ensures Ascending(SortedByTime(es)) && multiset(SortedByTime(es)) == multiset(es)
  {
    if es != [] {
      SortKeeps(es[1..]);
      InsertAscends(es[0], SortedByTime(es[1..]));
      InsertAdds(es[0], SortedByTime(es[1..]));
      assert es == [es[0]] + es[1..];
    }
  }

  /** Entries of one moment keep the order in which they were pushed. */
  lemma {:induction false} SortIsStable(es: seq<Entry>, at: int)
    ensures At(SortedByTime(es), at) == At(es, at)
  {
    if es != [] {
      SortIsStable(es[1..], at);
      SortKeeps(es[1..]);
      InsertIsStable(es[0], SortedByTime(es[1..]), at);
    }
  }

  function At(es: seq<Entry>, at: int): seq<Entry> {
    if es == [] then [] else (if es[0].at == at then [es[0]] else []) + At(es[1..], at)
  }

  lemma {:induction false} InsertIsStable(e: Entry, es: seq<Entry>, at: int)
    ensures At(Insert(e, es), at) == (if e.at == at then [e] else []) + At(es, at)
  {
    hide At;
    if es == [] || e.at <= es[0].at {
      AtStep(e, es, at);
    } else {
      assert es == [es[0]] + es[1..];
      InsertIsStable(e, es[1..], at);
      AtStep(es[0], es[1..], at);
      AtStep(es[0], Insert(e, es[1..]), at);
    }
  }

  lemma AtStep(e: Entry, es: seq<Entry>, at: int)
    ensures At([e] + es, at) == (if e.at == at then [e] else []) + At(es, at)
  {
    assert ([e] + es)[1..] == es;
  }

  // ---- Statements ----

  function Amount(o: Option<int>): int {
    if o.Some? then o.value else 0
  }

  /** The rows of a statement, each with the balance it leaves. */
  function Rows(es: seq<Entry>, balance: int): seq<Line> {
    if es == [] then []
    else
      var b := balance + Amount(es[0].debit) - Amount(es[0].credit);
      [Line(es[0].voucher, es[0].debit, es[0].credit, b)] + Rows(es[1..], b)
  }

  /** Debits less credits. */
  function Net(es: seq<Entry>): int {
    if es == [] then 0 else Amount(es[0].debit) - Amount(es[0].credit) + Net(es[1..])
  }

  function Statement(entries: seq<Entry>, opening: int, isPublic: bool): seq<Line> {
    var es := SortedByTime(entries);
    [Line(OPENING, if isPublic then Some(0) else None, None, opening)] + Rows(es, opening)
    + [Line(CLOSING, if isPublic then Some(opening + Net(es)) else None, None, opening + Net(es))]
  }

  function PartyStatement(party: Party, invoices: seq<Invoice>, expenses: seq<Expense>, period: Period): seq<Line> {
    Statement(if party.kind == Customer then CustomerEntries(InvoicesFor(party, invoices), period, false)
              else SupplierEntries(ExpensesFor(party, expenses), period),
              SignedOpening(party), false)
  }

  function PublicStatement(party: Party, invoices: seq<Invoice>, period: Period): seq<Line> {
    Statement(CustomerEntries(InvoicesFor(party, invoices), period, true), SignedOpening(party), true)
  }

  function Closing(lines: seq<Line>): int
    requires lines != []
  {
    lines[|lines| - 1].balance
  }

  // ---- The imperative form ----

  /** The entries pushed for one invoice. */
  method PushInvoice(pushed: seq<Entry>, inv: Invoice, period: Period, showWallet: bool) returns (entries: seq<Entry>)
    ensures entries == pushed + InvoiceEntries(inv, period, showWallet)
  {
    entries := pushed;
    if period(inv.createdAt) {
      entries := entries + [Entry(inv.createdAt, SALE(inv.id), Some(inv.grandTotal), None)];
    }
    assert entries == pushed + SaleEntries(inv, period);
    entries := PushPayments(entries, inv, period);
    if showWallet && inv.walletUsed > 1 {
      var walletAt := LatestPayment(inv);
      if period(walletAt) {
        entries := entries + [Entry(walletAt, WALLET(inv.id), None, Some(inv.walletUsed))];
      }
    }
  }

  /** The inner loop over an invoice's payments. */
  method PushPayments(pushed: seq<Entry>, inv: Invoice, period: Period) returns (entries: seq<Entry>)
    ensures entries == pushed + PaymentEntries(inv.payments, inv, period)
  {
    entries := pushed;
    var i := 0;
    while i < |inv.payments|
      invariant 0 <= i <= |inv.payments|
      invariant pushed + PaymentEntries(inv.payments, inv, period) ==
          entries + PaymentEntries(inv.payments[i..], inv, period)
    {
      var p := inv.payments[i];
      var paidAt := LedgerTime(p, inv);
      assert inv.payments[i..][1..] == inv.payments[i + 1..];
      if period(paidAt) {
        Associate(entries, [Entry(paidAt, PAYMENT_IN(p.id), None, Some(p.amount))],
            PaymentEntries(inv.payments[i + 1..], inv, period));
        entries := entries + [Entry(paidAt, PAYMENT_IN(p.id), None, Some(p.amount))];
      }
      i := i + 1;
    }
  }

  /** The last payment time in order, or the invoice's own date. */
  method LatestPayment(inv: Invoice) returns (at: int)
    ensures at == WalletTime(inv.payments, inv)
    ensures inv.payments != [] ==> exists p :: p in inv.payments && at == LedgerTime(p, inv)
    ensures forall p :: p in inv.payments ==> LedgerTime(p, inv) <= at
  {
    var n := |inv.payments|;
    if n == 0 { return inv.createdAt; }
    at := LedgerTime(inv.payments[n - 1], inv);
    var i := n - 1;
    while i > 0
      invariant 0 <= i < n
      invariant at == WalletTime(inv.payments[i..], inv)
      invariant exists k :: i <= k < n && at == LedgerTime(inv.payments[k], inv)
      invariant forall k :: i <= k < n ==> LedgerTime(inv.payments[k], inv) <= at
    {
      i := i - 1;
      assert inv.payments[i..][1..] == inv.payments[i + 1..];
      if LedgerTime(inv.payments[i], inv) > at { at := LedgerTime(inv.payments[i], inv); }
    }
    assert inv.payments[0..] == inv.payments;
  }

  method PushCustomer(invs: seq<Invoice>, period: Period, showWallet: bool) returns (entries: seq<Entry>)
    ensures entries == CustomerEntries(invs, period, showWallet)
  {
    hide InvoiceEntries;
    entries := [];
    var i := 0;
    while i < |invs|
      invariant 0 <= i <= |invs|
      invariant CustomerEntries(invs, period, showWallet) == entries + CustomerEntries(invs[i..], period, showWallet)
    {
      assert invs[i..][1..] == invs[i + 1..];
      Associate(entries, InvoiceEntries(invs[i], period, showWallet),
          CustomerEntries(invs[i + 1..], period, showWallet));
      entries := PushInvoice(entries, invs[i], period, showWallet);
      i := i + 1;
    }
  }

  method PushSupplier(exps: seq<Expense>, period: Period) returns (entries: seq<Entry>)
    ensures entries == SupplierEntries(exps, period)
  {
    entries := [];
    var i := 0;
    while i < |exps|
      invariant 0 <= i <= |exps|
      invariant SupplierEntries(exps, period) == entries + SupplierEntries(exps[i..], period)
    {
      var e := exps[i];
      assert exps[i..][1..] == exps[i + 1..];
      Associate(entries, ExpenseEntries(e, period), SupplierEntries(exps[i + 1..], period));
      ghost var before := entries;
      if period(e.date) {
        entries := entries + [Entry(e.date, PURCHASE(e.id), Some(e.amount), None)];
        if e.status == PAID || AmountPaid(e) > 0 {
          var paid := if e.status == PAID then e.amount else AmountPaid(e);
          entries := entries + [Entry(e.date, PAYMENT_OUT(e.id), None, Some(paid))];
        }
      }
      assert entries == before + ExpenseEntries(e, period);
      i := i + 1;
    }
  }

  /** The running-balance loop over the sorted entries, between an opening and a closing line. */
  method WriteLines(entries: seq<Entry>, opening: int, isPublic: bool) returns (lines: seq<Line>)
    ensures lines == Statement(entries, opening, isPublic)
  {
    var balance := opening;
    lines := [Line(OPENING, if isPublic then Some(0) else None, None, balance)];
    ghost var first := lines;
    var es := SortedByTime(entries);
    var i := 0;
    while i < |es|
      invariant 0 <= i <= |es|
      invariant first + Rows(es, opening) == lines + Rows(es[i..], balance)
      invariant opening + Net(es) == balance + Net(es[i..])
    {
      var e := es[i];
      assert es[i..][1..] == es[i + 1..];
      if e.debit.Some? { balance := balance + e.debit.value; }
      if e.credit.Some? { balance := balance - e.credit.value; }
      Associate(lines, [Line(e.voucher, e.debit, e.credit, balance)], Rows(es[i + 1..], balance));
      lines := lines + [Line(e.voucher, e.debit, e.credit, balance)];
      i := i + 1;
    }
    lines := lines + [Line(CLOSING, if isPublic then Some(balance) else None, None, balance)];
  }

  method BuildPartyStatement(party: Party, invoices: seq<Invoice>, expenses: seq<Expense>, period: Period)
      returns (lines: seq<Line>)
    ensures lines == PartyStatement(party, invoices, expenses, period)
  {
    var entries;
    if party.kind == Customer {
      entries := PushCustomer(InvoicesFor(party, invoices), period, false);
    } else {
      entries := PushSupplier(ExpensesFor(party, expenses), period);
    }
    lines := WriteLines(entries, SignedOpening(party), false);
  }

  method BuildPublicCustomerStatement(party: Party, invoices: seq<Invoice>, period: Period) returns (lines: seq<Line>)
    ensures lines == PublicStatement(party, invoices, period)
  {
    var entries := PushCustomer(InvoicesFor(party, invoices), period, true);
    lines := WriteLines(entries, SignedOpening(party), true);
  }
}
