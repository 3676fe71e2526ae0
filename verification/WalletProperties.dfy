/** Balances reconcile with the ledger, and invoice edits telescope, over every run. */
module WalletProperties {
  import opened Wrappers
  import opened Wallet

  datatype Action = Save(id: string, invoice: Invoice) | Manual(customer: string, amount: int, direction: Direction)

  /** A refused action leaves the state as it was. */
  function Apply(s: State, a: Action): State {
    var r := match a
      case Save(id, invoice) => SaveInvoice(s, id, invoice)
      case Manual(customer, amount, direction) => Adjust(s, customer, amount, direction);
    if r.Ok? then r.value else s
  }

  function Run(s: State, actions: seq<Action>): State
    decreases |actions|
  {
    if actions == [] then s else Run(Apply(s, actions[0]), actions[1..])
  }

  function Signed(r: Row): int {
    if r.direction == CREDIT then r.amount else -r.amount
  }

  // ---- Reconciliation ----

  /** What the first n ledger rows did to a customer's balance. */
  function Net(ledger: seq<Row>, n: nat, c: string): int
    requires n <= |ledger|
  {
    if n == 0 then 0 else Net(ledger, n - 1, c) + if ledger[n - 1].customer == c then Signed(ledger[n - 1]) else 0
  }

  ghost predicate RowOk(ledger: seq<Row>, i: nat, initial: map<string, int>)
    requires i < |ledger|
  {
    var r := ledger[i];
    && r.id == i && r.amount > 0 && r.customer in initial
    && r.balanceAfter == initial[r.customer] + Net(ledger, i + 1, r.customer)
  }

  ghost predicate Reconciled(balances: map<string, int>, ledger: seq<Row>, initial: map<string, int>) {
    && balances.Keys == initial.Keys
    && (forall c :: c in balances ==> balances[c] == initial[c] + Net(ledger, |ledger|, c))
    && (forall i :: 0 <= i < |ledger| ==> RowOk(ledger, i, initial))
  }

  ghost predicate NonNegative(balances: map<string, int>, ledger: seq<Row>) {
    && (forall c :: c in balances ==> balances[c] >= 0)
    && (forall i :: 0 <= i < |ledger| ==> ledger[i].balanceAfter >= 0)
  }

  lemma {:induction false} NetOfPrefix(ledger: seq<Row>, more: seq<Row>, n: nat, c: string)
    requires n <= |ledger|
    ensures Net(ledger + more, n, c) == Net(ledger, n, c)
  {
    if n > 0 { NetOfPrefix(ledger, more, n - 1, c); }
  }

  lemma PostOneReconciles(balances: map<string, int>, a: Account, c: string, id: Option<string>, p: Posting,
      initial: map<string, int>)
    requires c in balances && p != 0 && PostOne(a, c, id, p).Some?
    requires Reconciled(balances[c := a.balance], a.ledger, initial)
    ensures var b := PostOne(a, c, id, p).value;
            && Reconciled(balances[c := b.balance], b.ledger, initial)
            && (NonNegative(balances[c := a.balance], a.ledger) ==> NonNegative(balances[c := b.balance], b.ledger))
  {
    var b := PostOne(a, c, id, p).value;
    var row := RowOf(a, c, id, p);
    forall d | d in balances
      ensures Net(b.ledger, |b.ledger|, d) == Net(a.ledger, |a.ledger|, d) + if d == c then p else 0
    {
      NetOfPrefix(a.ledger, [row], |a.ledger|, d);
    }
    assert balances[c := a.balance][c] == a.balance;
    forall i | 0 <= i < |b.ledger| ensures RowOk(b.ledger, i, initial) {
      if i < |a.ledger| {
        assert RowOk(a.ledger, i, initial);
        NetOfPrefix(a.ledger, [row], i + 1, a.ledger[i].customer);
      }
    }
  }

  predicate NonZero(ps: seq<Posting>) {
    forall i :: 0 <= i < |ps| ==> ps[i] != 0
  }

  lemma {:induction false} PostReconciles(balances: map<string, int>, a: Account, c: string, id: Option<string>,
      ps: seq<Posting>, initial: map<string, int>)
    requires c in balances && NonZero(ps) && Post(a, c, id, ps).Some?
    requires Reconciled(balances[c := a.balance], a.ledger, initial)
    ensures var b := Post(a, c, id, ps).value;
            && Reconciled(balances[c := b.balance], b.ledger, initial)
            && (NonNegative(balances[c := a.balance], a.ledger) ==> NonNegative(balances[c := b.balance], b.ledger))
    decreases |ps|
  {
    hide Reconciled, NonNegative, PostOne;
    if ps != [] {
      PostOneReconciles(balances, a, c, id, ps[0], initial);
      PostReconciles(balances, PostOne(a, c, id, ps[0]).value, c, id, ps[1..], initial);
    }
  }

  lemma {:induction false} ExtrasPositive(ps: seq<Payment>)
    ensures forall i :: 0 <= i < |NewExtras(ps)| ==> NewExtras(ps)[i] > 0
  {
    if ps != [] { ExtrasPositive(ps[1..]); }
  }

  lemma {:induction false} ReversalsNegative(stored: seq<Payment>, incoming: seq<Payment>)
    ensures forall i :: 0 <= i < |Reversals(stored, incoming)| ==> Reversals(stored, incoming)[i] < 0
  {
    if stored != [] { ReversalsNegative(stored[1..], incoming); }
  }

  lemma PostingsNonZero(stored: Option<Invoice>, incoming: Invoice)
    ensures NonZero(Postings(stored, incoming))
  {
    ExtrasPositive(incoming.payments);
    ReversalsNegative(PaymentsOf(stored), incoming.payments);
  }

  lemma ActionReconciles(s: State, a: Action, initial: map<string, int>)
    requires Reconciled(s.balances, s.ledger, initial)
    ensures var s' := Apply(s, a);
            && Reconciled(s'.balances, s'.ledger, initial)
            && (NonNegative(s.balances, s.ledger) ==> NonNegative(s'.balances, s'.ledger))
  {
    hide Reconciled, NonNegative, Post, PostOne;
    var c := if a.Save? then (if a.invoice.customer.Some? then a.invoice.customer.value else "") else a.customer;
    if c in s.balances {
      var account := Account(s.balances[c], s.ledger);
      assert s.balances[c := account.balance] == s.balances;
      match a
      case Save(id, invoice) =>
        var ps := Postings(Lookup(s.invoices, id), invoice);
        PostingsNonZero(Lookup(s.invoices, id), invoice);
        if Post(account, c, Some(id), ps).Some? { PostReconciles(s.balances, account, c, Some(id), ps, initial); }
      case Manual(_, amount, direction) =>
        var p := if direction == CREDIT then amount else -amount;
        if amount > 0 && PostOne(account, c, None, p).Some? {
          PostOneReconciles(s.balances, account, c, None, p, initial);
        }
    }
  }

  /**
   * After any run of saves and adjustments each balance is the initial one plus credits minus
   * debits, each row carries the running balance at that row, and none is negative if none was.
   */
  lemma {:induction false} RunReconciles(s: State, actions: seq<Action>, initial: map<string, int>)
    requires Reconciled(s.balances, s.ledger, initial)
    ensures var s' := Run(s, actions);
            && Reconciled(s'.balances, s'.ledger, initial)
            && (NonNegative(s.balances, s.ledger) ==> NonNegative(s'.balances, s'.ledger))
    decreases |actions|
  {
    hide Reconciled, NonNegative, Apply;
    if actions != [] {
      ActionReconciles(s, actions[0], initial);
      RunReconciles(Apply(s, actions[0]), actions[1..], initial);
    }
  }

  /** From an empty ledger every run reconciles with the balances it began with, and stays non-negative if they were. */
  lemma RunFromStartReconciles(s: State, actions: seq<Action>)
    requires s.ledger == []
    ensures var s' := Run(s, actions);
            && Reconciled(s'.balances, s'.ledger, s.balances)
            && ((forall c :: c in s.balances ==> s.balances[c] >= 0) ==> NonNegative(s'.balances, s'.ledger))
  {
    RunReconciles(s, actions, s.balances);
  }

  /** The ledger is append-only: a run keeps every earlier row in its place. */
  lemma {:induction false} LedgerOnlyGrows(s: State, actions: seq<Action>)
    ensures s.ledger <= Run(s, actions).ledger
    decreases |actions|
  {
    if actions != [] {
      var a := actions[0];
      if a.Save? && a.invoice.customer.Some? && a.invoice.customer.value in s.balances {
        var c := a.invoice.customer.value;
        PostGrows(Account(s.balances[c], s.ledger), c, Some(a.id), Postings(Lookup(s.invoices, a.id), a.invoice));
      }
      LedgerOnlyGrows(Apply(s, a), actions[1..]);
    }
  }

  lemma {:induction false} PostGrows(a: Account, c: string, id: Option<string>, ps: seq<Posting>)
    ensures Post(a, c, id, ps).Some? ==> a.ledger <= Post(a, c, id, ps).value.ledger
    decreases |ps|
  {
    if ps != [] && PostOne(a, c, id, ps[0]).Some? { PostGrows(PostOne(a, c, id, ps[0]).value, c, id, ps[1..]); }
  }

  // ---- Telescoping ----

  /** What the ledger holds for one invoice against one customer's wallet. */
  function Contribution(ledger: seq<Row>, id: string, c: string): int {
    if ledger == [] then 0
    else
      var last := ledger[|ledger| - 1];
      Contribution(ledger[..|ledger| - 1], id, c)
      + if last.invoice == Some(id) && last.customer == c then Signed(last) else 0
  }

  function Sum(ps: seq<Posting>): int {
    if ps == [] then 0 else ps[0] + Sum(ps[1..])
  }

  lemma {:induction false} SumConcat(ps: seq<Posting>, qs: seq<Posting>)
    ensures Sum(ps + qs) == Sum(ps) + Sum(qs)
  {
    if ps == [] { assert ps + qs == qs; }
    else {
      assert (ps + qs)[1..] == ps[1..] + qs;
      SumConcat(ps[1..], qs);
    }
  }

  lemma {:induction false} PostContributes(a: Account, d: string, inv: Option<string>, ps: seq<Posting>, id: string,
      c: string)
    requires Post(a, d, inv, ps).Some? && NonZero(ps)
    ensures Contribution(Post(a, d, inv, ps).value.ledger, id, c) ==
            Contribution(a.ledger, id, c) + if inv == Some(id) && d == c then Sum(ps) else 0
    decreases |ps|
  {
    if ps != [] {
      var b := PostOne(a, d, inv, ps[0]).value;
      assert b.ledger[..|b.ledger| - 1] == a.ledger;
      PostContributes(b, d, inv, ps[1..], id, c);
    }
  }

  /** Extras the wallet already holds for a list of payments. */
  function StampedTotal(ps: seq<Payment>): int {
    if ps == [] then 0 else (if ps[0].stamp.Some? then Extra(ps[0]) else 0) + StampedTotal(ps[1..])
  }

  /** Those of stored payments whose id is still among the incoming ones. */
  function KeptTotal(stored: seq<Payment>, incoming: seq<Payment>): int {
    if stored == [] then 0
    else
      (if stored[0].stamp.Some? && Present(incoming, stored[0].id) then Extra(stored[0]) else 0)
      + KeptTotal(stored[1..], incoming)
  }

  lemma {:induction false} StampingTotals(ps: seq<Payment>, next: nat)
    ensures StampedTotal(Stamped(ps, next)) == StampedTotal(ps) + Sum(NewExtras(ps))
  {
    if ps != [] {
      var unseen := ps[0].stamp.None? && Qualifies(ps[0]);
      StampingTotals(ps[1..], next + if unseen then 1 else 0);
      if unseen {
        assert NewExtras(ps) == [ps[0].extraAmount] + NewExtras(ps[1..]);
        assert Stamped(ps, next)[1..] == Stamped(ps[1..], next + 1);
      } else {
        assert NewExtras(ps) == NewExtras(ps[1..]);
        assert Stamped(ps, next)[1..] == Stamped(ps[1..], next);
      }
    }
  }

  lemma {:induction false} ReversalTotals(stored: seq<Payment>, incoming: seq<Payment>)
    ensures Sum(Reversals(stored, incoming)) == KeptTotal(stored, incoming) - StampedTotal(stored)
  {
    if stored != [] {
      ReversalTotals(stored[1..], incoming);
      var gone := !Present(incoming, stored[0].id) && stored[0].stamp.Some? && Qualifies(stored[0]);
      SumConcat(if gone then [-stored[0].extraAmount] else [], Reversals(stored[1..], incoming));
    }
  }

  /** The ledger holds exactly what the stored invoice says: its stamped extras less its wallet use. */
  ghost predicate Balanced(s: State, id: string, c: string) {
    var stored := Lookup(s.invoices, id);
    Contribution(s.ledger, id, c) == StampedTotal(PaymentsOf(stored)) - UsedOf(stored)
  }

  lemma PostingsTotal(stored: Option<Invoice>, incoming: Invoice)
    ensures Sum(Postings(stored, incoming)) ==
            UsedOf(stored) - incoming.walletUsed + Sum(NewExtras(incoming.payments))
            + KeptTotal(PaymentsOf(stored), incoming.payments) - StampedTotal(PaymentsOf(stored))
  {
    var usage := UsageChange(UsedOf(stored), incoming.walletUsed);
    SumConcat(usage, NewExtras(incoming.payments));
    SumConcat(usage + NewExtras(incoming.payments), Reversals(PaymentsOf(stored), incoming.payments));
    ReversalTotals(PaymentsOf(stored), incoming.payments);
  }

  /**
   * A save keeps the invoice balanced exactly when the extras it says are already accounted for
   * add up to those stored for the payments it keeps.
   */
  lemma SaveTelescopesIff(s: State, id: string, incoming: Invoice, c: string)
    requires Balanced(s, id, c) && incoming.customer == Some(c) && c in s.balances
    requires SaveInvoice(s, id, incoming).Ok?
    ensures Balanced(SaveInvoice(s, id, incoming).value, id, c) <==>
            StampedTotal(incoming.payments) == KeptTotal(PaymentsOf(Lookup(s.invoices, id)), incoming.payments)
  {
    hide Post, NewExtras, Reversals, StampedTotal, KeptTotal, Stamped, Sum, Contribution;
    var stored := Lookup(s.invoices, id);
    var ps := Postings(stored, incoming);
    PostingsNonZero(stored, incoming);
    PostContributes(Account(s.balances[c], s.ledger), c, Some(id), ps, id, c);
    PostingsTotal(stored, incoming);
    StampingTotals(incoming.payments, |s.ledger| + |UsageChange(UsedOf(stored), incoming.walletUsed)|);
  }

  predicate DistinctIds(ps: seq<Payment>) {
    forall i, j :: 0 <= i < j < |ps| ==> ps[i].id != ps[j].id
  }

  /** An edit that leaves surviving payments as they are stored and adds only unstamped ones. */
  predicate Sanctioned(stored: seq<Payment>, incoming: seq<Payment>) {
    && DistinctIds(stored) && DistinctIds(incoming)
    && (forall p :: p in stored && Present(incoming, p.id) ==> p in incoming)
    && (forall q :: q in incoming && !Present(stored, q.id) ==> q.stamp.None?)
  }

  lemma {:induction false} KeptWithout(stored: seq<Payment>, incoming: seq<Payment>, rest: seq<Payment>)
    requires forall p :: p in stored ==> (Present(incoming, p.id) <==> Present(rest, p.id))
    ensures KeptTotal(stored, incoming) == KeptTotal(stored, rest)
  {
    if stored != [] { KeptWithout(stored[1..], incoming, rest); }
  }

  lemma {:induction false} NoStamps(ps: seq<Payment>)
    requires forall q :: q in ps ==> q.stamp.None?
    ensures StampedTotal(ps) == 0
  {
    if ps != [] { NoStamps(ps[1..]); }
  }

  lemma PresentSplit(ps: seq<Payment>, id: string)
    requires ps != []
    ensures Present(ps, id) <==> ps[0].id == id || Present(ps[1..], id)
  {
    if i :| 0 <= i < |ps| && ps[i].id == id { assert i > 0 ==> ps[1..][i - 1].id == id; }
    if i :| 0 <= i < |ps[1..]| && ps[1..][i].id == id { assert ps[i + 1].id == id; }
  }

  lemma MemberIsPresent(ps: seq<Payment>, p: Payment)
    requires p in ps
    ensures Present(ps, p.id)
  {
    var i :| 0 <= i < |ps| && ps[i] == p;
    assert ps[i].id == p.id;
  }

  function Without(ps: seq<Payment>, i: nat): (r: seq<Payment>)
    requires i < |ps|
    ensures |r| == |ps| - 1
    ensures forall k :: 0 <= k < i ==> r[k] == ps[k]
    ensures forall k :: i <= k < |r| ==> r[k] == ps[k + 1]
  {
    if i == 0 then ps[1..] else [ps[0]] + Without(ps[1..], i - 1)
  }

  lemma {:induction false} TotalWithout(ps: seq<Payment>, i: nat)
    requires i < |ps|
    ensures StampedTotal(ps) == StampedTotal(Without(ps, i)) + if ps[i].stamp.Some? then Extra(ps[i]) else 0
  {
    if i > 0 {
      TotalWithout(ps[1..], i - 1);
      assert Without(ps, i)[1..] == Without(ps[1..], i - 1);
    }
  }

  /** Sanctioned edits meet the condition. */
  lemma {:induction false} SanctionedKeeps(stored: seq<Payment>, incoming: seq<Payment>)
    requires Sanctioned(stored, incoming)
    ensures StampedTotal(incoming) == KeptTotal(stored, incoming)
    decreases |stored|
  {
    if stored == [] {
      NoStamps(incoming);
    } else {
      var p, tail := stored[0], stored[1..];
      assert stored == [p] + tail;
      if Present(incoming, p.id) {
        var i :| 0 <= i < |incoming| && incoming[i] == p;
        var rest := Without(incoming, i);
        TotalWithout(incoming, i);
        RemovedOne(stored, incoming, i);
        SanctionedKeeps(tail, rest);
        KeptWithout(tail, incoming, rest);
      } else {
        forall q | q in incoming && !Present(tail, q.id) ensures q.stamp.None? {
          MemberIsPresent(incoming, q);
          PresentSplit(stored, q.id);
        }
        SanctionedKeeps(tail, incoming);
      }
    }
  }

  /** Taking a kept payment out of both lists leaves a sanctioned edit. */
  lemma RemovedOne(stored: seq<Payment>, incoming: seq<Payment>, i: nat)
    requires Sanctioned(stored, incoming) && stored != [] && i < |incoming| && incoming[i] == stored[0]
    ensures var rest := Without(incoming, i);
            && Sanctioned(stored[1..], rest)
            && forall p :: p in stored[1..] ==> (Present(incoming, p.id) <==> Present(rest, p.id))
  {
    hide Without, Present, DistinctIds;
    var rest, tail := Without(incoming, i), stored[1..];
    DistinctWithout(incoming, i);
    DistinctWithout(stored, 0);
    assert Without(stored, 0) == tail by { assert forall k :: 0 <= k < |tail| ==> Without(stored, 0)[k] == tail[k]; }
    forall id | id != stored[0].id ensures Present(incoming, id) <==> Present(rest, id) {
      PresentWithout(incoming, i, id);
    }
    forall p | p in tail && Present(rest, p.id) ensures p in rest {
      assert p in incoming;
    }
    forall q | q in rest && !Present(tail, q.id) ensures q.stamp.None? {
      PresentSplit(stored, q.id);
    }
  }

  lemma DistinctWithout(ps: seq<Payment>, i: nat)
    requires DistinctIds(ps) && i < |ps|
    ensures DistinctIds(Without(ps, i))
    ensures forall q :: q in Without(ps, i) ==> q in ps && q.id != ps[i].id
    ensures forall q :: q in ps && q != ps[i] ==> q in Without(ps, i)
  {
    hide Without;
    var r := Without(ps, i);
    forall k | 0 <= k < |r| ensures r[k] in ps && r[k].id != ps[i].id {
      assert r[k] == ps[if k < i then k else k + 1];
    }
    forall j, k | 0 <= j < k < |r| ensures r[j].id != r[k].id {
      assert r[j] == ps[if j < i then j else j + 1] && r[k] == ps[if k < i then k else k + 1];
    }
    forall q | q in ps && q != ps[i] ensures q in r {
      var k :| 0 <= k < |ps| && ps[k] == q;
      assert r[if k < i then k else k - 1] == q;
    }
  }

  lemma {:induction false} PresentWithout(ps: seq<Payment>, i: nat, id: string)
    requires i < |ps| && ps[i].id != id
    ensures Present(ps, id) <==> Present(Without(ps, i), id)
  {
    hide Present;
    PresentSplit(ps, id);
    if i > 0 {
      PresentWithout(ps[1..], i - 1, id);
      PresentSplit(Without(ps, i), id);
      assert Without(ps, i)[1..] == Without(ps[1..], i - 1);
    }
  }

  /** Every save of the invoice in a run is for the one customer and a sanctioned edit of what is stored then. */
  ghost predicate SanctionedRun(s: State, actions: seq<Action>, id: string, c: string)
    decreases |actions|
  {
    actions == [] ||
    (var a := actions[0];
     && (a.Save? && a.id == id ==>
           a.invoice.customer == Some(c) && Sanctioned(PaymentsOf(Lookup(s.invoices, id)), a.invoice.payments))
     && SanctionedRun(Apply(s, a), actions[1..], id, c))
  }

  lemma ApplyKeepsCustomers(s: State, a: Action)
    ensures Apply(s, a).balances.Keys == s.balances.Keys
  {}

  lemma ActionKeepsBalanced(s: State, a: Action, id: string, c: string)
    requires Balanced(s, id, c) && c in s.balances
    requires a.Save? && a.id == id ==>
        a.invoice.customer == Some(c) && Sanctioned(PaymentsOf(Lookup(s.invoices, id)), a.invoice.payments)
    ensures Balanced(Apply(s, a), id, c)
  {
    hide Post, Postings, StampedTotal, KeptTotal, Stamped, Sum, Contribution, Sanctioned;
    match a
    case Save(i, invoice) =>
      if i == id {
        SanctionedKeeps(PaymentsOf(Lookup(s.invoices, id)), invoice.payments);
        if SaveInvoice(s, id, invoice).Ok? { SaveTelescopesIff(s, id, invoice, c); }
      } else if invoice.customer.Some? && invoice.customer.value in s.balances {
        var d := invoice.customer.value;
        var account, ps := Account(s.balances[d], s.ledger), Postings(Lookup(s.invoices, i), invoice);
        PostingsNonZero(Lookup(s.invoices, i), invoice);
        if Post(account, d, Some(i), ps).Some? { PostContributes(account, d, Some(i), ps, id, c); }
      }
    case Manual(d, amount, direction) =>
      if amount > 0 && d in s.balances {
        var account, p := Account(s.balances[d], s.ledger), if direction == CREDIT then amount else -amount;
        if PostOne(account, d, None, p).Some? {
          PostSingle(account, d, None, [p]);
          PostContributes(account, d, None, [p], id, c);
        }
      }
  }

  /**
   * Edits telescope: whatever happened to an invoice, to others and by hand in between, what the
   * ledger holds for it is the stamped extras of the stored invoice less its wallet use.
   */
  lemma {:induction false} EditsTelescope(s: State, actions: seq<Action>, id: string, c: string)
    requires Balanced(s, id, c) && c in s.balances && SanctionedRun(s, actions, id, c)
    ensures Balanced(Run(s, actions), id, c)
    decreases |actions|
  {
    hide Balanced, Apply, Sanctioned;
    if actions != [] {
      ActionKeepsBalanced(s, actions[0], id, c);
      ApplyKeepsCustomers(s, actions[0]);
      EditsTelescope(Apply(s, actions[0]), actions[1..], id, c);
    }
  }

  // ---- An edit that is not posted ----

  function InvoiceOf(extra: int, stamp: Option<nat>): Invoice {
    Invoice("o", Some("c"), 0, [Payment("p", true, extra, stamp)])
  }

  /** A customer with nothing in the wallet and nothing in the ledger. */
  const Fresh := State("o", map["c" := 0], [], map[])

  const OneCredit := State("o", map["c" := 100], [Row(0, "c", Some("i"), CREDIT, 100, 100)],
      map["i" := InvoiceOf(100, Some(0))])

  lemma FirstSave()
    ensures SaveInvoice(Fresh, "i", InvoiceOf(100, None)) == Ok(OneCredit)
  {
    var p, a := Payment("p", true, 100, None), Account(0, []);
    assert [p][1..] == [];
    assert NewExtras([p]) == [100] + NewExtras([]) == [100]
        && Stamped([p], 0) == [p.(stamp := Some(0))] + Stamped([], 1);
    assert Postings(None, InvoiceOf(100, None)) == [100];
    PostSingle(a, "c", Some("i"), [100]);
    assert [] + [RowOf(a, "c", Some("i"), 100)] == OneCredit.ledger;
    assert PostOne(a, "c", Some("i"), 100) == Some(Account(100, OneCredit.ledger));
    assert Fresh.balances["c" := 100] == OneCredit.balances;
    assert Fresh.invoices["i" := InvoiceOf(100, Some(0))] == OneCredit.invoices;
    var r := SaveInvoice(Fresh, "i", InvoiceOf(100, None));
    assert r.Ok? && r.value.balances == OneCredit.balances && r.value.ledger == OneCredit.ledger;
    assert r.value.invoices["i"].payments == [p.(stamp := Some(0))];
    assert r.value.invoices == OneCredit.invoices;
  }

  lemma CreditIsBalanced()
    ensures Balanced(OneCredit, "i", "c")
  {
    assert OneCredit.ledger[..0] == [];
    assert InvoiceOf(100, Some(0)).payments[1..] == [];
    assert Contribution([], "i", "c") == 0;
  }

  lemma EditPostsNothing()
    ensures SaveInvoice(OneCredit, "i", InvoiceOf(500, Some(0))).Ok?
    ensures SaveInvoice(OneCredit, "i", InvoiceOf(500, Some(0))).value
            == OneCredit.(invoices := map["i" := InvoiceOf(500, Some(0))])
    ensures !Balanced(SaveInvoice(OneCredit, "i", InvoiceOf(500, Some(0))).value, "i", "c")
  {
    var p, q := Payment("p", true, 100, Some(0)), Payment("p", true, 500, Some(0));
    assert [p][1..] == [] && [q][1..] == [];
    assert [q][0].id == "p";
    assert StampedTotal([p]) == 100 && StampedTotal([q]) == 500 && KeptTotal([p], [q]) == 100;
    assert NewExtras([q]) == NewExtras([]) == [] && Reversals([p], [q]) == Reversals([], [q]) == [];
    assert Postings(Lookup(OneCredit.invoices, "i"), InvoiceOf(500, Some(0))) == [];
    assert Stamped([q], 1) == [q] + Stamped([], 1) == [q];
    CreditIsBalanced();
    SaveTelescopesIff(OneCredit, "i", InvoiceOf(500, Some(0)), "c");
  }

  /**
   * From an empty wallet: saving an invoice with an extra of 100 credits 100; saving it again with the
   * stamped extra raised to 500 stores 500 and posts nothing, so ledger and invoice part.
   */
  lemma EditedExtraIsNotPosted()
    ensures var first, edit := Save("i", InvoiceOf(100, None)), Save("i", InvoiceOf(500, Some(0)));
            && Run(Fresh, [first]) == OneCredit && Balanced(OneCredit, "i", "c")
            && Run(Fresh, [first, edit]) == OneCredit.(invoices := map["i" := InvoiceOf(500, Some(0))])
            && !Balanced(Run(Fresh, [first, edit]), "i", "c")
  {
    hide SaveInvoice, Balanced;
    var first, edit := Save("i", InvoiceOf(100, None)), Save("i", InvoiceOf(500, Some(0)));
    FirstSave();
    CreditIsBalanced();
    EditPostsNothing();
    assert [first][1..] == [] && [first, edit][1..] == [edit] && [edit][1..] == [];
    assert Run(Fresh, [first]) == Run(OneCredit, []) == OneCredit;
    assert Run(Fresh, [first, edit]) == Run(OneCredit, [edit]) == Run(Apply(OneCredit, edit), []);
  }

  // ---- Saving again ----

  lemma {:induction false} StampedIsSettled(ps: seq<Payment>, next: nat, again: nat)
    ensures NewExtras(Stamped(ps, next)) == []
    ensures Stamped(Stamped(ps, next), again) == Stamped(ps, next)
  {
    if ps != [] {
      var unseen := ps[0].stamp.None? && Qualifies(ps[0]);
      StampedIsSettled(ps[1..], next + if unseen then 1 else 0, again);
      assert Stamped(ps, next)[1..] == Stamped(ps[1..], next + if unseen then 1 else 0);
    }
  }

  lemma {:induction false} NothingGone(stored: seq<Payment>, incoming: seq<Payment>)
    requires forall p :: p in stored ==> Present(incoming, p.id)
    ensures Reversals(stored, incoming) == []
  {
    if stored != [] { NothingGone(stored[1..], incoming); }
  }

  /** Saving the stored invoice again posts nothing and changes nothing, whoever its customer is. */
  lemma ResaveChangesNothing(s: State, id: string, incoming: Invoice)
    requires SaveInvoice(s, id, incoming).Ok?
    ensures var s' := SaveInvoice(s, id, incoming).value;
            SaveInvoice(s', id, s'.invoices[id]) == Ok(s')
  {
    hide PostOne, NewExtras, Reversals, Stamped;
    var s' := SaveInvoice(s, id, incoming).value;
    var saved := s'.invoices[id];
    assert s'.invoices[id := saved] == s'.invoices;
    if incoming.customer.Some? && incoming.customer.value in s.balances {
      var next := |s.ledger| + |UsageChange(UsedOf(Lookup(s.invoices, id)), incoming.walletUsed)|;
      StampedIsSettled(incoming.payments, next, |s'.ledger|);
      forall p | p in saved.payments ensures Present(saved.payments, p.id) {
        MemberIsPresent(saved.payments, p);
      }
      NothingGone(saved.payments, saved.payments);
      assert Postings(Some(saved), saved) == [];
      var c := incoming.customer.value;
      assert s'.balances[c := s'.balances[c]] == s'.balances;
    }
  }
}
