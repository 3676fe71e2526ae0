/**
 * Customer wallets of one organization: balances, the append-only ledger, and invoice saves that
 * post the difference (src/modules/invoices/wallet-sync.service.ts, adjustWallet). Money is in paise.
 */
module Wallet {
  import opened Wrappers
  import JsText

  /** stamp is the wallet transaction that already accounts for the payment. */
  datatype Payment = Payment(id: string, addExtraToWallet: bool, extraAmount: int, stamp: Option<nat>)

  datatype Invoice = Invoice(organization: string, customer: Option<string>, walletUsed: int, payments: seq<Payment>)

  datatype Direction = CREDIT | DEBIT

  datatype Row = Row(id: nat, customer: string, invoice: Option<string>, direction: Direction, amount: int,
      balanceAfter: int)

  /** The customers of one organization, its ledger, and every stored invoice, its own or not. */
  datatype State = State(organization: string, balances: map<string, int>, ledger: seq<Row>,
      invoices: map<string, Invoice>)

  datatype Error = ForeignInvoice | InsufficientBalance | WouldGoNegative | InvalidAmount

  // ---- What a save posts ----

  /** A signed amount to post: positive is a credit. */
  type Posting = int

  predicate Qualifies(p: Payment) {
    p.addExtraToWallet && p.extraAmount > 0
  }

  function Extra(p: Payment): (e: int)
    ensures e >= 0
  {
    if Qualifies(p) then p.extraAmount else 0
  }

  predicate Present(ps: seq<Payment>, id: string) {
    exists i :: 0 <= i < |ps| && ps[i].id == id
  }

  /** Credits for the incoming payments not accounted for yet. */
  function NewExtras(ps: seq<Payment>): seq<Posting> {
    if ps == [] then []
    else (if ps[0].stamp.None? && Qualifies(ps[0]) then [ps[0].extraAmount] else []) + NewExtras(ps[1..])
  }

  /** Debits that take back the credits of stored payments that are gone. */
  function Reversals(stored: seq<Payment>, incoming: seq<Payment>): seq<Posting> {
    if stored == [] then []
    else (if !Present(incoming, stored[0].id) && stored[0].stamp.Some? && Qualifies(stored[0])
          then [-stored[0].extraAmount] else [])
         + Reversals(stored[1..], incoming)
  }

  function UsageChange(before: int, after: int): seq<Posting> {
    if after == before then [] else [before - after]
  }

  function UsedOf(i: Option<Invoice>): int {
    if i.Some? then i.value.walletUsed else 0
  }

  function PaymentsOf(i: Option<Invoice>): seq<Payment> {
    if i.Some? then i.value.payments else []
  }

  function Postings(stored: Option<Invoice>, incoming: Invoice): seq<Posting> {
    UsageChange(UsedOf(stored), incoming.walletUsed) + NewExtras(incoming.payments)
    + Reversals(PaymentsOf(stored), incoming.payments)
  }

  /** The incoming payments with the new transactions stamped on, ids counted from the given one. */
  function Stamped(ps: seq<Payment>, next: nat): seq<Payment> {
    if ps == [] then []
    else if ps[0].stamp.None? && Qualifies(ps[0]) then [ps[0].(stamp := Some(next))] + Stamped(ps[1..], next + 1)
    else [ps[0]] + Stamped(ps[1..], next)
  }

  // ---- Posting ----

  datatype Account = Account(balance: int, ledger: seq<Row>)

  function RowOf(a: Account, customer: string, invoice: Option<string>, p: Posting): Row {
    Row(|a.ledger|, customer, invoice, if p > 0 then CREDIT else DEBIT, if p > 0 then p else -p, a.balance + p)
  }

  /** One posting; a debit beyond the balance is refused. */
  function PostOne(a: Account, customer: string, invoice: Option<string>, p: Posting): Option<Account> {
    if p < 0 && a.balance < -p then None else Some(Account(a.balance + p, a.ledger + [RowOf(a, customer, invoice, p)]))
  }

  function Post(a: Account, customer: string, invoice: Option<string>, ps: seq<Posting>): Option<Account>
    decreases |ps|
  {
    if ps == [] then Some(a)
    else
      var b := PostOne(a, customer, invoice, ps[0]);
      if b.None? then None else Post(b.value, customer, invoice, ps[1..])
  }

  function Lookup<V>(m: map<string, V>, k: string): Option<V> {
    if k in m then Some(m[k]) else None
  }

  /** Saving an invoice: sync the wallet, then store the stamped payload. A refusal changes nothing. */
  function SaveInvoice(s: State, id: string, incoming: Invoice): Result<State, Error> {
    var stored := Lookup(s.invoices, id);
    if stored.Some? && stored.value.organization != s.organization then Err(ForeignInvoice)
    else if incoming.customer.None? || incoming.customer.value !in s.balances then
      Ok(s.(invoices := s.invoices[id := incoming.(organization := s.organization)]))
    else
      var c := incoming.customer.value;
      var a := Post(Account(s.balances[c], s.ledger), c, Some(id), Postings(stored, incoming));
      var usage := UsageChange(UsedOf(stored), incoming.walletUsed);
      if a.None? then
        Err(if Post(Account(s.balances[c], s.ledger), c, Some(id), usage).None? then InsufficientBalance
            else WouldGoNegative)
      else
        var next := |s.ledger| + |usage|;
        Ok(State(s.organization, s.balances[c := a.value.balance], a.value.ledger,
                 s.invoices[id := incoming.(organization := s.organization,
                     payments := Stamped(incoming.payments, next))]))
  }

  /** adjustWallet: nothing for an unknown customer, refused for amounts not above zero or below the balance. */
  function Adjust(s: State, c: string, amount: int, direction: Direction): Result<State, Error> {
    if amount <= 0 then Err(InvalidAmount)
    else if c !in s.balances then Ok(s)
    else
      var a := PostOne(Account(s.balances[c], s.ledger), c, None, if direction == CREDIT then amount else -amount);
      if a.None? then Err(WouldGoNegative)
          else Ok(s.(balances := s.balances[c := a.value.balance], ledger := a.value.ledger))
  }

  // ---- The imperative form ----

  /** A ledger row for an amount, and the running balance it leaves. */
  method Append(a: Account, c: string, id: string, direction: Direction, amount: int) returns (b: Account)
    requires amount > 0
    ensures PostOne(a, c, Some(id), if direction == CREDIT then amount else -amount)
            == if direction == DEBIT && a.balance < amount then None else Some(b)
    ensures |b.ledger| == |a.ledger| + 1
  {
    var balance := if direction == CREDIT then a.balance + amount else a.balance - amount;
    b := Account(balance, a.ledger + [Row(|a.ledger|, c, Some(id), direction, amount, balance)]);
  }

  method StillPresent(ps: seq<Payment>, id: string) returns (found: bool)
    ensures found <==> Present(ps, id)
  {
    var i := 0;
    found := false;
    while i < |ps| && !found
      invariant 0 <= i <= |ps|
      invariant found <==> exists k :: 0 <= k < i && ps[k].id == id
    {
      found := ps[i].id == id;
      i := i + 1;
    }
  }

  /** One step of the loop over incoming payments. */
  lemma FirstExtra(p: Payment, tail: seq<Payment>, next: nat, ps: seq<Payment>)
    requires ps == [p] + tail
    ensures if p.stamp.None? && Qualifies(p)
            then NewExtras(ps) == [p.extraAmount] + NewExtras(tail)
                 && Stamped(ps, next) == [p.(stamp := Some(next))] + Stamped(tail, next + 1)
            else NewExtras(ps) == NewExtras(tail) && Stamped(ps, next) == [p] + Stamped(tail, next)
  {
    assert ps[0] == p && ps[1..] == tail;
  }

  lemma PostCons(a: Account, c: string, id: Option<string>, p: Posting, ps: seq<Posting>)
    ensures Post(a, c, id, [p] + ps) ==
            var b := PostOne(a, c, id, p); if b.None? then None else Post(b.value, c, id, ps)
  {
    assert ([p] + ps)[1..] == ps;
  }

  /** The loop over incoming payments: credit the extras not seen before and stamp them. */
  method CreditExtras(start: Account, c: string, id: string, incoming: seq<Payment>)
      returns (a: Account, payments: seq<Payment>)
    ensures Post(start, c, Some(id), NewExtras(incoming)) == Some(a)
    ensures payments == Stamped(incoming, |start.ledger|)
  {
    hide Post, NewExtras, Stamped;
    a, payments := start, incoming;
    var i := 0;
    NoExtras(start, c, Some(id), |start.ledger|);
    assert incoming[0..] == incoming;
    while i < |payments|
      invariant 0 <= i <= |payments| == |incoming|
      invariant forall k :: i <= k < |incoming| ==> payments[k] == incoming[k]
      invariant Post(start, c, Some(id), NewExtras(incoming)) == Post(a, c, Some(id), NewExtras(incoming[i..]))
      invariant Stamped(incoming, |start.ledger|) == payments[..i] + Stamped(incoming[i..], |a.ledger|)
    {
      ghost var done, tail, next := payments[..i], incoming[i + 1..], |a.ledger|;
      var p := payments[i];
      FirstExtra(p, tail, |a.ledger|, incoming[i..]);
      if p.stamp.None? && p.addExtraToWallet && p.extraAmount > 0 {
        var txId := |a.ledger|;
        PostCons(a, c, Some(id), p.extraAmount, NewExtras(tail));
        a := Append(a, c, id, CREDIT, p.extraAmount);
        payments := payments[i := p.(stamp := Some(txId))];
      }
      assert payments[..i + 1] == done + [payments[i]];
      JsText.Associate(done, [payments[i]], Stamped(tail, |a.ledger|));
      i := i + 1;
    }
    assert payments[..i] == payments && incoming[i..] == [];
    NoExtras(a, c, Some(id), |a.ledger|);
  }

  lemma NoExtras(a: Account, c: string, id: Option<string>, next: nat)
    ensures NewExtras([]) == [] && Stamped([], next) == [] && Post(a, c, id, []) == Some(a)
  {}

  /** The loop over stored payments: take back the credit of each one that is gone. */
  method ReverseDeleted(start: Account, c: string, id: string, stored: seq<Payment>, payments: seq<Payment>)
      returns (r: Option<Account>)
    ensures r == Post(start, c, Some(id), Reversals(stored, payments))
  {
    var a := start;
    var i := 0;
    while i < |stored|
      invariant 0 <= i <= |stored|
      invariant Post(start, c, Some(id), Reversals(stored, payments)) ==
          Post(a, c, Some(id), Reversals(stored[i..], payments))
    {
      var p := stored[i];
      ghost var rest := stored[i..];
      assert p == rest[0] && rest[1..] == stored[i + 1..];
      var present := StillPresent(payments, p.id);
      if !present && p.stamp.Some? && p.addExtraToWallet && p.extraAmount > 0 {
        assert Reversals(rest, payments)[0] == -p.extraAmount
            && Reversals(rest, payments)[1..] == Reversals(rest[1..], payments);
        if a.balance < p.extraAmount { return None; }
        a := Append(a, c, id, DEBIT, p.extraAmount);
      } else {
        assert Reversals(rest, payments) == Reversals(rest[1..], payments);
      }
      i := i + 1;
    }
    return Some(a);
  }

  class WalletDb {
    const organization: string
    var balances: map<string, int>
    var ledger: seq<Row>
    var invoices: map<string, Invoice>

    ghost function Current(): State
      reads this
    {
      State(organization, balances, ledger, invoices)
    }

    constructor (organization: string, initial: map<string, int>)
      ensures Current() == State(organization, initial, [], map[])
    {
      this.organization := organization;
      balances, ledger, invoices := initial, [], map[];
    }

    /** handleInvoiceWalletSync followed by the save of the payload it stamped, as upsertInvoice runs them. */
    method UpsertInvoice(id: string, incoming: Invoice) returns (error: Option<Error>)
      modifies this
      ensures var r := SaveInvoice(old(Current()), id, incoming);
              if r.Ok? then error == None && Current() == r.value
              else error == Some(r.error) && Current() == old(Current())
    {
      hide NewExtras, Reversals, Stamped;
      var stored := Lookup(invoices, id);
      if stored.Some? && stored.value.organization != organization {
        return Some(ForeignInvoice);
      }
      if incoming.customer.None? || incoming.customer.value !in balances {
        invoices := invoices[id := incoming.(organization := organization)];
        return None;
      }
      var c := incoming.customer.value;
      var a := Account(balances[c], ledger);
      ghost var start, usage := a, UsageChange(UsedOf(stored), incoming.walletUsed);
      ghost var extras, reversals := NewExtras(incoming.payments), Reversals(PaymentsOf(stored), incoming.payments);
      PostInTurn(start, c, Some(id), usage, extras);
      PostInTurn(start, c, Some(id), usage + extras, reversals);
      PostSingle(start, c, Some(id), usage);

      var diff := incoming.walletUsed - UsedOf(stored);
      if diff > 0 {
        if a.balance < diff {
          return Some(InsufficientBalance);
        }
        a := Append(a, c, id, DEBIT, diff);
      } else if diff < 0 {
        a := Append(a, c, id, CREDIT, -diff);
      }
      assert Post(start, c, Some(id), usage) == Some(a);
      var payments;
      a, payments := CreditExtras(a, c, id, incoming.payments);
      SameReversals(PaymentsOf(stored), incoming.payments, |start.ledger| + |usage|);
      var reversed := ReverseDeleted(a, c, id, PaymentsOf(stored), payments);
      if reversed.None? { return Some(WouldGoNegative); }

      ledger := reversed.value.ledger;
      balances := balances[c := reversed.value.balance];
      invoices := invoices[id := incoming.(organization := organization, payments := payments)];
      return None;
    }

    /** adjustWallet. */
    method AdjustWallet(c: string, amount: int, direction: Direction) returns (error: Option<Error>)
      modifies this
      ensures var r := Adjust(old(Current()), c, amount, direction);
              if r.Ok? then error == None && Current() == r.value
              else error == Some(r.error) && Current() == old(Current())
    {
      if amount <= 0 { return Some(InvalidAmount); }
      if c !in balances { return None; }
      var newBalance := balances[c];
      if direction == CREDIT {
        newBalance := newBalance + amount;
      } else {
        newBalance := newBalance - amount;
        if newBalance < 0 { return Some(WouldGoNegative); }
      }
      balances := balances[c := newBalance];
      ledger := ledger + [Row(|ledger|, c, None, direction, amount, newBalance)];
      return None;
    }
  }

  lemma {:induction false} StampedKeeps(ps: seq<Payment>, next: nat)
    ensures |Stamped(ps, next)| == |ps|
    ensures forall i :: 0 <= i < |ps| ==> Stamped(ps, next)[i].id == ps[i].id
  {
    if ps != [] {
      StampedKeeps(ps[1..], next + if ps[0].stamp.None? && Qualifies(ps[0]) then 1 else 0);
    }
  }

  lemma SameIds(ps: seq<Payment>, next: nat, id: string)
    ensures Present(Stamped(ps, next), id) <==> Present(ps, id)
  {
    StampedKeeps(ps, next);
    if i :| 0 <= i < |ps| && ps[i].id == id { assert Stamped(ps, next)[i].id == id; }
  }

  lemma {:induction false} PostInTurn(a: Account, c: string, id: Option<string>, ps: seq<Posting>, qs: seq<Posting>)
    ensures Post(a, c, id, ps + qs) ==
            var b := Post(a, c, id, ps); if b.None? then None else Post(b.value, c, id, qs)
    decreases |ps|
  {
    if ps == [] {
      assert ps + qs == qs;
    } else {
      assert (ps + qs)[1..] == ps[1..] + qs;
      var b := PostOne(a, c, id, ps[0]);
      if b.Some? { PostInTurn(b.value, c, id, ps[1..], qs); }
    }
  }

  lemma PostSingle(a: Account, c: string, id: Option<string>, ps: seq<Posting>)
    requires |ps| <= 1
    ensures Post(a, c, id, ps) == if ps == [] then Some(a) else PostOne(a, c, id, ps[0])
  {}

  lemma {:induction false} SameReversals(stored: seq<Payment>, incoming: seq<Payment>, next: nat)
    ensures Reversals(stored, Stamped(incoming, next)) == Reversals(stored, incoming)
  {
    if stored != [] {
      SameIds(incoming, next, stored[0].id);
      SameReversals(stored[1..], incoming, next);
    }
  }
}
