/**
 * When saves and adjustments are refused, what rows they add, and whose invoices they leave alone
 * (src/modules/invoices/wallet-sync.service.ts:3-179, src/modules/customers/customer.service.ts:302-357).
 */
module WalletPostings {
  import opened Wrappers
  import opened Wallet
  import opened WalletProperties

  // ---- Rows ----

  /** The balance after posting number j. */
  function BalanceAfter(balance: int, ps: seq<Posting>, j: nat): int
    requires j < |ps|
  {
    balance + Sum(ps[..j + 1])
  }

  /** No debit finds less than its amount. */
  predicate Covered(balance: int, ps: seq<Posting>) {
    forall j :: 0 <= j < |ps| && ps[j] < 0 ==> BalanceAfter(balance, ps, j) >= 0
  }

  lemma BalanceStep(balance: int, ps: seq<Posting>, j: nat)
    requires j < |ps|
    ensures BalanceAfter(balance, ps, j) ==
            if j == 0 then balance + ps[0] else BalanceAfter(balance + ps[0], ps[1..], j - 1)
  {
    var first := ps[..j + 1];
    assert first[0] == ps[0] && first[1..] == ps[1..][..j];
    assert Sum(first) == ps[0] + Sum(ps[1..][..j]);
    if j == 0 { assert ps[1..][..0] == []; }
  }

  lemma CoveredStep(balance: int, ps: seq<Posting>)
    requires ps != []
    ensures Covered(balance, ps) <==> (ps[0] < 0 ==> balance + ps[0] >= 0) && Covered(balance + ps[0], ps[1..])
  {
    hide BalanceAfter;
    forall j | 0 <= j < |ps|
      ensures BalanceAfter(balance, ps, j) ==
              if j == 0 then balance + ps[0] else BalanceAfter(balance + ps[0], ps[1..], j - 1)
    {
      BalanceStep(balance, ps, j);
    }
    if Covered(balance, ps) {
      forall j | 0 <= j < |ps| - 1 && ps[1..][j] < 0 ensures BalanceAfter(balance + ps[0], ps[1..], j) >= 0 {
        assert ps[j + 1] < 0 && BalanceAfter(balance, ps, j + 1) >= 0;
      }
    }
    if (ps[0] < 0 ==> balance + ps[0] >= 0) && Covered(balance + ps[0], ps[1..]) {
      forall j | 0 <= j < |ps| && ps[j] < 0 ensures BalanceAfter(balance, ps, j) >= 0 {
        if j > 0 { assert ps[1..][j - 1] < 0; }
      }
    }
  }

  /** A row for a posting, at its place in the ledger. */
  predicate RowFor(r: Row, place: nat, c: string, invoice: Option<string>, p: Posting, after: int) {
    && r.id == place && r.customer == c && r.invoice == invoice && r.balanceAfter == after
    && (p > 0 ==> r.direction == CREDIT && r.amount == p)
    && (p < 0 ==> r.direction == DEBIT && r.amount == -p)
  }

  /** Postings succeed exactly when every debit is covered, and then add one row each, in order. */
  lemma {:induction false} PostIff(a: Account, c: string, id: Option<string>, ps: seq<Posting>)
    ensures Post(a, c, id, ps).Some? <==> Covered(a.balance, ps)
    ensures Post(a, c, id, ps).Some? ==>
              var b := Post(a, c, id, ps).value;
              && b.balance == a.balance + Sum(ps)
              && |b.ledger| == |a.ledger| + |ps| && a.ledger <= b.ledger
              && forall j :: 0 <= j < |ps| ==>
                   RowFor(b.ledger[|a.ledger| + j], |a.ledger| + j, c, id, ps[j], BalanceAfter(a.balance, ps, j))
    decreases |ps|
  {
    if ps != [] {
      CoveredStep(a.balance, ps);
      var next := PostOne(a, c, id, ps[0]);
      if next.Some? {
        PostIff(next.value, c, id, ps[1..]);
        hide Covered;
        if Post(a, c, id, ps).Some? {
          var b := Post(a, c, id, ps).value;
          forall j | 0 <= j < |ps|
            ensures RowFor(b.ledger[|a.ledger| + j], |a.ledger| + j, c, id, ps[j], BalanceAfter(a.balance, ps, j))
          {
            BalanceStep(a.balance, ps, j);
            if j > 0 {
              assert ps[1..][j - 1] == ps[j];
            } else {
              assert b.ledger[|a.ledger|] == next.value.ledger[|a.ledger|];
            }
          }
        }
      }
    }
  }

  // ---- Saves ----

  /** A save is refused exactly for another organization's invoice, or when one of its debits is not covered. */
  lemma SaveRefusedIff(s: State, id: string, incoming: Invoice)
    ensures SaveInvoice(s, id, incoming).Err? <==>
            || (id in s.invoices && s.invoices[id].organization != s.organization)
            || (incoming.customer.Some? && incoming.customer.value in s.balances
                && !Covered(s.balances[incoming.customer.value], Postings(Lookup(s.invoices, id), incoming)))
  {
    hide Post, Postings, Covered, Stamped;
    if incoming.customer.Some? && incoming.customer.value in s.balances {
      var c := incoming.customer.value;
      PostIff(Account(s.balances[c], s.ledger), c, Some(id), Postings(Lookup(s.invoices, id), incoming));
    }
  }

  predicate IsNewExtra(p: Payment) {
    p.stamp == None && p.addExtraToWallet && p.extraAmount > 0
  }

  /** The k-th payment's credit is the one its stamp counts to; other payments are left as they are. */
  lemma {:induction false} StampPlace(ps: seq<Payment>, next: nat, k: nat) returns (j: nat)
    requires k < |ps|
    ensures |Stamped(ps, next)| == |ps|
    ensures IsNewExtra(ps[k]) ==>
              j < |NewExtras(ps)| && NewExtras(ps)[j] == ps[k].extraAmount
              && Stamped(ps, next)[k] == ps[k].(stamp := Some(next + j))
    ensures !IsNewExtra(ps[k]) ==> Stamped(ps, next)[k] == ps[k]
  {
    hide NewExtras, Stamped;
    j := 0;
    var more := if IsNewExtra(ps[0]) then 1 else 0;
    SameLength(ps, next);
    FirstExtra(ps[0], ps[1..], next, ps);
    if k > 0 {
      var i := StampPlace(ps[1..], next + more, k - 1);
      j := i + more;
      assert ps[1..][k - 1] == ps[k];
    }
  }

  lemma {:induction false} SameLength(ps: seq<Payment>, next: nat)
    ensures |Stamped(ps, next)| == |ps|
  {
    if ps != [] { SameLength(ps[1..], if IsNewExtra(ps[0]) then next + 1 else next); }
  }

  /**
   * After a save every payment it credited is stamped with the ledger row that credits its extra to the customer
   * for this invoice, and every other payment is stored as it came.
   */
  lemma StampsPointToCredits(s: State, id: string, incoming: Invoice, k: nat)
    requires incoming.customer.Some? && incoming.customer.value in s.balances && k < |incoming.payments|
    requires SaveInvoice(s, id, incoming).Ok?
    ensures var s', p := SaveInvoice(s, id, incoming).value, incoming.payments[k];
            && id in s'.invoices && |s'.invoices[id].payments| == |incoming.payments|
            && var q := s'.invoices[id].payments[k];
               if IsNewExtra(p) then
                 && q == p.(stamp := q.stamp) && q.stamp.Some? && |s.ledger| <= q.stamp.value < |s'.ledger|
                 && var r := s'.ledger[q.stamp.value];
                    r.direction == CREDIT && r.amount == p.extraAmount && r.invoice == Some(id)
                    && r.customer == incoming.customer.value
               else q == p
  {
    hide Post, NewExtras, Reversals, Stamped, Covered, BalanceAfter;
    var c, stored := incoming.customer.value, Lookup(s.invoices, id);
    var usage := UsageChange(UsedOf(stored), incoming.walletUsed);
    var ps := Postings(stored, incoming);
    PostIff(Account(s.balances[c], s.ledger), c, Some(id), ps);
    var j := StampPlace(incoming.payments, |s.ledger| + |usage|, k);
    if IsNewExtra(incoming.payments[k]) {
      assert ps[|usage| + j] == NewExtras(incoming.payments)[j];
    }
  }

  /** What a save stores is what came, for this organization, but for the stamps. */
  lemma SaveStoresWhatCame(s: State, id: string, incoming: Invoice)
    requires SaveInvoice(s, id, incoming).Ok?
    ensures var s' := SaveInvoice(s, id, incoming).value;
            && s'.invoices.Keys == s.invoices.Keys + {id} && s'.organization == s.organization
            && s'.invoices[id] == incoming.(organization := s.organization, payments := s'.invoices[id].payments)
            && forall other <- s.invoices :: other != id ==> s'.invoices[other] == s.invoices[other]
  {
    hide Post, Stamped, Postings;
  }

  /** No run changes an invoice of another organization. */
  lemma {:induction false} ForeignInvoicesStay(s: State, actions: seq<Action>, id: string)
    requires id in s.invoices && s.invoices[id].organization != s.organization
    ensures var s' := Run(s, actions);
            s'.organization == s.organization && id in s'.invoices && s'.invoices[id] == s.invoices[id]
    decreases |actions|
  {
    hide Post, Stamped, Postings, PostOne;
    if actions != [] { ForeignInvoicesStay(Apply(s, actions[0]), actions[1..], id); }
  }

  // ---- Adjustments ----

  /**
   * An adjustment is refused exactly for an amount not above zero, or a debit of more than a known customer has;
   * otherwise it moves that customer's balance by the amount and adds the one row that says so.
   */
  lemma AdjustMoves(s: State, c: string, amount: int, direction: Direction)
    ensures Adjust(s, c, amount, direction).Err? <==>
            amount <= 0 || (c in s.balances && direction == DEBIT && s.balances[c] < amount)
    ensures Adjust(s, c, amount, direction).Ok? ==>
              var s' := Adjust(s, c, amount, direction).value;
              if c !in s.balances then s' == s
              else
                var after := if direction == CREDIT then s.balances[c] + amount else s.balances[c] - amount;
                s' == s.(balances := s.balances[c := after],
                         ledger := s.ledger + [Row(|s.ledger|, c, None, direction, amount, after)])
  {
  }
}
