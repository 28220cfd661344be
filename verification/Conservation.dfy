/** Conservation: what the journal's entries add up to, in every run. */
module Conservation {
  import opened Ledger
  import opened Lifecycle
  import opened LifecycleInvariant
  import opened LifecycleSafety
  import R = ReconciliationSafety

  /** In every reachable ledger the lines of each asset sum to zero. */
  lemma EveryLedgerBalances(acts: seq<Action>, asset: Asset)
    ensures Total(Run(Init(), acts).ledger.journal, asset) == 0
  {
    var w := Run(Init(), acts);
    R.InitKeeps();
    R.RunKeeps(Init(), acts);
    forall i | 0 <= i < |w.ledger.journal| ensures Balanced(w.ledger.journal[i].lines) {
      assert EntryOk(w.ledger.orders, w.ledger.journal[i]);
    }
    BalancedTotal(w.ledger.journal, asset);
  }

  // ---------------------------------------------------------------- what is owed

  /** The order was converted and its payout is still to come: neither settled nor reversed. */
  ghost predicate Outstanding(j: Journal, o: nat) {
    Has(j, Conversion(o)) && !Has(j, Reversal(Conversion(o))) && !Paid(j, o)
  }

  /** What the corridor owes a customer in TRC20, over the first n orders. */
  ghost function Owed(l: Ledger, c: nat, n: nat): int
    requires n <= |l.orders|
  {
    if n == 0 then 0
    else Owed(l, c, n - 1) +
         if l.orders[n - 1].customer == c && Outstanding(l.journal, n - 1) then l.orders[n - 1].amountOut else 0
  }

  /** Entry by entry, without assuming which combinations of entries occur. */
  ghost function Due(j: Journal, o: nat, amount: int): int {
    (if Has(j, Conversion(o)) then amount else 0)
    - (if Has(j, Reversal(Conversion(o))) then amount else 0)
    - (if Paid(j, o) then amount else 0)
  }

  ghost function SumDue(j: Journal, orders: seq<Order>, c: nat, n: nat): int
    requires n <= |orders|
  {
    if n == 0 then 0
    else SumDue(j, orders, c, n - 1) + if orders[n - 1].customer == c then Due(j, n - 1, orders[n - 1].amountOut) else 0
  }

  /** The order an entry concerns, or -1. */
  ghost function OrderOf(key: Key): int {
    match key
    case Conversion(o) => o
    case Settlement(o, _) => o
    case Reversal(k) => if k.Conversion? then k.order else -1
    case Foreign(_) => -1
  }

  lemma DueAppend(j: Journal, e: Entry, o: nat, orders: seq<Order>, c: nat)
    requires !Has(j, e.key) && (e.key.Settlement? ==> !Paid(j, e.key.order))
    requires o < |orders| && orders[o].customer == c
    ensures Due(j + [e], o, orders[o].amountOut) == Due(j, o, orders[o].amountOut) -
      if OrderOf(e.key) == o then Effect(orders, e.key, c) else 0
  {
    HasAppend(j, e, Conversion(o));
    HasAppend(j, e, Reversal(Conversion(o)));
    PaidAppend(j, e, o);
  }

  lemma {:induction false} SumDueAppend(j: Journal, orders: seq<Order>, e: Entry, c: nat, n: nat)
    requires n <= |orders| && !Has(j, e.key) && (e.key.Settlement? ==> !Paid(j, e.key.order))
    ensures SumDue(j + [e], orders, c, n) == SumDue(j, orders, c, n) -
      if 0 <= OrderOf(e.key) < n then Effect(orders, e.key, c) else 0
  {
    if n > 0 {
      SumDueAppend(j, orders, e, c, n - 1);
      if orders[n - 1].customer == c { DueAppend(j, e, n - 1, orders, c); }
    }
  }

  lemma {:induction false} BalanceIsDue(j: Journal, l: Ledger, c: nat)
    requires JournalOk(l.(journal := j)) && forall o :: PaidOnce(j, o)
    requires forall i :: 0 <= i < |j| ==> KeyKnown(l, j[i].key)
    ensures Balance(j, Liability(c, TRC20)) == -SumDue(j, l.orders, c, |l.orders|)
    decreases |j|
  {
    if j == [] {
      NothingDue(l.orders, c, |l.orders|);
    } else {
      var n := |j| - 1;
      var e := j[n];
      assert j == j[..n] + [e];
      assert EntryOk(l.orders, e) && KeyKnown(l, e.key);
      PrefixPaidOnce(j[..n], e);
      BalanceIsDue(j[..n], l, c);
      if e.key.Settlement? { FirstSettlement(j[..n], e); }
      SumDueAppend(j[..n], l.orders, e, c, |l.orders|);
    }
  }

  lemma FirstSettlement(j: Journal, e: Entry)
    requires e.key.Settlement? && !Has(j, e.key) && PaidOnce(j + [e], e.key.order)
    ensures !Paid(j, e.key.order)
  {
    forall m ensures !Has(j, Settlement(e.key.order, m)) {
      HasAppend(j, e, Settlement(e.key.order, m));
      HasAppend(j, e, e.key);
    }
  }

  lemma PrefixPaidOnce(j: Journal, e: Entry)
    requires forall o :: PaidOnce(j + [e], o)
    ensures forall o :: PaidOnce(j, o)
  {
    forall o, n, m | Has(j, Settlement(o, n)) && Has(j, Settlement(o, m)) ensures n == m {
      HasAppend(j, e, Settlement(o, n));
      HasAppend(j, e, Settlement(o, m));
      assert PaidOnce(j + [e], o);
    }
  }

  lemma {:induction false} NothingDue(orders: seq<Order>, c: nat, n: nat)
    requires n <= |orders|
    ensures SumDue([], orders, c, n) == 0
  {
    if n > 0 { NothingDue(orders, c, n - 1); }
  }

  lemma {:induction false} DueIsOwed(w: World, c: nat, n: nat)
    requires Inv(w) && n <= |w.ledger.orders|
    ensures SumDue(w.ledger.journal, w.ledger.orders, c, n) == Owed(w.ledger, c, n)
  {
    if n > 0 {
      DueIsOwed(w, c, n - 1);
      assert ViewOk(ViewAt(w, n - 1));
      NeverBoth(w, n - 1);
    }
  }

  /** Reversed needs a failed attempt, paid a sent one, and an order has at most one attempt. */
  lemma NeverBoth(w: World, o: nat)
    requires Inv(w)
    ensures !(ViewAt(w, o).reversed && ViewAt(w, o).paid)
  {
    assert ViewOk(ViewAt(w, o));
    if ViewAt(w, o).reversed && ViewAt(w, o).paid {
      var r: nat :| RowOf(w.att.rows, r, o) && w.att.rows[r].status.Failed?;
      var q: nat :| RowOf(w.att.rows, q, o) && (w.att.rows[q].status.Broadcast? || w.att.rows[q].status.Confirmed?);
      assert false;
    }
  }

  /** In every run, a customer's TRC20 liability is minus the sum of amount_out over that
      customer's orders that are converted but neither settled nor reversed. */
  lemma LiabilityIsWhatIsOwed(acts: seq<Action>, c: nat)
    ensures
      var l := Run(Init(), acts).ledger;
      Balance(l.journal, Liability(c, TRC20)) == -Owed(l, c, |l.orders|)
  {
    var w := Run(Init(), acts);
    R.InitKeeps();
    R.RunKeeps(Init(), acts);
    KeysKnown(w);
    forall o ensures PaidOnce(w.ledger.journal, o) { assert ViewOk(ViewAt(w, o)); }
    BalanceIsDue(w.ledger.journal, w.ledger, c);
    DueIsOwed(w, c, |w.ledger.orders|);
  }
}
