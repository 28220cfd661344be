/** The invariant of the order lifecycle. Everything it says of one order is said of that order's
    View: the handful of facts about it in C1, in the two tables and among its attempts. */
module LifecycleInvariant {
  import opened Common
  import A = Attempts
  import B = BroadcastProtocol
  import opened Ledger
  import opened Lifecycle

  ghost predicate Paid(j: Journal, o: nat) { exists n :: Has(j, Settlement(o, n)) }

  ghost predicate PaidOnce(j: Journal, o: nat) {
    forall n, m :: Has(j, Settlement(o, n)) && Has(j, Settlement(o, m)) ==> n == m
  }

  ghost predicate RowOf(rows: A.Table, r: nat, o: nat) { r < |rows| && rows[r].order == o }

  datatype View = View(
    state: Option<OrderState>,  // C1's state of the order
    converted: bool,            // E2 is posted
    reversed: bool,             // its reversal is posted
    paid: bool,                 // E3 is posted
    paidOnce: bool,
    local: Option<LocalStatus>, // dispatch_state
    attempted: bool,            // it has an attempt row
    failed: bool,               // one that is FAILED
    sent: bool,                 // one that is BROADCAST or CONFIRMED
    confirmed: bool)            // one that is CONFIRMED

  ghost function ViewOf(l: Ledger, rows: A.Table, local: map<nat, LocalRow>, o: nat): View {
    View(
      if o < |l.orders| then Some(l.orders[o].state) else None,
      Has(l.journal, Conversion(o)),
      Has(l.journal, Reversal(Conversion(o))),
      Paid(l.journal, o),
      PaidOnce(l.journal, o),
      if o in local then Some(local[o].status) else None,
      exists r: nat :: RowOf(rows, r, o),
      exists r: nat :: RowOf(rows, r, o) && rows[r].status.Failed?,
      exists r: nat :: RowOf(rows, r, o) && (rows[r].status.Broadcast? || rows[r].status.Confirmed?),
      exists r: nat :: RowOf(rows, r, o) && rows[r].status.Confirmed?)
  }

  ghost function ViewAt(w: World, o: nat): View { ViewOf(w.ledger, w.att.rows, w.local, o) }

  /** The local tables never run ahead of C1, and C1's state tells which entries are posted. */
  ghost predicate ViewOk(v: View) {
    && (v.converted ==>
          v.state == Some(Dispatching) || v.state == Some(Settled) ||
          (v.reversed && (v.state == Some(Held) || v.state == Some(Refunded))))
    && (v.state == Some(Dispatching) || v.state == Some(Settled) ==> v.converted)
    && (v.reversed ==> v.converted && v.failed && v.local.Some?)
    && (v.paid <==> v.state == Some(Settled))
    && (v.paid ==> v.sent)
    && v.paidOnce
    && (v.local.Some? ==> v.converted)
    && (v.local == Some(LSettled) ==> v.paid)
    && (v.local == Some(LHeld) ==> v.reversed && (v.state == Some(Held) || v.state == Some(Refunded)))
    && (v.attempted ==> v.local.Some?)
    && (v.confirmed ==> v.local == Some(LSettled))
  }

  /** At most one attempt row per order. */
  ghost predicate OneAttempt(rows: A.Table) {
    forall r, q :: 0 <= r < q < |rows| ==> rows[r].order != rows[q].order
  }

  // ---------------------------------------------------------------- the journal

  /** What an entry does to a customer's TRC20 liability, by its key alone. */
  ghost function Effect(orders: seq<Order>, key: Key, c: nat): int {
    match key
    case Conversion(o) => if o < |orders| && orders[o].customer == c then -orders[o].amountOut else 0
    case Settlement(o, _) => if o < |orders| && orders[o].customer == c then orders[o].amountOut else 0
    case Reversal(k) =>
      if k.Conversion? && k.order < |orders| && orders[k.order].customer == c then orders[k.order].amountOut else 0
    case Foreign(_) => 0
  }

  ghost predicate EntryOk(orders: seq<Order>, e: Entry) {
    && Balanced(e.lines)
    && (e.key.Reversal? ==> e.key.of.Conversion? || e.key.of.Foreign?)
    && (forall c :: LineBalance(e.lines, Liability(c, TRC20)) == Effect(orders, e.key, c))
  }

  ghost predicate JournalOk(l: Ledger) {
    && (forall i :: 0 <= i < |l.journal| ==> EntryOk(l.orders, l.journal[i]))
    && (forall i, j :: 0 <= i < j < |l.journal| ==> l.journal[i].key != l.journal[j].key)
  }

  // ---------------------------------------------------------------- the threads

  /** A snapshot of an order agrees with C1 on the amounts frozen at quote time. */
  ghost predicate SameQuote(w: World, o: nat, snap: Order) {
    o < |w.ledger.orders| && snap.(state := Quoted, version := 0) == w.ledger.orders[o].(state := Quoted, version := 0)
  }

  /** Still screened: nothing has been posted or recorded for it. */
  ghost predicate Untouched(w: World, o: nat) {
    ViewAt(w, o).state == Some(Screened) && !ViewAt(w, o).converted && o !in w.pending
  }

  ghost predicate SentRow(w: World, o: nat, id: nat) {
    RowOf(w.att.rows, id, o) && (w.att.rows[id].status.Broadcast? || w.att.rows[id].status.Confirmed?)
  }

  ghost predicate OrchOk(w: World) {
    match w.orch
    case Looking(o, snap) => Untouched(w, o) && SameQuote(w, o, snap)
    case Selecting(o, snap) => Untouched(w, o) && SameQuote(w, o, snap)
    case Entering(o, snap, _, _, _, _) => Untouched(w, o) && SameQuote(w, o, snap)
    case Refetching(o, snap, _, _) => Untouched(w, o) && SameQuote(w, o, snap)
    case Recording(o, _, _) => ViewAt(w, o).converted && !ViewAt(w, o).attempted && o !in w.pending
    case Building(o, _) => ViewAt(w, o).local.Some? && !ViewAt(w, o).attempted && o !in w.pending
    case Sending(o, t) => ViewAt(w, o).local.Some? && t in w.att.threads
    case FetchingFinal(o, id) => SentRow(w, o, id)
    case Polling(o, snap, id) => SentRow(w, o, id) && SameQuote(w, o, snap)
    case Settling(o, snap, id, _, _, _) => SentRow(w, o, id) && SameQuote(w, o, snap)
    case RefetchingFinal(o, snap, id, _) => SentRow(w, o, id) && SameQuote(w, o, snap)
    case MarkingSettled(o, id) => SentRow(w, o, id) && ViewAt(w, o).paid
    case MarkingConfirmed(o, id) => SentRow(w, o, id) && ViewAt(w, o).local == Some(LSettled)
    case _ => true
  }

  ghost predicate ReconOk(w: World, r: Recon) {
    match r
    case Examining(o) => ViewAt(w, o).local.Some?
    case FetchingFailed(o) => ViewAt(w, o).failed && ViewAt(w, o).local.Some?
    case Resolving(o, _) => ViewAt(w, o).failed && ViewAt(w, o).local.Some?
    case Reversing(o, _, e) =>
      ViewAt(w, o).failed && ViewAt(w, o).local.Some?
        && e < |w.ledger.journal| && w.ledger.journal[e].key == Conversion(o)
    case Holding(o, _, _, _) => ViewAt(w, o).reversed
    case RefetchingHeld(o, _) => ViewAt(w, o).reversed
    case MarkingHeld(o) =>
      ViewAt(w, o).reversed && (ViewAt(w, o).state == Some(Held) || ViewAt(w, o).state == Some(Refunded))
    case Over | Closed => true
  }

  /** The only thread about to insert a row is the orchestrator's own, for an order without one;
      and rows are confirmed by the orchestrator itself. */
  ghost predicate AttemptThreadOk(w: World, t: nat)
    requires t in w.att.threads
  {
    match w.att.threads[t]
    case Inserting(a) => w.orch == Sending(a.order, t) && !ViewAt(w, a.order).attempted
    case Confirming(_) => false
    case _ => true
  }

  ghost predicate Inv(w: World) {
    && B.Inv(w.att)
    && JournalOk(w.ledger)
    && OneAttempt(w.att.rows)
    && (forall o :: ViewOk(ViewAt(w, o)))
    && (forall o :: o in w.pending ==> ViewAt(w, o).converted && w.pending[o].order == o)
    && OrchOk(w)
    && (forall p :: p in w.recon ==> ReconOk(w, w.recon[p]))
    && (forall t :: t in w.att.threads ==> AttemptThreadOk(w, t))
  }
}
