/** What every run of the order lifecycle guarantees, and the one assumption it needs. */
module LifecycleTheorems {
  import opened Common
  import B = BroadcastProtocol
  import opened Ledger
  import opened Lifecycle
  import opened LifecycleInvariant
  import opened LifecycleSafety
  import R = ReconciliationSafety
  import C = Conservation

  lemma Reachable(acts: seq<Action>)
    ensures Inv(Run(Init(), acts))
  {
    R.InitKeeps();
    R.RunKeeps(Init(), acts);
  }

  /** No order's conversion is both reversed and settled, none is settled under two attempts, and
      neither happens to an order that was never converted. */
  lemma NeverReversedAndSettled(acts: seq<Action>, o: nat)
    ensures
      var j := Run(Init(), acts).ledger.journal;
      && !(Has(j, Reversal(Conversion(o))) && Paid(j, o))
      && PaidOnce(j, o)
      && (Has(j, Reversal(Conversion(o))) || Paid(j, o) ==> Has(j, Conversion(o)))
  {
    Reachable(acts);
    var w := Run(Init(), acts);
    C.NeverBoth(w, o);
    assert ViewOk(ViewAt(w, o));
  }

  /** Whatever the crash points: a dispatch_state row says E2 is posted, SETTLED that E3 is, HELD
      that the reversal is and the order held, and a CONFIRMED attempt that its order is SETTLED. */
  lemma LocalNeverAhead(acts: seq<Action>, o: nat)
    ensures
      var w := Run(Init(), acts);
      && (o in w.local ==> Has(w.ledger.journal, Conversion(o)))
      && (o in w.local && w.local[o].status.LSettled? ==>
            Paid(w.ledger.journal, o) && o < |w.ledger.orders| && w.ledger.orders[o].state.Settled?)
      && (o in w.local && w.local[o].status.LHeld? ==>
            && Has(w.ledger.journal, Reversal(Conversion(o)))
            && o < |w.ledger.orders| && (w.ledger.orders[o].state.Held? || w.ledger.orders[o].state.Refunded?))
      && (forall r :: 0 <= r < |w.att.rows| && w.att.rows[r].order == o ==> o in w.local)
      && (forall r :: 0 <= r < |w.att.rows| && w.att.rows[r].order == o && w.att.rows[r].status.Confirmed? ==>
            o in w.local && w.local[o].status.LSettled?)
  {
    Reachable(acts);
    var w := Run(Init(), acts);
    assert ViewOk(ViewAt(w, o));
    forall r | 0 <= r < |w.att.rows| && w.att.rows[r].order == o ensures ViewAt(w, o).attempted {
      assert RowOf(w.att.rows, r, o);
    }
    forall r | 0 <= r < |w.att.rows| && w.att.rows[r].order == o && w.att.rows[r].status.Confirmed?
      ensures ViewAt(w, o).confirmed
    {
      assert RowOf(w.att.rows, r, o);
    }
  }

  // ---------------------------------------------------------------- absorbing states

  ghost predicate LocalForward(w: World, w': World) {
    forall o :: o in w.local ==>
      && o in w'.local && w'.local[o].slot == w.local[o].slot && w'.local[o].enteredAt == w.local[o].enteredAt
      && (!w.local[o].status.LDispatching? ==> w'.local[o] == w.local[o])
  }

  lemma StepLocal(w: World, act: Action)
    ensures LocalForward(w, Step(w, act))
  {
    match act
    case OrchStep(reply, slot, at, tx, t) => OrchStepLocal(w, reply, slot, at, tx, t);
    case ReconStep(p, reply, at) => if p in w.recon { ReconStepLocal(w, p, w.recon[p], reply, at); }
    case _ =>
  }

  lemma OrchStepLocal(w: World, reply: Reply, slot: nat, at: nat, tx: Bytes, t: nat)
    ensures LocalForward(w, DoOrch(w, reply, slot, at, tx, t))
  {
    if !reply.Failed? && (w.orch.Entering? || w.orch.Settling? || w.orch.Building?) {
      RequestsLeaveLocal(w, reply, slot, at, tx, t);
    }
  }

  lemma RequestsLeaveLocal(w: World, reply: Reply, slot: nat, at: nat, tx: Bytes, t: nat)
    requires !reply.Failed? && (w.orch.Entering? || w.orch.Settling? || w.orch.Building?)
    ensures DoOrch(w, reply, slot, at, tx, t).local == w.local
  {}

  lemma ReconStepLocal(w: World, p: nat, r: Recon, reply: Reply, at: nat)
    ensures LocalForward(w, DoRecon(w, p, r, reply, at))
  {}

  lemma {:induction false} RunLocal(w: World, acts: seq<Action>)
    ensures LocalForward(w, Run(w, acts))
    decreases |acts|
  {
    if acts != [] {
      StepLocal(w, acts[0]);
      RunLocal(Step(w, acts[0]), acts[1..]);
    }
  }

  lemma {:induction false} RunConcat(w: World, before: seq<Action>, after: seq<Action>)
    ensures Run(w, before + after) == Run(Run(w, before), after)
    decreases |before|
  {
    if before == [] {
      assert before + after == after;
    } else {
      assert (before + after)[0] == before[0] && (before + after)[1..] == before[1..] + after;
      RunConcat(Step(w, before[0]), before[1..], after);
    }
  }

  /** SETTLED and HELD are absorbing: no continuation of any run leaves them, and the slot and the
      timestamp recorded on entering are never rewritten. */
  lemma SettledAndHeldAbsorb(before: seq<Action>, after: seq<Action>, o: nat)
    requires o in Run(Init(), before).local
    ensures
      var row := Run(Init(), before).local[o];
      var w' := Run(Init(), before + after);
      && o in w'.local && w'.local[o].slot == row.slot && w'.local[o].enteredAt == row.enteredAt
      && (row.status.LSettled? || row.status.LHeld? ==> w'.local[o] == row)
  {
    RunConcat(Init(), before, after);
    RunLocal(Run(Init(), before), after);
  }

  // ---------------------------------------------------------------- one payout per order

  /** Two chain calls of a run carry the same signed transaction exactly when they are for the same
      order: whatever the crashes and restarts, one order, one transaction. */
  lemma OneTransactionPerOrder(acts: seq<Action>, i: nat, j: nat)
    requires i < |Run(Init(), acts).att.calls| && j < |Run(Init(), acts).att.calls|
    ensures
      var att := Run(Init(), acts).att;
      && att.calls[i].row < |att.rows| && att.calls[j].row < |att.rows|
      && (att.calls[i].tx == att.calls[j].tx <==> att.rows[att.calls[i].row].order == att.rows[att.calls[j].row].order)
  {
    Reachable(acts);
    var w := Run(Init(), acts);
    assert B.CallOk(w.att, w.att.calls[i]) && B.CallOk(w.att, w.att.calls[j]);
  }

  ghost predicate CallFor(att: B.World, k: nat, o: nat) {
    k < |att.calls| && att.calls[k].row < |att.rows| && att.rows[att.calls[k].row].order == o
  }

  /** A settled order was really paid: one call of its transaction was accepted and committed, and
      every other call made for it belongs to a rolled-back transaction. */
  lemma SettledWasSent(acts: seq<Action>, o: nat) returns (k: nat)
    requires Paid(Run(Init(), acts).ledger.journal, o)
    ensures
      var att := Run(Init(), acts).att;
      && CallFor(att, k, o) && att.calls[k].accepted && att.calls[k].fate.Committed?
      && forall i: nat :: CallFor(att, i, o) && i != k ==> att.calls[i].fate.RolledBack?
  {
    Reachable(acts);
    var w := Run(Init(), acts);
    assert ViewOk(ViewAt(w, o)) && ViewAt(w, o).sent;
    var r: nat :| RowOf(w.att.rows, r, o) && (w.att.rows[r].status.Broadcast? || w.att.rows[r].status.Confirmed?);
    assert B.RowOk(w.att, r);
    k :| 0 <= k < |w.att.calls| && w.att.calls[k].row == r && w.att.calls[k].fate.Committed?;
    assert B.CallOk(w.att, w.att.calls[k]);
    forall i: nat | CallFor(w.att, i, o) && i != k ensures w.att.calls[i].fate.RolledBack? {
      assert w.att.calls[i].row == r;
      if k < i { assert false; }
    }
  }

  /** An order whose conversion is reversed has no committed call: money can only have left for it
      in a transaction that was rolled back after the chain call. */
  lemma ReversedWasNotSent(w: World, o: nat, k: nat)
    requires Inv(w) && ViewAt(w, o).reversed && CallFor(w.att, k, o)
    ensures w.att.calls[k].fate.RolledBack?
  {
    assert ViewOk(ViewAt(w, o));
    var r: nat :| RowOf(w.att.rows, r, o) && w.att.rows[r].status.Failed?;
    assert w.att.calls[k].row == r;
    assert B.CallOk(w.att, w.att.calls[k]);
  }

  lemma ReversedSendsNothing(acts: seq<Action>, o: nat, k: nat)
    requires Has(Run(Init(), acts).ledger.journal, Reversal(Conversion(o))) && CallFor(Run(Init(), acts).att, k, o)
    ensures Run(Init(), acts).att.calls[k].fate.RolledBack?
  {
    Reachable(acts);
    ReversedWasNotSent(Run(Init(), acts), o, k);
  }

  // ---------------------------------------------------------------- which orders can be converted

  /** EnterDispatching's request on a fresh read of a screened, unconverted order succeeds exactly
      when C1 is not halted, the amounts add up and none of them is zero. In particular an order
      quoted without a fee never leaves screened. */
  lemma EnteringSucceedsIff(w: World, o: nat, at: nat)
    requires Inv(w) && o < |w.ledger.orders| && w.ledger.orders[o].state.Screened?
    ensures
      var order := w.ledger.orders[o];
      var e := Entry(Conversion(o), ConversionLines(order), at);
      Transition(w.ledger, o, Dispatching, order.version, Inline(e)).0.Done? <==>
      && !w.ledger.halted
      && order.amountIn == order.amountOut + order.fee + order.networkFee
      && order.amountIn != 0 && order.amountOut != 0 && order.fee != 0 && order.networkFee != 0
  {
    assert ViewOk(ViewAt(w, o));
    ConversionBalance(w.ledger.orders[o]);
    TransitionNewEntry(w.ledger, o, Dispatching, w.ledger.orders[o].version,
                       Entry(Conversion(o), ConversionLines(w.ledger.orders[o]), at));
  }
}
