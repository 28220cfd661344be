/** The orchestrator's steps, those of reconciliation and of the freeze handlers keep the
    invariant; so every run does. */
module OrchestratorSafety {
  import opened Common
  import B = BroadcastProtocol
  import opened Ledger
  import opened Lifecycle
  import opened LifecycleInvariant
  import opened LifecycleSafety

  // ---------------------------------------------------------------- the orchestrator alone

  ghost predicate NobodyInserts(w: World) {
    forall t :: t in w.att.threads ==> !w.att.threads[t].Inserting?
  }

  lemma NotSendingNobodyInserts(w: World)
    requires Inv(w) && !w.orch.Sending?
    ensures NobodyInserts(w)
  {
    forall t | t in w.att.threads ensures !w.att.threads[t].Inserting? { assert AttemptThreadOk(w, t); }
  }

  /** Enough for a step of the orchestrator that leaves the attempts alone. */
  lemma Assemble(w: World, w': World)
    requires Inv(w) && NobodyInserts(w)
    requires w'.att == w.att && w'.recon == w.recon
    requires forall o :: o in w'.pending ==> o in w.pending && w'.pending[o] == w.pending[o]
    requires w.ledger.journal <= w'.ledger.journal && SameQuotes(w.ledger.orders, w'.ledger.orders)
      && JournalOk(w'.ledger)
    requires forall o :: ViewOk(ViewAt(w', o)) && Firm(ViewAt(w, o), ViewAt(w', o))
    requires OrchOk(w')
    ensures Inv(w')
  {
    ReconFrame(w, w');
    forall t | t in w'.att.threads ensures AttemptThreadOk(w', t) { assert AttemptThreadOk(w, t); }
    forall o | o in w'.pending ensures ViewAt(w', o).converted { assert Firm(ViewAt(w, o), ViewAt(w', o)); }
  }

  /** A step that only moves the orchestrator or forgets cached transfers. */
  lemma OrchMove(w: World, pc: Orch, pending: map<nat, B.Args>)
    requires Inv(w) && NobodyInserts(w)
    requires forall o :: o in pending ==> o in w.pending && pending[o] == w.pending[o]
    requires OrchOk(w.(orch := pc, pending := pending))
    ensures Inv(w.(orch := pc, pending := pending))
  {
    var w' := w.(orch := pc, pending := pending);
    forall o ensures ViewAt(w', o) == ViewAt(w, o) {}
    Assemble(w, w');
  }

  lemma SameQuoteSame(w: World, o: nat, snap: Order)
    requires SameQuote(w, o, snap)
    ensures ConversionLines(snap) == ConversionLines(w.ledger.orders[o])
    ensures forall slot :: SettlementLines(snap, slot) == SettlementLines(w.ledger.orders[o], slot)
    ensures snap.customer == w.ledger.orders[o].customer && snap.amountOut == w.ledger.orders[o].amountOut
  {
    var s, t := snap.(state := Quoted, version := 0), w.ledger.orders[o].(state := Quoted, version := 0);
    assert s.amountIn == t.amountIn && s.amountOut == t.amountOut && s.fee == t.fee
        && s.networkFee == t.networkFee && s.customer == t.customer;
  }

  lemma EnteredJournalOk(w: World, o: nat, to: OrderState, e: Entry)
    requires Inv(w) && o < |w.ledger.orders| && EntryOk(w.ledger.orders, e) && !Has(w.ledger.journal, e.key)
    ensures JournalOk(Entered(w.ledger, o, to, e))
  {
    var l := w.ledger;
    KeysKnown(w);
    var orders := l.orders[o := Moved(l.orders[o], to)];
    OrdersJournalOk(l, orders);
    assert EntryOk(orders, e) by {
      forall c ensures Effect(orders, e.key, c) == Effect(l.orders, e.key, c) {}
    }
    AppendJournalOk(l.(orders := orders), e);
  }

  lemma ViewEntered(w: World, o: nat, to: OrderState, e: Entry, q: nat)
    requires o < |w.ledger.orders| && !Has(w.ledger.journal, e.key)
    ensures
      var v, v' := ViewAt(w, q), ViewAt(w.(ledger := Entered(w.ledger, o, to, e)), q);
      && v'.state == (if q == o then Some(to) else v.state)
      && v'.converted == (v.converted || e.key == Conversion(q))
      && v'.reversed == (v.reversed || e.key == Reversal(Conversion(q)))
      && v'.paid == (v.paid || (e.key.Settlement? && e.key.order == q))
      && (v.paidOnce && !(v.paid && e.key.Settlement? && e.key.order == q) ==> v'.paidOnce)
      && v' == v.(state := v'.state, converted := v'.converted, reversed := v'.reversed, paid := v'.paid,
        paidOnce := v'.paidOnce)
  {
    ViewAppend(w.ledger, w.att.rows, w.local, e, q);
  }

  /** E2 lands. */
  lemma ConvertKeeps(w: World, o: nat, snap: Order, slot: nat, at: nat, pc: Orch)
    requires Inv(w) && !w.orch.Sending? && Untouched(w, o) && SameQuote(w, o, snap) && Acceptable(ConversionLines(snap))
    requires pc == Recording(o, slot, at) || pc == Idle
    ensures Inv(w.(ledger := Entered(w.ledger, o, Dispatching, Entry(Conversion(o), ConversionLines(snap), at)),
      orch := pc))
  {
    var e := Entry(Conversion(o), ConversionLines(snap), at);
    var w' := w.(ledger := Entered(w.ledger, o, Dispatching, e), orch := pc);
    SameQuoteSame(w, o, snap);
    ConversionBalance(w.ledger.orders[o]);
    EnteredJournalOk(w, o, Dispatching, e);
    NotSendingNobodyInserts(w);
    forall q ensures ViewOk(ViewAt(w', q)) && Firm(ViewAt(w, q), ViewAt(w', q)) {
      assert ViewOk(ViewAt(w, q));
      ViewEntered(w, o, Dispatching, e, q);
    }
    Assemble(w, w');
  }

  /** Where a turn of EnterDispatching's loop can go. */
  lemma EnterShape(w: World, reply: Reply, o: nat, snap: Order, slot: nat, at: nat, version: nat, retried: bool)
    requires w.orch == Entering(o, snap, slot, at, version, retried)
    ensures
      var (verdict, l) :=
        Transition(w.ledger, o, Dispatching, version, Inline(Entry(Conversion(o), ConversionLines(snap), at)));
      var w' := DoEnter(w, reply, o, snap, slot, at, version, retried);
      && w' == w.(ledger := l, orch := w'.orch)
      && (if verdict.Done? then w'.orch in {Idle, Recording(o, slot, at)}
          else w'.orch in {Idle, Refetching(o, snap, slot, at), w.orch})
  {}

  lemma EnterKeeps(w: World, reply: Reply, o: nat, snap: Order, slot: nat, at: nat, version: nat, retried: bool)
    requires Inv(w) && w.orch == Entering(o, snap, slot, at, version, retried)
    ensures Inv(DoEnter(w, reply, o, snap, slot, at, version, retried))
  {
    NotSendingNobodyInserts(w);
    var e := Entry(Conversion(o), ConversionLines(snap), at);
    EnterShape(w, reply, o, snap, slot, at, version, retried);
    TransitionNewEntry(w.ledger, o, Dispatching, version, e);
    var pc := DoEnter(w, reply, o, snap, slot, at, version, retried).orch;
    if Transition(w.ledger, o, Dispatching, version, Inline(e)).0.Done? {
      ConvertKeeps(w, o, snap, slot, at, pc);
    } else {
      assert OrchOk(w.(orch := pc));
      OrchMove(w, pc, w.pending);
    }
  }

  // ---------------------------------------------------------------- dispatch_state

  /** A row of dispatch_state is inserted or moves from DISPATCHING to where C1 already is. */
  lemma LocalStep(w: World, o: nat, row: LocalRow, pc: Orch)
    requires Inv(w) && NobodyInserts(w) && ViewAt(w, o).converted
    requires o in w.local ==> w.local[o].status.LDispatching?
    requires row.status.LSettled? ==> ViewAt(w, o).paid
    requires row.status.LHeld? ==>
      ViewAt(w, o).reversed && (ViewAt(w, o).state == Some(Held) || ViewAt(w, o).state == Some(Refunded))
    requires OrchOk(w.(local := w.local[o := row], orch := pc))
    ensures Inv(w.(local := w.local[o := row], orch := pc))
  {
    var w' := w.(local := w.local[o := row], orch := pc);
    forall q ensures ViewOk(ViewAt(w', q)) && Firm(ViewAt(w, q), ViewAt(w', q)) {
      assert ViewOk(ViewAt(w, q));
      assert ViewAt(w', q) == ViewAt(w, q).(local := ViewAt(w', q).local);
    }
    Assemble(w, w');
  }

  lemma RecordKeeps(w: World, reply: Reply, o: nat, slot: nat, at: nat)
    requires Inv(w) && w.orch == Recording(o, slot, at)
    ensures Inv(DoRecord(w, reply, o, slot, at))
  {
    NotSendingNobodyInserts(w);
    var pc := DoRecord(w, reply, o, slot, at).orch;
    if o in w.local {
      assert OrchOk(w.(orch := pc));
      OrchMove(w, pc, w.pending);
    } else {
      var row := LocalRow(slot, LDispatching, at);
      var w' := w.(local := w.local[o := row], orch := pc);
      assert ViewAt(w', o) == ViewAt(w, o).(local := Some(LDispatching));
      LocalStep(w, o, row, pc);
    }
  }

  lemma MarkedKeeps(w: World, o: nat, id: nat, pc: Orch)
    requires Inv(w) && w.orch == MarkingSettled(o, id) && (pc == Idle || pc == MarkingConfirmed(o, id))
    requires o in w.local && w.local[o].status.LDispatching?
    ensures Inv(w.(local := w.local[o := w.local[o].(status := LSettled)], orch := pc))
  {
    NotSendingNobodyInserts(w);
    var row := w.local[o].(status := LSettled);
    var w' := w.(local := w.local[o := row], orch := pc);
    assert ViewAt(w', o) == ViewAt(w, o).(local := Some(LSettled));
    LocalStep(w, o, row, pc);
  }

  lemma MarkSettledKeeps(w: World, reply: Reply, o: nat, id: nat)
    requires Inv(w) && w.orch == MarkingSettled(o, id)
    ensures Inv(DoMarkSettled(w, reply, o, id))
  {
    var pc := DoMarkSettled(w, reply, o, id).orch;
    if o in w.local && w.local[o].status.LDispatching? {
      MarkedKeeps(w, o, id, pc);
    } else {
      NotSendingNobodyInserts(w);
      OrchMove(w, pc, w.pending);
    }
  }

  // ---------------------------------------------------------------- settling

  lemma SettledKeeps(w: World, o: nat, snap: Order, id: nat, at: nat, pc: Orch)
    requires Inv(w) && !w.orch.Sending? && SentRow(w, o, id) && SameQuote(w, o, snap)
    requires w.ledger.orders[o].state.Dispatching?
    requires pc == MarkingSettled(o, id) || pc == Idle
    ensures
      var e := Entry(Settlement(o, w.att.rows[id].number), SettlementLines(snap, w.att.rows[id].slot), at);
      Inv(w.(ledger := Entered(w.ledger, o, Settled, e), orch := pc))
  {
    var row := w.att.rows[id];
    var e := Entry(Settlement(o, row.number), SettlementLines(snap, row.slot), at);
    var w' := w.(ledger := Entered(w.ledger, o, Settled, e), orch := pc);
    SameQuoteSame(w, o, snap);
    SettlementBalance(w.ledger.orders[o], row.slot);
    assert ViewOk(ViewAt(w, o));
    assert !Has(w.ledger.journal, e.key);
    EnteredJournalOk(w, o, Settled, e);
    NotSendingNobodyInserts(w);
    forall q ensures ViewOk(ViewAt(w', q)) && Firm(ViewAt(w, q), ViewAt(w', q)) {
      assert ViewOk(ViewAt(w, q));
      ViewEntered(w, o, Settled, e, q);
    }
    Assemble(w, w');
  }

  /** The answer to a settlement request: E3 lands on a dispatching order, or nothing changes. */
  lemma SettleVerdict(w: World, o: nat, version: nat, e: Entry)
    requires Inv(w) && o < |w.ledger.orders| && e.key.Settlement? && e.key.order == o
    ensures
      var (verdict, l') := Transition(w.ledger, o, Settled, version, Inline(e));
      && (l' == w.ledger
        || (verdict.Done? && w.ledger.orders[o].state.Dispatching? && l' == Entered(w.ledger, o, Settled, e)))
      && (verdict.Done? && l' == w.ledger ==> ViewAt(w, o).paid)
  {
    assert ViewOk(ViewAt(w, o));
    if w.ledger.orders[o].state.Dispatching? {
      assert !Has(w.ledger.journal, e.key);
      TransitionNewEntry(w.ledger, o, Settled, version, e);
    } else {
      TransitionIllegal(w.ledger, o, Settled, version, Inline(e));
    }
  }

  /** Where a turn of settleOrder's loop can go. */
  lemma SettleShape(w: World, reply: Reply, o: nat, snap: Order, id: nat, at: nat, version: nat, retried: bool)
    requires w.orch == Settling(o, snap, id, at, version, retried) && id < |w.att.rows|
    ensures
      var e := Entry(Settlement(o, w.att.rows[id].number), SettlementLines(snap, w.att.rows[id].slot), at);
      var (verdict, l) := Transition(w.ledger, o, Settled, version, Inline(e));
      var w' := DoSettle(w, reply, o, snap, id, at, version, retried);
      && w' == w.(ledger := l, orch := w'.orch)
      && (if verdict.Done? then w'.orch in {Idle, MarkingSettled(o, id)}
          else w'.orch in {Idle, RefetchingFinal(o, snap, id, at), w.orch})
  {}

  lemma SettleKeeps(w: World, reply: Reply, o: nat, snap: Order, id: nat, at: nat, version: nat, retried: bool)
    requires Inv(w) && w.orch == Settling(o, snap, id, at, version, retried)
    ensures Inv(DoSettle(w, reply, o, snap, id, at, version, retried))
  {
    NotSendingNobodyInserts(w);
    var e := Entry(Settlement(o, w.att.rows[id].number), SettlementLines(snap, w.att.rows[id].slot), at);
    SettleShape(w, reply, o, snap, id, at, version, retried);
    SettleVerdict(w, o, version, e);
    var w' := DoSettle(w, reply, o, snap, id, at, version, retried);
    if w'.ledger == w.ledger {
      assert OrchOk(w.(orch := w'.orch));
      OrchMove(w, w'.orch, w.pending);
    } else {
      SettledKeeps(w, o, snap, id, at, w'.orch);
    }
  }
}
