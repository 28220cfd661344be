/** What reconciliation and confirmation do not catch up on: the dispatch_state row that was not
    marked when C1 had already moved. */
module MissedMarks {
  import opened Common
  import opened Ledger
  import opened Lifecycle
  import opened LifecycleInvariant

  /** C1 has the order held (or since refunded), the row still says DISPATCHING, and nobody is just
      about to mark it: the pass that held it died in between. */
  ghost predicate Missed(w: World, o: nat) {
    && o < |w.ledger.orders| && (w.ledger.orders[o].state.Held? || w.ledger.orders[o].state.Refunded?)
    && Has(w.ledger.journal, Conversion(o))
    && o in w.local && w.local[o].status.LDispatching?
    && Unmarked(w, o)
  }

  ghost predicate Unmarked(w: World, o: nat) {
    && (w.orch.MarkingSettled? ==> w.orch.o != o)
    && forall p :: p in w.recon ==> w.recon[p] != MarkingHeld(o)
  }

  lemma MoveRefused(w: World, o: nat, to: OrderState, version: nat, cause: Cause)
    requires Missed(w, o) && to in {Held, Settled} && (to.Held? ==> cause.Existing?)
    ensures !Transition(w.ledger, o, to, version, cause).0.Done?
  {}

  ghost predicate Untouched(w: World, w': World, o: nat)
    requires o in w.local
  {
    Unmarked(w', o) && o in w'.local && w'.local[o] == w.local[o]
  }

  lemma SettleUnmarked(w: World, reply: Reply, o: nat)
    requires Missed(w, o) && w.orch.Settling?
    ensures var c := w.orch; Untouched(w, DoSettle(w, reply, c.o, c.snap, c.id, c.at, c.version, c.retried), o)
  {
    if w.orch.o == o && w.orch.id < |w.att.rows| {
      var row := w.att.rows[w.orch.id];
      MoveRefused(w, o, Settled, w.orch.version,
        Inline(Entry(Settlement(o, row.number), SettlementLines(w.orch.snap, row.slot), w.orch.at)));
    }
  }

  lemma OrchStepUnmarked(w: World, reply: Reply, slot: nat, at: nat, tx: Bytes, t: nat, o: nat)
    requires Missed(w, o)
    ensures Untouched(w, DoOrch(w, reply, slot, at, tx, t), o)
  {
    if !reply.Failed? && w.orch.Settling? { SettleUnmarked(w, reply, o); }
    else if !reply.Failed? { OtherStepUnmarked(w, reply, slot, at, tx, t, o); }
  }

  lemma OtherStepUnmarked(w: World, reply: Reply, slot: nat, at: nat, tx: Bytes, t: nat, o: nat)
    requires Missed(w, o) && !w.orch.Settling? && !reply.Failed?
    ensures Untouched(w, DoOrch(w, reply, slot, at, tx, t), o)
  {
    if w.orch.Entering? {
      EnterUnmarked(w, reply, o);
    } else if w.orch.Building? {
      assert Untouched(w, DoBuild(w, w.orch.o, w.orch.slot, tx, t), o);
    }
  }

  lemma EnterUnmarked(w: World, reply: Reply, o: nat)
    requires Missed(w, o) && w.orch.Entering?
    ensures
      var c := w.orch;
      Untouched(w, DoEnter(w, reply, c.o, c.snap, c.slot, c.at, c.version, c.retried), o)
  {}

  lemma ReconStepUnmarked(w: World, p: nat, reply: Reply, at: nat, o: nat)
    requires Missed(w, o) && p in w.recon
    ensures Untouched(w, DoRecon(w, p, w.recon[p], reply, at), o)
  {
    if !reply.Failed? && w.recon[p].Holding? && w.recon[p].o == o {
      MoveRefused(w, o, Held, w.recon[p].version, Existing(w.recon[p].reversal));
    }
  }

  lemma StepMisses(w: World, act: Action, o: nat)
    requires Missed(w, o)
    ensures Missed(Step(w, act), o)
  {
    StepUnmarked(w, act, o);
    StepStaysHeld(w, act, o);
  }

  lemma StepUnmarked(w: World, act: Action, o: nat)
    requires Missed(w, o)
    ensures Untouched(w, Step(w, act), o)
  {
    match act
    case OrchStep(reply, slot, at, tx, t) => OrchStepUnmarked(w, reply, slot, at, tx, t, o);
    case ReconStep(p, reply, at) => if p in w.recon { ReconStepUnmarked(w, p, reply, at, o); }
    case _ =>
  }

  ghost predicate HeldIn(l: Ledger, o: nat) {
    o < |l.orders| && (l.orders[o].state.Held? || l.orders[o].state.Refunded?) && Has(l.journal, Conversion(o))
  }

  lemma AppendStays(l: Ledger, e: Entry, o: nat)
    requires HeldIn(l, o)
    ensures HeldIn(l.(journal := l.journal + [e]), o)
  {
    HasAppend(l.journal, e, Conversion(o));
  }

  /** A held order leaves held only for refunded, or by a release to screened. */
  lemma TransitionStays(l: Ledger, q: nat, to: OrderState, version: nat, cause: Cause, o: nat)
    requires HeldIn(l, o) && !(q == o && to.Screened?)
    ensures HeldIn(Transition(l, q, to, version, cause).1, o)
  {
    var l' := Transition(l, q, to, version, cause).1;
    if cause.Inline? && l'.journal != l.journal {
      HasAppend(l.journal, cause.entry, Conversion(o));
    }
  }

  lemma StepStaysHeld(w: World, act: Action, o: nat)
    requires Missed(w, o)
    ensures HeldIn(Step(w, act).ledger, o)
  {
    match act
    case Move(q, to, cause) => MoveStays(w, q, to, cause, o);
    case PostForeign(e) => AppendStays(w.ledger, e, o);
    case ReverseForeign(i, at) =>
      if i < |w.ledger.journal| {
        AppendStays(w.ledger, Entry(Reversal(w.ledger.journal[i].key), Negated(w.ledger.journal[i].lines), at), o);
      }
    case OrchStep(reply, slot, at, tx, t) => OrchStays(w, reply, slot, at, tx, t, o);
    case ReconStep(p, reply, at) => if p in w.recon { ReconStays(w, p, w.recon[p], reply, at, o); }
    case _ =>
  }

  lemma MoveStays(w: World, q: nat, to: OrderState, cause: Option<Entry>, o: nat)
    requires HeldIn(w.ledger, o)
    ensures HeldIn(DoMove(w, q, to, cause).ledger, o)
  {
    if DoMove(w, q, to, cause) != w {
      var posted := if cause.Some? then Inline(cause.value) else NoEntry;
      TransitionStays(w.ledger, q, to, w.ledger.orders[q].version, posted, o);
    }
  }

  lemma OrchStays(w: World, reply: Reply, slot: nat, at: nat, tx: Bytes, t: nat, o: nat)
    requires HeldIn(w.ledger, o)
    ensures HeldIn(DoOrch(w, reply, slot, at, tx, t).ledger, o)
  {
    if w.orch.Entering? {
      var e := Entry(Conversion(w.orch.o), ConversionLines(w.orch.snap), w.orch.at);
      TransitionStays(w.ledger, w.orch.o, Dispatching, w.orch.version, Inline(e), o);
    } else if w.orch.Settling? && w.orch.id < |w.att.rows| {
      var row := w.att.rows[w.orch.id];
      var e := Entry(Settlement(w.orch.o, row.number), SettlementLines(w.orch.snap, row.slot), w.orch.at);
      TransitionStays(w.ledger, w.orch.o, Settled, w.orch.version, Inline(e), o);
    }
  }

  lemma ReconStays(w: World, p: nat, r: Recon, reply: Reply, at: nat, o: nat)
    requires HeldIn(w.ledger, o)
    ensures HeldIn(DoRecon(w, p, r, reply, at).ledger, o)
  {
    if r.Reversing? && r.entry < |w.ledger.journal| {
      AppendStays(w.ledger,
        Entry(Reversal(w.ledger.journal[r.entry].key), Negated(w.ledger.journal[r.entry].lines), at), o);
    } else if r.Holding? {
      TransitionStays(w.ledger, r.o, Held, r.version, Existing(r.reversal), o);
    }
  }

  /** Once a pass has died between C1's hold and MarkHeld, no later pass marks the row: it stays
      DISPATCHING, listed by every pass and skipped by it, in every continuation. */
  lemma {:induction false} MissedForever(w: World, acts: seq<Action>, o: nat)
    requires Missed(w, o)
    ensures Missed(Run(w, acts), o)
    decreases |acts|
  {
    if acts != [] {
      StepMisses(w, acts[0], o);
      MissedForever(Step(w, acts[0]), acts[1..], o);
    }
  }

  ghost predicate MarksHeld(w: World, acts: seq<Action>, o: nat) {
    o in Run(w, acts).local && Run(w, acts).local[o].status.LHeld?
  }

  lemma MarkNow(w: World, p: nat, o: nat)
    requires p in w.recon && w.recon[p] == MarkingHeld(o) && o in w.local && w.local[o].status.LDispatching?
    ensures MarksHeld(w, [ReconStep(p, Ok, 0)], o)
  {
    assert [ReconStep(p, Ok, 0)][1..] == [];
    assert Run(Step(w, ReconStep(p, Ok, 0)), []) == Step(w, ReconStep(p, Ok, 0));
  }

  /** Of an order C1 has converted and now holds or has refunded, whose row is DISPATCHING: some
      continuation marks the row HELD if and only if a pass is just about to. */
  lemma MarkedIff(w: World, o: nat)
    requires Inv(w) && HeldIn(w.ledger, o) && o in w.local && w.local[o].status.LDispatching?
    ensures (exists acts :: MarksHeld(w, acts, o)) <==> exists p :: p in w.recon && w.recon[p] == MarkingHeld(o)
  {
    if p :| p in w.recon && w.recon[p] == MarkingHeld(o) {
      MarkNow(w, p, o);
    } else {
      assert ViewOk(ViewAt(w, o));
      forall acts ensures !MarksHeld(w, acts, o) { MissedForever(w, acts, o); }
    }
  }

  /** C1 has an entry with the key and the payload of this one: the same lines and timestamp. */
  ghost predicate Recorded(j: Journal, e: Entry) {
    exists i :: 0 <= i < |j| && j[i].key == e.key && SamePayload(j[i], e)
  }

  /** A retry of a settlement C1 already has succeeds exactly when it carries the same lines and the
      same timestamp on a fresh version; confirmOne takes a new timestamp every time. */
  lemma SettlementRetryIff(w: World, o: nat, e: Entry)
    requires Inv(w) && o < |w.ledger.orders| && w.ledger.orders[o].state.Settled?
    requires e.key.Settlement? && e.key.order == o && Acceptable(e.lines)
    ensures Transition(w.ledger, o, Settled, w.ledger.orders[o].version, Inline(e)) ==
      (if Recorded(w.ledger.journal, e) then Verdict.Done else Verdict.Refused, w.ledger)
  {
    var j := w.ledger.journal;
    var found := Find(j, e.key);
    if found.Some? {
      forall i | 0 <= i < |j| && j[i].key == e.key ensures i == found.value {}
    }
  }
}
