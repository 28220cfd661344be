/** Reconciliation keeps the invariant; so does every step, and so every run has it. */
module ReconciliationSafety {
  import opened Common
  import A = Attempts
  import B = BroadcastProtocol
  import opened Ledger
  import opened Lifecycle
  import opened LifecycleInvariant
  import opened LifecycleSafety
  import opened OrchestratorSafety
  import opened LifecycleRuns

  lemma GotoKeeps(w: World, p: nat, r: Recon)
    requires Inv(w) && ReconOk(w, r)
    ensures Inv(Goto(w, p, r))
  {
    var w' := Goto(w, p, r);
    forall o ensures ViewAt(w', o) == ViewAt(w, o) {}
    forall q | q in w'.recon ensures ReconOk(w', w'.recon[q]) {
      if q != p { assert ReconOk(w, w.recon[q]); }
    }
    forall t | t in w'.att.threads ensures AttemptThreadOk(w', t) { assert AttemptThreadOk(w, t); }
  }

  /** The reversal of E2 lands: its order has a failed attempt. */
  lemma ReversalKeeps(w: World, o: nat, i: nat, at: nat)
    requires Inv(w) && i < |w.ledger.journal| && w.ledger.journal[i].key == Conversion(o)
    requires ViewAt(w, o).failed && ViewAt(w, o).local.Some? && !Has(w.ledger.journal, Reversal(Conversion(o)))
    ensures
      var e := Entry(Reversal(Conversion(o)), Negated(w.ledger.journal[i].lines), at);
      var w' := w.(ledger := w.ledger.(journal := w.ledger.journal + [e]));
      Inv(w') && ViewAt(w', o).reversed
  {
    var e := Entry(Reversal(Conversion(o)), Negated(w.ledger.journal[i].lines), at);
    var l := w.ledger.(journal := w.ledger.journal + [e]);
    ReversalEntryOk(w.ledger, i, at);
    AppendJournalOk(w.ledger, e);
    forall q
      ensures ViewOk(ViewAt(w.(ledger := l), q)) && Grows(ViewAt(w, q), ViewAt(w.(ledger := l), q))
      ensures q == o ==> ViewAt(w.(ledger := l), q).reversed
    {
      assert ViewOk(ViewAt(w, q));
      ViewAppend(w.ledger, w.att.rows, w.local, e, q);
    }
    LedgerStep(w, l);
  }

  lemma ReverseKeeps(w: World, p: nat, reply: Reply, o: nat, version: nat, i: nat, at: nat)
    requires Inv(w) && ReconOk(w, Reversing(o, version, i))
    ensures Inv(DoReverse(w, p, reply, o, version, i, at))
  {
    var w' := DoReverse(w, p, reply, o, version, i, at);
    var w1 := w.(ledger := w'.ledger);
    if Reverse(w.ledger.journal, i, at).Reversed? {
      ReversalKeeps(w, o, i, at);
    }
    assert w' == Goto(w1, p, w'.recon[p]);
    GotoKeeps(w1, p, w'.recon[p]);
  }

  /** The order goes from dispatching to held. */
  lemma HeldKeeps(w: World, o: nat)
    requires Inv(w) && o < |w.ledger.orders| && w.ledger.orders[o].state.Dispatching? && ViewAt(w, o).reversed
    ensures
      var w' := w.(ledger := w.ledger.(orders := w.ledger.orders[o := Moved(w.ledger.orders[o], Held)]));
      Inv(w') && ViewAt(w', o).reversed && ViewAt(w', o).state == Some(Held)
  {
    var orders := w.ledger.orders[o := Moved(w.ledger.orders[o], Held)];
    var l := w.ledger.(orders := orders);
    KeysKnown(w);
    OrdersJournalOk(w.ledger, orders);
    forall q ensures ViewOk(ViewAt(w.(ledger := l), q)) && Grows(ViewAt(w, q), ViewAt(w.(ledger := l), q)) {
      assert ViewOk(ViewAt(w, q));
      assert ViewAt(w.(ledger := l), q) == ViewAt(w, q).(state := ViewAt(w.(ledger := l), q).state);
    }
    LedgerStep(w, l);
  }

  /** Where a turn of ReportDispatchFailure's loop can go. */
  lemma HoldShape(w: World, p: nat, reply: Reply, o: nat, version: nat, reversal: nat, retried: bool)
    ensures
      var w' := DoHold(w, p, reply, o, version, reversal, retried);
      && p in w'.recon && w' == Goto(w.(ledger := w'.ledger), p, w'.recon[p])
      && w'.recon[p] in {Over, MarkingHeld(o), RefetchingHeld(o, reversal)}
      && (w'.ledger == w.ledger ==> !w'.recon[p].MarkingHeld?)
      && (w'.ledger != w.ledger ==>
            && o < |w.ledger.orders| && Legal(w.ledger.orders[o].state, Held)
            && w'.ledger == w.ledger.(orders := w.ledger.orders[o := Moved(w.ledger.orders[o], Held)]))
  {}

  lemma HoldKeeps(w: World, p: nat, reply: Reply, o: nat, version: nat, reversal: nat, retried: bool)
    requires Inv(w) && ViewAt(w, o).reversed
    ensures Inv(DoHold(w, p, reply, o, version, reversal, retried))
  {
    var w' := DoHold(w, p, reply, o, version, reversal, retried);
    HoldShape(w, p, reply, o, version, reversal, retried);
    if w'.ledger != w.ledger {
      assert ViewOk(ViewAt(w, o));
      HeldKeeps(w, o);
    }
    GotoKeeps(w.(ledger := w'.ledger), p, w'.recon[p]);
  }

  lemma LocalHeldViews(w: World, o: nat)
    requires Inv(w) && o in w.local && w.local[o].status.LDispatching?
    requires ViewAt(w, o).reversed && (ViewAt(w, o).state == Some(Held) || ViewAt(w, o).state == Some(Refunded))
    ensures
      var w' := w.(local := w.local[o := w.local[o].(status := LHeld)]);
      forall q :: ViewOk(ViewAt(w', q)) && Grows(ViewAt(w, q), ViewAt(w', q))
        && ViewAt(w', q).attempted == ViewAt(w, q).attempted
  {
    var w' := w.(local := w.local[o := w.local[o].(status := LHeld)]);
    forall q
      ensures ViewOk(ViewAt(w', q)) && Grows(ViewAt(w, q), ViewAt(w', q))
        && ViewAt(w', q).attempted == ViewAt(w, q).attempted
    {
      assert ViewOk(ViewAt(w, q));
      assert ViewAt(w', q) == ViewAt(w, q).(local := ViewAt(w', q).local);
    }
  }

  /** dispatch_state follows: DISPATCHING to HELD. */
  lemma LocalHeldKeeps(w: World, o: nat)
    requires Inv(w) && o in w.local && w.local[o].status.LDispatching?
    requires ViewAt(w, o).reversed && (ViewAt(w, o).state == Some(Held) || ViewAt(w, o).state == Some(Refunded))
    ensures Inv(w.(local := w.local[o := w.local[o].(status := LHeld)]))
  {
    var w' := w.(local := w.local[o := w.local[o].(status := LHeld)]);
    LocalHeldViews(w, o);
    OrchFrame(w, w');
    ReconFrame(w, w');
    forall t | t in w'.att.threads ensures AttemptThreadOk(w', t) { assert AttemptThreadOk(w, t); }
  }

  lemma MarkHeldKeeps(w: World, p: nat, o: nat, reply: Reply, at: nat)
    requires Inv(w) && ReconOk(w, MarkingHeld(o)) && !reply.Failed?
    ensures Inv(DoRecon(w, p, MarkingHeld(o), reply, at))
  {
    if o in w.local && w.local[o].status.LDispatching? {
      LocalHeldKeeps(w, o);
      GotoKeeps(w.(local := w.local[o := w.local[o].(status := LHeld)]), p, if reply.Lost? then Over else Closed);
    } else {
      GotoKeeps(w, p, DoRecon(w, p, MarkingHeld(o), reply, at).recon[p]);
    }
  }

  lemma ReconKeeps(w: World, p: nat, r: Recon, reply: Reply, at: nat)
    requires Inv(w) && p in w.recon && w.recon[p] == r
    ensures Inv(DoRecon(w, p, r, reply, at))
  {
    assert ReconOk(w, r);
    if reply.Failed? && !r.Ended() {
      GotoKeeps(w, p, Over);
    } else {
      match r
      case Reversing(o, version, i) => ReverseKeeps(w, p, reply, o, version, i, at);
      case Holding(o, version, reversal, retried) => HoldKeeps(w, p, reply, o, version, reversal, retried);
      case MarkingHeld(o) => MarkHeldKeeps(w, p, o, reply, at);
      case Over | Closed =>
      case Examining(o) => ExamineKeeps(w, p, o, reply, at);
      case FetchingFailed(o) => FetchFailedKeeps(w, p, o, reply, at);
      case Resolving(o, version) => ResolveKeeps(w, p, o, version, reply, at);
      case RefetchingHeld(o, reversal) => RefetchHeldKeeps(w, p, o, reversal, reply, at);
    }
  }

  lemma FetchFailedKeeps(w: World, p: nat, o: nat, reply: Reply, at: nat)
    requires Inv(w) && ReconOk(w, FetchingFailed(o)) && !reply.Failed?
    ensures Inv(DoRecon(w, p, FetchingFailed(o), reply, at))
  {
    var w' := DoRecon(w, p, FetchingFailed(o), reply, at);
    GotoKeeps(w, p, w'.recon[p]);
  }

  lemma ResolveKeeps(w: World, p: nat, o: nat, version: nat, reply: Reply, at: nat)
    requires Inv(w) && ReconOk(w, Resolving(o, version)) && !reply.Failed?
    ensures Inv(DoRecon(w, p, Resolving(o, version), reply, at))
  {
    var w' := DoRecon(w, p, Resolving(o, version), reply, at);
    GotoKeeps(w, p, w'.recon[p]);
  }

  lemma RefetchHeldKeeps(w: World, p: nat, o: nat, reversal: nat, reply: Reply, at: nat)
    requires Inv(w) && ReconOk(w, RefetchingHeld(o, reversal)) && !reply.Failed?
    ensures Inv(DoRecon(w, p, RefetchingHeld(o, reversal), reply, at))
  {
    var w' := DoRecon(w, p, RefetchingHeld(o, reversal), reply, at);
    GotoKeeps(w, p, w'.recon[p]);
  }

  lemma ExamineKeeps(w: World, p: nat, o: nat, reply: Reply, at: nat)
    requires Inv(w) && ReconOk(w, Examining(o)) && !reply.Failed?
    ensures Inv(DoRecon(w, p, Examining(o), reply, at))
  {
    var latest := A.LatestForOrder(w.att.rows, o);
    if latest.Some? && w.att.rows[latest.value].status.Failed? {
      assert RowOf(w.att.rows, latest.value, o);
      GotoKeeps(w, p, FetchingFailed(o));
    } else {
      GotoKeeps(w, p, Over);
    }
  }

  // ---------------------------------------------------------------- the orchestrator's reads

  lemma FetchKeeps(w: World, o: nat)
    requires Inv(w) && w.orch == Fetching(o)
    ensures Inv(DoFetch(w, o))
  {
    NotSendingNobodyInserts(w);
    var w' := DoFetch(w, o);
    assert ViewOk(ViewAt(w, o));
    if w'.orch.Looking? { assert ViewAt(w, o).state == Some(Screened); }
    OrchMove(w, w'.orch, w.pending);
  }

  lemma FindLatestKeeps(w: World, o: nat)
    requires Inv(w) && w.orch == FindingLatest(o)
    ensures Inv(DoFindLatest(w, o))
  {
    NotSendingNobodyInserts(w);
    var w' := DoFindLatest(w, o);
    if w'.orch.FetchingFinal? {
      var latest := A.LatestForOrder(w.att.rows, o);
      assert RowOf(w.att.rows, latest.value, o);
    }
    OrchMove(w, w'.orch, w.pending);
  }

  lemma OrchReadKeeps(w: World, reply: Reply, slot: nat, at: nat, tx: Bytes, t: nat)
    requires Inv(w) && !reply.Failed? && (w.orch.Looking? || w.orch.Selecting? || w.orch.Refetching?)
    ensures Inv(DoOrch(w, reply, slot, at, tx, t))
  {
    NotSendingNobodyInserts(w);
    var w' := DoOrch(w, reply, slot, at, tx, t);
    assert w' == w.(orch := w'.orch);
    OrchMove(w, w'.orch, w.pending);
  }

  lemma OrchPollKeeps(w: World, reply: Reply, slot: nat, at: nat, tx: Bytes, t: nat)
    requires Inv(w) && !reply.Failed?
    requires w.orch.FetchingFinal? || w.orch.Polling? || w.orch.RefetchingFinal?
    ensures Inv(DoOrch(w, reply, slot, at, tx, t))
  {
    NotSendingNobodyInserts(w);
    var w' := DoOrch(w, reply, slot, at, tx, t);
    assert w' == w.(orch := w'.orch, pending := w'.pending);
    forall q ensures ViewAt(w', q) == ViewAt(w, q) {}
    OrchMove(w, w'.orch, w'.pending);
  }

  lemma OrchKeeps(w: World, reply: Reply, slot: nat, at: nat, tx: Bytes, t: nat)
    requires Inv(w)
    ensures Inv(DoOrch(w, reply, slot, at, tx, t))
  {
    if w.orch.Sending? {
    } else if reply.Failed? {
      NotSendingNobodyInserts(w);
      OrchMove(w, Idle, w.pending);
    } else {
      match w.orch
      case Entering(o, snap, s, a, v, retried) => EnterKeeps(w, reply, o, snap, s, a, v, retried);
      case Recording(o, s, a) => RecordKeeps(w, reply, o, s, a);
      case Building(o, s) => BuildKeeps(w, o, s, tx, t);
      case Settling(o, snap, id, a, v, retried) => SettleKeeps(w, reply, o, snap, id, a, v, retried);
      case MarkingSettled(o, id) => MarkSettledKeeps(w, reply, o, id);
      case MarkingConfirmed(o, id) => MarkConfirmedKeeps(w, reply, o, id);
      case FetchingFinal(_, _) => OrchPollKeeps(w, reply, slot, at, tx, t);
      case Polling(_, _, _) => OrchPollKeeps(w, reply, slot, at, tx, t);
      case RefetchingFinal(_, _, _, _) => OrchPollKeeps(w, reply, slot, at, tx, t);
      case Idle =>
      case Fetching(o) => FetchKeeps(w, o);
      case FindingLatest(o) => FindLatestKeeps(w, o);
      case _ => OrchReadKeeps(w, reply, slot, at, tx, t);
    }
  }

  lemma UserKeeps(w: World, act: Action)
    requires Inv(w) && (act.Quote? || act.Move? || act.PostForeign? || act.ReverseForeign? || act.SetHalt?)
    ensures Inv(Step(w, act))
  {
    match act
    case Quote(order) => QuoteKeeps(w, order);
    case Move(o, to, cause) => MoveKeeps(w, o, to, cause);
    case PostForeign(entry) => PostForeignKeeps(w, entry);
    case ReverseForeign(i, at) => ReverseForeignKeeps(w, i, at);
    case SetHalt(halted) => HaltKeeps(w, halted);
  }

  lemma FreezerKeeps(w: World, act: Action)
    requires Inv(w) && (act.Freeze? || act.FreezeStep? || act.FreezeCrash? || act.RetireSlot?)
    ensures Inv(Step(w, act))
  {
    match act
    case Freeze(t, id) => FreezeStepKeeps(w, B.StartFreeze(t, id));
    case FreezeStep(t, answer) => if !OwnThread(w, t) { FreezeStepKeeps(w, B.Advance(t, answer)); }
    case FreezeCrash(t) => if !OwnThread(w, t) { FreezeStepKeeps(w, B.Crash(t)); }
    case RetireSlot(slot) => FreezeStepKeeps(w, B.Retire(slot));
  }

  lemma StepKeeps(w: World, act: Action)
    requires Inv(w)
    ensures Inv(Step(w, act))
  {
    match act
    case Dispatch(o) => if w.orch.Idle? { StartOrchKeeps(w, Fetching(o)); }
    case Confirm(o) => if w.orch.Idle? { StartOrchKeeps(w, FindingLatest(o)); }
    case OrchStep(reply, slot, at, tx, t) => OrchKeeps(w, reply, slot, at, tx, t);
    case OrchBroadcast(answer) => BroadcastKeeps(w, answer);
    case OrchCrash => OrchCrashKeeps(w);
    case Reconcile(p, o) => if o in w.local { GotoKeeps(w, p, Examining(o)); }
    case ReconStep(p, reply, at) => if p in w.recon { ReconKeeps(w, p, w.recon[p], reply, at); }
    case Quote(_) => UserKeeps(w, act);
    case Move(_, _, _) => UserKeeps(w, act);
    case PostForeign(_) => UserKeeps(w, act);
    case ReverseForeign(_, _) => UserKeeps(w, act);
    case SetHalt(_) => UserKeeps(w, act);
    case _ => FreezerKeeps(w, act);
  }

  lemma StartOrchKeeps(w: World, pc: Orch)
    requires Inv(w) && w.orch.Idle? && (pc.Fetching? || pc.FindingLatest?)
    ensures Inv(w.(orch := pc))
  {
    NotSendingNobodyInserts(w);
    assert OrchOk(w.(orch := pc));
    OrchMove(w, pc, w.pending);
  }

  lemma InitKeeps()
    ensures Inv(Init())
  {
    forall o ensures ViewOk(ViewAt(Init(), o)) {
      var j: Journal := [];
      forall key ensures !Has(j, key) {}
    }
  }

  lemma {:induction false} RunKeeps(w: World, acts: seq<Action>)
    requires Inv(w)
    ensures Inv(Run(w, acts))
    decreases |acts|
  {
    if acts != [] {
      StepKeeps(w, acts[0]);
      RunKeeps(Step(w, acts[0]), acts[1..]);
    }
  }
}
