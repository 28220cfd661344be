/** Orders of the Sweep queue are paid in batches: the orchestrator leaves them alone, in every run
    (dispatcher/internal/orchestrate/runloop.go, dispatchOne). */
module SweepOrders {
  import opened Common
  import A = Attempts
  import B = BroadcastProtocol
  import opened Ledger
  import opened Lifecycle
  import opened LifecycleInvariant
  import opened LifecycleSafety
  import opened LedgerGrowth
  import R = ReconciliationSafety
  import T = LifecycleTheorems

  /** The order is looked at, and not converted yet. */
  predicate Entrant(pc: Orch) { pc.Looking? || pc.Selecting? || pc.Entering? || pc.Refetching? }

  ghost predicate IsSweep(w: World, o: nat) { o < |w.ledger.orders| && w.ledger.orders[o].sweep }

  /** No Sweep order is converted by the dispatcher, or on its way to be. */
  ghost predicate SweepsAlone(w: World) {
    && (forall o: nat :: IsSweep(w, o) ==> !Has(w.ledger.journal, Conversion(o)))
    && (Entrant(w.orch) ==> !IsSweep(w, w.orch.o))
  }

  /** An order comes to be looked at only by dispatchOne's fetch, which passes over Sweep orders. */
  predicate FollowsOn(w: World, pc: Orch) {
    Entrant(pc) ==>
      (Entrant(w.orch) && w.orch.o == pc.o) || (pc.o < |w.ledger.orders| && !w.ledger.orders[pc.o].sweep)
  }

  lemma EntrantFrom(w: World, act: Action)
    ensures FollowsOn(w, Step(w, act).orch)
  {
    match act
    case OrchStep(reply, slot, at, tx, t) => OrchFollowsOn(w, reply, slot, at, tx, t);
    case OrchBroadcast(answer) => assert Step(w, act).orch.Idle? || Step(w, act).orch == w.orch;
    case ReconStep(p, reply, at) => if p in w.recon { assert DoRecon(w, p, w.recon[p], reply, at).orch == w.orch; }
    case _ =>
  }

  lemma OrchFollowsOn(w: World, reply: Reply, slot: nat, at: nat, tx: Bytes, t: nat)
    ensures FollowsOn(w, DoOrch(w, reply, slot, at, tx, t).orch)
  {
    if reply.Failed? && !w.orch.Sending? {
    } else if w.orch.Settling? {
      SettleFollowsOn(w, reply);
    } else if w.orch.Entering? {
      EnterFollowsOn(w, reply);
    } else if w.orch.Fetching? {
      FetchFollowsOn(w, w.orch.o);
    } else if w.orch.Building? {
      BuildFollowsOn(w, tx, t);
    } else if w.orch.Looking? || w.orch.Selecting? || w.orch.Refetching? {
      LookFollowsOn(w, reply, slot, at, tx, t);
    } else {
      OtherFollowsOn(w, reply, slot, at, tx, t);
    }
  }

  lemma SettleFollowsOn(w: World, reply: Reply)
    requires w.orch.Settling?
    ensures
      var c := w.orch;
      FollowsOn(w, DoSettle(w, reply, c.o, c.snap, c.id, c.at, c.version, c.retried).orch)
  {}

  lemma EnterFollowsOn(w: World, reply: Reply)
    requires w.orch.Entering?
    ensures
      var c := w.orch;
      FollowsOn(w, DoEnter(w, reply, c.o, c.snap, c.slot, c.at, c.version, c.retried).orch)
  {}

  lemma FetchFollowsOn(w: World, o: nat)
    ensures FollowsOn(w, DoFetch(w, o).orch)
  {}

  lemma BuildFollowsOn(w: World, tx: Bytes, t: nat)
    requires w.orch.Building?
    ensures FollowsOn(w, DoBuild(w, w.orch.o, w.orch.slot, tx, t).orch)
  {}

  lemma LookFollowsOn(w: World, reply: Reply, slot: nat, at: nat, tx: Bytes, t: nat)
    requires w.orch.Looking? || w.orch.Selecting? || w.orch.Refetching?
    ensures FollowsOn(w, DoOrch(w, reply, slot, at, tx, t).orch)
  {}

  lemma OtherFollowsOn(w: World, reply: Reply, slot: nat, at: nat, tx: Bytes, t: nat)
    requires !w.orch.Entering? && !w.orch.Settling? && !w.orch.Fetching? && !w.orch.Building?
    requires !w.orch.Looking? && !w.orch.Selecting? && !w.orch.Refetching?
    ensures FollowsOn(w, DoOrch(w, reply, slot, at, tx, t).orch)
  {}

  /** A conversion is posted only for the order looked at. */
  lemma ConvertsEntrant(w: World, act: Action, o: nat)
    requires Has(Step(w, act).ledger.journal, Conversion(o)) && !Has(w.ledger.journal, Conversion(o))
    ensures w.orch.Entering? && w.orch.o == o
  {
    StepGrows(w, act);
    var j := Step(w, act).ledger.journal;
    var e := j[|j| - 1];
    assert j == w.ledger.journal + [e];
    HasAppend(w.ledger.journal, e, Conversion(o));
  }

  lemma SweepUnconverted(w: World, act: Action, o: nat)
    requires Inv(w) && SweepsAlone(w) && IsSweep(Step(w, act), o)
    ensures !Has(Step(w, act).ledger.journal, Conversion(o))
  {
    WasUnconverted(w, act, o);
    if Has(Step(w, act).ledger.journal, Conversion(o)) { ConvertsEntrant(w, act, o); }
  }

  lemma WasUnconverted(w: World, act: Action, o: nat)
    requires Inv(w) && SweepsAlone(w) && IsSweep(Step(w, act), o)
    ensures !Has(w.ledger.journal, Conversion(o)) && !(Entrant(w.orch) && w.orch.o == o)
  {
    StepGrows(w, act);
    assert ViewOk(ViewAt(w, o));
    if o < |w.ledger.orders| { SameSweep(w.ledger.orders, Step(w, act).ledger.orders, o); }
  }

  lemma EntrantIsNoSweep(w: World, act: Action)
    requires Inv(w) && SweepsAlone(w) && Entrant(Step(w, act).orch)
    ensures !IsSweep(Step(w, act), Step(w, act).orch.o)
  {
    EntrantFrom(w, act);
    StepGrows(w, act);
    SameSweep(w.ledger.orders, Step(w, act).ledger.orders, Step(w, act).orch.o);
  }

  lemma StepSweeps(w: World, act: Action)
    requires Inv(w) && SweepsAlone(w)
    ensures SweepsAlone(Step(w, act))
  {
    forall o: nat | IsSweep(Step(w, act), o) ensures !Has(Step(w, act).ledger.journal, Conversion(o)) {
      SweepUnconverted(w, act, o);
    }
    if Entrant(Step(w, act).orch) { EntrantIsNoSweep(w, act); }
  }

  lemma SameSweep(orders: seq<Order>, orders': seq<Order>, o: nat)
    requires SameQuotes(orders, orders') && o < |orders|
    ensures orders'[o].sweep == orders[o].sweep
  {
    var s, t := orders[o].(state := Quoted, version := 0), orders'[o].(state := Quoted, version := 0);
    assert s == t && s.sweep == t.sweep;
  }

  lemma {:induction false} RunSweeps(w: World, acts: seq<Action>)
    requires Inv(w) && SweepsAlone(w)
    ensures Inv(Run(w, acts)) && SweepsAlone(Run(w, acts))
    decreases |acts|
  {
    if acts != [] {
      R.StepKeeps(w, acts[0]);
      StepSweeps(w, acts[0]);
      RunSweeps(Step(w, acts[0]), acts[1..]);
    }
  }

  /** In every run: a Sweep order has no conversion of the dispatcher's, no dispatch_state row, no
      attempt and no chain call. */
  lemma SweepsAreLeftAlone(acts: seq<Action>, o: nat)
    requires IsSweep(Run(Init(), acts), o)
    ensures
      var w := Run(Init(), acts);
      && !Has(w.ledger.journal, Conversion(o)) && o !in w.local
      && (forall r: nat :: !RowOf(w.att.rows, r, o))
      && (forall k: nat :: !T.CallFor(w.att, k, o))
  {
    R.InitKeeps();
    RunSweeps(Init(), acts);
    var w := Run(Init(), acts);
    assert ViewOk(ViewAt(w, o));
    assert !ViewAt(w, o).attempted;
    forall k: nat ensures !T.CallFor(w.att, k, o) {
      assert k < |w.att.calls| ==> !RowOf(w.att.rows, w.att.calls[k].row, o);
    }
  }
}
