/** What dispatchOne, confirmOne and a reconciliation pass achieve when nothing disturbs them, from
    every state the invariant allows (dispatcher/internal/orchestrate/runloop.go,
    dispatcher/internal/dispatch/finality.go, reconcile.go,
    dispatcher/internal/ledgerclient/dispatchfailure.go). */
module LifecycleProgress {
  import opened Common
  import A = Attempts
  import B = BroadcastProtocol
  import opened Ledger
  import opened Lifecycle
  import opened LifecycleInvariant
  import opened LifecycleSafety
  import R = ReconciliationSafety

  // ---------------------------------------------------------------- runs of one step again and again

  function Turns(act: Action, n: nat): seq<Action> { seq(n, _ => act) }

  lemma OneTurn(w: World, act: Action, n: nat)
    requires n > 0
    ensures Run(w, Turns(act, n)) == Run(Step(w, act), Turns(act, n - 1))
  {
    assert Turns(act, n)[1..] == Turns(act, n - 1);
  }

  lemma Began(w: World, first: Action, act: Action, n: nat)
    ensures Run(w, [first] + Turns(act, n)) == Run(Step(w, first), Turns(act, n))
  {
    assert ([first] + Turns(act, n))[1..] == Turns(act, n);
  }

  /** Where a step changes nothing, repeating it does not either. */
  lemma {:induction false} Stays(w: World, act: Action, n: nat)
    requires n > 0 ==> Step(w, act) == w
    ensures Run(w, Turns(act, n)) == w
  {
    if n > 0 {
      OneTurn(w, act, n);
      Stays(w, act, n - 1);
    }
  }

  // ---------------------------------------------------------------- dispatchOne

  /** dispatchOne from the start to its broadcast, with slot and time as they come. */
  function Dispatches(o: nat, slot: nat, at: nat, tx: Bytes, t: nat): seq<Action> {
    [Dispatch(o)] + Turns(OrchStep(Ok, slot, at, tx, t), 6)
  }

  ghost predicate Payable(order: Order) {
    && order.amountIn == order.amountOut + order.fee + order.networkFee
    && order.amountIn != 0 && order.amountOut != 0 && order.fee != 0 && order.networkFee != 0
  }

  /** Screened and for this orchestrator. */
  ghost predicate Eligible(w: World, o: nat) {
    o < |w.ledger.orders| && w.ledger.orders[o].state.Screened? && !w.ledger.orders[o].sweep
  }

  /** An order that is not screened, or is of the Sweep queue, is left alone. */
  lemma PassedOver(w: World, o: nat, slot: nat, at: nat, tx: Bytes, t: nat)
    requires w.orch.Idle? && !Eligible(w, o)
    ensures Run(w, Dispatches(o, slot, at, tx, t)) == w
  {
    var next := OrchStep(Ok, slot, at, tx, t);
    Began(w, Dispatch(o), next, 6);
    OneTurn(w.(orch := Fetching(o)), next, 6);
    Stays(w, next, 5);
  }

  lemma EnteringStep(w: World, o: nat, slot: nat, at: nat, tx: Bytes, t: nat)
    requires Inv(w) && Eligible(w, o)
    ensures
      var order := w.ledger.orders[o];
      var e := Entry(Conversion(o), ConversionLines(order), at);
      var pc := Entering(o, order, slot, at, order.version, false);
      Step(w.(orch := pc), OrchStep(Ok, slot, at, tx, t)) ==
        if w.ledger.halted then w.(orch := pc)
        else if Payable(order) then w.(ledger := Entered(w.ledger, o, Dispatching, e), orch := Recording(o, slot, at))
        else w.(orch := Idle)
  {
    var order := w.ledger.orders[o];
    assert ViewOk(ViewAt(w, o));
    ConversionBalance(order);
    EnteringVerdict(w.ledger, o, Entry(Conversion(o), ConversionLines(order), at));
  }

  /** C1's answer to a fresh request that enters dispatching. */
  lemma EnteringVerdict(l: Ledger, o: nat, e: Entry)
    requires o < |l.orders| && l.orders[o].state.Screened? && !Has(l.journal, e.key)
    ensures Transition(l, o, Dispatching, l.orders[o].version, Inline(e)) ==
      if l.halted then (Verdict.Halted, l)
      else if Acceptable(e.lines) then (Verdict.Done, Entered(l, o, Dispatching, e))
      else (Verdict.Refused, l)
  {}

  /** Neither converted nor attempted, so it goes on with a first attempt. */
  lemma FreshOrder(w: World, o: nat)
    requires Inv(w) && Eligible(w, o)
    ensures o !in w.local && A.LatestForOrder(w.att.rows, o).None? && o !in w.pending
  {
    assert ViewOk(ViewAt(w, o));
    var latest := A.LatestForOrder(w.att.rows, o);
    if latest.Some? { assert RowOf(w.att.rows, latest.value, o); }
  }

  /** dispatchOne up to its request. */
  lemma DispatchReads(w: World, o: nat, slot: nat, at: nat, tx: Bytes, t: nat)
    requires w.orch.Idle? && Eligible(w, o) && o !in w.local
    ensures
      var order, next := w.ledger.orders[o], OrchStep(Ok, slot, at, tx, t);
      Run(w, Dispatches(o, slot, at, tx, t)) ==
        Run(w.(orch := Entering(o, order, slot, at, order.version, false)), Turns(next, 3))
  {
    var order, next := w.ledger.orders[o], OrchStep(Ok, slot, at, tx, t);
    Began(w, Dispatch(o), next, 6);
    OneTurn(w.(orch := Fetching(o)), next, 6);
    OneTurn(w.(orch := Looking(o, order)), next, 5);
    OneTurn(w.(orch := Selecting(o, order)), next, 4);
  }

  /** What follows the conversion: the row, and the first attempt of the order. */
  lemma EnteredGoesOn(w: World, o: nat, slot: nat, at: nat, tx: Bytes, t: nat)
    requires w.orch == Recording(o, slot, at) && o !in w.local && o !in w.pending && t !in w.att.threads
    requires A.LatestForOrder(w.att.rows, o).None?
    ensures
      var args := B.Args(o, slot, 1, tx);
      Run(w, Turns(OrchStep(Ok, slot, at, tx, t), 2)) ==
        World(w.ledger, B.Step(w.att, B.StartBroadcast(t, args)), w.local[o := LocalRow(slot, LDispatching, at)],
              Sending(o, t), w.pending[o := args], w.recon)
  {
    var next := OrchStep(Ok, slot, at, tx, t);
    var w1 := w.(local := w.local[o := LocalRow(slot, LDispatching, at)], orch := Building(o, slot));
    OneTurn(w, next, 2);
    assert Step(w, next) == w1;
    OneTurn(w1, next, 1);
    Stays(Step(w1, next), next, 0);
  }

  /** A dispatchOne nothing disturbs reaches its broadcast if and only if the order is screened, not of
      the Sweep queue, C1 is not halted, and the amounts add up with none of them zero; then the
      conversion is posted, the order dispatching, its row recorded and its first attempt begun.
      Otherwise nothing has changed, but that it waits while C1 is halted. */
  lemma DispatchAlone(w: World, o: nat, slot: nat, at: nat, tx: Bytes, t: nat)
    requires Inv(w) && w.orch.Idle? && t !in w.att.threads
    ensures Run(w, Dispatches(o, slot, at, tx, t)) == DispatchedWorld(w, o, slot, at, tx, t)
  {
    if !Eligible(w, o) {
      PassedOver(w, o, slot, at, tx, t);
    } else {
      FreshOrder(w, o);
      DispatchReads(w, o, slot, at, tx, t);
      EnteringTurns(w, o, slot, at, tx, t);
    }
  }

  ghost function DispatchedWorld(w: World, o: nat, slot: nat, at: nat, tx: Bytes, t: nat): World {
    if !Eligible(w, o) || (!w.ledger.halted && !Payable(w.ledger.orders[o])) then w
    else
      var order, args := w.ledger.orders[o], B.Args(o, slot, 1, tx);
      if w.ledger.halted then w.(orch := Entering(o, order, slot, at, order.version, false))
      else World(
        Entered(w.ledger, o, Dispatching, Entry(Conversion(o), ConversionLines(order), at)),
        B.Step(w.att, B.StartBroadcast(t, args)), w.local[o := LocalRow(slot, LDispatching, at)],
        Sending(o, t), w.pending[o := args], w.recon)
  }

  lemma EnteringTurns(w: World, o: nat, slot: nat, at: nat, tx: Bytes, t: nat)
    requires Inv(w) && w.orch.Idle? && t !in w.att.threads && Eligible(w, o)
    ensures
      var order := w.ledger.orders[o];
      Run(w.(orch := Entering(o, order, slot, at, order.version, false)), Turns(OrchStep(Ok, slot, at, tx, t), 3)) ==
        DispatchedWorld(w, o, slot, at, tx, t)
  {
    var order, next := w.ledger.orders[o], OrchStep(Ok, slot, at, tx, t);
    var w3 := w.(orch := Entering(o, order, slot, at, order.version, false));
    EnteringStep(w, o, slot, at, tx, t);
    if w.ledger.halted {
      Stays(w3, next, 3);
    } else {
      OneTurn(w3, next, 3);
      if Payable(order) {
        FreshOrder(w, o);
        EnteredGoesOn(Step(w3, next), o, slot, at, tx, t);
      } else {
        Stays(w, next, 2);
      }
    }
  }

  /** A request whose version is out of date refetches once and asks again with the same slot and time;
      after a second conflict it gives up. */
  lemma StaleEntering(w: World, o: nat, snap: Order, slot: nat, at: nat, version: nat, next: Action)
    requires o < |w.ledger.orders| && version != w.ledger.orders[o].version && next.OrchStep? && next.reply.Ok?
    ensures Run(w.(orch := Entering(o, snap, slot, at, version, false)), Turns(next, 2)) ==
      w.(orch := Entering(o, snap, slot, at, w.ledger.orders[o].version, true))
    ensures Step(w.(orch := Entering(o, snap, slot, at, version, true)), next) == w.(orch := Idle)
  {
    var w1 := w.(orch := Entering(o, snap, slot, at, version, false));
    OneTurn(w1, next, 2);
    assert Step(w1, next) == w.(orch := Refetching(o, snap, slot, at));
    OneTurn(w.(orch := Refetching(o, snap, slot, at)), next, 1);
    Stays(w.(orch := Entering(o, snap, slot, at, w.ledger.orders[o].version, true)), next, 0);
  }

  /** When its broadcast ends, the orchestrator keeps the transfer to send the same again, unless a row
      was returned or the signature rejected. */
  lemma CacheFollowsOutcome(w: World, answer: B.Reply, outcome: B.Outcome)
    requires w.orch.Sending? && w.orch.t in w.att.threads
    requires
      var att := B.Step(w.att, B.Advance(w.orch.t, answer));
      w.orch.t in att.threads && att.threads[w.orch.t] == B.Done(outcome)
    ensures Step(w, OrchBroadcast(answer)) ==
      w.(att := B.Step(w.att, B.Advance(w.orch.t, answer)), orch := Idle,
         pending := if outcome.Returned? || outcome.SignatureRejected? then w.pending - {w.orch.o} else w.pending)
  {}

  // ---------------------------------------------------------------- confirmOne

  function Confirms(o: nat, at: nat): seq<Action> { [Confirm(o)] + Turns(OrchStep(Ok, 0, at, [], 0), 6) }

  /** The world once an order's payout is settled, marked and confirmed. */
  function SettledWorld(w: World, o: nat, id: nat, at: nat): World
    requires o < |w.ledger.orders| && id < |w.att.rows| && o in w.local
  {
    var e := Entry(Settlement(o, w.att.rows[id].number), SettlementLines(w.ledger.orders[o], w.att.rows[id].slot), at);
    w.(ledger := Entered(w.ledger, o, Settled, e),
       local := w.local[o := w.local[o].(status := LSettled)],
       att := w.att.(rows := w.att.rows[id := w.att.rows[id].(status := A.Confirmed)]),
       pending := w.pending - {o})
  }

  lemma SettlingStep(w: World, o: nat, id: nat, at: nat)
    requires Inv(w) && o < |w.ledger.orders| && w.ledger.orders[o].state.Dispatching? && id < |w.att.rows|
    requires !w.ledger.halted && w.ledger.orders[o].amountOut != 0
    ensures
      var order, row := w.ledger.orders[o], w.att.rows[id];
      var e := Entry(Settlement(o, row.number), SettlementLines(order, row.slot), at);
      Step(w.(orch := Settling(o, order, id, at, order.version, false)), OrchStep(Ok, 0, at, [], 0)) ==
        w.(ledger := Entered(w.ledger, o, Settled, e), orch := MarkingSettled(o, id))
  {
    var row := w.att.rows[id];
    assert ViewOk(ViewAt(w, o));
    assert !Has(w.ledger.journal, Settlement(o, row.number));
    SettlementBalance(w.ledger.orders[o], row.slot);
  }

  lemma ConfirmSteps(w: World, o: nat, id: nat, at: nat)
    requires o < |w.ledger.orders| && o in w.local
    requires A.LatestForOrder(w.att.rows, o) == Some(id) && id < |w.att.rows| && w.att.rows[id].status == A.Broadcast
    ensures
      var next := OrchStep(Ok, 0, at, [], 0);
      && Step(w.(orch := Idle), Confirm(o)) == w.(orch := FindingLatest(o))
      && Step(w.(orch := FindingLatest(o)), next) == w.(orch := FetchingFinal(o, id))
  {}

  lemma PollSteps(w: World, o: nat, id: nat, at: nat)
    requires o < |w.ledger.orders| && id < |w.att.rows| && w.att.rows[id].status == A.Broadcast
    ensures
      var order, next := w.ledger.orders[o], OrchStep(Ok, 0, at, [], 0);
      && Step(w.(orch := FetchingFinal(o, id)), next) == w.(orch := Polling(o, order, id))
      && Step(w.(orch := Polling(o, order, id)), next) ==
           w.(orch := Settling(o, order, id, at, order.version, false))
  {}

  lemma ConfirmReads(w: World, o: nat, id: nat, at: nat)
    requires w.orch.Idle? && o < |w.ledger.orders| && o in w.local
    requires A.LatestForOrder(w.att.rows, o) == Some(id) && id < |w.att.rows| && w.att.rows[id].status == A.Broadcast
    ensures
      var order, next := w.ledger.orders[o], OrchStep(Ok, 0, at, [], 0);
      Run(w, Confirms(o, at)) == Run(w.(orch := Settling(o, order, id, at, order.version, false)), Turns(next, 3))
  {
    var order, next := w.ledger.orders[o], OrchStep(Ok, 0, at, [], 0);
    ConfirmSteps(w, o, id, at);
    PollSteps(w, o, id, at);
    Began(w, Confirm(o), next, 6);
    OneTurn(w.(orch := FindingLatest(o)), next, 6);
    OneTurn(w.(orch := FetchingFinal(o, id)), next, 5);
    OneTurn(w.(orch := Polling(o, order, id)), next, 4);
  }

  lemma MarkingSteps(w: World, o: nat, id: nat, at: nat)
    requires o in w.local && !w.local[o].status.LHeld?
    requires id < |w.att.rows| && w.att.rows[id].status == A.Broadcast
    ensures
      var next := OrchStep(Ok, 0, at, [], 0);
      && Step(w.(orch := MarkingSettled(o, id)), next) ==
           w.(local := w.local[o := w.local[o].(status := LSettled)], orch := MarkingConfirmed(o, id))
      && Step(w.(orch := MarkingConfirmed(o, id)), next) ==
           w.(att := w.att.(rows := w.att.rows[id := w.att.rows[id].(status := A.Confirmed)]),
              pending := w.pending - {o}, orch := Idle)
  {}

  /** The two marks after the settlement; a row that is SETTLED already is marked again. */
  lemma MarkingTurns(w: World, o: nat, id: nat, at: nat)
    requires w.orch == MarkingSettled(o, id) && o in w.local && !w.local[o].status.LHeld?
    requires id < |w.att.rows| && w.att.rows[id].status == A.Broadcast
    ensures Run(w, Turns(OrchStep(Ok, 0, at, [], 0), 2)) ==
      w.(local := w.local[o := w.local[o].(status := LSettled)],
         att := w.att.(rows := w.att.rows[id := w.att.rows[id].(status := A.Confirmed)]),
         pending := w.pending - {o}, orch := Idle)
  {
    var next, marked := OrchStep(Ok, 0, at, [], 0), w.local[o := w.local[o].(status := LSettled)];
    MarkingSteps(w, o, id, at);
    OneTurn(w, next, 2);
    MarkingSteps(w.(local := marked), o, id, at);
    OneTurn(w.(local := marked, orch := MarkingConfirmed(o, id)), next, 1);
    Stays(Step(w.(local := marked, orch := MarkingConfirmed(o, id)), next), next, 0);
  }

  /** A confirmOne nothing disturbs, of a dispatching order whose attempt is BROADCAST and final: the
      settlement is posted, the order settled, its row SETTLED, the attempt CONFIRMED. */
  lemma ConfirmAlone(w: World, o: nat, id: nat, at: nat)
    requires Inv(w) && w.orch.Idle? && o < |w.ledger.orders| && w.ledger.orders[o].state.Dispatching?
    requires o in w.local && w.local[o].status.LDispatching? && !w.ledger.halted && w.ledger.orders[o].amountOut != 0
    requires A.LatestForOrder(w.att.rows, o) == Some(id) && id < |w.att.rows| && w.att.rows[id].status == A.Broadcast
    ensures Run(w, Confirms(o, at)) == SettledWorld(w, o, id, at)
  {
    var order, next := w.ledger.orders[o], OrchStep(Ok, 0, at, [], 0);
    var w3 := w.(orch := Settling(o, order, id, at, order.version, false));
    ConfirmReads(w, o, id, at);
    OneTurn(w3, next, 3);
    SettlingStep(w, o, id, at);
    MarkingTurns(Step(w3, next), o, id, at);
  }

  lemma SettlingHalts(w: World, o: nat, id: nat, at: nat)
    requires o < |w.ledger.orders| && w.ledger.orders[o].state.Dispatching? && id < |w.att.rows| && w.ledger.halted
    ensures
      var order := w.ledger.orders[o];
      var w' := w.(orch := Settling(o, order, id, at, order.version, false));
      Step(w', OrchStep(Ok, 0, at, [], 0)) == w'
  {}

  /** While C1 is halted it waits, and nothing is posted. */
  lemma ConfirmWaits(w: World, o: nat, id: nat, at: nat)
    requires w.orch.Idle? && o < |w.ledger.orders| && w.ledger.orders[o].state.Dispatching?
    requires o in w.local && w.ledger.halted
    requires A.LatestForOrder(w.att.rows, o) == Some(id) && id < |w.att.rows| && w.att.rows[id].status == A.Broadcast
    ensures
      var order := w.ledger.orders[o];
      Run(w, Confirms(o, at)) == w.(orch := Settling(o, order, id, at, order.version, false))
  {
    var order, next := w.ledger.orders[o], OrchStep(Ok, 0, at, [], 0);
    ConfirmReads(w, o, id, at);
    SettlingHalts(w, o, id, at);
    Stays(w.(orch := Settling(o, order, id, at, order.version, false)), next, 3);
  }

  /** A settlement whose version is out of date refetches once; after a second conflict it gives up. */
  lemma StaleSettling(w: World, o: nat, snap: Order, id: nat, at: nat, version: nat, next: Action)
    requires o < |w.ledger.orders| && version != w.ledger.orders[o].version && id < |w.att.rows|
    requires next.OrchStep? && next.reply.Ok?
    ensures Run(w.(orch := Settling(o, snap, id, at, version, false)), Turns(next, 2)) ==
      w.(orch := Settling(o, snap, id, at, w.ledger.orders[o].version, true))
    ensures Step(w.(orch := Settling(o, snap, id, at, version, true)), next) == w.(orch := Idle)
  {
    var w1 := w.(orch := Settling(o, snap, id, at, version, false));
    OneTurn(w1, next, 2);
    assert Step(w1, next) == w.(orch := RefetchingFinal(o, snap, id, at));
    OneTurn(w.(orch := RefetchingFinal(o, snap, id, at)), next, 1);
    Stays(w.(orch := Settling(o, snap, id, at, w.ledger.orders[o].version, true)), next, 0);
  }

  /** And of one whose attempt is not BROADCAST: nothing. */
  lemma NothingToConfirm(w: World, o: nat, at: nat)
    requires w.orch.Idle? && o in w.local
    requires var latest := A.LatestForOrder(w.att.rows, o);
      latest.Some? ==> w.att.rows[latest.value].status != A.Broadcast
    ensures Run(w, Confirms(o, at)) == w
  {
    var next := OrchStep(Ok, 0, at, [], 0);
    Began(w, Confirm(o), next, 6);
    OneTurn(w.(orch := FindingLatest(o)), next, 6);
    Stays(w, next, 5);
  }

  /** An attempt confirmed in the meantime leaves only its cached transfer to drop. */
  lemma ConfirmedMeanwhile(w: World, o: nat, snap: Order, id: nat, at: nat)
    requires id < |w.att.rows| && w.att.rows[id].status.Confirmed?
    ensures Step(w.(orch := Polling(o, snap, id)), OrchStep(Ok, 0, at, [], 0)) ==
      w.(orch := Idle, pending := w.pending - {o})
  {}

  /** A call that changes C1 or the orchestrator's tables. */
  predicate Changes(pc: Orch) {
    pc.Entering? || pc.Recording? || pc.Settling? || pc.MarkingSettled? || pc.MarkingConfirmed?
  }

  /** An error ends dispatchOne or confirmOne where it is, whether the call took effect or not; one that
      did not has changed nothing. */
  lemma ErrorsEndIt(w: World, reply: Reply, slot: nat, at: nat, tx: Bytes, t: nat)
    requires Changes(w.orch) && !reply.Ok?
    ensures
      var w' := Step(w, OrchStep(reply, slot, at, tx, t));
      && w'.orch.Idle? && (reply.Failed? ==> w' == w.(orch := Idle))
      && forall o :: o in w.pending ==> o in w'.pending
  {}

  // ---------------------------------------------------------------- reconciliation

  /** A pass over an order whose latest attempt is not FAILED, or that C1 has moved on, changes nothing. */
  lemma NothingToReconcile(w: World, p: nat, o: nat, at: nat)
    requires p !in w.recon && o in w.local
    requires
      var latest := A.LatestForOrder(w.att.rows, o);
      || latest.None? || !w.att.rows[latest.value].status.Failed?
      || o >= |w.ledger.orders| || !w.ledger.orders[o].state.Dispatching?
    ensures Run(w, Reconciles(p, o, at)) == Goto(w, p, Over)
  {
    var next, latest := ReconStep(p, Ok, at), A.LatestForOrder(w.att.rows, o);
    Began(w, Reconcile(p, o), next, 6);
    OneTurn(Goto(w, p, Examining(o)), next, 6);
    if latest.None? || !w.att.rows[latest.value].status.Failed? {
      assert w.recon[p := Examining(o)][p := Over] == w.recon[p := Over];
      Stays(Goto(w, p, Over), next, 5);
    } else {
      assert w.recon[p := Examining(o)][p := FetchingFailed(o)] == w.recon[p := FetchingFailed(o)];
      OneTurn(Goto(w, p, FetchingFailed(o)), next, 5);
      assert w.recon[p := FetchingFailed(o)][p := Over] == w.recon[p := Over];
      Stays(Goto(w, p, Over), next, 4);
    }
  }

  function Reconciles(p: nat, o: nat, at: nat): seq<Action> { [Reconcile(p, o)] + Turns(ReconStep(p, Ok, at), 6) }

  /** A dispatching order whose payout has failed. */
  ghost predicate HasFailed(w: World, o: nat) {
    && o < |w.ledger.orders| && w.ledger.orders[o].state.Dispatching?
    && o in w.local && w.local[o].status.LDispatching?
    && A.LatestForOrder(w.att.rows, o).Some? && w.att.rows[A.LatestForOrder(w.att.rows, o).value].status.Failed?
  }

  /** The journal with the conversion reversed, by whomever. */
  ghost function WithReversal(j: Journal, o: nat, at: nat): Journal
    requires Has(j, Conversion(o))
  {
    if Has(j, Reversal(Conversion(o))) then j
    else j + [Entry(Reversal(Conversion(o)), Negated(j[Find(j, Conversion(o)).value].lines), at)]
  }

  /** Held in C1 and marked HELD, the conversion reversed; nothing else has changed. */
  ghost function ClosedWorld(w: World, p: nat, o: nat, j: Journal): World
    requires o < |w.ledger.orders| && o in w.local
  {
    w.(ledger := w.ledger.(orders := w.ledger.orders[o := Moved(w.ledger.orders[o], Held)], journal := j),
       local := w.local[o := w.local[o].(status := LHeld)], recon := w.recon[p := Closed])
  }

  ghost predicate ReversalAt(j: Journal, i: nat, o: nat) { i < |j| && j[i].key == Reversal(Conversion(o)) }

  /** PostReversal posts the reversal or finds it. */
  lemma ReverseOrFound(j: Journal, o: nat, at: nat) returns (reversal: nat)
    requires Has(j, Conversion(o))
    ensures ReversalAt(WithReversal(j, o, at), reversal, o)
    ensures
      var i := Find(j, Conversion(o)).value;
      if Has(j, Reversal(Conversion(o)))
      then Reverse(j, i, at).AlreadyReversed? && Find(j, Reversal(Conversion(o))) == Some(reversal)
      else Reverse(j, i, at) == Reversed(WithReversal(j, o, at)) && reversal == |j|
  {
    reversal := if Has(j, Reversal(Conversion(o))) then Find(j, Reversal(Conversion(o))).value else |j|;
  }

  /** The request for the reversal goes on to the hold in either case. */
  lemma ReversingStep(w: World, p: nat, o: nat, version: nat, at: nat) returns (reversal: nat)
    requires Has(w.ledger.journal, Conversion(o))
    ensures ReversalAt(WithReversal(w.ledger.journal, o, at), reversal, o)
    ensures
      var pc := Reversing(o, version, Find(w.ledger.journal, Conversion(o)).value);
      Step(Goto(w, p, pc), ReconStep(p, Ok, at)) ==
        Goto(w.(ledger := w.ledger.(journal := WithReversal(w.ledger.journal, o, at))), p,
             Holding(o, version, reversal, false))
  {
    reversal := ReverseOrFound(w.ledger.journal, o, at);
    var pc := Reversing(o, version, Find(w.ledger.journal, Conversion(o)).value);
    var next := Holding(o, version, reversal, false);
    assert w.recon[p := pc][p := next] == w.recon[p := next];
  }

  /** The hold succeeds for whoever knows the order's version, and the mark follows. */
  lemma HoldingSteps(w: World, p: nat, o: nat, reversal: nat, retried: bool, at: nat)
    requires HasFailed(w, o) && ReversalAt(w.ledger.journal, reversal, o)
    ensures
      var pc := Holding(o, w.ledger.orders[o].version, reversal, retried);
      var orders := w.ledger.orders[o := Moved(w.ledger.orders[o], Held)];
      && Step(Goto(w, p, pc), ReconStep(p, Ok, at)) ==
           Goto(w.(ledger := w.ledger.(orders := orders)), p, MarkingHeld(o))
      && Step(Goto(w.(ledger := w.ledger.(orders := orders)), p, MarkingHeld(o)), ReconStep(p, Ok, at)) ==
           ClosedWorld(w, p, o, w.ledger.journal)
  {
    var pc := Holding(o, w.ledger.orders[o].version, reversal, retried);
    assert w.recon[p := pc][p := MarkingHeld(o)] == w.recon[p := MarkingHeld(o)];
    assert w.recon[p := MarkingHeld(o)][p := Closed] == w.recon[p := Closed];
  }

  lemma ReadingSteps(w: World, p: nat, o: nat, at: nat)
    requires HasFailed(w, o) && p !in w.recon && Has(w.ledger.journal, Conversion(o))
    ensures
      var version, i := w.ledger.orders[o].version, Find(w.ledger.journal, Conversion(o)).value;
      && Step(w, Reconcile(p, o)) == Goto(w, p, Examining(o))
      && Step(Goto(w, p, Examining(o)), ReconStep(p, Ok, at)) == Goto(w, p, FetchingFailed(o))
      && Step(Goto(w, p, FetchingFailed(o)), ReconStep(p, Ok, at)) == Goto(w, p, Resolving(o, version))
      && Step(Goto(w, p, Resolving(o, version)), ReconStep(p, Ok, at)) == Goto(w, p, Reversing(o, version, i))
  {
    var version, i := w.ledger.orders[o].version, Find(w.ledger.journal, Conversion(o)).value;
    assert w.recon[p := Examining(o)][p := FetchingFailed(o)] == w.recon[p := FetchingFailed(o)];
    assert w.recon[p := FetchingFailed(o)][p := Resolving(o, version)] == w.recon[p := Resolving(o, version)];
    assert w.recon[p := Resolving(o, version)][p := Reversing(o, version, i)] ==
      w.recon[p := Reversing(o, version, i)];
  }

  lemma ReadingTurns(w: World, p: nat, o: nat, at: nat)
    requires HasFailed(w, o) && p !in w.recon && Has(w.ledger.journal, Conversion(o))
    ensures
      var version, i := w.ledger.orders[o].version, Find(w.ledger.journal, Conversion(o)).value;
      Run(w, Reconciles(p, o, at)) == Run(Goto(w, p, Reversing(o, version, i)), Turns(ReconStep(p, Ok, at), 3))
  {
    var next := ReconStep(p, Ok, at);
    ReadingSteps(w, p, o, at);
    Began(w, Reconcile(p, o), next, 6);
    OneTurn(Goto(w, p, Examining(o)), next, 6);
    OneTurn(Goto(w, p, FetchingFailed(o)), next, 5);
    OneTurn(Goto(w, p, Resolving(o, w.ledger.orders[o].version)), next, 4);
  }

  lemma HoldingTurns(w: World, p: nat, o: nat, reversal: nat, retried: bool, at: nat)
    requires HasFailed(w, o) && ReversalAt(w.ledger.journal, reversal, o)
    ensures
      var pc := Holding(o, w.ledger.orders[o].version, reversal, retried);
      Run(Goto(w, p, pc), Turns(ReconStep(p, Ok, at), 2)) == ClosedWorld(w, p, o, w.ledger.journal)
  {
    var next, pc := ReconStep(p, Ok, at), Holding(o, w.ledger.orders[o].version, reversal, retried);
    HoldingSteps(w, p, o, reversal, retried, at);
    OneTurn(Goto(w, p, pc), next, 2);
    OneTurn(Step(Goto(w, p, pc), next), next, 1);
    Stays(ClosedWorld(w, p, o, w.ledger.journal), next, 0);
  }

  /** A pass nothing disturbs over an order whose payout has failed ends with the order held, its
      conversion reversed and its row HELD, whether or not somebody has posted the reversal before. */
  lemma ReconcileAlone(w: World, p: nat, o: nat, at: nat)
    requires Inv(w) && p !in w.recon && HasFailed(w, o)
    ensures Has(w.ledger.journal, Conversion(o))
    ensures Run(w, Reconciles(p, o, at)) == ClosedWorld(w, p, o, WithReversal(w.ledger.journal, o, at))
  {
    assert ViewOk(ViewAt(w, o));
    var version, j := w.ledger.orders[o].version, w.ledger.journal;
    var pc := Reversing(o, version, Find(j, Conversion(o)).value);
    ReadingTurns(w, p, o, at);
    OneTurn(Goto(w, p, pc), ReconStep(p, Ok, at), 3);
    var reversal := ReversingStep(w, p, o, version, at);
    HoldingTurns(w.(ledger := w.ledger.(journal := WithReversal(j, o, at))), p, o, reversal, false, at);
  }

  lemma StaleHoldSteps(w: World, p: nat, o: nat, version: nat, reversal: nat, at: nat)
    requires o < |w.ledger.orders| && version != w.ledger.orders[o].version
    ensures
      var next, again := ReconStep(p, Ok, at), Holding(o, w.ledger.orders[o].version, reversal, true);
      && Step(Goto(w, p, Holding(o, version, reversal, false)), next) == Goto(w, p, RefetchingHeld(o, reversal))
      && Step(Goto(w, p, RefetchingHeld(o, reversal)), next) == Goto(w, p, again)
      && Step(Goto(w, p, Holding(o, version, reversal, true)), next) == Goto(w, p, Over)
  {
    var again := Holding(o, w.ledger.orders[o].version, reversal, true);
    var pc, last := Holding(o, version, reversal, false), Holding(o, version, reversal, true);
    assert w.recon[p := pc][p := RefetchingHeld(o, reversal)] == w.recon[p := RefetchingHeld(o, reversal)];
    assert w.recon[p := RefetchingHeld(o, reversal)][p := again] == w.recon[p := again];
    assert w.recon[p := last][p := Over] == w.recon[p := Over];
  }

  /** A hold asked for with a version that is out of date refetches once and closes the order too; the
      second conflict in a row gives up. */
  lemma StaleHoldRetries(w: World, p: nat, o: nat, version: nat, reversal: nat, at: nat)
    requires HasFailed(w, o) && ReversalAt(w.ledger.journal, reversal, o) && version != w.ledger.orders[o].version
    ensures Run(Goto(w, p, Holding(o, version, reversal, false)), Turns(ReconStep(p, Ok, at), 4)) ==
      ClosedWorld(w, p, o, w.ledger.journal)
    ensures Step(Goto(w, p, Holding(o, version, reversal, true)), ReconStep(p, Ok, at)) == Goto(w, p, Over)
  {
    var next := ReconStep(p, Ok, at);
    StaleHoldSteps(w, p, o, version, reversal, at);
    OneTurn(Goto(w, p, Holding(o, version, reversal, false)), next, 4);
    OneTurn(Goto(w, p, RefetchingHeld(o, reversal)), next, 3);
    HoldingTurns(w, p, o, reversal, true, at);
  }

  /** An error ends a pass over its order just so; a further pass finds what it left. */
  lemma ErrorsEndPass(w: World, p: nat, reply: Reply, at: nat)
    requires p in w.recon && !reply.Ok?
    requires w.recon[p].Reversing? || w.recon[p].Holding? || w.recon[p].MarkingHeld?
    ensures
      var w' := Step(w, ReconStep(p, reply, at));
      p in w'.recon && w'.recon[p] == Over && (reply.Failed? ==> w' == Goto(w, p, Over))
  {}

  /** Of an order that C1 has held, settled or refunded by then, the hold is refused and the pass ends. */
  lemma HoldRefused(w: World, p: nat, o: nat, reversal: nat, retried: bool, at: nat)
    requires o < |w.ledger.orders| && !Legal(w.ledger.orders[o].state, Held)
    ensures Step(Goto(w, p, Holding(o, w.ledger.orders[o].version, reversal, retried)), ReconStep(p, Ok, at)) ==
      Goto(w, p, Over)
  {
    var c := Holding(o, w.ledger.orders[o].version, reversal, retried);
    assert w.recon[p := c][p := Over] == w.recon[p := Over];
  }
}
