/** What CutBatch and each row of HandlePartialSettlement come to when nothing disturbs them
    (dispatcher/internal/dispatch/batch.go). */
module BatchOutcomes {
  import opened Common
  import opened Ledger
  import L = Lifecycle
  import opened BatchProtocol
  import opened BatchSafety
  import BR = BatchRuns

  // ---------------------------------------------------------------- cutting a batch

  function Again(act: Action, n: nat): seq<Action> { seq(n, _ => act) }

  lemma OneMore(w: World, act: Action, n: nat)
    requires n > 0
    ensures Run(w, Again(act, n)) == Run(Step(w, act), Again(act, n - 1))
  {
    assert Again(act, n)[1..] == Again(act, n - 1);
  }

  lemma {:induction false} Stays(w: World, act: Action, n: nat)
    requires n > 0 ==> Step(w, act) == w
    ensures Run(w, Again(act, n)) == w
  {
    if n > 0 {
      OneMore(w, act, n);
      Stays(w, act, n - 1);
    }
  }

  function Cuts(t: nat, maxSize: nat, maxWait: nat, slot: nat, now: nat, rows: seq<nat>): seq<Action> {
    [StartCut(t, maxSize, maxWait, slot)] + Again(Advance(t, L.Ok, now, rows), 3)
  }

  /** The queue is full enough, or its oldest order has waited long enough. */
  predicate Ready(queue: seq<Row>, rows: seq<nat>, maxSize: nat, maxWait: nat, now: nat)
    requires AllQueued(queue, rows)
  {
    rows != [] && (|rows| == maxSize || now >= queue[rows[0]].enqueuedAt + maxWait)
  }

  lemma CutReads(w: World, t: nat, maxSize: nat, maxWait: nat, slot: nat, now: nat, rows: seq<nat>)
    requires OldestFirst(w.queue, rows, maxSize)
    ensures Step(w.At(t, Listing(maxSize, maxWait, slot)), Advance(t, L.Ok, now, rows)) ==
      w.At(t, if Ready(w.queue, rows, maxSize, maxWait, now) then Creating(rows, Payments(w.queue, rows), slot)
              else Over(NotReady))
  {
    var c := if Ready(w.queue, rows, maxSize, maxWait, now) then Creating(rows, Payments(w.queue, rows), slot)
             else Over(NotReady);
    assert w.callers[t := Listing(maxSize, maxWait, slot)][t := c] == w.callers[t := c];
  }

  /** One more batch, of these rows. */
  function WithBatch(w: World, slot: nat, rows: seq<nat>): World
    requires AllQueued(w.queue, rows)
  {
    w.(queue := CreatedQueue(w.queue, rows, |w.batches|),
       batches := w.batches + [Batch(slot, Payments(w.queue, rows))])
  }

  lemma CreateStep(w: World, t: nat, slot: nat, now: nat, rows: seq<nat>, payments: seq<Payment>)
    requires t in w.callers && w.callers[t] == Creating(rows, payments, slot) && AllQueued(w.queue, rows)
    ensures Step(w, Advance(t, L.Ok, now, rows)) == w.At(t, Reserving(|w.batches|)).(
      queue := CreatedQueue(w.queue, rows, |w.batches|), batches := w.batches + [Batch(slot, payments)])
  {}

  lemma CutCreates(w: World, t: nat, slot: nat, now: nat, rows: seq<nat>)
    requires AllQueued(w.queue, rows)
    ensures Step(w.At(t, Creating(rows, Payments(w.queue, rows), slot)), Advance(t, L.Ok, now, rows)) ==
      WithBatch(w, slot, rows).At(t, Reserving(|w.batches|))
  {
    var c := Creating(rows, Payments(w.queue, rows), slot);
    CreateStep(w.At(t, c), t, slot, now, rows, Payments(w.queue, rows));
    assert w.callers[t := c][t := Reserving(|w.batches|)] == w.callers[t := Reserving(|w.batches|)];
  }

  lemma CutReserves(w: World, t: nat, b: nat, now: nat, rows: seq<nat>)
    ensures Step(w.At(t, Reserving(b)), Advance(t, L.Ok, now, rows)) == w.At(t, Over(Cut(b)))
  {
    assert w.callers[t := Reserving(b)][t := Over(Cut(b))] == w.callers[t := Over(Cut(b))];
  }

  /** A CutBatch nothing disturbs cuts a batch if and only if maxSize orders are queued, or the oldest
      has waited maxWait; the batch then pays the oldest orders, up to maxSize of them, and they point at
      it. Otherwise nothing changes. */
  lemma CutAlone(w: World, t: nat, maxSize: nat, maxWait: nat, slot: nat, now: nat, rows: seq<nat>)
    requires t !in w.callers && OldestFirst(w.queue, rows, maxSize)
    ensures Run(w, Cuts(t, maxSize, maxWait, slot, now, rows)) ==
      if rows != [] && (|rows| >= maxSize || now - w.queue[rows[0]].enqueuedAt >= maxWait)
      then WithBatch(w, slot, rows).At(t, Over(Cut(|w.batches|)))
      else w.At(t, Over(NotReady))
  {
    CutEnds(w, t, maxSize, maxWait, slot, now, rows);
    ReadyIff(w.queue, rows, maxSize, maxWait, now);
  }

  lemma ReadyIff(queue: seq<Row>, rows: seq<nat>, maxSize: nat, maxWait: nat, now: nat)
    requires OldestFirst(queue, rows, maxSize)
    ensures Ready(queue, rows, maxSize, maxWait, now) <==>
      rows != [] && (|rows| >= maxSize || now - queue[rows[0]].enqueuedAt >= maxWait)
  {}

  lemma CutEnds(w: World, t: nat, maxSize: nat, maxWait: nat, slot: nat, now: nat, rows: seq<nat>)
    requires t !in w.callers && OldestFirst(w.queue, rows, maxSize)
    ensures Run(w, Cuts(t, maxSize, maxWait, slot, now, rows)) ==
      if Ready(w.queue, rows, maxSize, maxWait, now) then WithBatch(w, slot, rows).At(t, Over(Cut(|w.batches|)))
      else w.At(t, Over(NotReady))
  {
    CutBegins(w, t, maxSize, maxWait, slot, now, rows);
    if Ready(w.queue, rows, maxSize, maxWait, now) {
      CutGoesOn(w, t, slot, now, rows);
    } else {
      CutStops(w, t, Advance(t, L.Ok, now, rows));
    }
  }

  lemma CutStops(w: World, t: nat, next: Action)
    requires next.Advance? && next.t == t
    ensures Run(w.At(t, Over(NotReady)), Again(next, 2)) == w.At(t, Over(NotReady))
  {
    Stays(w.At(t, Over(NotReady)), next, 2);
  }

  lemma CutBegins(w: World, t: nat, maxSize: nat, maxWait: nat, slot: nat, now: nat, rows: seq<nat>)
    requires t !in w.callers && OldestFirst(w.queue, rows, maxSize)
    ensures Run(w, Cuts(t, maxSize, maxWait, slot, now, rows)) ==
      Run(w.At(t, if Ready(w.queue, rows, maxSize, maxWait, now) then Creating(rows, Payments(w.queue, rows), slot)
                  else Over(NotReady)),
          Again(Advance(t, L.Ok, now, rows), 2))
  {
    var next, first := Advance(t, L.Ok, now, rows), StartCut(t, maxSize, maxWait, slot);
    assert ([first] + Again(next, 3))[1..] == Again(next, 3);
    OneMore(w.At(t, Listing(maxSize, maxWait, slot)), next, 3);
    CutReads(w, t, maxSize, maxWait, slot, now, rows);
  }

  lemma CutGoesOn(w: World, t: nat, slot: nat, now: nat, rows: seq<nat>)
    requires AllQueued(w.queue, rows)
    ensures
      var c := Creating(rows, Payments(w.queue, rows), slot);
      Run(w.At(t, c), Again(Advance(t, L.Ok, now, rows), 2)) ==
        WithBatch(w, slot, rows).At(t, Over(Cut(|w.batches|)))
  {
    var c, next, b := Creating(rows, Payments(w.queue, rows), slot), Advance(t, L.Ok, now, rows), |w.batches|;
    OneMore(w.At(t, c), next, 2);
    CutCreates(w, t, slot, now, rows);
    OneMore(WithBatch(w, slot, rows).At(t, Reserving(b)), next, 1);
    CutReserves(WithBatch(w, slot, rows), t, b, now, rows);
    Stays(WithBatch(w, slot, rows).At(t, Over(Cut(b))), next, 0);
  }

  // ---------------------------------------------------------------- settling a batch, row by row

  /** A row nobody gave a result for stops the settlement with an error; nothing else changes. */
  lemma MissingResult(w: World, t: nat, task: Task, now: nat)
    requires Listed(w, task) && OrderOf(w, task) !in task.given
    ensures Step(w.At(t, Handling(task)), Advance(t, L.Ok, now, [])) == w.At(t, Over(Error))
  {
    assert w.callers[t := Handling(task)][t := Over(Error)] == w.callers[t := Over(Error)];
  }

  /** A row whose payment failed is queued again as of now, in no batch, and counted; C1 hears nothing. */
  lemma FailedIsRequeued(w: World, t: nat, task: Task, now: nat)
    requires Listed(w, task) && OrderOf(w, task) in task.given && !task.given[OrderOf(w, task)]
    ensures
      var r := task.rows[task.k];
      Step(w.At(t, Handling(task)), Advance(t, L.Ok, now, [])) ==
        w.(queue := w.queue[r := w.queue[r].(status := Queued, enqueuedAt := now)], requeued := w.requeued + {r})
         .At(t, Onward(task.(k := task.k + 1, requeued := task.requeued + 1)))
  {
    var c := Onward(task.(k := task.k + 1, requeued := task.requeued + 1));
    assert w.callers[t := Handling(task)][t := c] == w.callers[t := c];
  }

  /** Nothing has been settled for this order, C1 is not halted, and there is something to pay. */
  ghost predicate Unsettled(w: World, task: Task) {
    && Listed(w, task) && OrderOf(w, task) in task.given && task.given[OrderOf(w, task)]
    && OrderOf(w, task) < |w.ledger.orders| && w.ledger.orders[OrderOf(w, task)].state.Dispatching?
    && w.ledger.orders[OrderOf(w, task)].amountOut != 0 && !w.ledger.halted
    && !Has(w.ledger.journal, Settlement(OrderOf(w, task), task.b))
    && OrderOf(w, task) in w.local && w.local[OrderOf(w, task)].status.LDispatching?
  }

  lemma SettlesFirst(w: World, t: nat, task: Task)
    requires Unsettled(w, task)
    ensures
      var o := OrderOf(w, task);
      var order := w.ledger.orders[o];
      var e := Entry(Settlement(o, task.b), SettlementLines(order, task.slot), task.at);
      && Step(w.At(t, Handling(task)), Advance(t, L.Ok, 0, [])) ==
           w.At(t, Settling(task, order, order.version, false))
      && Step(w.At(t, Settling(task, order, order.version, false)), Advance(t, L.Ok, 0, [])) ==
           w.(ledger := Entered(w.ledger, o, OrderState.Settled, e)).At(t, Marking(task))
  {
    var order := w.ledger.orders[OrderOf(w, task)];
    var c := Settling(task, order, order.version, false);
    SettlementBalance(order, task.slot);
    assert w.callers[t := Handling(task)][t := c] == w.callers[t := c];
    assert w.callers[t := c][t := Marking(task)] == w.callers[t := Marking(task)];
  }

  lemma MarksFirst(w: World, t: nat, task: Task)
    requires Listed(w, task) && OrderOf(w, task) in w.local && w.local[OrderOf(w, task)].status.LDispatching?
    ensures
      var o := OrderOf(w, task);
      Step(w.At(t, Marking(task)), Advance(t, L.Ok, 0, [])) ==
        w.(local := w.local[o := w.local[o].(status := L.LSettled)])
         .At(t, Onward(task.(k := task.k + 1, settled := task.settled + 1)))
  {
    var c := Onward(task.(k := task.k + 1, settled := task.settled + 1));
    assert w.callers[t := Marking(task)][t := c] == w.callers[t := c];
  }

  /** A row whose payment succeeded: its order is settled in C1 with the batch's slot and this time,
      marked SETTLED, and counted. */
  lemma SucceededIsSettled(w: World, t: nat, task: Task)
    requires Unsettled(w, task)
    ensures
      var o := OrderOf(w, task);
      var e := Entry(Settlement(o, task.b), SettlementLines(w.ledger.orders[o], task.slot), task.at);
      Run(w.At(t, Handling(task)), BR.Turns(t, 3)) ==
        w.(ledger := Entered(w.ledger, o, OrderState.Settled, e),
           local := w.local[o := w.local[o].(status := L.LSettled)])
         .At(t, Onward(task.(k := task.k + 1, settled := task.settled + 1)))
  {
    var o := OrderOf(w, task);
    var order := w.ledger.orders[o];
    var e := Entry(Settlement(o, task.b), SettlementLines(order, task.slot), task.at);
    var w1 := w.(ledger := Entered(w.ledger, o, OrderState.Settled, e));
    SettlesFirst(w, t, task);
    MarksFirst(w1, t, task);
    BR.OneTurn(w.At(t, Handling(task)), t, 3);
    BR.OneTurn(w.At(t, Settling(task, order, order.version, false)), t, 2);
    BR.OneTurn(w1.At(t, Marking(task)), t, 1);
    assert BR.Turns(t, 0) == [];
  }

  /** A settlement whose version is out of date refetches once and asks for the same again; after a
      second conflict the call ends in an error. */
  lemma StaleSettlementRetries(w: World, t: nat, task: Task, snap: Order, version: nat)
    requires Listed(w, task) && OrderOf(w, task) < |w.ledger.orders|
    requires version != w.ledger.orders[OrderOf(w, task)].version
    ensures Run(w.At(t, Settling(task, snap, version, false)), BR.Turns(t, 2)) ==
      w.At(t, Settling(task, snap, w.ledger.orders[OrderOf(w, task)].version, true))
    ensures Step(w.At(t, Settling(task, snap, version, true)), Advance(t, L.Ok, 0, [])) == w.At(t, Over(Error))
  {
    var first, last := Settling(task, snap, version, false), Settling(task, snap, version, true);
    var again := Settling(task, snap, w.ledger.orders[OrderOf(w, task)].version, true);
    assert w.callers[t := first][t := Refetching(task, snap)] == w.callers[t := Refetching(task, snap)];
    assert w.callers[t := Refetching(task, snap)][t := again] == w.callers[t := again];
    assert w.callers[t := last][t := Over(Error)] == w.callers[t := Over(Error)];
    BR.OneTurn(w.At(t, first), t, 2);
    BR.OneTurn(w.At(t, Refetching(task, snap)), t, 1);
    assert BR.Turns(t, 0) == [];
  }

  /** While C1 is halted it waits. */
  lemma SettlementWaits(w: World, t: nat, task: Task, snap: Order, retried: bool)
    requires Listed(w, task) && OrderOf(w, task) < |w.ledger.orders| && w.ledger.halted
    requires w.ledger.orders[OrderOf(w, task)].state.Dispatching?
    ensures
      var pc := Settling(task, snap, w.ledger.orders[OrderOf(w, task)].version, retried);
      Step(w.At(t, pc), Advance(t, L.Ok, 0, [])) == w.At(t, pc)
  {}

  /** A call that fails ends the caller where it is; one that took effect unheard ends it too. */
  lemma ErrorsEndCaller(w: World, t: nat, c: Caller, reply: L.Reply, now: nat, rows: seq<nat>)
    requires !c.Over? && !reply.Ok?
    requires reply.Failed? || c.Creating? || c.Reserving? || c.Settling? || c.Marking?
    ensures
      var w' := Step(w.At(t, c), Advance(t, reply, now, rows));
      t in w'.callers && w'.callers[t] == Over(Error) && (reply.Failed? ==> w' == w.At(t, Over(Error)))
  {
    assert w.callers[t := c][t := Over(Error)] == w.callers[t := Over(Error)];
  }
}
