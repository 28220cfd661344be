/** Runs of the batch protocol: settling a batch again, and two callers settling one batch at once. */
module BatchRuns {
  import opened Common
  import opened Ledger
  import L = Lifecycle
  import opened BatchProtocol
  import opened BatchSafety
  import opened BatchPayouts

  // ---------------------------------------------------------------- settling again

  /** C1's settlement of this order in this batch. */
  function SettlementOf(j: Journal, o: nat, b: nat): Entry
    requires Has(j, Settlement(o, b))
  {
    j[Find(j, Settlement(o, b)).value]
  }

  /** C1's answer to a settlement it has already: a replay under the same timestamp, a refusal under
      any other, and no further entry either way. */
  lemma ReplayIff(l: Ledger, batches: seq<Batch>, o: nat, b: nat, at: nat)
    requires Has(l.journal, Settlement(o, b)) && SettlementOk(l, batches, SettlementOf(l.journal, o, b))
    ensures o < |l.orders| && b < |batches|
    ensures
      var e := Entry(Settlement(o, b), SettlementLines(l.orders[o], batches[b].slot), at);
      Transition(l, o, Settled, l.orders[o].version, Inline(e)) ==
        (if SettlementOf(l.journal, o, b).occurredAt == at then Verdict.Done else Verdict.Refused, l)
  {}

  /** The payment of this row was a success, and it is settled in C1 and marked. */
  ghost predicate SettledRow(w: World, b: nat, given: map<nat, bool>, r: nat) {
    && r < |w.queue| && w.queue[r].order in given && given[w.queue[r].order]
    && Has(w.ledger.journal, Settlement(w.queue[r].order, b))
    && w.queue[r].order in w.local && w.local[w.queue[r].order].status.LSettled?
  }

  /** Moreover as C1 settles: a fact of every run. */
  ghost predicate ReplayRow(w: World, b: nat, given: map<nat, bool>, r: nat) {
    SettledRow(w, b, given, r) && SettlementOk(w.ledger, w.batches, SettlementOf(w.ledger.journal, w.queue[r].order, b))
  }

  /** Settled in C1 under this timestamp. */
  ghost predicate SettledAt(w: World, b: nat, at: nat, r: nat) {
    && r < |w.queue| && Has(w.ledger.journal, Settlement(w.queue[r].order, b))
    && SettlementOf(w.ledger.journal, w.queue[r].order, b).occurredAt == at
  }

  /** One caller on its own, nothing failing. */
  function Turns(t: nat, n: nat): seq<Action> { seq(n, _ => Advance(t, L.Ok, 0, [])) }

  lemma OneTurn(w: World, t: nat, n: nat)
    requires n > 0
    ensures Run(w, Turns(t, n)) == Run(Step(w, Advance(t, L.Ok, 0, [])), Turns(t, n - 1))
  {
    assert Turns(t, n)[1..] == Turns(t, n - 1);
  }

  lemma {:induction false} OverStays(w: World, t: nat, n: nat)
    requires t in w.callers && w.callers[t].Over?
    ensures Run(w, Turns(t, n)) == w
  {
    if n > 0 {
      OneTurn(w, t, n);
      OverStays(w, t, n - 1);
    }
  }

  lemma HandleTurn(w: World, t: nat, task: Task)
    requires Listed(w, task) && ReplayRow(w, task.b, task.given, task.rows[task.k])
    ensures OrderOf(w, task) < |w.ledger.orders|
    ensures
      var order := w.ledger.orders[OrderOf(w, task)];
      Step(w.At(t, Handling(task)), Advance(t, L.Ok, 0, [])) == w.At(t, Settling(task, order, order.version, false))
  {
    ReplayIff(w.ledger, w.batches, OrderOf(w, task), task.b, task.at);
    var order := w.ledger.orders[OrderOf(w, task)];
    assert w.callers[t := Handling(task)][t := Settling(task, order, order.version, false)] ==
      w.callers[t := Settling(task, order, order.version, false)];
  }

  lemma SettleTurn(w: World, t: nat, task: Task)
    requires Listed(w, task) && ReplayRow(w, task.b, task.given, task.rows[task.k])
      && OrderOf(w, task) < |w.ledger.orders|
    requires task.b < |w.batches| && task.slot == w.batches[task.b].slot
    ensures
      var order := w.ledger.orders[OrderOf(w, task)];
      Step(w.At(t, Settling(task, order, order.version, false)), Advance(t, L.Ok, 0, []))
      == w.At(t, if SettledAt(w, task.b, task.at, task.rows[task.k]) then Marking(task) else Over(Error))
  {
    var o := OrderOf(w, task);
    var order := w.ledger.orders[o];
    ReplayIff(w.ledger, w.batches, o, task.b, task.at);
    var c := if SettledAt(w, task.b, task.at, task.rows[task.k]) then Marking(task) else Over(Error);
    assert w.callers[t := Settling(task, order, order.version, false)][t := c] == w.callers[t := c];
  }

  lemma MarkTurn(w: World, t: nat, task: Task)
    requires Listed(w, task) && SettledRow(w, task.b, task.given, task.rows[task.k])
    ensures Step(w.At(t, Marking(task)), Advance(t, L.Ok, 0, []))
      == w.At(t, Onward(Next(task)))
  {
    var c := Onward(Next(task));
    assert w.callers[t := Marking(task)][t := c] == w.callers[t := c];
  }

  /** Three turns for a row: on to the next, or an error. */
  lemma RowTurns(w: World, t: nat, task: Task, n: nat)
    requires Listed(w, task) && ReplayRow(w, task.b, task.given, task.rows[task.k]) && n >= 3
    requires task.b < |w.batches| && task.slot == w.batches[task.b].slot
    ensures Run(w.At(t, Handling(task)), Turns(t, n)) ==
      if SettledAt(w, task.b, task.at, task.rows[task.k])
      then Run(w.At(t, Onward(Next(task))), Turns(t, n - 3))
      else w.At(t, Over(Error))
  {
    HandleTurn(w, t, task);
    OneTurn(w.At(t, Handling(task)), t, n);
    SettleTurn(w, t, task);
    var order := w.ledger.orders[OrderOf(w, task)];
    OneTurn(w.At(t, Settling(task, order, order.version, false)), t, n - 1);
    if SettledAt(w, task.b, task.at, task.rows[task.k]) {
      MarkTurn(w, t, task);
      OneTurn(w.At(t, Marking(task)), t, n - 2);
    } else {
      OverStays(w.At(t, Over(Error)), t, n - 2);
    }
  }

  ghost predicate AllSettledAt(w: World, task: Task) {
    forall j :: task.k <= j < |task.rows| ==> SettledAt(w, task.b, task.at, task.rows[j])
  }

  /** Every row from here on was a success and is settled and marked. */
  ghost predicate AllSettled(w: World, task: Task) {
    forall j :: task.k <= j < |task.rows| ==> SettledRow(w, task.b, task.given, task.rows[j])
  }

  ghost predicate AllReplay(w: World, task: Task) {
    forall j :: task.k <= j < |task.rows| ==> ReplayRow(w, task.b, task.given, task.rows[j])
  }

  ghost function Ending(w: World, task: Task): Caller
    requires task.k <= |task.rows|
  {
    Over(if AllSettledAt(w, task) then Handled(task.settled + (|task.rows| - task.k), task.requeued) else Error)
  }

  function Next(task: Task): Task { task.(k := task.k + 1, settled := task.settled + 1) }

  /** So many rows are left, and all of them replay. */
  ghost predicate Rerunning(w: World, task: Task, left: nat) {
    && task.b < |w.batches| && task.slot == w.batches[task.b].slot
    && |task.rows| == task.k + left && AllReplay(w, task)
  }

  lemma NextReruns(w: World, task: Task, left: nat)
    requires Rerunning(w, task, left) && left > 0
    ensures task.b < |w.batches| && task.slot == w.batches[task.b].slot
    ensures Listed(w, task) && ReplayRow(w, task.b, task.given, task.rows[task.k])
    ensures Rerunning(w, Next(task), left - 1)
  {}

  lemma NextEnding(w: World, task: Task)
    requires task.k < |task.rows|
    ensures Ending(w, task) ==
      if SettledAt(w, task.b, task.at, task.rows[task.k]) then Ending(w, Next(task)) else Over(Error)
  {
    if AllSettledAt(w, Next(task)) {
      assert forall j :: task.k < j < |task.rows| ==> SettledAt(w, task.b, task.at, Next(task).rows[j]);
    }
  }

  lemma RowFirst(w: World, t: nat, task: Task, left: nat)
    requires Listed(w, task) && ReplayRow(w, task.b, task.given, task.rows[task.k]) && left > 0
    requires task.b < |w.batches| && task.slot == w.batches[task.b].slot
    requires Run(w.At(t, Onward(Next(task))), Turns(t, 3 * (left - 1))) == w.At(t, Ending(w, Next(task)))
    ensures Run(w.At(t, Onward(task)), Turns(t, 3 * left)) == w.At(t, Ending(w, task))
  {
    RowTurns(w, t, task, 3 * left);
    NextEnding(w, task);
  }

  lemma {:induction false} RowsTurn(w: World, t: nat, task: Task, left: nat)
    requires Rerunning(w, task, left)
    ensures Run(w.At(t, Onward(task)), Turns(t, 3 * left)) == w.At(t, Ending(w, task))
    decreases left
  {
    if left > 0 {
      NextReruns(w, task, left);
      RowsTurn(w, t, Next(task), left - 1);
      RowFirst(w, t, task, left);
    } else {
      NoneLeft(w, t, task);
    }
  }

  lemma NoneLeft(w: World, t: nat, task: Task)
    requires task.k == |task.rows|
    ensures Run(w.At(t, Onward(task)), Turns(t, 0)) == w.At(t, Ending(w, task))
  {
    OverStays(w.At(t, Onward(task)), t, 0);
  }

  /** HandlePartialSettlement once more, in any run, on a batch whose rows are all settled in C1 and
      marked: left alone it ends well if and only if it carries the timestamp they were settled with;
      and however it ends, nothing has changed in C1, in dispatch_state or in the queue. */
  lemma RerunIff(acts: seq<Action>, t: nat, task: Task)
    requires var w := Run(INIT, acts); t in w.callers && w.callers[t] == Handling(task)
    requires AllSettled(Run(INIT, acts), task)
    ensures task.k < |task.rows|
    ensures
      var w := Run(INIT, acts);
      Run(w, Turns(t, 3 * (|task.rows| - task.k))) == w.At(t, Ending(w, task))
  {
    var w := Run(INIT, acts);
    RunKeeps(INIT, acts);
    assert CallerOk(w.queue, w.batches, w.ledger, w.callers[t]);
    assert w.At(t, Onward(task)) == w;
    forall j | task.k <= j < |task.rows| ensures ReplayRow(w, task.b, task.given, task.rows[j]) {
      assert SettledRow(w, task.b, task.given, task.rows[j]);
      assert SettlementOk(w.ledger, w.batches, SettlementOf(w.ledger.journal, w.queue[task.rows[j]].order, task.b));
    }
    RowsTurn(w, t, task, |task.rows| - task.k);
  }

  // ---------------------------------------------------------------- two settlements of one batch

  const FAILS_FIRST := (order: nat, b: nat) => b != 0

  /** One queued order, cut into a batch. */
  function Cutting(t: nat): seq<Action> {
    [StartCut(t, 1, 0, 0), Advance(t, L.Ok, 0, [0]), Advance(t, L.Ok, 0, []), Advance(t, L.Ok, 0, [])]
  }

  function WithBatch(w: World, row: Row): World {
    w.(queue := [row.(status := Batched(|w.batches|))], batches := w.batches + [Batch(0, PayOne(row))])
  }

  function PayOne(row: Row): seq<Payment> { [Payment(0, row.recipient, row.amount)] }

  lemma ListTurn(w: World, t: nat, row: Row)
    requires w.queue == [row] && row.status.Queued?
    ensures Step(w.At(t, Listing(1, 0, 0)), Advance(t, L.Ok, 0, [0])) == w.At(t, Creating([0], PayOne(row), 0))
  {
    assert OldestFirst([row], [0], 1) && Payments([row], [0]) == PayOne(row);
    assert w.callers[t := Listing(1, 0, 0)][t := Creating([0], PayOne(row), 0)] ==
      w.callers[t := Creating([0], PayOne(row), 0)];
  }

  lemma CreateTurn(w: World, t: nat, row: Row)
    requires w.queue == [row] && row.status.Queued?
    ensures Step(w.At(t, Creating([0], PayOne(row), 0)), Advance(t, L.Ok, 0, [])) ==
      WithBatch(w, row).At(t, Reserving(|w.batches|))
  {
    assert CreatedQueue([row], [0], |w.batches|) == [row.(status := Batched(|w.batches|))];
    assert w.callers[t := Creating([0], PayOne(row), 0)][t := Reserving(|w.batches|)] ==
      w.callers[t := Reserving(|w.batches|)];
  }

  lemma ReserveTurn(w: World, t: nat, b: nat)
    ensures Step(w.At(t, Reserving(b)), Advance(t, L.Ok, 0, [])) == w.At(t, Over(Cut(b)))
  {
    assert w.callers[t := Reserving(b)][t := Over(Cut(b))] == w.callers[t := Over(Cut(b))];
  }

  lemma CutRun(w: World, t: nat, row: Row)
    requires w.queue == [row] && row.status.Queued? && t !in w.callers
    ensures Run(w, Cutting(t)) == WithBatch(w, row).At(t, Over(Cut(|w.batches|)))
  {
    ListTurn(w, t, row);
    CreateTurn(w, t, row);
    ReserveTurn(WithBatch(w, row), t, |w.batches|);
    RunUnfold(w, Cutting(t), [w.At(t, Listing(1, 0, 0)), w.At(t, Creating([0], PayOne(row), 0)),
      WithBatch(w, row).At(t, Reserving(|w.batches|)), WithBatch(w, row).At(t, Over(Cut(|w.batches|)))]);
  }

  /** A caller that is told the order's payment in batch 0 failed, up to its list. */
  function Opened(t: nat): seq<Action> {
    [StartSettle(t, 0, map[7 := false], 0), Advance(t, L.Ok, 0, []), Advance(t, L.Ok, 0, [])]
  }

  const TASK := Task(0, map[7 := false], 0, 0, [0], 0, 0, 0)

  lemma OpenedRun(w: World, t: nat, row: Row)
    requires w.queue == [row] && row.status == Batched(0) && t !in w.callers
      && |w.batches| > 0 && w.batches[0].slot == 0
    ensures Run(w, Opened(t)) == w.At(t, Handling(TASK))
  {
    var given := map[7 := false];
    OpenTurn(w, t, given);
    CollectTurn(w, t, row);
    RunUnfold(w, Opened(t),
      [w.At(t, Opening(0, given, 0)), w.At(t, Collecting(0, given, 0, 0)), w.At(t, Handling(TASK))]);
  }

  lemma OpenTurn(w: World, t: nat, given: map<nat, bool>)
    requires |w.batches| > 0 && w.batches[0].slot == 0
    ensures Step(w.At(t, Opening(0, given, 0)), Advance(t, L.Ok, 0, [])) == w.At(t, Collecting(0, given, 0, 0))
  {
    assert w.callers[t := Opening(0, given, 0)][t := Collecting(0, given, 0, 0)] ==
      w.callers[t := Collecting(0, given, 0, 0)];
  }

  lemma OnePoints(row: Row)
    requires row.status == Batched(0)
    ensures Pointing([row], 0) == [0]
  {
    assert [row][..0] == [];
  }

  lemma CollectTurn(w: World, t: nat, row: Row)
    requires w.queue == [row] && row.status == Batched(0)
    ensures Step(w.At(t, Collecting(0, map[7 := false], 0, 0)), Advance(t, L.Ok, 0, [])) == w.At(t, Handling(TASK))
  {
    OnePoints(row);
    assert w.callers[t := Collecting(0, map[7 := false], 0, 0)][t := Handling(TASK)] ==
      w.callers[t := Handling(TASK)];
  }

  /** It requeues the row, wherever that points by now. */
  lemma RequeueRun(w: World, t: nat, row: Row)
    requires w.queue == [row] && row.order == 7 && t in w.callers && w.callers[t] == Handling(TASK)
    ensures Run(w, [Advance(t, L.Ok, 0, [])]) ==
      w.At(t, Over(Handled(0, 1))).(queue := [row.(status := Queued, enqueuedAt := 0)], requeued := w.requeued + {0})
  {
    assert Requeued([row], 0, 0) == [row.(status := Queued, enqueuedAt := 0)];
    RunUnfold(w, [Advance(t, L.Ok, 0, [])], [Step(w, Advance(t, L.Ok, 0, []))]);
  }

  const ENQUEUEING := [Enqueue(7, "r", 5, 0)]
  const FIRST := ENQUEUEING + Cutting(0)
  const SECOND := Opened(1) + Opened(2) + [Advance(1, L.Ok, 0, [])] + Cutting(3)
  const THIRD := [Advance(2, L.Ok, 0, [])] + Cutting(4)

  function RowIn(status: Status): Row { Row(7, "r", 5, status, 0) }

  function Cuts(n: nat): seq<Batch> { seq(n, _ => Batch(0, [Payment(0, "r", 5)])) }

  function After(status: Status, n: nat, callers: map<nat, Caller>, requeued: set<nat>): World {
    World([RowIn(status)], Cuts(n), Ledger([], [], false), map[], callers, requeued)
  }

  lemma FirstRun()
    ensures Run(INIT, FIRST) == After(Batched(0), 1, CUT0, {})
  {
    var w := After(Queued, 0, map[], {});
    assert [] + [RowIn(Queued)] == [RowIn(Queued)] && Cuts(0) == [];
    RunUnfold(INIT, ENQUEUEING, [w]);
    RunConcat(INIT, ENQUEUEING, Cutting(0));
    CutRun(w, 0, RowIn(Queued));
    assert Cuts(1) == [] + [Batch(0, [Payment(0, "r", 5)])];
  }

  const CUT0: map<nat, Caller> := map[0 := Over(Cut(0))]
  const BOTH: map<nat, Caller> := map[0 := Over(Cut(0)), 1 := Handling(TASK), 2 := Handling(TASK)]
  const ONE: map<nat, Caller> := map[0 := Over(Cut(0)), 1 := Over(Handled(0, 1)), 2 := Handling(TASK)]
  const THEN: map<nat, Caller> :=
    map[0 := Over(Cut(0)), 1 := Over(Handled(0, 1)), 2 := Handling(TASK), 3 := Over(Cut(1))]

  lemma BothRun()
    ensures Run(After(Batched(0), 1, CUT0, {}), Opened(1) + Opened(2)) == After(Batched(0), 1, BOTH, {})
  {
    var w := After(Batched(0), 1, CUT0, {});
    OpenedRun(w, 1, RowIn(Batched(0)));
    OpenedRun(w.At(1, Handling(TASK)), 2, RowIn(Batched(0)));
    RunConcat(w, Opened(1), Opened(2));
    assert CUT0[1 := Handling(TASK)][2 := Handling(TASK)] == BOTH;
  }

  lemma OneRun()
    ensures Run(After(Batched(0), 1, BOTH, {}), [Advance(1, L.Ok, 0, [])]) == After(Queued, 1, ONE, {0})
  {
    RequeueRun(After(Batched(0), 1, BOTH, {}), 1, RowIn(Batched(0)));
    assert BOTH[1 := Over(Handled(0, 1))] == ONE;
  }

  lemma ThenRun()
    ensures Run(After(Queued, 1, ONE, {0}), Cutting(3)) == After(Batched(1), 2, THEN, {0})
  {
    CutRun(After(Queued, 1, ONE, {0}), 3, RowIn(Queued));
    assert Cuts(2) == Cuts(1) + [Batch(0, [Payment(0, "r", 5)])];
    assert ONE[3 := Over(Cut(1))] == THEN;
  }

  lemma SecondRun()
    ensures Run(After(Batched(0), 1, CUT0, {}), SECOND) == After(Batched(1), 2, THEN, {0})
  {
    var w := After(Batched(0), 1, CUT0, {});
    BothRun();
    OneRun();
    ThenRun();
    RunConcat(w, Opened(1) + Opened(2), [Advance(1, L.Ok, 0, [])]);
    RunConcat(w, Opened(1) + Opened(2) + [Advance(1, L.Ok, 0, [])], Cutting(3));
  }

  lemma ThirdRun()
    ensures
      var w' := Run(After(Batched(1), 2, THEN, {0}), THIRD);
      w'.queue == [RowIn(Batched(2))] && w'.batches == Cuts(3)
  {
    var w := After(Batched(1), 2, THEN, {0});
    RequeueRun(w, 2, RowIn(Batched(1)));
    CutRun(Run(w, [Advance(2, L.Ok, 0, [])]), 4, RowIn(Queued));
    assert Cuts(3) == Cuts(2) + [Batch(0, [Payment(0, "r", 5)])];
    RunConcat(w, [Advance(2, L.Ok, 0, [])], Cutting(4));
  }

  lemma EveryoneToldTheTruth()
    ensures Truthful(FIRST + SECOND + THIRD, FAILS_FIRST)
  {
    assert Opened(1)[0].given == map[7 := false] && Opened(2)[0].given == map[7 := false];
    assert forall i :: 0 <= i < |Opened(1)| && Opened(1)[i].StartSettle? ==> i == 0;
    assert forall i :: 0 <= i < |Opened(2)| && Opened(2)[i].StartSettle? ==> i == 0;
  }

  /** Both callers list the failed row of batch 0; one requeues it, a cut commits batch 1 with it; the
      other requeues it too, and a second cut commits batch 2 with it. Every caller is told the truth,
      and the order is paid twice. */
  lemma ConcurrentSettlementPaysTwice()
    ensures
      var acts := FIRST + SECOND + THIRD;
      var w := Run(INIT, acts);
      && Truthful(acts, FAILS_FIRST) && |w.queue| == 1
      && Pays(w.batches, 1, 0) && FAILS_FIRST(w.queue[0].order, 1)
      && Pays(w.batches, 2, 0) && FAILS_FIRST(w.queue[0].order, 2)
  {
    FirstRun();
    SecondRun();
    ThirdRun();
    RunConcat(INIT, FIRST, SECOND);
    RunConcat(INIT, FIRST + SECOND, THIRD);
    EveryoneToldTheTruth();
    assert Cuts(3)[1].payments[0].row == 0 && Cuts(3)[2].payments[0].row == 0;
  }
}
