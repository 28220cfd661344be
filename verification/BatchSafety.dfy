/** What every run of the batch protocol keeps. */
module BatchSafety {
  import opened Common
  import opened Ledger
  import L = Lifecycle
  import opened BatchProtocol

  // ---------------------------------------------------------------- the invariant of every run

  ghost predicate PaidAt(payments: seq<Payment>, r: nat) { exists k :: 0 <= k < |payments| && payments[k].row == r }

  /** The batch pays this row. */
  ghost predicate Pays(batches: seq<Batch>, b: nat, r: nat) { b < |batches| && PaidAt(batches[b].payments, r) }

  /** A batch pays each row's own amount to its own recipient, once. */
  ghost predicate BatchOk(queue: seq<Row>, payments: seq<Payment>) {
    && (forall k :: 0 <= k < |payments| ==>
          && payments[k].row < |queue|
          && payments[k].amount == queue[payments[k].row].amount
          && payments[k].recipient == queue[payments[k].row].recipient)
    && forall j, k :: 0 <= j < k < |payments| ==> payments[j].row != payments[k].row
  }

  ghost predicate QueueOk(queue: seq<Row>, batches: seq<Batch>, requeued: set<nat>) {
    && (forall r, q :: 0 <= r < q < |queue| ==> queue[r].order != queue[q].order)
    && (forall b :: 0 <= b < |batches| ==> BatchOk(queue, batches[b].payments))
    && (forall r: nat :: r < |queue| && queue[r].status.Batched? ==> Pays(batches, queue[r].status.batch, r))
    && (forall r: nat, b: nat :: Pays(batches, b, r) && r !in requeued ==> r < |queue| && queue[r].status == Batched(b))
  }

  /** A settlement settled its order, with the lines of its batch; there is one per order. */
  ghost predicate SettlementOk(l: Ledger, batches: seq<Batch>, e: Entry) {
    e.key.Settlement? ==>
      && e.key.order < |l.orders| && l.orders[e.key.order].state.Settled?
      && e.key.attempt < |batches| && e.lines == SettlementLines(l.orders[e.key.order], batches[e.key.attempt].slot)
      && Acceptable(e.lines) && e.subject.ByKey?
  }

  ghost predicate LedgerOk(l: Ledger, batches: seq<Batch>) {
    && (forall i :: 0 <= i < |l.journal| ==> SettlementOk(l, batches, l.journal[i]))
    && (forall i, j :: 0 <= i < j < |l.journal| && l.journal[i].key.Settlement? && l.journal[j].key.Settlement? ==>
          l.journal[i].key.order != l.journal[j].key.order)
  }

  /** A snapshot of an order agrees with C1 on the amounts frozen at quote time. */
  ghost predicate SameQuote(l: Ledger, o: nat, snap: Order) {
    o < |l.orders| && snap.(state := Quoted, version := 0) == l.orders[o].(state := Quoted, version := 0)
  }

  ghost predicate Ascending(rows: seq<nat>) { forall j, k :: 0 <= j < k < |rows| ==> rows[j] < rows[k] }

  /** The rows it listed are rows its batch pays. */
  ghost predicate TaskOk(queue: seq<Row>, batches: seq<Batch>, task: Task) {
    && task.b < |batches| && task.slot == batches[task.b].slot && task.k < |task.rows| && Ascending(task.rows)
    && forall j :: 0 <= j < |task.rows| ==> task.rows[j] < |queue| && Pays(batches, task.b, task.rows[j])
  }

  ghost predicate Succeeded(queue: seq<Row>, task: Task) {
    && task.k < |task.rows| && task.rows[task.k] < |queue|
    && queue[task.rows[task.k]].order in task.given && task.given[queue[task.rows[task.k]].order]
  }

  ghost predicate CallerOk(queue: seq<Row>, batches: seq<Batch>, l: Ledger, c: Caller) {
    match c
    case Creating(rows, payments, _) =>
      && rows != [] && (forall k :: 0 <= k < |rows| ==> rows[k] < |queue|)
      && (forall j, k :: 0 <= j < k < |rows| ==> rows[j] != rows[k])
      && payments == Payments(queue, rows)
    case Reserving(b) => b < |batches|
    case Collecting(b, _, _, slot) => b < |batches| && slot == batches[b].slot
    case Handling(task) => TaskOk(queue, batches, task)
    case Settling(task, snap, _, _) =>
      TaskOk(queue, batches, task) && Succeeded(queue, task) && SameQuote(l, queue[task.rows[task.k]].order, snap)
    case Refetching(task, snap) =>
      TaskOk(queue, batches, task) && Succeeded(queue, task) && SameQuote(l, queue[task.rows[task.k]].order, snap)
    case Marking(task) =>
      TaskOk(queue, batches, task) && Succeeded(queue, task)
        && Has(l.journal, Settlement(queue[task.rows[task.k]].order, task.b))
    case _ => true
  }

  ghost predicate Sound(w: World) {
    && QueueOk(w.queue, w.batches, w.requeued)
    && LedgerOk(w.ledger, w.batches)
    && forall t :: t in w.callers ==> CallerOk(w.queue, w.batches, w.ledger, w.callers[t])
  }

  // ---------------------------------------------------------------- what only grows

  ghost predicate QueueGrows(queue: seq<Row>, queue': seq<Row>) {
    && |queue| <= |queue'|
    && forall r :: 0 <= r < |queue| ==>
         queue'[r].order == queue[r].order && queue'[r].recipient == queue[r].recipient
           && queue'[r].amount == queue[r].amount
  }

  ghost predicate LedgerGrows(l: Ledger, l': Ledger) {
    && l.journal <= l'.journal && |l.orders| <= |l'.orders|
    && (forall o :: 0 <= o < |l.orders| ==>
      l'.orders[o].(state := Quoted, version := 0) == l.orders[o].(state := Quoted, version := 0))
    && (forall o :: 0 <= o < |l.orders| && l.orders[o].state.Settled? ==> l'.orders[o].state.Settled?)
  }

  lemma HasStays(j: Journal, j': Journal, key: Key)
    requires j <= j' && Has(j, key)
    ensures Has(j', key)
  {
    assert j'[Find(j, key).value].key == key;
  }

  lemma PaysStays(batches: seq<Batch>, batches': seq<Batch>)
    requires batches <= batches'
    ensures forall b: nat, r: nat :: Pays(batches, b, r) ==> Pays(batches', b, r)
  {}

  lemma TaskStays(queue: seq<Row>, batches: seq<Batch>, queue': seq<Row>, batches': seq<Batch>, task: Task)
    requires TaskOk(queue, batches, task) && QueueGrows(queue, queue') && batches <= batches'
    ensures TaskOk(queue', batches', task)
    ensures Succeeded(queue, task) ==> Succeeded(queue', task)
  {
    PaysStays(batches, batches');
  }

  lemma CallerStays(queue: seq<Row>, batches: seq<Batch>, l: Ledger, queue': seq<Row>, batches': seq<Batch>, l': Ledger,
                    c: Caller)
    requires CallerOk(queue, batches, l, c) && QueueGrows(queue, queue') && batches <= batches' && LedgerGrows(l, l')
    ensures CallerOk(queue', batches', l', c)
  {
    if c.HasTask() { TaskStays(queue, batches, queue', batches', c.task); }
    if c.Marking? { HasStays(l.journal, l'.journal, Settlement(queue[c.task.rows[c.task.k]].order, c.task.b)); }
    if c.Creating? { assert Payments(queue', c.rows) == Payments(queue, c.rows); }
  }

  /** Enough for any step: the parts are in order, and the caller that moved is. */
  lemma Assemble(w: World, w': World, t: nat)
    requires Sound(w) && QueueGrows(w.queue, w'.queue) && w.batches <= w'.batches && LedgerGrows(w.ledger, w'.ledger)
    requires QueueOk(w'.queue, w'.batches, w'.requeued) && LedgerOk(w'.ledger, w'.batches)
    requires forall u :: u in w'.callers && u != t ==> u in w.callers && w'.callers[u] == w.callers[u]
    requires t in w'.callers ==> CallerOk(w'.queue, w'.batches, w'.ledger, w'.callers[t])
    ensures Sound(w')
  {
    forall u | u in w'.callers ensures CallerOk(w'.queue, w'.batches, w'.ledger, w'.callers[u]) {
      if u != t { CallerStays(w.queue, w.batches, w.ledger, w'.queue, w'.batches, w'.ledger, w.callers[u]); }
    }
  }

  lemma Moves(w: World, t: nat, c: Caller)
    requires Sound(w) && CallerOk(w.queue, w.batches, w.ledger, c)
    ensures Sound(w.At(t, c))
  {
    Assemble(w, w.At(t, c), t);
  }

  // ---------------------------------------------------------------- the queue

  lemma EnqueueOk(queue: seq<Row>, batches: seq<Batch>, requeued: set<nat>, row: Row)
    requires QueueOk(queue, batches, requeued) && row.status.Queued?
    ensures QueueOk(Enqueued(queue, row), batches, requeued) && QueueGrows(queue, Enqueued(queue, row))
  {
    var queue' := Enqueued(queue, row);
    forall b | 0 <= b < |batches| ensures BatchOk(queue', batches[b].payments) {
      assert BatchOk(queue, batches[b].payments);
    }
  }

  lemma RequeueOk(queue: seq<Row>, batches: seq<Batch>, requeued: set<nat>, r: nat, now: nat)
    requires QueueOk(queue, batches, requeued) && r < |queue|
    ensures QueueOk(Requeued(queue, r, now), batches, requeued + {r}) && QueueGrows(queue, Requeued(queue, r, now))
  {
    var queue' := Requeued(queue, r, now);
    forall b | 0 <= b < |batches| ensures BatchOk(queue', batches[b].payments) {
      assert BatchOk(queue, batches[b].payments);
    }
  }

  lemma PaysCreated(queue: seq<Row>, batches: seq<Batch>, rows: seq<nat>, slot: nat)
    requires forall k :: 0 <= k < |rows| ==> rows[k] < |queue|
    ensures forall b: nat, r: nat ::
      Pays(batches + [Batch(slot, Payments(queue, rows))], b, r) <==>
        Pays(batches, b, r) || (b == |batches| && r in rows)
  {
    var p := Payments(queue, rows);
    var batches' := batches + [Batch(slot, p)];
    forall b: nat, r: nat ensures Pays(batches', b, r) <==> Pays(batches, b, r) || (b == |batches| && r in rows) {
      if b == |batches| && r in rows {
        var k :| 0 <= k < |rows| && rows[k] == r;
        assert p[k].row == r;
      }
    }
  }

  lemma CreateOk(queue: seq<Row>, batches: seq<Batch>, requeued: set<nat>, rows: seq<nat>, slot: nat)
    requires QueueOk(queue, batches, requeued) && AllQueued(queue, rows)
    ensures
      var queue', batches' := CreatedQueue(queue, rows, |batches|), batches + [Batch(slot, Payments(queue, rows))];
      QueueOk(queue', batches', requeued) && QueueGrows(queue, queue') && batches <= batches'
  {
    var queue', batches' := CreatedQueue(queue, rows, |batches|), batches + [Batch(slot, Payments(queue, rows))];
    CreatedBatches(queue, batches, rows, slot);
    PaysCreated(queue, batches, rows, slot);
  }

  lemma CreatedBatches(queue: seq<Row>, batches: seq<Batch>, rows: seq<nat>, slot: nat)
    requires AllQueued(queue, rows) && forall b :: 0 <= b < |batches| ==> BatchOk(queue, batches[b].payments)
    ensures
      var queue', batches' := CreatedQueue(queue, rows, |batches|), batches + [Batch(slot, Payments(queue, rows))];
      forall b :: 0 <= b < |batches'| ==> BatchOk(queue', batches'[b].payments)
  {
    var queue', batches' := CreatedQueue(queue, rows, |batches|), batches + [Batch(slot, Payments(queue, rows))];
    forall b | 0 <= b < |batches'| ensures BatchOk(queue', batches'[b].payments) {
      if b < |batches| { assert BatchOk(queue, batches[b].payments); }
    }
  }

  // ---------------------------------------------------------------- the ledger

  lemma LedgerBatches(l: Ledger, batches: seq<Batch>, batches': seq<Batch>)
    requires LedgerOk(l, batches) && batches <= batches'
    ensures LedgerOk(l, batches')
  {
    forall i | 0 <= i < |l.journal| ensures SettlementOk(l, batches', l.journal[i]) {
      assert SettlementOk(l, batches, l.journal[i]);
    }
  }

  lemma SettlementLinesSame(a: Order, b: Order, slot: nat)
    requires a.(state := Quoted, version := 0) == b.(state := Quoted, version := 0)
    ensures SettlementLines(a, slot) == SettlementLines(b, slot)
  {
    var x, y := a.(state := Quoted, version := 0), b.(state := Quoted, version := 0);
    assert x.customer == y.customer && x.amountOut == y.amountOut;
  }

  /** Orders move on, settled ones stay; what was posted is as good as before. */
  lemma SettlementStays(l: Ledger, l': Ledger, batches: seq<Batch>, e: Entry)
    requires SettlementOk(l, batches, e) && LedgerGrows(l, l')
    ensures SettlementOk(l', batches, e)
  {
    if e.key.Settlement? {
      SettlementLinesSame(l.orders[e.key.order], l'.orders[e.key.order], batches[e.key.attempt].slot);
    }
  }

  /** One more entry, of another kind. */
  lemma OtherEntryOk(l: Ledger, l': Ledger, batches: seq<Batch>)
    requires LedgerOk(l, batches) && LedgerGrows(l, l') && |l'.journal| <= |l.journal| + 1
    requires |l'.journal| > |l.journal| ==> !l'.journal[|l.journal|].key.Settlement?
    ensures LedgerOk(l', batches)
  {
    forall i | 0 <= i < |l'.journal| ensures SettlementOk(l', batches, l'.journal[i]) {
      if i < |l.journal| {
        assert l'.journal[i] == l.journal[i];
        SettlementStays(l, l', batches, l.journal[i]);
      }
    }
    forall i, j | 0 <= i < j < |l'.journal| && l'.journal[i].key.Settlement? && l'.journal[j].key.Settlement?
      ensures l'.journal[i].key.order != l'.journal[j].key.order
    {
      assert l'.journal[i] == l.journal[i] && l'.journal[j] == l.journal[j];
    }
  }

  /** What any transition does to C1: at most one order moves, legally, and at most one entry comes. */
  lemma TransitionGrows(l: Ledger, o: nat, to: OrderState, version: nat, cause: Cause)
    ensures
      var l' := Transition(l, o, to, version, cause).1;
      LedgerGrows(l, l') && (l'.journal == l.journal || (cause.Inline? && l'.journal == l.journal + [cause.entry]))
  {}

  lemma LedgerStep(w: World, l: Ledger)
    requires Sound(w) && LedgerGrows(w.ledger, l) && LedgerOk(l, w.batches)
    ensures Sound(w.(ledger := l))
  {
    forall u | u in w.callers ensures CallerOk(w.queue, w.batches, l, w.callers[u]) {
      CallerStays(w.queue, w.batches, w.ledger, w.queue, w.batches, l, w.callers[u]);
    }
  }

  lemma OthersKeep(w: World, act: Action)
    requires Sound(w) && (act.Quote? || act.Move? || act.PostOther? || act.ReverseOther? || act.SetHalt?)
    ensures Sound(Step(w, act))
  {
    var l := Step(w, act).ledger;
    if act.Move? { TransitionGrows(w.ledger, act.o, act.to, act.version, act.cause); }
    assert LedgerGrows(w.ledger, l);
    OtherEntryOk(w.ledger, l, w.batches);
    LedgerStep(w, l);
  }

  // ---------------------------------------------------------------- the callers

  lemma EnqueueKeeps(w: World, row: Row)
    requires Sound(w) && row.status.Queued?
    ensures Sound(w.(queue := Enqueued(w.queue, row)))
  {
    EnqueueOk(w.queue, w.batches, w.requeued, row);
    forall u | u in w.callers ensures CallerOk(Enqueued(w.queue, row), w.batches, w.ledger, w.callers[u]) {
      CallerStays(w.queue, w.batches, w.ledger, Enqueued(w.queue, row), w.batches, w.ledger, w.callers[u]);
    }
  }

  lemma ListKeeps(w: World, t: nat, maxSize: nat, maxWait: nat, slot: nat, now: nat, rows: seq<nat>)
    requires Sound(w)
    ensures Sound(DoList(w, t, maxSize, maxWait, slot, now, rows))
  {
    var w' := DoList(w, t, maxSize, maxWait, slot, now, rows);
    if w' != w { Moves(w, t, w'.callers[t]); }
  }

  lemma CreateKeeps(w: World, t: nat, rows: seq<nat>, payments: seq<Payment>, slot: nat, reply: L.Reply)
    requires Sound(w) && t in w.callers && w.callers[t] == Creating(rows, payments, slot)
    ensures Sound(DoCreate(w, t, rows, payments, slot, reply))
  {
    if AllQueued(w.queue, rows) {
      CreateOk(w.queue, w.batches, w.requeued, rows, slot);
      var w' := DoCreate(w, t, rows, payments, slot, reply);
      LedgerBatches(w.ledger, w.batches, w'.batches);
      Assemble(w, w', t);
    } else {
      Moves(w, t, Over(Error));
    }
  }

  lemma CollectKeeps(w: World, t: nat, b: nat, given: map<nat, bool>, at: nat, slot: nat)
    requires Sound(w) && b < |w.batches| && slot == w.batches[b].slot
    ensures Sound(w.At(t, Onward(Task(b, given, at, slot, Pointing(w.queue, b), 0, 0, 0))))
  {
    var rows := Pointing(w.queue, b);
    assert forall j :: 0 <= j < |rows| ==> rows[j] in rows;
    Moves(w, t, Onward(Task(b, given, at, slot, rows, 0, 0, 0)));
  }

  lemma HandleKeeps(w: World, t: nat, task: Task, reply: L.Reply, now: nat)
    requires Sound(w) && t in w.callers && w.callers[t] == Handling(task)
    ensures Sound(DoHandle(w, t, task, reply, now))
  {
    var r, o := task.rows[task.k], OrderOf(w, task);
    var w' := DoHandle(w, t, task, reply, now);
    if o in task.given && !task.given[o] {
      RequeueOk(w.queue, w.batches, w.requeued, r, now);
      TaskStays(w.queue, w.batches, w'.queue, w.batches, task);
      Assemble(w, w', t);
    } else {
      Moves(w, t, w'.callers[t]);
    }
  }

  /** A settlement lands: its order was dispatching, so it is the order's first. */
  lemma SettlementLands(l: Ledger, batches: seq<Batch>, o: nat, e: Entry)
    requires LedgerOk(l, batches) && o < |l.orders| && l.orders[o].state.Dispatching?
    requires e.key.Settlement? && e.key.order == o && e.key.attempt < |batches|
    requires e.lines == SettlementLines(l.orders[o], batches[e.key.attempt].slot) && Acceptable(e.lines)
    requires e.subject.ByKey?
    ensures LedgerOk(Entered(l, o, Settled, e), batches) && LedgerGrows(l, Entered(l, o, Settled, e))
  {
    var l' := Entered(l, o, Settled, e);
    forall i | 0 <= i < |l'.journal| ensures SettlementOk(l', batches, l'.journal[i]) {
      if i < |l.journal| { SettlementStays(l, l', batches, l.journal[i]); }
    }
    forall i | 0 <= i < |l.journal| && l.journal[i].key.Settlement? ensures l.journal[i].key.order != o {
      assert SettlementOk(l, batches, l.journal[i]);
    }
  }

  /** C1's answer to a settlement request: it lands on a dispatching order, or nothing changes. */
  lemma SettleVerdict(l: Ledger, batches: seq<Batch>, o: nat, version: nat, e: Entry)
    requires LedgerOk(l, batches) && e.key.Settlement? && e.key.order == o
    ensures
      var (verdict, l') := Transition(l, o, Settled, version, Inline(e));
      && (l' == l || (verdict.Done? && o < |l.orders| && l.orders[o].state.Dispatching?
           && Acceptable(e.lines) && l' == Entered(l, o, Settled, e)))
      && (verdict.Done? ==> Has(l'.journal, e.key))
  {
    if o < |l.orders| && l.orders[o].state.Dispatching? {
      assert !Has(l.journal, e.key);
      TransitionNewEntry(l, o, Settled, version, e);
      HasAppend(l.journal, e, e.key);
    }
  }

  /** Where a turn of settleOrder's loop can go. */
  lemma SettleShape(w: World, t: nat, task: Task, snap: Order, version: nat, retried: bool, reply: L.Reply)
    requires Listed(w, task) && t in w.callers && w.callers[t] == Settling(task, snap, version, retried)
    ensures
      var (verdict, l) :=
        Transition(w.ledger, OrderOf(w, task), Settled, version, Inline(SettlementEntry(w, task, snap)));
      var w' := DoSettle(w, t, task, snap, version, retried, reply);
      && t in w'.callers && w' == w.(ledger := l).At(t, w'.callers[t])
      && (if verdict.Done? then w'.callers[t] in {Over(Error), Marking(task)}
          else w'.callers[t] in {Over(Error), Refetching(task, snap), w.callers[t]})
  {
    assert w.callers[t := w.callers[t]] == w.callers;
  }

  lemma SettleKeeps(w: World, t: nat, task: Task, snap: Order, version: nat, retried: bool, reply: L.Reply)
    requires Sound(w) && t in w.callers && w.callers[t] == Settling(task, snap, version, retried)
    ensures Sound(DoSettle(w, t, task, snap, version, retried, reply))
  {
    assert TaskOk(w.queue, w.batches, task);
    var o, e := OrderOf(w, task), SettlementEntry(w, task, snap);
    SettleVerdict(w.ledger, w.batches, o, version, e);
    SettleShape(w, t, task, snap, version, retried, reply);
    SettlementLinesSame(snap, w.ledger.orders[o], task.slot);
    var w' := DoSettle(w, t, task, snap, version, retried, reply);
    if w'.ledger != w.ledger { SettlementLands(w.ledger, w.batches, o, e); }
    CallerStays(w.queue, w.batches, w.ledger, w.queue, w.batches, w'.ledger, w.callers[t]);
    Assemble(w, w', t);
  }

  lemma MarkKeeps(w: World, t: nat, task: Task, reply: L.Reply)
    requires Sound(w) && t in w.callers && w.callers[t] == Marking(task)
    ensures Sound(DoMark(w, t, task, reply))
  {
    Assemble(w, DoMark(w, t, task, reply), t);
  }

  lemma AdvanceKeeps(w: World, t: nat, reply: L.Reply, now: nat, listed: seq<nat>)
    requires Sound(w) && t in w.callers
    ensures Sound(AdvanceCaller(w, t, w.callers[t], reply, now, listed))
  {
    var c := w.callers[t];
    assert CallerOk(w.queue, w.batches, w.ledger, c);
    if c.Over? {
    } else if reply.Failed? {
      Moves(w, t, Over(Error));
    } else {
      match c
      case Listing(maxSize, maxWait, slot) => ListKeeps(w, t, maxSize, maxWait, slot, now, listed);
      case Creating(rows, payments, slot) => CreateKeeps(w, t, rows, payments, slot, reply);
      case Reserving(b) => Moves(w, t, Over(if reply.Lost? then Error else Cut(b)));
      case Opening(b, given, at) =>
        Moves(w, t, if b < |w.batches| then Collecting(b, given, at, w.batches[b].slot) else Over(Error));
      case Collecting(b, given, at, slot) => CollectKeeps(w, t, b, given, at, slot);
      case Handling(task) => HandleKeeps(w, t, task, reply, now);
      case Settling(task, snap, version, retried) => SettleKeeps(w, t, task, snap, version, retried, reply);
      case Refetching(task, snap) => Moves(w, t, DoRefetch(w, t, task, snap).callers[t]);
      case Marking(task) => MarkKeeps(w, t, task, reply);
    }
  }

  lemma StepKeeps(w: World, act: Action)
    requires Sound(w)
    ensures Sound(Step(w, act))
  {
    match act
    case Record(_, _) =>
    case Enqueue(order, recipient, amount, now) =>
      EnqueueKeeps(w, Row(order, recipient, amount, Queued, now));
    case StartCut(t, maxSize, maxWait, slot) => Moves(w, t, Listing(maxSize, maxWait, slot));
    case StartSettle(t, b, given, at) => Moves(w, t, Opening(b, given, at));
    case Advance(t, reply, now, listed) => if t in w.callers { AdvanceKeeps(w, t, reply, now, listed); }
    case Crash(t) => Moves(w, t, Over(Crashed));
    case _ => OthersKeep(w, act);
  }

  lemma {:induction false} RunKeeps(w: World, acts: seq<Action>)
    requires Sound(w)
    ensures Sound(Run(w, acts))
    decreases |acts|
  {
    if acts != [] {
      StepKeeps(w, acts[0]);
      RunKeeps(Step(w, acts[0]), acts[1..]);
    }
  }

  // ---------------------------------------------------------------- what nobody takes back

  /** What nothing that anybody does takes back. */
  ghost predicate Stays(w: World, w': World) {
    && QueueGrows(w.queue, w'.queue) && w.batches <= w'.batches && w.ledger.journal <= w'.ledger.journal
    && (forall o :: o in w.local && w.local[o].status.LSettled? ==> o in w'.local && w'.local[o].status.LSettled?)
    && (forall r :: 0 <= r < |w.queue| ==> LeavesForGood(w.queue[r].status, w'.queue[r].status, |w.batches|))
  }

  /** A row that does not point at one of the first n batches never will. */
  predicate LeavesForGood(s: Status, s': Status, n: nat) { s'.Batched? && s'.batch < n ==> s == s' }

  lemma StepStays(w: World, act: Action)
    ensures Stays(w, Step(w, act))
  {
    if act.Advance? {
      if act.t in w.callers { AdvanceStays(w, act.t, act.reply, act.now, act.listed); }
    } else if act.Quote? || act.Move? || act.PostOther? || act.ReverseOther? || act.SetHalt? {
      OthersStay(w, act);
    }
  }

  lemma OthersStay(w: World, act: Action)
    requires act.Quote? || act.Move? || act.PostOther? || act.ReverseOther? || act.SetHalt?
    ensures Stays(w, Step(w, act))
  {
    if act.Move? { TransitionGrows(w.ledger, act.o, act.to, act.version, act.cause); }
  }

  lemma SettleStays(w: World, t: nat, task: Task, snap: Order, version: nat, retried: bool, reply: L.Reply)
    requires Listed(w, task) && t in w.callers && w.callers[t] == Settling(task, snap, version, retried)
    ensures Stays(w, DoSettle(w, t, task, snap, version, retried, reply))
  {
    SettleShape(w, t, task, snap, version, retried, reply);
    TransitionGrows(w.ledger, OrderOf(w, task), Settled, version, Inline(SettlementEntry(w, task, snap)));
  }

  lemma CreateStays(w: World, t: nat, rows: seq<nat>, payments: seq<Payment>, slot: nat, reply: L.Reply)
    ensures Stays(w, DoCreate(w, t, rows, payments, slot, reply))
  {}

  lemma HandleStays(w: World, t: nat, task: Task, reply: L.Reply, now: nat)
    requires Listed(w, task)
    ensures Stays(w, DoHandle(w, t, task, reply, now))
  {}

  lemma MarkStays(w: World, t: nat, task: Task, reply: L.Reply)
    requires Listed(w, task)
    ensures Stays(w, DoMark(w, t, task, reply))
  {}

  lemma AdvanceStays(w: World, t: nat, reply: L.Reply, now: nat, listed: seq<nat>)
    requires t in w.callers
    ensures Stays(w, AdvanceCaller(w, t, w.callers[t], reply, now, listed))
  {
    var c := w.callers[t];
    if !reply.Failed? && (c.Creating? || ((c.Handling? || c.Settling? || c.Marking?) && Listed(w, c.task))) {
      match c
      case Settling(task, snap, version, retried) => SettleStays(w, t, task, snap, version, retried, reply);
      case Creating(rows, payments, slot) => CreateStays(w, t, rows, payments, slot, reply);
      case Handling(task) => HandleStays(w, t, task, reply, now);
      case Marking(task) => MarkStays(w, t, task, reply);
    } else {
      OnlyMoves(w, t, reply, now, listed);
    }
  }

  /** The other statements only move their caller. */
  lemma OnlyMoves(w: World, t: nat, reply: L.Reply, now: nat, listed: seq<nat>)
    requires t in w.callers
    requires
      var c := w.callers[t];
      reply.Failed? || !(c.Creating? || ((c.Handling? || c.Settling? || c.Marking?) && Listed(w, c.task)))
    ensures
      var w' := AdvanceCaller(w, t, w.callers[t], reply, now, listed);
      w' == w.(callers := w'.callers)
  {}

  lemma {:induction false} RunStays(w: World, acts: seq<Action>)
    ensures Stays(w, Run(w, acts))
    decreases |acts|
  {
    if acts != [] {
      StepStays(w, acts[0]);
      RunStays(Step(w, acts[0]), acts[1..]);
      StaysTransitive(w, Step(w, acts[0]), Run(w, acts));
    }
  }

  lemma StaysTransitive(w: World, w1: World, w2: World)
    requires Stays(w, w1) && Stays(w1, w2)
    ensures Stays(w, w2)
  {
    forall r | 0 <= r < |w.queue| ensures LeavesForGood(w.queue[r].status, w2.queue[r].status, |w.batches|) {
      assert LeavesForGood(w.queue[r].status, w1.queue[r].status, |w.batches|)
          && LeavesForGood(w1.queue[r].status, w2.queue[r].status, |w1.batches|);
    }
  }
}
