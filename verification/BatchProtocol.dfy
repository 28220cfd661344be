/** Sweep batches (dispatcher/internal/dispatch/batch.go, batchstore.go) as a state machine: any
    number of callers cut queued orders into multisend batches and settle broadcast ones recipient by
    recipient, failed payments going back to the queue. One statement or request is one step; it may
    fail, or take effect although its caller hears an error, and a caller may crash between any two. */
module BatchProtocol {
  import opened Common
  import opened Ledger
  import L = Lifecycle

  datatype Status = Queued | Batched(batch: nat)

  /** A batch_queue row; its id is its position. */
  datatype Row = Row(order: nat, recipient: string, amount: int, status: Status, enqueuedAt: nat)

  /** One payment of a multisend transaction, for this queue row. */
  datatype Payment = Payment(row: nat, recipient: string, amount: int)

  datatype Batch = Batch(slot: nat, payments: seq<Payment>)

  /** HandlePartialSettlement under way: its arguments, the batch's slot, the rows it listed, the one
      it is at, and its two counters. */
  datatype Task = Task(b: nat, given: map<nat, bool>, at: nat, slot: nat, rows: seq<nat>, k: nat, settled: nat,
    requeued: nat)

  datatype Result = Cut(batch: nat) | NotReady | Handled(settled: nat, requeued: nat) | Error | Crashed

  /** The statement or request a caller makes next. */
  datatype Caller =
    | Listing(maxSize: nat, maxWait: nat, slot: nat)
    | Creating(rows: seq<nat>, payments: seq<Payment>, slot: nat)
    | Reserving(b: nat)
    | Opening(b: nat, given: map<nat, bool>, at: nat)
    | Collecting(b: nat, given: map<nat, bool>, at: nat, slot: nat)
    | Handling(task: Task)
    | Settling(task: Task, snap: Order, version: nat, retried: bool)
    | Refetching(task: Task, snap: Order)
    | Marking(task: Task)
    | Over(result: Result)
  {
    predicate HasTask() { Handling? || Settling? || Refetching? || Marking? }

    /** It is settling this batch. */
    predicate Settles(batch: nat) {
      ((Opening? || Collecting?) && b == batch) || (HasTask() && task.b == batch)
    }
  }

  datatype World = World(
    queue: seq<Row>,
    batches: seq<Batch>,
    ledger: Ledger,
    local: map<nat, L.LocalRow>,
    callers: map<nat, Caller>,
    requeued: set<nat>)          // the rows that were ever requeued
  {
    function At(t: nat, c: Caller): World { this.(callers := callers[t := c]) }
  }

  const INIT := World([], [], Ledger([], [], false), map[], map[], {})

  datatype Action =
    // C1's other users, and dispatch_state
    | Quote(quoted: Order)
    | Move(o: nat, to: OrderState, version: nat, cause: Cause)
    | PostOther(entry: Entry)
    | ReverseOther(i: nat, at: nat)
    | SetHalt(halted: bool)
    | Record(o: nat, row: L.LocalRow)
    // the queue
    | Enqueue(order: nat, recipient: string, amount: int, now: nat)
    | StartCut(t: nat, maxSize: nat, maxWait: nat, slot: nat)
    | StartSettle(t: nat, b: nat, given: map<nat, bool>, at: nat)
    | Advance(t: nat, reply: L.Reply, now: nat, listed: seq<nat>)
    | Crash(t: nat)

  // ---------------------------------------------------------------- the statements

  /** INSERT ... ON CONFLICT (order_id) DO NOTHING. */
  function Enqueued(queue: seq<Row>, row: Row): seq<Row> {
    if exists r :: 0 <= r < |queue| && queue[r].order == row.order then queue else queue + [row]
  }

  predicate AllQueued(queue: seq<Row>, rows: seq<nat>) {
    && (forall k :: 0 <= k < |rows| ==> rows[k] < |queue| && queue[rows[k]].status.Queued?)
    && forall j, k :: 0 <= j < k < |rows| ==> rows[j] != rows[k]
  }

  /** SELECT ... WHERE status = QUEUED ORDER BY enqueued_at LIMIT limit: any answer it may give. */
  predicate OldestFirst(queue: seq<Row>, rows: seq<nat>, limit: nat) {
    && AllQueued(queue, rows) && |rows| <= limit
    && (forall j, k :: 0 <= j < k < |rows| ==> queue[rows[j]].enqueuedAt <= queue[rows[k]].enqueuedAt)
    && (forall r :: 0 <= r < |queue| && queue[r].status.Queued? && r !in rows ==>
          |rows| == limit && forall k :: 0 <= k < |rows| ==> queue[rows[k]].enqueuedAt <= queue[r].enqueuedAt)
  }

  /** UPDATE ... SET status = BATCHED, batch_id = b WHERE id = ANY(rows). */
  function CreatedQueue(queue: seq<Row>, rows: seq<nat>, b: nat): (q: seq<Row>)
    ensures |q| == |queue|
    ensures forall r: nat :: r < |q| ==> q[r] == if r in rows then queue[r].(status := Batched(b)) else queue[r]
  {
    seq(|queue|, r requires 0 <= r < |queue| => if r in rows then queue[r].(status := Batched(b)) else queue[r])
  }

  function Payments(queue: seq<Row>, rows: seq<nat>): (p: seq<Payment>)
    requires forall k :: 0 <= k < |rows| ==> rows[k] < |queue|
    ensures |p| == |rows|
      && forall k :: 0 <= k < |p| ==> p[k] == Payment(rows[k], queue[rows[k]].recipient, queue[rows[k]].amount)
  {
    seq(|rows|, k requires 0 <= k < |rows| => Payment(rows[k], queue[rows[k]].recipient, queue[rows[k]].amount))
  }

  /** UPDATE ... SET status = QUEUED, batch_id = NULL, enqueued_at = now() WHERE id = r. */
  function Requeued(queue: seq<Row>, r: nat, now: nat): seq<Row>
    requires r < |queue|
  {
    queue[r := queue[r].(status := Queued, enqueuedAt := now)]
  }

  /** SELECT ... WHERE batch_id = b ORDER BY id. */
  function Pointing(queue: seq<Row>, b: nat): (rows: seq<nat>)
    ensures forall r: nat :: r in rows <==> r < |queue| && queue[r].status == Batched(b)
    ensures forall j, k :: 0 <= j < k < |rows| ==> rows[j] < rows[k]
  {
    if queue == [] then []
    else
      var n := |queue| - 1;
      var rest := Pointing(queue[..n], b);
      assert forall j :: 0 <= j < |rest| ==> rest[j] in rest;
      if queue[n].status == Batched(b) then rest + [n] else rest
  }

  // ---------------------------------------------------------------- the steps

  function Step(w: World, act: Action): World {
    match act
    case Quote(quoted) =>
      if quoted.state.Quoted? then w.(ledger := w.ledger.(orders := w.ledger.orders + [quoted])) else w
    case Move(o, to, version, cause) => DoMove(w, o, to, version, cause)
    case PostOther(entry) => DoPost(w, entry)
    case ReverseOther(i, at) => DoReverse(w, i, at)
    case SetHalt(halted) => w.(ledger := w.ledger.(halted := halted))
    case Record(o, row) => if o in w.local then w else w.(local := w.local[o := row])
    case Enqueue(order, recipient, amount, now) =>
      w.(queue := Enqueued(w.queue, Row(order, recipient, amount, Queued, now)))
    case StartCut(t, maxSize, maxWait, slot) =>
      if t in w.callers then w else w.At(t, Listing(maxSize, maxWait, slot))
    case StartSettle(t, b, given, at) => if t in w.callers then w else w.At(t, Opening(b, given, at))
    case Advance(t, reply, now, listed) =>
      if t in w.callers then AdvanceCaller(w, t, w.callers[t], reply, now, listed) else w
    case Crash(t) => if t in w.callers && !w.callers[t].Over? then w.At(t, Over(Crashed)) else w
  }

  /** Everybody else's transitions, EnterDispatching's included. Only a batch settles an order of the
      queue: Sweep orders are left alone by the single-order path. */
  function DoMove(w: World, o: nat, to: OrderState, version: nat, cause: Cause): World {
    if to.Settled? || (cause.Inline? && cause.entry.key.Settlement?) then w
    else w.(ledger := Transition(w.ledger, o, to, version, cause).1)
  }

  function DoPost(w: World, e: Entry): World {
    if e.key.Settlement? then w
    else match Post(w.ledger.journal, e)
      case Posted(j) => w.(ledger := w.ledger.(journal := j))
      case _ => w
  }

  function DoReverse(w: World, i: nat, at: nat): World {
    match Reverse(w.ledger.journal, i, at)
    case Reversed(j) => w.(ledger := w.ledger.(journal := j))
    case _ => w
  }

  function AdvanceCaller(w: World, t: nat, c: Caller, reply: L.Reply, now: nat, listed: seq<nat>): World {
    if c.Over? then w
    else if reply.Failed? then w.At(t, Over(Error))
    else match c
    case Listing(maxSize, maxWait, slot) => DoList(w, t, maxSize, maxWait, slot, now, listed)
    case Creating(rows, payments, slot) => DoCreate(w, t, rows, payments, slot, reply)
    case Reserving(b) => w.At(t, Over(if reply.Lost? then Error else Cut(b)))
    case Opening(b, given, at) =>
      w.At(t, if b < |w.batches| then Collecting(b, given, at, w.batches[b].slot) else Over(Error))
    case Collecting(b, given, at, slot) => w.At(t, Onward(Task(b, given, at, slot, Pointing(w.queue, b), 0, 0, 0)))
    case Handling(task) => if Listed(w, task) then DoHandle(w, t, task, reply, now) else w.At(t, Over(Error))
    case Settling(task, snap, version, retried) =>
      if Listed(w, task) then DoSettle(w, t, task, snap, version, retried, reply) else w.At(t, Over(Error))
    case Refetching(task, snap) => if Listed(w, task) then DoRefetch(w, t, task, snap) else w.At(t, Over(Error))
    case Marking(task) => if Listed(w, task) then DoMark(w, t, task, reply) else w.At(t, Over(Error))
    case Over(_) => w
  }

  /** CutBatch's read: enough orders, or one that has waited long enough. A list the query cannot
      return is no turn. */
  function DoList(w: World, t: nat, maxSize: nat, maxWait: nat, slot: nat, now: nat, rows: seq<nat>): World {
    if !OldestFirst(w.queue, rows, maxSize) then w
    else if rows == [] || (|rows| < maxSize && now < w.queue[rows[0]].enqueuedAt + maxWait) then w.At(t, Over(NotReady))
    else w.At(t, Creating(rows, Payments(w.queue, rows), slot))
  }

  /** CreateBatch's transaction: the batch and all of its rows, or nothing if one was claimed
      elsewhere. The energy is reserved once it is committed. */
  function DoCreate(w: World, t: nat, rows: seq<nat>, payments: seq<Payment>, slot: nat, reply: L.Reply): World {
    if !AllQueued(w.queue, rows) then w.At(t, Over(Error))
    else
      var b := |w.batches|;
      w.At(t, if reply.Lost? then Over(Error) else Reserving(b)).(
        queue := CreatedQueue(w.queue, rows, b), batches := w.batches + [Batch(slot, payments)])
  }

  /** The row of a task, and its order: both as listed. */
  predicate Listed(w: World, task: Task) { task.k < |task.rows| && task.rows[task.k] < |w.queue| }

  function OrderOf(w: World, task: Task): nat
    requires Listed(w, task)
  {
    w.queue[task.rows[task.k]].order
  }

  /** The next row, or the end. */
  function Onward(task: Task): Caller {
    if task.k < |task.rows| then Handling(task) else Over(Handled(task.settled, task.requeued))
  }

  /** The loop's body up to its first statement: no result is an error, a failed payment is requeued,
      for a success the order is fetched. */
  function DoHandle(w: World, t: nat, task: Task, reply: L.Reply, now: nat): World
    requires Listed(w, task)
  {
    var r, o := task.rows[task.k], OrderOf(w, task);
    if o !in task.given then w.At(t, Over(Error))
    else if !task.given[o] then
      w.At(t, if reply.Lost? then Over(Error) else Onward(task.(k := task.k + 1, requeued := task.requeued + 1))).(
        queue := Requeued(w.queue, r, now), requeued := w.requeued + {r})
    else if o < |w.ledger.orders| then w.At(t, Settling(task, w.ledger.orders[o], w.ledger.orders[o].version, false))
    else w.At(t, Over(Error))
  }

  /** The entry a batch's settlement of an order posts: its key is the order's and the batch's. */
  function SettlementEntry(w: World, task: Task, snap: Order): Entry
    requires Listed(w, task)
  {
    Entry(Settlement(OrderOf(w, task), task.b), SettlementLines(snap, task.slot), task.at)
  }

  /** One turn of settleOrder's loop. */
  function DoSettle(w: World, t: nat, task: Task, snap: Order, version: nat, retried: bool, reply: L.Reply): World
    requires Listed(w, task)
  {
    var (verdict, ledger) :=
      Transition(w.ledger, OrderOf(w, task), Settled, version, Inline(SettlementEntry(w, task, snap)));
    var w1 := w.(ledger := ledger);
    if reply.Lost? then w1.At(t, Over(Error))
    else match verdict
      case Done => w1.At(t, Marking(task))
      case VersionConflict => w1.At(t, if retried then Over(Error) else Refetching(task, snap))
      case Halted => w1
      case Refused => w1.At(t, Over(Error))
  }

  function DoRefetch(w: World, t: nat, task: Task, snap: Order): World
    requires Listed(w, task)
  {
    var o := OrderOf(w, task);
    w.At(t, if o < |w.ledger.orders| then Settling(task, snap, w.ledger.orders[o].version, true) else Over(Error))
  }

  function DoMark(w: World, t: nat, task: Task, reply: L.Reply): World
    requires Listed(w, task)
  {
    match L.MarkStatus(w.local, OrderOf(w, task), L.LSettled)
    case Some(local) =>
      w.At(t, if reply.Lost? then Over(Error)
        else Onward(task.(k := task.k + 1, settled := task.settled + 1))).(local := local)
    case None => w.At(t, Over(Error))
  }

  function Run(w: World, acts: seq<Action>): World
    decreases |acts|
  {
    if acts == [] then w else Run(Step(w, acts[0]), acts[1..])
  }

  lemma {:induction false} RunConcat(w: World, before: seq<Action>, after: seq<Action>)
    ensures Run(w, before + after) == Run(Run(w, before), after)
    decreases |before|
  {
    if before == [] {
      assert before + after == after;
    } else {
      assert (before + after)[0] == before[0] && (before + after)[1..] == before[1..] + after;
      RunConcat(Step(w, before[0]), before[1..], after);
    }
  }

  /** A run spelled out state by state. */
  lemma {:induction false} RunUnfold(w: World, acts: seq<Action>, states: seq<World>)
    requires |acts| == |states| > 0 && states[0] == Step(w, acts[0])
    requires forall i :: 0 < i < |acts| ==> states[i] == Step(states[i - 1], acts[i])
    ensures Run(w, acts) == states[|states| - 1]
    decreases |acts|
  {
    if |acts| == 1 {
      assert acts[1..] == [];
    } else {
      RunUnfold(states[0], acts[1..], states[1..]);
    }
  }
}
