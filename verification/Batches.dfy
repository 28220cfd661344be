/** CutBatch and HandlePartialSettlement as the programs write them (dispatcher/internal/dispatch/
    batch.go, batchstore.go): statement after statement on the shared tables and against C1, other
    callers running in between. Each is proved to do exactly what the protocol's caller does under
    the same schedule, so what holds of every run holds of them. */
module Batches {
  import opened Common
  import opened Ledger
  import L = Lifecycle
  import opened BatchProtocol
  import opened BatchSafety

  /** What the others do before the next statement of this caller, and how that one turns out. */
  datatype Turn = Turn(others: seq<Action>, reply: L.Reply, now: nat)

  predicate Own(act: Action, t: nat) {
    (act.StartCut? || act.StartSettle? || act.Advance? || act.Crash?) && act.t == t
  }

  ghost predicate Elsewhere(acts: seq<Action>, t: nat) { forall i :: 0 <= i < |acts| ==> !Own(acts[i], t) }

  ghost predicate SameCaller(w: World, w': World, t: nat) {
    t in w.callers && t in w'.callers && w'.callers[t] == w.callers[t]
  }

  lemma StepLeaves(w: World, act: Action, t: nat)
    requires !Own(act, t) && t in w.callers
    ensures SameCaller(w, Step(w, act), t)
  {
    if act.Advance? && act.t in w.callers {
      var c := w.callers[act.t];
      if c.Settling? && Listed(w, c.task) { SettleShape(w, act.t, c.task, c.snap, c.version, c.retried, act.reply); }
    }
  }

  lemma {:induction false} OthersLeave(w: World, acts: seq<Action>, t: nat)
    requires Elsewhere(acts, t) && t in w.callers
    ensures SameCaller(w, Run(w, acts), t)
    decreases |acts|
  {
    if acts != [] {
      StepLeaves(w, acts[0], t);
      OthersLeave(Step(w, acts[0]), acts[1..], t);
    }
  }

  /** The protocol's own caller t under a schedule, until it is over; listed is what the database
      answers to its list of queued orders. A schedule that ends early ends the process. */
  ghost function Play(w: World, t: nat, turns: seq<Turn>, listed: seq<nat>): (World, seq<Turn>)
    decreases |turns|
  {
    if t !in w.callers || w.callers[t].Over? then (w, turns)
    else if turns == [] then (Step(w, Crash(t)), [])
    else Play(Step(Run(w, turns[0].others), Advance(t, turns[0].reply, turns[0].now, listed)), t, turns[1..], listed)
  }

  /** Playing a schedule is a run of the protocol. */
  lemma {:induction false} PlayIsRun(w: World, t: nat, turns: seq<Turn>, listed: seq<nat>) returns (acts: seq<Action>)
    ensures Run(w, acts) == Play(w, t, turns, listed).0
    decreases |turns|
  {
    if t !in w.callers || w.callers[t].Over? {
      acts := [];
    } else if turns == [] {
      acts := [Crash(t)];
      RunUnfold(w, acts, [Step(w, Crash(t))]);
    } else {
      var w1 := Run(w, turns[0].others);
      var own := [Advance(t, turns[0].reply, turns[0].now, listed)];
      var rest := PlayIsRun(Step(w1, own[0]), t, turns[1..], listed);
      RunUnfold(w1, own, [Step(w1, own[0])]);
      RunConcat(w1, own, rest);
      RunConcat(w, turns[0].others, own + rest);
      acts := turns[0].others + (own + rest);
    }
  }

  lemma FailStep(w: World, t: nat, now: nat)
    requires t in w.callers && !w.callers[t].Over?
    ensures forall listed :: Step(w, Advance(t, L.Failed, now, listed)) == w.At(t, Over(Error))
  {}

  // ---------------------------------------------------------------- what settling does to a row

  /** Settled in C1 under the batch's key and marked SETTLED, or detached from the batch. */
  ghost predicate HandledIn(w: World, b: nat, given: map<nat, bool>, r: nat) {
    && r < |w.queue| && b < |w.batches| && w.queue[r].order in given
    && (if given[w.queue[r].order]
        then Has(w.ledger.journal, Settlement(w.queue[r].order, b))
             && w.queue[r].order in w.local && w.local[w.queue[r].order].status.LSettled?
        else w.queue[r].status != Batched(b))
  }

  lemma HandledStays(w: World, w': World, b: nat, given: map<nat, bool>, r: nat)
    requires HandledIn(w, b, given, r) && Stays(w, w')
    ensures HandledIn(w', b, given, r)
  {
    if given[w.queue[r].order] {
      HasStays(w.ledger.journal, w'.ledger.journal, Settlement(w.queue[r].order, b));
    } else {
      assert LeavesForGood(w.queue[r].status, w'.queue[r].status, |w.batches|);
    }
  }

  /** How many of the first k rows were given as successes. */
  function Wins(queue: seq<Row>, rows: seq<nat>, given: map<nat, bool>, k: nat): nat
    requires k <= |rows|
  {
    if k == 0 then 0
    else Wins(queue, rows, given, k - 1)
         + (var r := rows[k - 1]; if r < |queue| && queue[r].order in given && given[queue[r].order] then 1 else 0)
  }

  lemma {:induction false} WinsStay(queue: seq<Row>, queue': seq<Row>, rows: seq<nat>, given: map<nat, bool>, k: nat)
    requires k <= |rows| && QueueGrows(queue, queue') && forall j :: 0 <= j < k ==> rows[j] < |queue|
    ensures Wins(queue', rows, given, k) == Wins(queue, rows, given, k)
  {
    if k > 0 { WinsStay(queue, queue', rows, given, k - 1); }
  }

  /** The task has handled the rows before k, and counted them. */
  ghost predicate Progress(w: World, task: Task) {
    && task.k <= |task.rows|
    && (forall j :: 0 <= j < task.k ==> HandledIn(w, task.b, task.given, task.rows[j]))
    && task.settled == Wins(w.queue, task.rows, task.given, task.k) && task.requeued == task.k - task.settled
  }

  lemma ProgressStays(w: World, w': World, task: Task)
    requires Progress(w, task) && Stays(w, w')
    ensures Progress(w', task)
  {
    forall j | 0 <= j < task.k ensures HandledIn(w', task.b, task.given, task.rows[j]) {
      HandledStays(w, w', task.b, task.given, task.rows[j]);
    }
    WinsStay(w.queue, w'.queue, task.rows, task.given, task.k);
  }

  predicate SameJob(task: Task, start: Task) {
    task.b == start.b && task.given == start.given && task.rows == start.rows
  }

  /** The task after its row. */
  function Onwards(task: Task, won: bool): Task {
    if won then task.(k := task.k + 1, settled := task.settled + 1)
    else task.(k := task.k + 1, requeued := task.requeued + 1)
  }

  lemma ProgressOn(w: World, task: Task, won: bool)
    requires Progress(w, task) && Listed(w, task) && HandledIn(w, task.b, task.given, task.rows[task.k])
    requires won == task.given[OrderOf(w, task)]
    ensures Progress(w, Onwards(task, won))
  {}

  class BatchStore {
    var queue: seq<Row>
    var batches: seq<Batch>
    var ledger: Ledger
    var local: map<nat, L.LocalRow>
    var callers: map<nat, Caller>
    var requeued: set<nat>
    var turns: seq<Turn>

    function Now(): World reads this { World(queue, batches, ledger, local, callers, requeued) }

    /** The rest of the schedule never steps caller t itself. */
    ghost predicate Valid(t: nat) reads this {
      Sound(Now()) && forall i :: 0 <= i < |turns| ==> Elsewhere(turns[i].others, t)
    }

    /** Where the protocol's caller t ends from here. */
    ghost function Goal(t: nat, listed: seq<nat>): (World, seq<Turn>) reads this { Play(Now(), t, turns, listed) }

    constructor (turns: seq<Turn>)
      ensures Sound(Now()) && Now() == INIT && this.turns == turns
    {
      queue, batches, ledger, local, callers, requeued := [], [], Ledger([], [], false), map[], map[], {};
      this.turns := turns;
    }

    method Become(w: World)
      modifies this`queue, this`batches, this`ledger, this`local, this`callers, this`requeued
      ensures Now() == w
    {
      queue, batches, ledger, local, callers, requeued := w.queue, w.batches, w.ledger, w.local, w.callers, w.requeued;
    }

    /** The others run. */
    method Others(t: nat, acts: seq<Action>)
      requires Sound(Now()) && Elsewhere(acts, t) && t in callers
      modifies this`queue, this`batches, this`ledger, this`local, this`callers, this`requeued
      ensures Sound(Now()) && Now() == Run(old(Now()), acts) && Stays(old(Now()), Now())
      ensures t in callers && callers[t] == old(callers)[t]
    {
      OthersLeave(Now(), acts, t);
      RunKeeps(Now(), acts);
      RunStays(Now(), acts);
      Become(Run(Now(), acts));
    }

    lemma MoveIs(t: nat, c: Caller)
      requires Sound(Now()) && CallerOk(queue, batches, ledger, c)
      ensures Sound(Now().At(t, c)) && Stays(Now(), Now().At(t, c))
    {
      Moves(Now(), t, c);
    }

    lemma StepIs(t: nat, turn: Turn, listed: seq<nat>, w: World)
      requires Sound(Now()) && t in callers && w == AdvanceCaller(Now(), t, callers[t], turn.reply, turn.now, listed)
      ensures Step(Now(), Advance(t, turn.reply, turn.now, listed)) == w && Sound(w) && Stays(Now(), w)
    {
      StepKeeps(Now(), Advance(t, turn.reply, turn.now, listed));
      StepStays(Now(), Advance(t, turn.reply, turn.now, listed));
    }

    /** The others run; then the next turn is known. A schedule that has run out ends the caller. */
    method Await(t: nat) returns (turn: Option<Turn>)
      requires Valid(t) && t in callers && !callers[t].Over?
      modifies this
      ensures Valid(t) && t in callers && Stays(old(Now()), Now()) && |turns| <= |old(turns)|
      ensures turn.None? ==> callers[t] == Over(Crashed) && forall listed :: Goal(t, listed) == old(Goal(t, listed))
      ensures turn.Some? ==>
        && callers[t] == old(callers)[t] && |turns| < |old(turns)|
        && forall listed ::
             Play(Step(Now(), Advance(t, turn.value.reply, turn.value.now, listed)), t, turns, listed) ==
               old(Goal(t, listed))
    {
      if turns == [] {
        MoveIs(t, Over(Crashed));
        callers := callers[t := Over(Crashed)];
        return None;
      }
      turn := Some(turns[0]);
      turns := turns[1..];
      Others(t, turn.value.others);
    }

    /** Await, and a statement that fails ends the caller. */
    method Next(t: nat) returns (turn: Option<Turn>)
      requires Valid(t) && t in callers && !callers[t].Over?
      modifies this
      ensures Valid(t) && t in callers && Stays(old(Now()), Now()) && |turns| <= |old(turns)|
      ensures turn.None? ==>
        && callers[t] in {Over(Crashed), Over(Error)} && forall listed :: Goal(t, listed) == old(Goal(t, listed))
      ensures turn.Some? ==>
        && callers[t] == old(callers)[t] && |turns| < |old(turns)| && !turn.value.reply.Failed?
        && forall listed ::
             Play(Step(Now(), Advance(t, turn.value.reply, turn.value.now, listed)), t, turns, listed) ==
               old(Goal(t, listed))
    {
      turn := Await(t);
      if turn.Some? && turn.value.reply.Failed? {
        ghost var w := Now();
        FailStep(w, t, turn.value.now);
        MoveIs(t, Over(Error));
        StaysTransitive(old(Now()), w, w.At(t, Over(Error)));
        callers := callers[t := Over(Error)];
        turn := None;
      }
    }

    // ---------------------------------------------------------- the queue

    /** One INSERT: idempotent on the order. */
    method Enqueue(order: nat, recipient: string, amount: int, now: nat) returns (id: nat)
      requires Sound(Now())
      modifies this`queue
      ensures Sound(Now()) && Now() == Step(old(Now()), BatchProtocol.Enqueue(order, recipient, amount, now))
      ensures id < |queue| && queue[id].order == order
      ensures queue == old(queue)
        || (queue == old(queue) + [Row(order, recipient, amount, Queued, now)] && id == |old(queue)|)
      ensures (exists r :: 0 <= r < |old(queue)| && old(queue)[r].order == order) ==> queue == old(queue)
    {
      StepKeeps(Now(), BatchProtocol.Enqueue(order, recipient, amount, now));
      for r := 0 to |queue|
        invariant queue == old(queue) && forall k :: 0 <= k < r ==> queue[k].order != order
      {
        if queue[r].order == order { return r; }
      }
      id := |queue|;
      queue := queue + [Row(order, recipient, amount, Queued, now)];
    }

    /** The oldest queued row not taken yet. */
    method OldestLeft(taken: seq<nat>) returns (best: Option<nat>)
      ensures best.None? ==> forall r: nat :: r < |queue| && queue[r].status.Queued? ==> r in taken
      ensures best.Some? ==>
        && best.value < |queue| && queue[best.value].status.Queued? && best.value !in taken
        && forall r: nat :: r < |queue| && queue[r].status.Queued? && r !in taken ==>
          queue[best.value].enqueuedAt <= queue[r].enqueuedAt
    {
      best := None;
      for r := 0 to |queue|
        invariant best.None? ==> forall k: nat :: k < r && queue[k].status.Queued? ==> k in taken
        invariant best.Some? ==>
          && best.value < r && queue[best.value].status.Queued? && best.value !in taken
          && forall k: nat :: k < r && queue[k].status.Queued? && k !in taken ==>
            queue[best.value].enqueuedAt <= queue[k].enqueuedAt
      {
        if queue[r].status.Queued? && r !in taken
          && (best.None? || queue[r].enqueuedAt < queue[best.value].enqueuedAt) {
          best := Some(r);
        }
      }
    }

    /** SELECT ... ORDER BY enqueued_at LIMIT limit. */
    method ListQueued(limit: nat) returns (rows: seq<nat>)
      ensures OldestFirst(queue, rows, limit)
    {
      rows := [];
      while |rows| < limit
        invariant |rows| <= limit && AllQueued(queue, rows)
        invariant forall j, k :: 0 <= j < k < |rows| ==> queue[rows[j]].enqueuedAt <= queue[rows[k]].enqueuedAt
        invariant forall k, r: nat :: 0 <= k < |rows| && r < |queue| && queue[r].status.Queued? && r !in rows ==>
          queue[rows[k]].enqueuedAt <= queue[r].enqueuedAt
      {
        var next := OldestLeft(rows);
        if next.None? { return; }
        assert forall k :: 0 <= k < |rows| ==> rows[k] in rows;
        rows := rows + [next.value];
      }
    }

    /** SELECT ... WHERE batch_id = b ORDER BY id. */
    method ListForBatch(b: nat) returns (rows: seq<nat>)
      ensures rows == Pointing(queue, b)
    {
      rows := [];
      for r := 0 to |queue|
        invariant rows == Pointing(queue[..r], b)
      {
        assert queue[..r + 1][..r] == queue[..r];
        if queue[r].status == Batched(b) {
          rows := rows + [r];
        }
      }
      assert queue[..|queue|] == queue;
    }

    // ---------------------------------------------------------- CutBatch

    /** CreateBatch, one transaction: the batch and its rows, or nothing, if any row was claimed
        elsewhere. */
    method TryCreate(t: nat, rows: seq<nat>, payments: seq<Payment>, slot: nat, reply: L.Reply)
      modifies this`queue, this`batches, this`callers
      ensures Now() == DoCreate(old(Now()), t, rows, payments, slot, reply) && t in callers
      ensures callers[t] in {Over(Error), Reserving(|old(batches)|)}
      ensures callers[t] == Over(Error) && !reply.Lost? ==> queue == old(queue) && batches == old(batches)
      ensures callers[t] == Reserving(|old(batches)|) ==>
        && batches == old(batches) + [Batch(slot, payments)]
        && forall r :: r in rows ==>
          r < |queue| && old(queue)[r].status.Queued? && queue[r].status == Batched(|old(batches)|)
    {
      if AllQueued(queue, rows) {
        var b := |batches|;
        queue := CreatedQueue(queue, rows, b);
        batches := batches + [Batch(slot, payments)];
        callers := callers[t := if reply.Lost? then Over(Error) else Reserving(b)];
      } else {
        callers := callers[t := Over(Error)];
      }
    }

    method CreateBatch(t: nat, rows: seq<nat>, payments: seq<Payment>, slot: nat)
      requires Valid(t) && t in callers && callers[t] == Creating(rows, payments, slot)
      modifies this
      ensures Valid(t) && Goal(t, rows) == old(Goal(t, rows)) && t in callers && Stays(old(Now()), Now())
      ensures callers[t].Reserving? || callers[t] in {Over(Crashed), Over(Error)}
      ensures callers[t].Reserving? ==>
        && callers[t].b < |batches| && batches[callers[t].b] == Batch(slot, payments)
        && forall r :: r in rows ==> r < |queue| && queue[r].status == Batched(callers[t].b)
    {
      var turn := Next(t);
      if turn.None? { return; }
      ghost var w := Now();
      StepIs(t, turn.value, rows, DoCreate(Now(), t, rows, payments, slot, turn.value.reply));
      TryCreate(t, rows, payments, slot, turn.value.reply);
      StaysTransitive(old(Now()), w, Now());
    }

    /** The energy for the whole batch, once it is committed; without it the batch stays and the caller
        hears an error. */
    method Reserve(t: nat, b: nat, ghost listed: seq<nat>)
      requires Valid(t) && t in callers && callers[t] == Reserving(b)
      modifies this
      ensures Valid(t) && Goal(t, listed) == old(Goal(t, listed)) && t in callers && Stays(old(Now()), Now())
      ensures callers[t] in {Over(Cut(b)), Over(Crashed), Over(Error)}
    {
      var turn := Next(t);
      if turn.None? { return; }
      ghost var w := Now();
      var c := Over(if turn.value.reply.Lost? then Error else Cut(b));
      StepIs(t, turn.value, listed, Now().At(t, c));
      callers := callers[t := c];
      StaysTransitive(old(Now()), w, Now());
    }

    /** CutBatch's read and its decision: enough orders, or one that has waited long enough. */
    method ReadQueue(t: nat, maxSize: nat, maxWait: nat, slot: nat) returns (rows: seq<nat>, ghost before: World)
      requires Valid(t) && t in callers && callers[t] == Listing(maxSize, maxWait, slot)
      modifies this
      ensures Valid(t) && Goal(t, rows) == old(Goal(t, rows)) && t in callers && Stays(old(Now()), Now())
      ensures callers[t].Creating? || callers[t] in {Over(NotReady), Over(Crashed), Over(Error)}
      ensures callers[t].Creating? ==>
        && OldestFirst(before.queue, rows, maxSize) && rows != [] && Stays(old(Now()), before) && Stays(before, Now())
        && callers[t] == Creating(rows, Payments(before.queue, rows), slot)
    {
      rows, before := [], Now();
      var turn := Next(t);
      if turn.None? { return; }
      before := Now();
      rows := ListQueued(maxSize);
      StepIs(t, turn.value, rows, DoList(Now(), t, maxSize, maxWait, slot, turn.value.now, rows));
      if rows == [] || (|rows| < maxSize && turn.value.now < queue[rows[0]].enqueuedAt + maxWait) {
        callers := callers[t := Over(NotReady)];
      } else {
        callers := callers[t := Creating(rows, Payments(queue, rows), slot)];
      }
      StaysTransitive(old(Now()), before, Now());
    }

    /** CutBatch, others acting in between. It goes where the protocol's caller goes when its query is
        answered with rows; and a batch it has cut pays exactly the oldest orders queued at the read,
        each its own amount. */
    method CutBatch(t: nat, maxSize: nat, maxWait: nat, slot: nat)
      returns (r: Result, ghost rows: seq<nat>, ghost before: World)
      requires Valid(t) && t !in callers
      modifies this
      ensures Valid(t)
        && (Now(), turns) == Play(Step(old(Now()), StartCut(t, maxSize, maxWait, slot)), t, old(turns), rows)
      ensures t in callers && callers[t] == Over(r) && r in {NotReady, Error, Crashed} + (if r.Cut? then {r} else {})
      ensures r.Cut? ==>
        && OldestFirst(before.queue, rows, maxSize) && rows != [] && Stays(old(Now()), before) && Stays(before, Now())
        && r.batch < |batches| && batches[r.batch] == Batch(slot, Payments(before.queue, rows))
    {
      MoveIs(t, Listing(maxSize, maxWait, slot));
      callers := callers[t := Listing(maxSize, maxWait, slot)];
      ghost var w0 := Now();
      rows, before := ReadQueue(t, maxSize, maxWait, slot);
      StaysTransitive(old(Now()), w0, Now());
      if callers[t].Creating? {
        StaysTransitive(old(Now()), w0, before);
        ghost var w1 := Now();
        CreateBatch(t, callers[t].rows, callers[t].payments, slot);
        StaysTransitive(before, w1, Now());
        if callers[t].Reserving? {
          ghost var w2 := Now();
          Reserve(t, callers[t].b, rows);
          StaysTransitive(before, w2, Now());
        }
      }
      r := callers[t].result;
    }

    // ---------------------------------------------------------- HandlePartialSettlement

    /** Get: the batch and its slot. */
    method GetBatch(t: nat, b: nat, given: map<nat, bool>, at: nat)
      requires Valid(t) && t in callers && callers[t] == Opening(b, given, at)
      modifies this
      ensures Valid(t) && Goal(t, []) == old(Goal(t, [])) && t in callers && Stays(old(Now()), Now())
      ensures callers[t] in {Over(Crashed), Over(Error)}
        || (b < |batches| && callers[t] == Collecting(b, given, at, batches[b].slot))
    {
      var turn := Next(t);
      if turn.None? { return; }
      ghost var w := Now();
      var c := if b < |batches| then Collecting(b, given, at, batches[b].slot) else Over(Error);
      StepIs(t, turn.value, [], Now().At(t, c));
      callers := callers[t := c];
      StaysTransitive(old(Now()), w, Now());
    }

    /** ListForBatch: the rows that point at the batch by now. */
    method Collect(t: nat, b: nat, given: map<nat, bool>, at: nat, slot: nat) returns (task: Task, ghost before: World)
      requires Valid(t) && t in callers && callers[t] == Collecting(b, given, at, slot)
      modifies this
      ensures Valid(t) && Goal(t, []) == old(Goal(t, [])) && t in callers && Stays(old(Now()), Now())
      ensures callers[t] in {Over(Crashed), Over(Error)} || callers[t] == Onward(task)
      ensures Stays(old(Now()), before) && Stays(before, Now())
        && task == Task(b, given, at, slot, Pointing(before.queue, b), 0, 0, 0)
    {
      var turn := Next(t);
      before := Now();
      var rows := ListForBatch(b);
      task := Task(b, given, at, slot, rows, 0, 0, 0);
      if turn.None? { return; }
      StepIs(t, turn.value, [], Now().At(t, Onward(task)));
      callers := callers[t := Onward(task)];
      StaysTransitive(old(Now()), before, Now());
    }

    /** The loop's first branch: no result, a failed payment to requeue, or an order to fetch. */
    method TryHandle(t: nat, task: Task, reply: L.Reply, now: nat)
      requires t in callers && callers[t] == Handling(task) && Listed(Now(), task)
      modifies this`queue, this`requeued, this`callers
      ensures Now() == DoHandle(old(Now()), t, task, reply, now) && t in callers
      ensures callers[t] in {Over(Error), Onward(Onwards(task, false))} || callers[t].Settling?
      ensures callers[t].Settling? ==>
        && Now() == old(Now()).At(t, callers[t]) && Succeeded(queue, task)
        && callers[t] == Settling(task, callers[t].snap, callers[t].version, false)
      ensures callers[t] == Onward(Onwards(task, false)) ==>
        && old(OrderOf(Now(), task)) in task.given && !task.given[old(OrderOf(Now(), task))]
        && queue[task.rows[task.k]].status.Queued?
    {
      var r := task.rows[task.k];
      var order := queue[r].order;
      if order !in task.given {
        callers := callers[t := Over(Error)];
      } else if !task.given[order] {
        queue := Requeued(queue, r, now);
        requeued := requeued + {r};
        callers := callers[t := if reply.Lost? then Over(Error) else Onward(Onwards(task, false))];
      } else if order < |ledger.orders| {
        callers := callers[t := Settling(task, ledger.orders[order], ledger.orders[order].version, false)];
      } else {
        callers := callers[t := Over(Error)];
      }
    }

    /** One request of settleOrder: it goes on only with the settlement posted under the order's and
        the batch's key. */
    method TrySettle(t: nat, task: Task, snap: Order, version: nat, retried: bool, reply: L.Reply)
      requires Sound(Now()) && t in callers
        && callers[t] == Settling(task, snap, version, retried) && Listed(Now(), task)
      modifies this`ledger, this`callers
      ensures Now() == DoSettle(old(Now()), t, task, snap, version, retried, reply) && t in callers
      ensures callers[t] in {Over(Error), Marking(task), Settling(task, snap, version, retried)}
        || (!retried && callers[t] == Refetching(task, snap))
      ensures callers[t] == Marking(task) ==> Has(ledger.journal, Settlement(OrderOf(Now(), task), task.b))
      ensures !callers[t].Marking? && !callers[t].Over? ==> ledger == old(ledger)
    {
      var o, e := OrderOf(Now(), task), SettlementEntry(Now(), task, snap);
      SettleVerdict(ledger, batches, o, version, e);
      SettleShape(Now(), t, task, snap, version, retried, reply);
      var (verdict, after) := Transition(ledger, o, Settled, version, Inline(e));
      ledger := after;
      if reply.Lost? {
        callers := callers[t := Over(Error)];
      } else if verdict.Done? {
        callers := callers[t := Marking(task)];
      } else if verdict.VersionConflict? {
        callers := callers[t := if retried then Over(Error) else Refetching(task, snap)];
      } else if !verdict.Halted? {
        callers := callers[t := Over(Error)];
      }
    }

    lemma ListedStays(t: nat, task: Task)
      requires Sound(Now()) && t in callers && callers[t].HasTask() && callers[t].task == task
      ensures Listed(Now(), task) && TaskOk(queue, batches, task)
    {
      assert CallerOk(queue, batches, ledger, callers[t]);
    }

    method Refetch(t: nat, task: Task, snap: Order)
      requires Valid(t) && t in callers && callers[t] == Refetching(task, snap)
      modifies this
      ensures Valid(t) && Goal(t, []) == old(Goal(t, [])) && t in callers
        && Stays(old(Now()), Now()) && |turns| <= |old(turns)|
      ensures callers[t] in {Over(Crashed), Over(Error)}
        || (callers[t].Settling? && callers[t] == Settling(task, snap, callers[t].version, true))
    {
      var turn := Next(t);
      if turn.None? { return; }
      ghost var w := Now();
      ListedStays(t, task);
      var o := OrderOf(Now(), task);
      var c := if o < |ledger.orders| then Settling(task, snap, ledger.orders[o].version, true) else Over(Error);
      StepIs(t, turn.value, [], Now().At(t, c));
      callers := callers[t := c];
      StaysTransitive(old(Now()), w, Now());
    }

    /** settleOrder's loop: one retry after a version conflict, any number while C1 is halted. */
    method SettleOrder(t: nat, task: Task, snap: Order, version: nat)
      requires Valid(t) && t in callers && callers[t] == Settling(task, snap, version, false)
      modifies this
      ensures Valid(t) && Goal(t, []) == old(Goal(t, [])) && t in callers && Stays(old(Now()), Now())
      ensures callers[t] in {Over(Crashed), Over(Error), Marking(task)}
    {
      ghost var w0 := Now();
      while callers[t].Settling?
        invariant Valid(t) && Goal(t, []) == old(Goal(t, [])) && t in callers && Stays(w0, Now())
        invariant callers[t].Settling? ==> callers[t] == Settling(task, snap, callers[t].version, callers[t].retried)
        invariant callers[t].Settling? || callers[t] in {Over(Crashed), Over(Error), Marking(task)}
        decreases |turns|, callers[t].Settling?
      {
        SettleTurn(t, task, snap, callers[t].version, callers[t].retried, w0);
      }
    }

    method SettleTurn(t: nat, task: Task, snap: Order, v: nat, retried: bool, ghost w0: World)
      requires Valid(t) && t in callers && callers[t] == Settling(task, snap, v, retried) && Stays(w0, Now())
      modifies this
      ensures Valid(t) && Goal(t, []) == old(Goal(t, [])) && t in callers && Stays(w0, Now())
      ensures callers[t].Settling? ==>
        callers[t] == Settling(task, snap, callers[t].version, callers[t].retried) && |turns| < |old(turns)|
      ensures callers[t].Settling? || callers[t] in {Over(Crashed), Over(Error), Marking(task)}
      ensures |turns| <= |old(turns)|
    {
      var turn := Next(t);
      StaysTransitive(w0, old(Now()), Now());
      if turn.None? { return; }
      ghost var w := Now();
      ListedStays(t, task);
      StepIs(t, turn.value, [], DoSettle(Now(), t, task, snap, v, retried, turn.value.reply));
      TrySettle(t, task, snap, v, retried, turn.value.reply);
      StaysTransitive(w0, w, Now());
      if callers[t].Refetching? {
        ghost var w1 := Now();
        Refetch(t, task, snap);
        StaysTransitive(w0, w1, Now());
      }
    }

    /** Store.MarkSettled: a repeat succeeds, a row that is missing or HELD is an error. */
    method TryMark(t: nat, task: Task, reply: L.Reply)
      requires t in callers && Listed(Now(), task)
      modifies this`local, this`callers
      ensures Now() == DoMark(old(Now()), t, task, reply) && t in callers
      ensures callers[t] in {Over(Error), Onward(Onwards(task, true))}
      ensures callers[t] == Onward(Onwards(task, true)) ==>
        OrderOf(Now(), task) in local && local[OrderOf(Now(), task)].status.LSettled?
    {
      var o := OrderOf(Now(), task);
      if o !in local || local[o].status.LHeld? {
        callers := callers[t := Over(Error)];
      } else {
        if local[o].status.LDispatching? {
          local := local[o := local[o].(status := L.LSettled)];
        }
        callers := callers[t := if reply.Lost? then Over(Error) else Onward(Onwards(task, true))];
      }
    }

    method MarkSettled(t: nat, task: Task)
      requires Valid(t) && t in callers && callers[t] == Marking(task)
      modifies this
      ensures Valid(t) && Goal(t, []) == old(Goal(t, [])) && t in callers && Stays(old(Now()), Now())
      ensures callers[t] in {Over(Crashed), Over(Error), Onward(Onwards(task, true))}
      ensures callers[t] == Onward(Onwards(task, true)) ==>
        Listed(Now(), task) && HandledIn(Now(), task.b, task.given, task.rows[task.k])
          && task.given[OrderOf(Now(), task)]
    {
      var turn := Next(t);
      if turn.None? { return; }
      ghost var w := Now();
      ListedStays(t, task);
      assert CallerOk(queue, batches, ledger, callers[t]);
      StepIs(t, turn.value, [], DoMark(Now(), t, task, turn.value.reply));
      TryMark(t, task, turn.value.reply);
      StaysTransitive(old(Now()), w, Now());
    }

    /** A row's first statement: requeued, or its order fetched. */
    method Begin(t: nat, task: Task)
      requires Valid(t) && t in callers && callers[t] == Handling(task)
      modifies this
      ensures Valid(t) && Goal(t, []) == old(Goal(t, [])) && t in callers && Stays(old(Now()), Now())
      ensures callers[t] in {Over(Crashed), Over(Error), Onward(Onwards(task, false))} || callers[t].Settling?
      ensures callers[t].Settling? ==> callers[t] == Settling(task, callers[t].snap, callers[t].version, false)
      ensures callers[t] == Onward(Onwards(task, false)) ==>
        Listed(Now(), task) && HandledIn(Now(), task.b, task.given, task.rows[task.k])
          && !task.given[OrderOf(Now(), task)]
    {
      var turn := Next(t);
      if turn.None? { return; }
      ghost var w := Now();
      ListedStays(t, task);
      StepIs(t, turn.value, [], DoHandle(Now(), t, task, turn.value.reply, turn.value.now));
      TryHandle(t, task, turn.value.reply, turn.value.now);
      StaysTransitive(old(Now()), w, Now());
    }

    /** One recipient. */
    method HandleRow(t: nat, task: Task) returns (next: Task)
      requires Valid(t) && t in callers && callers[t] == Handling(task) && Progress(Now(), task)
      modifies this
      ensures Valid(t) && Goal(t, []) == old(Goal(t, [])) && t in callers && Stays(old(Now()), Now())
      ensures next in {Onwards(task, true), Onwards(task, false)}
        && callers[t] in {Over(Crashed), Over(Error), Onward(next)}
      ensures callers[t] == Onward(next) ==> Progress(Now(), next)
    {
      next := Onwards(task, false);
      Begin(t, task);
      ProgressStays(old(Now()), Now(), task);
      if callers[t] == Onward(next) {
        ProgressOn(Now(), task, false);
      } else if callers[t].Settling? {
        next := Onwards(task, true);
        ghost var w := Now();
        Settle(t, task, callers[t].snap, callers[t].version);
        StaysTransitive(old(Now()), w, Now());
        ProgressStays(w, Now(), task);
        if callers[t] == Onward(next) { ProgressOn(Now(), task, true); }
      }
    }

    /** A success: its own settlement in C1, then the mark in dispatch_state. */
    method Settle(t: nat, task: Task, snap: Order, version: nat)
      requires Valid(t) && t in callers && callers[t] == Settling(task, snap, version, false)
      modifies this
      ensures Valid(t) && Goal(t, []) == old(Goal(t, [])) && t in callers && Stays(old(Now()), Now())
      ensures callers[t] in {Over(Crashed), Over(Error), Onward(Onwards(task, true))}
      ensures callers[t] == Onward(Onwards(task, true)) ==>
        Listed(Now(), task) && HandledIn(Now(), task.b, task.given, task.rows[task.k])
          && task.given[OrderOf(Now(), task)]
    {
      SettleOrder(t, task, snap, version);
      if callers[t].Marking? {
        ghost var w := Now();
        MarkSettled(t, task);
        StaysTransitive(old(Now()), w, Now());
      }
    }

    /** The loop over the rows. */
    method HandleRows(t: nat, start: Task) returns (task: Task)
      requires Valid(t) && t in callers && callers[t] == Onward(start) && Progress(Now(), start)
      modifies this
      ensures Valid(t) && Goal(t, []) == old(Goal(t, [])) && t in callers && Stays(old(Now()), Now())
      ensures SameJob(task, start) && callers[t].Over? && callers[t] in {Over(Crashed), Over(Error), Onward(task)}
      ensures callers[t] == Onward(task) ==> task.k == |task.rows| && Progress(Now(), task)
    {
      ghost var w0 := Now();
      task := start;
      while callers[t].Handling?
        invariant Valid(t) && Goal(t, []) == old(Goal(t, [])) && t in callers && Stays(w0, Now())
        invariant SameJob(task, start) && callers[t] in {Over(Crashed), Over(Error), Onward(task)}
        invariant callers[t] == Onward(task) ==> Progress(Now(), task)
        decreases |task.rows| - task.k
      {
        ghost var w := Now();
        task := HandleRow(t, task);
        StaysTransitive(w0, w, Now());
      }
    }

    /** Up to the list. */
    method Open(t: nat, b: nat, given: map<nat, bool>, at: nat) returns (task: Task, ghost before: World)
      requires Valid(t) && t in callers && callers[t] == Opening(b, given, at)
      modifies this
      ensures Valid(t) && Goal(t, []) == old(Goal(t, [])) && t in callers && Stays(old(Now()), Now())
      ensures callers[t] in {Over(Crashed), Over(Error)} || callers[t] == Onward(task)
      ensures callers[t] == Onward(task) ==>
        && Stays(old(Now()), before) && Stays(before, Now())
        && task == Task(b, given, at, task.slot, Pointing(before.queue, b), 0, 0, 0) && Progress(Now(), task)
    {
      GetBatch(t, b, given, at);
      before := Now();
      task := Task(b, given, at, 0, [], 0, 0, 0);
      if callers[t].Collecting? {
        ghost var w := Now();
        task, before := Collect(t, b, given, at, callers[t].slot);
        StaysTransitive(old(Now()), w, before);
        StaysTransitive(old(Now()), before, Now());
      }
    }

    /** HandlePartialSettlement, others acting in between. It goes where the protocol's caller goes; and
        if it ends well, each row that pointed at the batch when it was listed is settled there, under
        the order's own key, or detached from the batch, as its result said, and they are counted. */
    method HandlePartialSettlement(t: nat, b: nat, given: map<nat, bool>, at: nat)
      returns (r: Result, ghost before: World)
      requires Valid(t) && t !in callers
      modifies this
      ensures Valid(t) && (Now(), turns) == Play(Step(old(Now()), StartSettle(t, b, given, at)), t, old(turns), [])
      ensures t in callers && callers[t] == Over(r) && (r.Handled? || r in {Error, Crashed})
      ensures r.Handled? ==>
        var rows := Pointing(before.queue, b);
        && Stays(old(Now()), before) && Stays(before, Now())
        && (forall j :: 0 <= j < |rows| ==> HandledIn(Now(), b, given, rows[j]))
        && r.settled == Wins(queue, rows, given, |rows|) && r.requeued == |rows| - r.settled
    {
      MoveIs(t, Opening(b, given, at));
      callers := callers[t := Opening(b, given, at)];
      ghost var w0 := Now();
      var task;
      task, before := Open(t, b, given, at);
      if callers[t] == Onward(task) {
        StaysTransitive(old(Now()), w0, before);
        ghost var w1 := Now();
        var _ := HandleRows(t, task);
        StaysTransitive(before, w1, Now());
      }
      r := callers[t].result;
    }
  }
}
