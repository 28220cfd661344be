/** Who is paid how often: in every run, and in the runs in which Requeue never detaches a row from
    another batch than the one its caller settles. */
module BatchPayouts {
  import opened Common
  import opened Ledger
  import L = Lifecycle
  import opened BatchProtocol
  import opened BatchSafety

  // ---------------------------------------------------------------- of every run

  /** In every run, a row that was never requeued is paid by a batch if and only if it points at it:
      by no batch while it is queued, by one ever after. */
  lemma PaidIffPointing(acts: seq<Action>, r: nat, b: nat)
    requires r !in Run(INIT, acts).requeued
    ensures var w := Run(INIT, acts); Pays(w.batches, b, r) <==> r < |w.queue| && w.queue[r].status == Batched(b)
  {
    RunKeeps(INIT, acts);
  }

  /** Without Requeue, then, no row is in two batches; and with it, still, every committed batch pays
      distinct rows, each its own amount to its own recipient. */
  lemma BatchesPartition(acts: seq<Action>, b: nat, c: nat, r: nat)
    requires var w := Run(INIT, acts); Pays(w.batches, b, r) && Pays(w.batches, c, r) && w.requeued == {}
    ensures b == c
    ensures var w := Run(INIT, acts); BatchOk(w.queue, w.batches[b].payments)
  {
    PaidIffPointing(acts, r, b);
    PaidIffPointing(acts, r, c);
    RunKeeps(INIT, acts);
  }

  /** In every run an order is settled at most once, with the lines of the batch its key names. */
  lemma SettledOnce(acts: seq<Action>, i: nat, j: nat)
    requires var js := Run(INIT, acts).ledger.journal;
      i < |js| && j < |js| && js[i].key.Settlement? && js[j].key.Settlement? && js[i].key.order == js[j].key.order
    ensures i == j
    ensures var w := Run(INIT, acts); SettlementOk(w.ledger, w.batches, w.ledger.journal[i])
  {
    RunKeeps(INIT, acts);
  }

  // ---------------------------------------------------------------- Requeue and its missing guard

  /** A row a batch pays, and the chain has paid, points at that batch. */
  ghost predicate PaidStays(queue: seq<Row>, batches: seq<Batch>, succeeds: (nat, nat) -> bool) {
    forall r: nat, b: nat :: Pays(batches, b, r) && r < |queue| && succeeds(queue[r].order, b) ==>
      queue[r].status == Batched(b)
  }

  /** Requeue in a caller that settles batch b: where it may hit without harm. */
  predicate MayRequeue(queue: seq<Row>, b: nat, r: nat) {
    r < |queue| && (queue[r].status.Queued? || queue[r].status == Batched(b))
  }

  ghost predicate RequeueIsSafe(queue: seq<Row>, batches: seq<Batch>, b: nat, r: nat, now: nat)
    requires r < |queue|
  {
    forall succeeds: (nat, nat) -> bool ::
      PaidStays(queue, batches, succeeds) && !succeeds(queue[r].order, b) ==>
        PaidStays(Requeued(queue, r, now), batches, succeeds)
  }

  /** Of a row whose payment in batch b failed: requeueing it is safe, whatever the chain does with
      the other batches, if and only if the row is queued or still points at b. The statement has no
      such guard. */
  lemma RequeueSafeIff(queue: seq<Row>, batches: seq<Batch>, requeued: set<nat>, b: nat, r: nat, now: nat)
    requires QueueOk(queue, batches, requeued) && r < |queue|
    ensures RequeueIsSafe(queue, batches, b, r, now) <==> MayRequeue(queue, b, r)
  {
    if !MayRequeue(queue, b, r) {
      var c, o := queue[r].status.batch, queue[r].order;
      var succeeds := (order: nat, batch: nat) => order == o && batch == c;
      assert PaidStays(queue, batches, succeeds) && !succeeds(o, b);
      assert Pays(batches, c, r) && Requeued(queue, r, now)[r].order == o;
      assert !PaidStays(Requeued(queue, r, now), batches, succeeds);
    }
  }

  /** The step requeues only rows it may. */
  ghost predicate Guarded(w: World, act: Action) {
    act.Advance? && !act.reply.Failed? && act.t in w.callers && w.callers[act.t].Handling? ==>
      var task := w.callers[act.t].task;
      Listed(w, task) && OrderOf(w, task) in task.given && !task.given[OrderOf(w, task)] ==>
        MayRequeue(w.queue, task.b, task.rows[task.k])
  }

  ghost predicate AllGuarded(w: World, acts: seq<Action>)
    decreases |acts|
  {
    acts == [] || (Guarded(w, acts[0]) && AllGuarded(Step(w, acts[0]), acts[1..]))
  }

  /** What callers are told of a batch is what the chain did. */
  ghost predicate Truthful(acts: seq<Action>, succeeds: (nat, nat) -> bool) {
    forall i :: 0 <= i < |acts| && acts[i].StartSettle? ==> True(acts[i].given, acts[i].b, succeeds)
  }

  ghost predicate True(given: map<nat, bool>, b: nat, succeeds: (nat, nat) -> bool) {
    forall o :: o in given ==> given[o] == succeeds(o, b)
  }

  ghost predicate Told(c: Caller, succeeds: (nat, nat) -> bool) {
    && ((c.Opening? || c.Collecting?) ==> True(c.given, c.b, succeeds))
    && (c.HasTask() ==> True(c.task.given, c.task.b, succeeds))
  }

  /** The order's row is paid by this batch, successfully. */
  ghost predicate PaidIn(queue: seq<Row>, batches: seq<Batch>, o: nat, b: nat, succeeds: (nat, nat) -> bool) {
    succeeds(o, b) && exists r: nat :: r < |queue| && queue[r].order == o && Pays(batches, b, r)
  }

  ghost predicate SettlementsPaid(queue: seq<Row>, batches: seq<Batch>, j: Journal, succeeds: (nat, nat) -> bool) {
    forall i :: 0 <= i < |j| && j[i].key.Settlement? ==>
      PaidIn(queue, batches, j[i].key.order, j[i].key.attempt, succeeds)
  }

  ghost predicate Safe(w: World, succeeds: (nat, nat) -> bool) {
    && PaidStays(w.queue, w.batches, succeeds)
    && SettlementsPaid(w.queue, w.batches, w.ledger.journal, succeeds)
    && forall t :: t in w.callers ==> Told(w.callers[t], succeeds)
  }

  lemma SettlementsStay(queue: seq<Row>, batches: seq<Batch>, j: Journal, queue': seq<Row>, batches': seq<Batch>,
                        succeeds: (nat, nat) -> bool)
    requires SettlementsPaid(queue, batches, j, succeeds) && QueueGrows(queue, queue') && batches <= batches'
    ensures SettlementsPaid(queue', batches', j, succeeds)
  {
    PaysStays(batches, batches');
    forall i | 0 <= i < |j| && j[i].key.Settlement?
      ensures PaidIn(queue', batches', j[i].key.order, j[i].key.attempt, succeeds)
    {
      var r: nat :| r < |queue| && queue[r].order == j[i].key.order && Pays(batches, j[i].key.attempt, r);
      assert queue'[r].order == j[i].key.order && Pays(batches', j[i].key.attempt, r);
    }
  }

  lemma CreateSafe(w: World, t: nat, rows: seq<nat>, payments: seq<Payment>, slot: nat, reply: L.Reply,
                   succeeds: (nat, nat) -> bool)
    requires Sound(w) && Safe(w, succeeds) && t in w.callers && w.callers[t] == Creating(rows, payments, slot)
    ensures Safe(DoCreate(w, t, rows, payments, slot, reply), succeeds)
  {
    if AllQueued(w.queue, rows) {
      assert CallerOk(w.queue, w.batches, w.ledger, w.callers[t]);
      PaysCreated(w.queue, w.batches, rows, slot);
      CreateOk(w.queue, w.batches, w.requeued, rows, slot);
      var w' := DoCreate(w, t, rows, payments, slot, reply);
      SettlementsStay(w.queue, w.batches, w.ledger.journal, w'.queue, w'.batches, succeeds);
    }
  }

  lemma HandleSafe(w: World, t: nat, task: Task, reply: L.Reply, now: nat, succeeds: (nat, nat) -> bool)
    requires Sound(w) && Safe(w, succeeds) && t in w.callers && w.callers[t] == Handling(task) && Listed(w, task)
    requires OrderOf(w, task) in task.given && !task.given[OrderOf(w, task)] ==>
      MayRequeue(w.queue, task.b, task.rows[task.k])
    ensures Safe(DoHandle(w, t, task, reply, now), succeeds)
  {
    assert Told(w.callers[t], succeeds);
    if OrderOf(w, task) in task.given && !task.given[OrderOf(w, task)] {
      var r := task.rows[task.k];
      RequeueSafeIff(w.queue, w.batches, w.requeued, task.b, r, now);
      SettlementsStay(w.queue, w.batches, w.ledger.journal, Requeued(w.queue, r, now), w.batches, succeeds);
    }
  }

  lemma SettleSafe(w: World, t: nat, task: Task, snap: Order, version: nat, retried: bool, reply: L.Reply,
                   succeeds: (nat, nat) -> bool)
    requires Sound(w) && Safe(w, succeeds) && t in w.callers
      && w.callers[t] == Settling(task, snap, version, retried) && Listed(w, task)
    ensures Safe(DoSettle(w, t, task, snap, version, retried, reply), succeeds)
  {
    var r, o, e := task.rows[task.k], OrderOf(w, task), SettlementEntry(w, task, snap);
    assert CallerOk(w.queue, w.batches, w.ledger, w.callers[t]) && Told(w.callers[t], succeeds);
    SettleVerdict(w.ledger, w.batches, o, version, e);
    SettleShape(w, t, task, snap, version, retried, reply);
    assert PaidIn(w.queue, w.batches, o, task.b, succeeds) by {
      assert w.queue[r].order == o && Pays(w.batches, task.b, r);
    }
  }

  /** The statements that leave the queue and C1 alone. */
  lemma MoveSafe(w: World, t: nat, reply: L.Reply, now: nat, listed: seq<nat>, succeeds: (nat, nat) -> bool)
    requires Safe(w, succeeds) && t in w.callers
    requires var c := w.callers[t];
      reply.Failed? || !(c.Creating? || ((c.Handling? || c.Settling?) && Listed(w, c.task)))
    ensures Safe(AdvanceCaller(w, t, w.callers[t], reply, now, listed), succeeds)
  {
    var w' := AdvanceCaller(w, t, w.callers[t], reply, now, listed);
    assert Told(w.callers[t], succeeds);
    if reply.Failed? || w.callers[t].Over? {
      assert w' == w || w' == w.At(t, Over(Error));
    } else {
      assert w'.queue == w.queue && w'.batches == w.batches && w'.ledger == w.ledger;
      assert forall u :: u in w'.callers && u != t ==> u in w.callers && w'.callers[u] == w.callers[u];
      assert t in w'.callers && Told(w'.callers[t], succeeds);
    }
  }

  lemma AdvanceSafe(w: World, t: nat, reply: L.Reply, now: nat, listed: seq<nat>, succeeds: (nat, nat) -> bool)
    requires Sound(w) && Safe(w, succeeds) && t in w.callers && Guarded(w, Advance(t, reply, now, listed))
    ensures Safe(AdvanceCaller(w, t, w.callers[t], reply, now, listed), succeeds)
  {
    var c := w.callers[t];
    if reply.Failed? || !(c.Creating? || ((c.Handling? || c.Settling?) && Listed(w, c.task))) {
      MoveSafe(w, t, reply, now, listed, succeeds);
    } else if c.Creating? {
      CreateSafe(w, t, c.rows, c.payments, c.slot, reply, succeeds);
    } else if c.Handling? {
      HandleSafe(w, t, c.task, reply, now, succeeds);
    } else {
      SettleSafe(w, t, c.task, c.snap, c.version, c.retried, reply, succeeds);
    }
  }

  lemma OthersSafe(w: World, act: Action, succeeds: (nat, nat) -> bool)
    requires Safe(w, succeeds) && (act.Quote? || act.Move? || act.PostOther? || act.ReverseOther? || act.SetHalt?)
    ensures Safe(Step(w, act), succeeds)
  {
    if act.Move? { TransitionGrows(w.ledger, act.o, act.to, act.version, act.cause); }
  }

  lemma StepSafe(w: World, act: Action, succeeds: (nat, nat) -> bool)
    requires Sound(w) && Safe(w, succeeds) && Guarded(w, act)
    requires act.StartSettle? ==> True(act.given, act.b, succeeds)
    ensures Safe(Step(w, act), succeeds)
  {
    match act
    case Advance(t, reply, now, listed) => if t in w.callers { AdvanceSafe(w, t, reply, now, listed, succeeds); }
    case Enqueue(order, recipient, amount, now) =>
      var row := Row(order, recipient, amount, Queued, now);
      EnqueueOk(w.queue, w.batches, w.requeued, row);
      SettlementsStay(w.queue, w.batches, w.ledger.journal, Enqueued(w.queue, row), w.batches, succeeds);
      forall r: nat, b: nat | Pays(w.batches, b, r) ensures r < |w.queue| {
        assert BatchOk(w.queue, w.batches[b].payments);
      }
    case Record(_, _) =>
    case StartCut(_, _, _, _) =>
    case StartSettle(_, _, _, _) =>
    case Crash(_) =>
    case _ => OthersSafe(w, act, succeeds);
  }

  lemma {:induction false} RunSafe(w: World, acts: seq<Action>, succeeds: (nat, nat) -> bool)
    requires Sound(w) && Safe(w, succeeds) && AllGuarded(w, acts) && Truthful(acts, succeeds)
    ensures Sound(Run(w, acts)) && Safe(Run(w, acts), succeeds)
    decreases |acts|
  {
    if acts != [] {
      StepKeeps(w, acts[0]);
      StepSafe(w, acts[0], succeeds);
      RunSafe(Step(w, acts[0]), acts[1..], succeeds);
    }
  }

  // ---------------------------------------------------------------- settling a batch one caller at a time

  /** What is left of its list still points at its batch. */
  ghost predicate StillThere(queue: seq<Row>, c: Caller) {
    c.HasTask() ==> forall j :: c.task.k <= j < |c.task.rows| ==>
      c.task.rows[j] < |queue| && queue[c.task.rows[j]].status == Batched(c.task.b)
  }

  ghost predicate Exclusive(w: World) {
    && (forall t :: t in w.callers ==> StillThere(w.queue, w.callers[t]))
    && (forall t, u, b: nat :: t in w.callers && u in w.callers && t != u && w.callers[t].Settles(b) ==>
      !w.callers[u].Settles(b))
  }

  /** Nobody starts to settle a batch that somebody else is settling. */
  ghost predicate Calm(w: World, act: Action) {
    act.StartSettle? ==> forall u :: u in w.callers ==> !w.callers[u].Settles(act.b)
  }

  ghost predicate Serial(w: World, acts: seq<Action>)
    decreases |acts|
  {
    acts == [] || (Calm(w, acts[0]) && Serial(Step(w, acts[0]), acts[1..]))
  }

  ghost predicate SameTask(c: Caller, c': Caller) {
    && (forall b :: c'.Settles(b) ==> c.Settles(b))
    && (c'.HasTask() ==> c.HasTask() && c'.task.rows == c.task.rows && c'.task.k >= c.task.k && c'.task.b == c.task.b)
  }

  /** The queue keeps every row that somebody still means to handle. */
  lemma ExclusiveMove(w: World, w': World, t: nat)
    requires Exclusive(w) && t in w.callers && t in w'.callers && SameTask(w.callers[t], w'.callers[t])
    requires forall u :: u in w'.callers && u != t ==> u in w.callers && w'.callers[u] == w.callers[u]
    requires |w.queue| <= |w'.queue|
      && forall r :: 0 <= r < |w.queue| && w.queue[r].status.Batched? ==> w'.queue[r].status == w.queue[r].status
    ensures Exclusive(w')
  {
    forall u | u in w'.callers ensures StillThere(w'.queue, w'.callers[u]) { assert StillThere(w.queue, w.callers[u]); }
  }

  lemma RequeueExclusive(w: World, t: nat, task: Task, reply: L.Reply, now: nat)
    requires Sound(w) && Exclusive(w) && t in w.callers && w.callers[t] == Handling(task) && Listed(w, task)
    requires OrderOf(w, task) in task.given && !task.given[OrderOf(w, task)]
    ensures Exclusive(DoHandle(w, t, task, reply, now))
  {
    var w', r := DoHandle(w, t, task, reply, now), task.rows[task.k];
    assert CallerOk(w.queue, w.batches, w.ledger, w.callers[t]) && StillThere(w.queue, w.callers[t]);
    forall u | u in w'.callers ensures StillThere(w'.queue, w'.callers[u]) {
      if u != t {
        assert StillThere(w.queue, w.callers[u]);
        assert w.callers[t].Settles(task.b);
        if w.callers[u].HasTask() { assert w.callers[u].Settles(w.callers[u].task.b); }
      }
    }
    forall u, b: nat | u in w'.callers && w'.callers[u].Settles(b) ensures u in w.callers && w.callers[u].Settles(b) {}
  }

  lemma CollectExclusive(w: World, t: nat, b: nat, given: map<nat, bool>, at: nat, slot: nat)
    requires Exclusive(w) && t in w.callers && w.callers[t] == Collecting(b, given, at, slot)
    ensures Exclusive(w.At(t, Onward(Task(b, given, at, slot, Pointing(w.queue, b), 0, 0, 0))))
  {
    var rows := Pointing(w.queue, b);
    assert forall j :: 0 <= j < |rows| ==> rows[j] in rows;
    var w' := w.At(t, Onward(Task(b, given, at, slot, rows, 0, 0, 0)));
    forall u | u in w'.callers ensures StillThere(w'.queue, w'.callers[u]) {
      if u != t { assert StillThere(w.queue, w.callers[u]); }
    }
  }

  lemma AdvanceExclusive(w: World, t: nat, reply: L.Reply, now: nat, listed: seq<nat>)
    requires Sound(w) && Exclusive(w) && t in w.callers
    ensures Exclusive(AdvanceCaller(w, t, w.callers[t], reply, now, listed))
  {
    var c, w' := w.callers[t], AdvanceCaller(w, t, w.callers[t], reply, now, listed);
    if c.Over? || reply.Failed? {
      if !c.Over? { ExclusiveMove(w, w', t); }
    } else if c.Collecting? {
      CollectExclusive(w, t, c.b, c.given, c.at, c.slot);
    } else if c.Handling? && Listed(w, c.task)
      && OrderOf(w, c.task) in c.task.given && !c.task.given[OrderOf(w, c.task)] {
      RequeueExclusive(w, t, c.task, reply, now);
    } else {
      AdvanceSameTask(w, t, reply, now, listed);
      ExclusiveMove(w, w', t);
    }
  }

  /** All the other statements leave batched rows alone and go on with the same list. */
  lemma AdvanceSameTask(w: World, t: nat, reply: L.Reply, now: nat, listed: seq<nat>)
    requires t in w.callers && !reply.Failed? && !w.callers[t].Over? && !w.callers[t].Collecting?
    requires
      var c := w.callers[t];
      !(c.Handling? && Listed(w, c.task) && OrderOf(w, c.task) in c.task.given && !c.task.given[OrderOf(w, c.task)])
    ensures
      var c, w' := w.callers[t], AdvanceCaller(w, t, w.callers[t], reply, now, listed);
      && t in w'.callers && SameTask(c, w'.callers[t]) && |w.queue| <= |w'.queue|
      && (forall u :: u in w'.callers && u != t ==> u in w.callers && w'.callers[u] == w.callers[u])
      && (forall r :: 0 <= r < |w.queue| && w.queue[r].status.Batched? ==> w'.queue[r].status == w.queue[r].status)
  {
    var c := w.callers[t];
    if c.Settling? && Listed(w, c.task) { SettleShape(w, t, c.task, c.snap, c.version, c.retried, reply); }
  }

  lemma StartExclusive(w: World, act: Action)
    requires Exclusive(w) && Calm(w, act) && (act.StartCut? || act.StartSettle? || act.Crash?)
    ensures Exclusive(Step(w, act))
  {
    var w' := Step(w, act);
    if w' != w {
      assert w' == w.At(act.t, w'.callers[act.t]) && !w'.callers[act.t].HasTask();
      forall u | u in w'.callers ensures StillThere(w'.queue, w'.callers[u]) {
        if u != act.t { assert StillThere(w.queue, w.callers[u]); }
      }
      forall b: nat | w'.callers[act.t].Settles(b) ensures act.StartSettle? && b == act.b {}
    }
  }

  lemma StepExclusive(w: World, act: Action)
    requires Sound(w) && Exclusive(w) && Calm(w, act)
    ensures Exclusive(Step(w, act))
  {
    if act.Advance? {
      if act.t in w.callers { AdvanceExclusive(w, act.t, act.reply, act.now, act.listed); }
    } else if act.StartCut? || act.StartSettle? || act.Crash? {
      StartExclusive(w, act);
    } else {
      var w' := Step(w, act);
      assert w'.callers == w.callers;
      forall u | u in w'.callers ensures StillThere(w'.queue, w'.callers[u]) {
        assert StillThere(w.queue, w.callers[u]);
      }
    }
  }

  lemma ExclusiveIsGuarded(w: World, act: Action)
    requires Exclusive(w)
    ensures Guarded(w, act)
  {
    if act.Advance? && act.t in w.callers { assert StillThere(w.queue, w.callers[act.t]); }
  }

  /** As long as each batch is settled by one caller at a time, Requeue only hits rows it may. */
  lemma {:induction false} SerialIsGuarded(w: World, acts: seq<Action>)
    requires Sound(w) && Exclusive(w) && Serial(w, acts)
    ensures AllGuarded(w, acts)
    decreases |acts|
  {
    if acts != [] {
      ExclusiveIsGuarded(w, acts[0]);
      StepKeeps(w, acts[0]);
      StepExclusive(w, acts[0]);
      SerialIsGuarded(Step(w, acts[0]), acts[1..]);
    }
  }

  // ---------------------------------------------------------------- the theorems

  /** In every run in which callers are told the truth and Requeue only hits rows it may -- in
      particular if each batch is settled by one caller at a time -- no order is successfully paid by
      two batches. */
  lemma PaidAtMostOnce(acts: seq<Action>, succeeds: (nat, nat) -> bool, r: nat, b: nat, c: nat)
    requires Truthful(acts, succeeds) && (AllGuarded(INIT, acts) || Serial(INIT, acts))
    requires var w := Run(INIT, acts); r < |w.queue| && Pays(w.batches, b, r) && Pays(w.batches, c, r)
    requires var w := Run(INIT, acts); succeeds(w.queue[r].order, b) && succeeds(w.queue[r].order, c)
    ensures b == c && Run(INIT, acts).queue[r].status == Batched(b)
  {
    if Serial(INIT, acts) { SerialIsGuarded(INIT, acts); }
    RunSafe(INIT, acts, succeeds);
  }

  lemma {:induction false} GuardedPrefix(w: World, before: seq<Action>, after: seq<Action>)
    requires AllGuarded(w, before + after)
    ensures AllGuarded(w, before) && AllGuarded(Run(w, before), after)
    decreases |before|
  {
    if before == [] {
      assert before + after == after;
    } else {
      assert (before + after)[0] == before[0] && (before + after)[1..] == before[1..] + after;
      GuardedPrefix(Step(w, before[0]), before[1..], after);
    }
  }

  /** And a settled order stays in the batch that paid it: no continuation cuts it into another. */
  lemma SettledNeverRebatched(before: seq<Action>, after: seq<Action>, succeeds: (nat, nat) -> bool, o: nat, b: nat)
    returns (r: nat)
    requires Truthful(before + after, succeeds) && (AllGuarded(INIT, before + after) || Serial(INIT, before + after))
    requires Has(Run(INIT, before).ledger.journal, Settlement(o, b))
    ensures succeeds(o, b)
    ensures var w := Run(INIT, before); r < |w.queue| && w.queue[r].order == o && w.queue[r].status == Batched(b)
    ensures var w := Run(INIT, before + after);
      r < |w.queue| && w.queue[r].order == o && w.queue[r].status == Batched(b)
  {
    if Serial(INIT, before + after) { SerialIsGuarded(INIT, before + after); }
    GuardedPrefix(INIT, before, after);
    assert Truthful(before, succeeds) by {
      forall i | 0 <= i < |before| && before[i].StartSettle? ensures True(before[i].given, before[i].b, succeeds) {
        assert (before + after)[i] == before[i];
      }
    }
    RunSafe(INIT, before, succeeds);
    RunSafe(INIT, before + after, succeeds);
    RunConcat(INIT, before, after);
    var w := Run(INIT, before);
    var i := Find(w.ledger.journal, Settlement(o, b)).value;
    assert PaidIn(w.queue, w.batches, w.ledger.journal[i].key.order, w.ledger.journal[i].key.attempt, succeeds);
    r :| r < |w.queue| && w.queue[r].order == o && Pays(w.batches, b, r);
    RunStays(w, after);
    PaysStays(w.batches, Run(w, after).batches);
  }
}
