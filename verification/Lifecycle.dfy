/** The life of a payout order: one orchestrator process (dispatcher/internal/orchestrate/runloop.go)
    dispatching and confirming, any number of reconciliation passes and freeze handlers beside it,
    against the dispatcher's two tables, C1 and the chain. Each SQL statement and each request is
    one step; the orchestrator and the passes may crash between any two, and a request or a
    statement may take effect although its caller hears an error. */
module Lifecycle {
  import opened Common
  import A = Attempts
  import B = BroadcastProtocol
  import opened Ledger

  datatype LocalStatus = LDispatching | LSettled | LHeld

  /** A dispatch_state row; its conversion_entry_key is always Conversion(order). */
  datatype LocalRow = LocalRow(slot: nat, status: LocalStatus, enteredAt: nat)

  /** What the orchestrator does next, for one order at a time. */
  datatype Orch =
    | Idle
    | Fetching(o: nat)
    | Looking(o: nat, snap: Order)
    | Selecting(o: nat, snap: Order)
    | Entering(o: nat, snap: Order, slot: nat, at: nat, version: nat, retried: bool)
    | Refetching(o: nat, snap: Order, slot: nat, at: nat)
    | Recording(o: nat, slot: nat, at: nat)
    | Building(o: nat, slot: nat)
    | Sending(o: nat, t: nat)
    | FindingLatest(o: nat)
    | FetchingFinal(o: nat, id: nat)
    | Polling(o: nat, snap: Order, id: nat)
    | Settling(o: nat, snap: Order, id: nat, at: nat, version: nat, retried: bool)
    | RefetchingFinal(o: nat, snap: Order, id: nat, at: nat)
    | MarkingSettled(o: nat, id: nat)
    | MarkingConfirmed(o: nat, id: nat)

  /** One pass of ReconcileFailedDispatches over one order; Closed if it counts the order as closed. */
  datatype Recon =
    | Examining(o: nat)
    | FetchingFailed(o: nat)
    | Resolving(o: nat, version: nat)
    | Reversing(o: nat, version: nat, entry: nat)
    | Holding(o: nat, version: nat, reversal: nat, retried: bool)
    | RefetchingHeld(o: nat, reversal: nat)
    | MarkingHeld(o: nat)
    | Over
    | Closed
  {
    predicate Ended() { Over? || Closed? }
  }

  datatype World = World(
    ledger: Ledger,
    att: B.World,
    local: map<nat, LocalRow>,
    orch: Orch,
    pending: map<nat, B.Args>,
    recon: map<nat, Recon>)

  /** How a request or statement turns out: as the callee decides, not at all, or done although
      the caller hears an error. */
  datatype Reply = Ok | Failed | Lost

  datatype Action =
    // C1's other users
    | Quote(order: Order)
    | Move(o: nat, to: OrderState, cause: Option<Entry>)
    | PostForeign(entry: Entry)
    | ReverseForeign(i: nat, at: nat)
    | SetHalt(halted: bool)
    // the orchestrator
    | Dispatch(o: nat)
    | Confirm(o: nat)
    | OrchStep(reply: Reply, slot: nat, at: nat, tx: Bytes, t: nat)
    | OrchBroadcast(answer: B.Reply)
    | OrchCrash
    // reconciliation
    | Reconcile(p: nat, o: nat)
    | ReconStep(p: nat, reply: Reply, at: nat)
    // freeze handlers, and whoever else retires slots
    | Freeze(t: nat, id: nat)
    | FreezeStep(t: nat, answer: B.Reply)
    | FreezeCrash(t: nat)
    | RetireSlot(slot: nat)

  function Init(): World {
    World(Ledger([], [], false), B.INIT, map[], Idle, map[], map[])
  }

  // ---------------------------------------------------------------- steps

  function Step(w: World, act: Action): World {
    match act
    case Quote(order) =>
      if order.state.Quoted? then w.(ledger := w.ledger.(orders := w.ledger.orders + [order])) else w
    case Move(o, to, cause) => DoMove(w, o, to, cause)
    case PostForeign(entry) => w.(ledger := DoPostForeign(w.ledger, entry))
    case ReverseForeign(i, at) => w.(ledger := DoReverseForeign(w.ledger, i, at))
    case SetHalt(halted) => w.(ledger := w.ledger.(halted := halted))
    case Dispatch(o) => if w.orch.Idle? then w.(orch := Fetching(o)) else w
    // a row of ListDispatching may be stale by the time it is handled
    case Confirm(o) =>
      if w.orch.Idle? && o in w.local then w.(orch := FindingLatest(o)) else w
    case OrchStep(reply, slot, at, tx, t) => DoOrch(w, reply, slot, at, tx, t)
    case OrchBroadcast(answer) => DoBroadcast(w, answer)
    case OrchCrash => DoOrchCrash(w)
    case Reconcile(p, o) =>
      if p !in w.recon && o in w.local then Goto(w, p, Examining(o)) else w
    case ReconStep(p, reply, at) => if p in w.recon then DoRecon(w, p, w.recon[p], reply, at) else w
    case Freeze(t, id) => w.(att := B.Step(w.att, B.StartFreeze(t, id)))
    case FreezeStep(t, answer) => if OwnThread(w, t) then w else w.(att := B.Step(w.att, B.Advance(t, answer)))
    case FreezeCrash(t) => if OwnThread(w, t) then w else w.(att := B.Step(w.att, B.Crash(t)))
    case RetireSlot(slot) => w.(att := B.Step(w.att, B.Retire(slot)))
  }

  /** The orchestrator's own broadcast thread is not a freeze handler. */
  predicate OwnThread(w: World, t: nat) { w.orch.Sending? && w.orch.t == t }

  // ------------------------------------------------ C1's other users

  /** The transitions only the dispatcher makes. */
  predicate Dispatchers(from: OrderState, to: OrderState) {
    from.Dispatching? || to.Dispatching?
  }

  /** An entry of another component: it has a foreign key and leaves TRC20 liabilities alone, as
      only E2, E3 and their reversals touch them. */
  predicate IsForeign(e: Entry) {
    && e.key.Foreign?
    && forall i :: 0 <= i < |e.lines| ==> !(e.lines[i].account.Liability? && e.lines[i].account.asset.TRC20?)
  }

  /** Another component moves an order. Releasing a held order back to screened is allowed only
      when it was never converted: this is the assumption the safety theorems rest on. */
  function DoMove(w: World, o: nat, to: OrderState, cause: Option<Entry>): World {
    if o >= |w.ledger.orders| || Dispatchers(w.ledger.orders[o].state, to) then w
    else if to.Screened? && Has(w.ledger.journal, Conversion(o)) then w
    else OtherMove(w, o, to, cause)
  }

  function OtherMove(w: World, o: nat, to: OrderState, cause: Option<Entry>): World
    requires o < |w.ledger.orders|
  {
    if cause.Some? && !IsForeign(cause.value) then w
    else
      var posted := if cause.Some? then Inline(cause.value) else NoEntry;
      w.(ledger := Transition(w.ledger, o, to, w.ledger.orders[o].version, posted).1)
  }

  function DoPostForeign(l: Ledger, e: Entry): Ledger {
    if !IsForeign(e) then l
    else match Post(l.journal, e)
      case Posted(j) => l.(journal := j)
      case _ => l
  }

  function DoReverseForeign(l: Ledger, i: nat, at: nat): Ledger {
    if i >= |l.journal| || !l.journal[i].key.Foreign? then l
    else match Reverse(l.journal, i, at)
      case Reversed(j) => l.(journal := j)
      case _ => l
  }

  // ------------------------------------------------ the orchestrator

  function DoOrch(w: World, reply: Reply, slot: nat, at: nat, tx: Bytes, t: nat): World {
    if reply.Failed? && !w.orch.Sending? then w.(orch := Idle)
    else match w.orch
    case Fetching(o) => DoFetch(w, o)
    case Looking(o, snap) =>
      if o in w.local then w.(orch := Building(o, w.local[o].slot)) else w.(orch := Selecting(o, snap))
    case Selecting(o, snap) => w.(orch := Entering(o, snap, slot, at, snap.version, false))
    case Entering(o, snap, s, a, v, retried) => DoEnter(w, reply, o, snap, s, a, v, retried)
    case Refetching(o, snap, s, a) =>
      if o < |w.ledger.orders| then w.(orch := Entering(o, snap, s, a, w.ledger.orders[o].version, true))
      else w.(orch := Idle)
    case Recording(o, s, a) => DoRecord(w, reply, o, s, a)
    case Building(o, s) => DoBuild(w, o, s, tx, t)
    case FindingLatest(o) => DoFindLatest(w, o)
    case FetchingFinal(o, id) =>
      if o < |w.ledger.orders| then w.(orch := Polling(o, w.ledger.orders[o], id)) else w.(orch := Idle)
    case Polling(o, snap, id) => DoPoll(w, o, snap, id, at)
    case Settling(o, snap, id, a, v, retried) => DoSettle(w, reply, o, snap, id, a, v, retried)
    case RefetchingFinal(o, snap, id, a) =>
      if o < |w.ledger.orders| then w.(orch := Settling(o, snap, id, a, w.ledger.orders[o].version, true))
      else w.(orch := Idle)
    case MarkingSettled(o, id) => DoMarkSettled(w, reply, o, id)
    case MarkingConfirmed(o, id) => if id < |w.att.rows| then DoMarkConfirmed(w, reply, o, id) else w.(orch := Idle)
    case _ => w
  }

  /** dispatchOne: only screened orders, and no Sweep order. */
  function DoFetch(w: World, o: nat): World {
    if o < |w.ledger.orders| && w.ledger.orders[o].state.Screened? && !w.ledger.orders[o].sweep
    then w.(orch := Looking(o, w.ledger.orders[o]))
    else w.(orch := Idle)
  }

  /** One turn of EnterDispatching's loop: a first version conflict refetches, a halt waits. */
  function DoEnter(w: World, reply: Reply, o: nat, snap: Order, slot: nat, at: nat, version: nat, retried: bool): World
  {
    var (verdict, ledger) :=
      Transition(w.ledger, o, Dispatching, version, Inline(Entry(Conversion(o), ConversionLines(snap), at)));
    var w1 := w.(ledger := ledger);
    if reply.Lost? then w1.(orch := Idle)
    else match verdict
      case Done => w1.(orch := Recording(o, slot, at))
      case VersionConflict => if retried then w1.(orch := Idle) else w1.(orch := Refetching(o, snap, slot, at))
      case Halted => w1
      case Refused => w1.(orch := Idle)
  }

  /** Store.Create: the row is inserted unless the order already has one. */
  function DoRecord(w: World, reply: Reply, o: nat, slot: nat, at: nat): World {
    w.(orch := if reply.Lost? then Idle else Building(o, slot),
       local := if o in w.local then w.local else w.local[o := LocalRow(slot, LDispatching, at)])
  }

  /** The cached transfer, or a fresh one with the next attempt number; then Broadcast begins. */
  function DoBuild(w: World, o: nat, slot: nat, tx: Bytes, t: nat): World {
    if t in w.att.threads then w
    else
      var args :=
        if o in w.pending then w.pending[o].(slot := slot)
        else
          var latest := A.LatestForOrder(w.att.rows, o);
          B.Args(o, slot, if latest.Some? then w.att.rows[latest.value].number + 1 else 1, tx);
      w.(orch := Sending(o, t), pending := w.pending[o := args], att := B.Step(w.att, B.StartBroadcast(t, args)))
  }

  /** One step of Broadcast, and what dispatchOne makes of its outcome. */
  function DoBroadcast(w: World, reply: B.Reply): World {
    if !w.orch.Sending? then w
    else
      var att := B.Step(w.att, B.Advance(w.orch.t, reply));
      var w1 := w.(att := att);
      if w.orch.t !in att.threads || !att.threads[w.orch.t].Done? then w1
      else match att.threads[w.orch.t].outcome
        case Returned(_) => w1.(orch := Idle, pending := w.pending - {w.orch.o})
        case SignatureRejected => w1.(orch := Idle, pending := w.pending - {w.orch.o})
        case _ => w1.(orch := Idle)
  }

  /** confirmOne: the latest attempt must be BROADCAST. */
  function DoFindLatest(w: World, o: nat): World {
    var latest := A.LatestForOrder(w.att.rows, o);
    if latest.Some? && w.att.rows[latest.value].status.Broadcast?
    then w.(orch := FetchingFinal(o, latest.value))
    else w.(orch := Idle)
  }

  /** ConfirmFinality up to the chain's answer that the transaction is final. */
  function DoPoll(w: World, o: nat, snap: Order, id: nat, at: nat): World {
    if id < |w.att.rows| && w.att.rows[id].status.Broadcast?
    then w.(orch := Settling(o, snap, id, at, snap.version, false))
    else if id < |w.att.rows| && w.att.rows[id].status.Confirmed? then w.(orch := Idle, pending := w.pending - {o})
    else w.(orch := Idle)
  }

  /** One turn of settleOrder's loop. */
  function DoSettle(w: World, reply: Reply, o: nat, snap: Order, id: nat, at: nat, version: nat, retried: bool): World {
    if id >= |w.att.rows| then w.(orch := Idle)
    else
      var row := w.att.rows[id];
      var entry := Entry(Settlement(o, row.number), SettlementLines(snap, row.slot), at);
      var (verdict, ledger) := Transition(w.ledger, o, Settled, version, Inline(entry));
      var w1 := w.(ledger := ledger);
      if reply.Lost? then w1.(orch := Idle)
      else match verdict
        case Done => w1.(orch := MarkingSettled(o, id))
        case VersionConflict => if retried then w1.(orch := Idle) else w1.(orch := RefetchingFinal(o, snap, id, at))
        case Halted => w1
        case Refused => w1.(orch := Idle)
  }

  /** markStatus: DISPATCHING to the new status, a repeat is a success, anything else an error. */
  function MarkStatus(local: map<nat, LocalRow>, o: nat, status: LocalStatus): Option<map<nat, LocalRow>> {
    if o !in local then None
    else if local[o].status.LDispatching? then Some(local[o := local[o].(status := status)])
    else if local[o].status == status then Some(local)
    else None
  }

  function DoMarkSettled(w: World, reply: Reply, o: nat, id: nat): World {
    match MarkStatus(w.local, o, LSettled)
    case Some(local) => w.(local := local, orch := if reply.Lost? then Idle else MarkingConfirmed(o, id))
    case None => w.(orch := Idle)
  }

  /** markConfirmed; the cached transfer goes only once it is acknowledged. */
  function DoMarkConfirmed(w: World, reply: Reply, o: nat, id: nat): World
    requires id < |w.att.rows|
  {
    w.(orch := Idle, pending := if reply.Lost? then w.pending else w.pending - {o},
       att := w.att.(rows := A.MarkConfirmed(w.att.rows, id)))
  }

  /** The process dies: its cache and its broadcast thread go with it. */
  function DoOrchCrash(w: World): World {
    w.(orch := Idle, pending := map[],
       att := if w.orch.Sending? then B.Step(w.att, B.Crash(w.orch.t)) else w.att)
  }

  // ------------------------------------------------ reconciliation

  function Goto(w: World, p: nat, r: Recon): World { w.(recon := w.recon[p := r]) }

  function DoRecon(w: World, p: nat, r: Recon, reply: Reply, at: nat): World {
    if reply.Failed? && !r.Ended() then Goto(w, p, Over)
    else match r
    case Examining(o) =>
      var latest := A.LatestForOrder(w.att.rows, o);
      if latest.Some? && w.att.rows[latest.value].status.Failed? then Goto(w, p, FetchingFailed(o))
      else Goto(w, p, Over)
    case FetchingFailed(o) =>
      if o < |w.ledger.orders| && w.ledger.orders[o].state.Dispatching?
      then Goto(w, p, Resolving(o, w.ledger.orders[o].version)) else Goto(w, p, Over)
    case Resolving(o, version) =>
      (match Find(w.ledger.journal, Conversion(o))
       case Some(i) => Goto(w, p, Reversing(o, version, i))
       case None => Goto(w, p, Over))
    case Reversing(o, version, entry) => DoReverse(w, p, reply, o, version, entry, at)
    case Holding(o, version, reversal, retried) => DoHold(w, p, reply, o, version, reversal, retried)
    case RefetchingHeld(o, reversal) =>
      if o < |w.ledger.orders| then Goto(w, p, Holding(o, w.ledger.orders[o].version, reversal, true))
      else Goto(w, p, Over)
    case MarkingHeld(o) =>
      (match MarkStatus(w.local, o, LHeld)
       case Some(local) => Goto(w.(local := local), p, if reply.Lost? then Over else Closed)
       case None => Goto(w, p, Over))
    case Over | Closed => w
  }

  /** PostReversal: a 409 that carries the existing reversal is a success. */
  function DoReverse(w: World, p: nat, reply: Reply, o: nat, version: nat, entry: nat, at: nat): World {
    match Reverse(w.ledger.journal, entry, at)
    case Reversed(j) =>
      var w1 := w.(ledger := w.ledger.(journal := j));
      if reply.Lost? then Goto(w1, p, Over) else Goto(w1, p, Holding(o, version, |w.ledger.journal|, false))
    case AlreadyReversed =>
      (match Find(w.ledger.journal,
        Reversal(if entry < |w.ledger.journal| then w.ledger.journal[entry].key else Conversion(o)))
       case Some(i) => if reply.Lost? then Goto(w, p, Over) else Goto(w, p, Holding(o, version, i, false))
       case None => Goto(w, p, Over))
    case Irreversible => Goto(w, p, Over)
  }

  /** One turn of ReportDispatchFailure's loop: dispatching to held, citing the reversal. */
  function DoHold(w: World, p: nat, reply: Reply, o: nat, version: nat, reversal: nat, retried: bool): World {
    var (verdict, ledger) := Transition(w.ledger, o, Held, version, Existing(reversal));
    var w1 := w.(ledger := ledger);
    if reply.Lost? then Goto(w1, p, Over)
    else match verdict
      case Done => Goto(w1, p, MarkingHeld(o))
      case VersionConflict => if retried then Goto(w1, p, Over) else Goto(w1, p, RefetchingHeld(o, reversal))
      case _ => Goto(w1, p, Over)
  }

  function Run(w: World, acts: seq<Action>): World
    decreases |acts|
  {
    if acts == [] then w else Run(Step(w, acts[0]), acts[1..])
  }
}
