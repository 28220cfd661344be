/** The exactly-once broadcast protocol (dispatcher/internal/dispatch/broadcast.go) as a state
    machine. Any number of threads run Broadcast, HandleMidFlightFreeze, MarkFailed or
    markConfirmed on one table; each SQL statement and each call to S1 or to the chain is one
    atomic step, a transaction holds its row lock until it commits or rolls back, and a thread may
    crash between any two steps. A run is any sequence of actions: it fixes the interleaving, the
    crashes and every answer of S1, the database and the chain. */
module BroadcastProtocol {
  import opened Common
  import opened Attempts

  /** The full transaction ensureBroadcast rebuilds: raw data and the stored signature. */
  datatype SignedTx = SignedTx(raw: Bytes, signature: Bytes)

  /** What became of the transaction around a chain call. */
  datatype Fate = Open | Committed | RolledBack

  /** One call of chain.Broadcast: whether the node took it is not what the caller saw. */
  datatype Call = Call(row: nat, tx: SignedTx, accepted: bool, fate: Fate)

  /** The arguments of Broadcast. */
  datatype Args = Args(order: nat, slot: nat, number: nat, unsignedTx: Bytes)

  datatype Outcome =
    | Returned(row: Row)
    | SignaturePending
    | SignatureRejected
    | Alert
    | Error
    | Crashed

  /** Where a thread stands: the statement it executes next, with the locals it still needs. */
  datatype Pc =
    | Inserting(a: Args)
    | Finding(a: Args)
    | Checking(a: Args, id: nat)
    | Requesting(a: Args, id: nat)
    | Storing(a: Args, id: nat, sig: Bytes)
    | ReadingBack(a: Args, id: nat)
    | Rejecting(id: nat)
    | Locking(a: Args, id: nat)
    | Calling(a: Args, id: nat, sig: Bytes)
    | Writing(a: Args, id: nat, call: nat, txid: nat)
    | Freezing(id: nat)
    | Failing(id: nat, frozen: bool)
    | Examining(slot: nat, outcome: Outcome)
    | Retiring(slot: nat, outcome: Outcome)
    | Confirming(id: nat)
    | Done(outcome: Outcome)
  {
    /** Inside the transaction of ensureBroadcast, on this row. */
    predicate Holds(r: nat) { (Calling? || Writing?) && id == r }
  }

  /** How the next statement or call of a thread turns out. */
  datatype Reply =
    | Ok
    | SqlError
    | S1Signed(sig: Bytes)
    | S1Pending
    | S1Rejected
    | S1Error
    | ChainAccepted(txid: nat)
    | ChainRefused
    | ChainTimeout
    | BadBytes
  {
    /** The statement itself fails, S1 does not answer, or the stored bytes do not decode. */
    predicate Fails() { SqlError? || S1Error? || BadBytes? }
  }

  datatype Action =
    | StartBroadcast(t: nat, a: Args)
    | StartFreeze(t: nat, id: nat)
    | StartMarkFailed(t: nat, id: nat)
    | StartConfirm(t: nat, id: nat)
    | Retire(slot: nat)
    | Advance(t: nat, reply: Reply)
    | Crash(t: nat)

  datatype World = World(
    rows: Table,
    holder: map<nat, nat>,
    threads: map<nat, Pc>,
    calls: seq<Call>,
    retired: set<nat>)           // the slots that are no longer ACTIVE or RETIRING
  {
    function At(t: nat, pc: Pc): World { this.(threads := threads[t := pc]) }
  }

  const INIT := World([], map[], map[], [], {})

  // ---------------------------------------------------------------- the steps

  function Step(w: World, act: Action): World {
    match act
    case StartBroadcast(t, a) => if t in w.threads then w else w.At(t, Inserting(a))
    case StartFreeze(t, id) => if t in w.threads then w else w.At(t, Freezing(id))
    case StartMarkFailed(t, id) => if t in w.threads then w else w.At(t, Failing(id, false))
    case StartConfirm(t, id) => if t in w.threads then w else w.At(t, Confirming(id))
    case Retire(slot) => w.(retired := w.retired + {slot})
    case Advance(t, reply) => if t in w.threads then AdvanceThread(w, t, w.threads[t], reply) else w
    case Crash(t) =>
      if t in w.threads && !w.threads[t].Done? then Abort(w, t, w.threads[t], Crashed) else w
  }

  /** A thread gives up: its transaction, if any, rolls back and its lock is released. */
  function Abort(w: World, t: nat, pc: Pc, outcome: Outcome): World {
    var w1 := w.At(t, Done(outcome));
    match pc
    case Calling(_, id, _) => w1.(holder := w.holder - {id})
    case Writing(_, id, k, _) => w1.(holder := w.holder - {id}, calls := Settled(w.calls, k, RolledBack))
    case _ => w1
  }

  function Settled(calls: seq<Call>, k: nat, fate: Fate): seq<Call> {
    if k < |calls| then calls[k := calls[k].(fate := fate)] else calls
  }

  function AdvanceThread(w: World, t: nat, pc: Pc, reply: Reply): World {
    if pc.Done? then w
    else if reply.Fails() then Abort(w, t, pc, Error)
    else match pc
    case Inserting(a) => DoInsert(w, t, a)
    case Finding(a) => DoFind(w, t, a)
    case Checking(a, id) => if id < |w.rows| then DoCheck(w, t, a, id) else w.At(t, Done(Error))
    case Requesting(a, id) => DoRequest(w, t, a, id, reply)
    case Storing(a, id, sig) => if id < |w.rows| then DoStore(w, t, a, id, sig) else w.At(t, Done(Error))
    case ReadingBack(a, id) => if id < |w.rows| then DoReadBack(w, t, a, id) else w.At(t, Done(Error))
    case Rejecting(id) => DoFail(w, t, id, Done(SignatureRejected))
    case Locking(a, id) => if id < |w.rows| then DoLock(w, t, a, id) else w.At(t, Done(Error))
    case Calling(a, id, sig) => DoCall(w, t, a, id, sig, reply)
    case Writing(_, id, k, txid) => DoWrite(w, t, id, k, txid)
    case Freezing(id) => if id < |w.rows| then DoFreeze(w, t, id) else w.At(t, Done(Error))
    case Failing(id, frozen) =>
      if id < |w.rows| then DoFail(w, t, id, AfterFail(w, id, frozen)) else w.At(t, Done(Error))
    case Examining(slot, outcome) => w.At(t, if slot in w.retired then Done(Error) else Retiring(slot, outcome))
    case Retiring(slot, outcome) => w.At(t, Done(outcome)).(retired := w.retired + {slot})
    case Confirming(id) => DoConfirm(w, t, id)
    case Done(_) => w
  }

  /** AttemptStore.Create, first statement. */
  function DoInsert(w: World, t: nat, a: Args): World {
    match TryInsert(w.rows, a.order, a.number, Sha256(a.unsignedTx))
    case Inserted =>
      w.At(t, Checking(a, |w.rows|)).(rows := w.rows + [NewRow(a.order, a.slot, a.number, Sha256(a.unsignedTx))])
    case HashTaken => w.At(t, Finding(a))
    case NumberTaken => w.At(t, Done(Error))
  }

  /** AttemptStore.Create, second statement; Broadcast returns a terminal row as it stands. */
  function DoFind(w: World, t: nat, a: Args): World {
    match FindHash(w.rows, Sha256(a.unsignedTx))
    case None => w.At(t, Done(Error))
    case Some(id) =>
      if w.rows[id].status.Terminal() then w.At(t, Done(Returned(w.rows[id])))
      else w.At(t, Checking(a, id))
  }

  /** ensureSigned's read: a SIGNED row is never signed again. */
  function DoCheck(w: World, t: nat, a: Args, id: nat): World
    requires id < |w.rows|
  {
    var status := w.rows[id].status;
    if status.Terminal() then w.At(t, Done(Returned(w.rows[id])))
    else if status.Signed? then w.At(t, Locking(a, id))
    else w.At(t, Requesting(a, id))
  }

  function DoRequest(w: World, t: nat, a: Args, id: nat, reply: Reply): World {
    match reply
    case S1Pending => w.At(t, Done(SignaturePending))
    case S1Rejected => w.At(t, Rejecting(id))
    case S1Signed(sig) => w.At(t, Storing(a, id, sig))
    case _ => w.At(t, Done(Error))
  }

  /** markSigned's UPDATE. It waits while another transaction holds the row. */
  function DoStore(w: World, t: nat, a: Args, id: nat, sig: Bytes): World
    requires id < |w.rows|
  {
    if id in w.holder then w
    else if w.rows[id].status.Built? then w.At(t, Locking(a, id)).(rows := MarkSigned(w.rows, id, sig))
    else w.At(t, ReadingBack(a, id))
  }

  function DoReadBack(w: World, t: nat, a: Args, id: nat): World
    requires id < |w.rows|
  {
    if w.rows[id].status.Terminal() then w.At(t, Done(Returned(w.rows[id])))
    else w.At(t, Locking(a, id))
  }

  /** MarkFailed's UPDATE; it too waits for a held row. */
  function DoFail(w: World, t: nat, id: nat, next: Pc): World {
    if id in w.holder then w
    else if id < |w.rows| then w.At(t, next).(rows := MarkFailed(w.rows, id))
    else w.At(t, Done(Error))
  }

  /** A freeze goes on to retire the slot; MarkRetired refuses one that is retired already. */
  function AfterFail(w: World, id: nat, frozen: bool): Pc
    requires id < |w.rows|
  {
    var row := MarkFailed(w.rows, id)[id];
    if frozen then Examining(row.slot, Returned(row)) else Done(Returned(row))
  }

  /** getForUpdate and the checks after it: 65 signature bytes, stored, on a SIGNED row. */
  function DoLock(w: World, t: nat, a: Args, id: nat): World
    requires id < |w.rows|
  {
    var row := w.rows[id];
    if id in w.holder then w
    else if row.status.Terminal() then w.At(t, Done(Returned(row)))
    else if !row.status.Signed? || row.signedTx.None? || |row.signedTx.value| != 65 then w.At(t, Done(Error))
    else w.At(t, Calling(a, id, row.signedTx.value)).(holder := w.holder[id := t])
  }

  /** chain.Broadcast. A timeout is an error to the caller although the node accepted. */
  function DoCall(w: World, t: nat, a: Args, id: nat, sig: Bytes, reply: Reply): World {
    var tx := SignedTx(a.unsignedTx, sig);
    match reply
    case ChainAccepted(txid) =>
      w.At(t, Writing(a, id, |w.calls|, txid)).(calls := w.calls + [Call(id, tx, true, Open)])
    case ChainTimeout =>
      Abort(w, t, Calling(a, id, sig), Error).(calls := w.calls + [Call(id, tx, true, RolledBack)])
    case _ =>
      Abort(w, t, Calling(a, id, sig), Error).(calls := w.calls + [Call(id, tx, false, RolledBack)])
  }

  /** markBroadcast and COMMIT. */
  function DoWrite(w: World, t: nat, id: nat, k: nat, txid: nat): World {
    if id < |w.rows| then
      var rows := MarkBroadcast(w.rows, id, txid);
      World(rows, w.holder - {id}, w.threads[t := Done(Returned(rows[id]))], Settled(w.calls, k, Committed), w.retired)
    else w
  }

  /** HandleMidFlightFreeze's read. */
  function DoFreeze(w: World, t: nat, id: nat): World
    requires id < |w.rows|
  {
    match w.rows[id].status
    case Built | Signed => w.At(t, Failing(id, true))
    case Broadcast => w.At(t, Examining(w.rows[id].slot, Alert))
    case Confirmed | Failed => w.At(t, Done(Returned(w.rows[id])))
  }

  function DoConfirm(w: World, t: nat, id: nat): World {
    if id in w.holder then w
    else if id < |w.rows| then
      var rows := MarkConfirmed(w.rows, id);
      w.At(t, Done(Returned(rows[id]))).(rows := rows)
    else w.At(t, Done(Error))
  }

  function Run(w: World, acts: seq<Action>): World
    decreases |acts|
  {
    if acts == [] then w else Run(Step(w, acts[0]), acts[1..])
  }

  // ---------------------------------------------------------------- the invariant

  /** A call is backed by its row: the row's stored signature over the row's own bytes. */
  ghost predicate Backed(rows: Table, c: Call) {
    && c.row < |rows|
    && rows[c.row].signedTx == Some(c.tx.signature) && |c.tx.signature| == 65
    && rows[c.row].unsignedHash == Sha256(c.tx.raw)
  }

  /** Every call but the last one on a row was rolled back. */
  ghost predicate OnlyLastOpen(calls: seq<Call>) {
    forall i, j :: 0 <= i < j < |calls| && calls[i].row == calls[j].row ==> calls[i].fate.RolledBack?
  }

  /** What a row can store: nothing yet, a signature of whatever length, or, once sent, one of 65
      bytes and the chain's id. */
  predicate RowShape(row: Row) {
    match row.status
    case Built => row.signedTx.None? && row.tronTxId.None?
    case Signed => row.signedTx.Some? && row.tronTxId.None?
    case Failed => row.tronTxId.None?
    case Broadcast | Confirmed => row.signedTx.Some? && |row.signedTx.value| == 65 && row.tronTxId.Some?
  }

  ghost predicate RowOk(w: World, r: nat)
    requires r < |w.rows|
  {
    var row := w.rows[r];
    && RowShape(row)
    && (row.status.Broadcast? || row.status.Confirmed? ==>
          exists k :: 0 <= k < |w.calls| && w.calls[k].row == r && w.calls[k].fate.Committed?)
  }

  ghost predicate CallOk(w: World, c: Call) {
    && Backed(w.rows, c)
    && (c.fate.Committed? ==> c.accepted && (w.rows[c.row].status.Broadcast? || w.rows[c.row].status.Confirmed?))
    && (c.fate.Open? ==> c.accepted && c.row in w.holder && w.rows[c.row].status.Signed?)
  }

  ghost predicate ThreadOk(w: World, t: nat)
    requires t in w.threads
  {
    match w.threads[t]
    case Checking(a, id) => IsRowOf(w, a, id)
    case Requesting(a, id) => IsRowOf(w, a, id)
    case Storing(a, id, _) => IsRowOf(w, a, id)
    case ReadingBack(a, id) => IsRowOf(w, a, id)
    case Locking(a, id) => IsRowOf(w, a, id)
    case Calling(a, id, sig) =>
      && IsRowOf(w, a, id) && id in w.holder && w.holder[id] == t
      && w.rows[id].status.Signed? && w.rows[id].signedTx == Some(sig) && |sig| == 65
      && forall k :: 0 <= k < |w.calls| && w.calls[k].row == id ==> w.calls[k].fate.RolledBack?
    case Writing(a, id, k, _) =>
      && IsRowOf(w, a, id) && id in w.holder && w.holder[id] == t
      && w.rows[id].status.Signed?
      && k < |w.calls| && w.calls[k].row == id && w.calls[k].fate.Open? && w.calls[k].accepted
      && forall i :: 0 <= i < |w.calls| && w.calls[i].row == id && i != k ==> w.calls[i].fate.RolledBack?
    case _ => true
  }

  ghost predicate IsRowOf(w: World, a: Args, id: nat) {
    id < |w.rows| && w.rows[id].unsignedHash == Sha256(a.unsignedTx)
  }

  ghost predicate HolderOk(w: World, r: nat)
    requires r in w.holder
  {
    w.holder[r] in w.threads && w.threads[w.holder[r]].Holds(r)
  }

  ghost predicate Inv(w: World) {
    && Unique(w.rows)
    && (forall r :: 0 <= r < |w.rows| ==> RowOk(w, r))
    && (forall k :: 0 <= k < |w.calls| ==> CallOk(w, w.calls[k]))
    && OnlyLastOpen(w.calls)
    && (forall t :: t in w.threads ==> ThreadOk(w, t))
    && (forall r :: r in w.holder ==> HolderOk(w, r))
  }
}
