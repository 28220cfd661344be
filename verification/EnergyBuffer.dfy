/** The energy buffer under concurrency (energybroker/internal/buffer/reserve.go, verify.go,
    queries.go): any number of Reserve transactions, each taking one row per query with SKIP LOCKED,
    beside Reconcile, whose reads and whose UPDATE are separate and whose UPDATE has no status
    guard. Each query is one step; a transaction may end or its process die between any two. */
module EnergyBuffer {
  import opened Common

  datatype Status = Available | Reserved | Spent | Expired

  datatype Row = Row(slot: string, units: nat, expiresAt: nat, status: Status, allocation: Option<nat>)

  /** A call of Reserve, at the transaction's own now(). */
  datatype Request = Request(order: nat, slot: string, want: nat, now: nat)

  /** A buffer_allocations row, with the request it answers (the table keeps only the order). */
  datatype Allocation = Allocation(units: nat, request: Request)

  datatype Result = Granted(allocation: nat, units: nat, rows: set<nat>) | Exhausted | Refused | Reconciled | Dead

  datatype Tx =
    | Claiming(request: Request, claimed: set<nat>, total: nat)
    | Recording(request: Request, claimed: set<nat>, total: nat)
    | Marking(request: Request, claimed: set<nat>, total: nat, id: nat)
    | Committing(request: Request, claimed: set<nat>, total: nat, id: nat)
    | Querying(todo: set<nat>, expire: set<nat>)
    | Expiring(todo: set<nat>, claimed: set<nat>)
    | Done(result: Result)
  {
    /** The rows this transaction has locked. */
    function Locked(): set<nat> { if Querying? || Done? then {} else claimed }

    /** A Reserve transaction that has not ended. */
    predicate Reserving() { Claiming? || Recording? || Marking? || Committing? }
  }

  datatype World = World(
    rows: seq<Row>,
    allocations: map<nat, Allocation>,
    nextId: nat,
    holder: map<nat, nat>,
    txs: map<nat, Tx>)
  {
    function At(t: nat, tx: Tx): World { this.(txs := txs[t := tx]) }
  }

  datatype Action =
    | Insert(row: Row)
    | StartReserve(t: nat, order: nat, slot: string, want: int, now: nat)
    | StartReconcile(t: nat, horizon: nat)
    | Advance(t: nat, choice: nat, actual: Option<nat>)
    | Crash(t: nat)

  const INIT := World([], map[], 0, map[], map[])

  // ---------------------------------------------------------------- the steps

  predicate Matches(row: Row, r: Request) {
    row.status.Available? && row.slot == r.slot && row.expiresAt > r.now
  }

  /** What the claiming query sees: matching rows that nobody holds. */
  predicate Eligible(w: World, tx: Tx, i: nat)
    requires tx.Claiming?
  {
    i < |w.rows| && Matches(w.rows[i], tx.request) && i !in w.holder
  }

  /** ORDER BY expires_at LIMIT 1: one of the earliest. */
  predicate Earliest(w: World, tx: Tx, i: nat)
    requires tx.Claiming?
  {
    Eligible(w, tx, i)
      && forall j: nat :: j < |w.rows| && Eligible(w, tx, j) ==> w.rows[i].expiresAt <= w.rows[j].expiresAt
  }

  function Release(holder: map<nat, nat>, t: nat): map<nat, nat> {
    map r | r in holder && holder[r] != t :: holder[r]
  }

  /** The end of a transaction without effect. */
  function RollBack(w: World, t: nat, result: Result): World {
    w.At(t, Done(result)).(holder := Release(w.holder, t))
  }

  function Step(w: World, act: Action): World {
    match act
    case Insert(row) =>
      if row.status.Available? && row.allocation.None? && row.units > 0 then w.(rows := w.rows + [row]) else w
    case StartReserve(t, order, slot, want, now) =>
      if t in w.txs then w
      else if want <= 0 || slot == "" then w.At(t, Done(Refused))
      else w.At(t, Claiming(Request(order, slot, want, now), {}, 0))
    case StartReconcile(t, horizon) =>
      if t in w.txs then w else w.At(t, Querying(NearingExpiry(w.rows, horizon), {}))
    case Advance(t, choice, actual) => if t in w.txs then AdvanceTx(w, t, w.txs[t], choice, actual) else w
    case Crash(t) => if t in w.txs && !w.txs[t].Done? then RollBack(w, t, Dead) else w
  }

  /** rowsNearingExpiry. */
  function NearingExpiry(rows: seq<Row>, horizon: nat): set<nat> {
    set i: nat | i < |rows| && (rows[i].status.Available? || rows[i].status.Reserved?) && rows[i].expiresAt <= horizon
  }

  function AdvanceTx(w: World, t: nat, tx: Tx, choice: nat, actual: Option<nat>): World {
    match tx
    case Claiming(_, _, _) => DoClaim(w, t, tx, choice)
    case Recording(request, claimed, total) =>
      w.At(t, Marking(request, claimed, total, w.nextId)).(nextId := w.nextId + 1)
    case Marking(request, claimed, total, id) => w.At(t, Committing(request, claimed, total, id))
    case Committing(request, claimed, total, id) => DoCommit(w, t, request, claimed, total, id)
    case Querying(todo, expire) => DoQuery(w, t, todo, expire, choice, actual)
    case Expiring(todo, claimed) => DoExpire(w, t, todo, claimed, choice)
    case Done(_) => w
  }

  /** One turn of Reserve's loop. */
  function DoClaim(w: World, t: nat, tx: Tx, choice: nat): World
    requires tx.Claiming?
  {
    if tx.total >= tx.request.want then w.At(t, Recording(tx.request, tx.claimed, tx.total))
    else if Earliest(w, tx, choice) then
      w.At(t, Claiming(tx.request, tx.claimed + {choice}, tx.total + w.rows[choice].units))
       .(holder := w.holder[choice := t])
    else if exists i: nat :: i < |w.rows| && Eligible(w, tx, i) then w
    else RollBack(w, t, Exhausted)
  }

  /** COMMIT: the allocation and the marked rows become visible together. */
  function DoCommit(w: World, t: nat, request: Request, claimed: set<nat>, total: nat, id: nat): World {
    World(Mark(w.rows, claimed, id), w.allocations[id := Allocation(total, request)], w.nextId,
          Release(w.holder, t), w.txs[t := Done(Granted(id, total, claimed))])
  }

  /** UPDATE ... SET status = RESERVED, allocation_id = id WHERE id = ANY(claimed). */
  function Mark(rows: seq<Row>, claimed: set<nat>, id: nat): (r: seq<Row>)
    ensures |r| == |rows|
    ensures forall i: nat :: i < |rows| ==>
      r[i] == if i in claimed then rows[i].(status := Reserved, allocation := Some(id)) else rows[i]
  {
    seq(|rows|, i requires 0 <= i < |rows| =>
      if i in claimed then rows[i].(status := Reserved, allocation := Some(id)) else rows[i])
  }

  /** One on-chain read: a failed one leaves the row for the next cycle. */
  function DoQuery(w: World, t: nat, todo: set<nat>, expire: set<nat>, choice: nat, actual: Option<nat>): World {
    if todo == {} then w.At(t, Expiring(expire, {}))
    else if choice !in todo then w
    else
      var short := choice < |w.rows| && actual.Some? && actual.value < w.rows[choice].units;
      w.At(t, Querying(todo - {choice}, if short then expire + {choice} else expire))
  }

  /** markExpired, row by row: it waits for a row somebody holds, and commits when it has them all. */
  function DoExpire(w: World, t: nat, todo: set<nat>, claimed: set<nat>, choice: nat): World {
    if todo == {} then
      w.At(t, Done(Reconciled)).(rows := Expire(w.rows, claimed), holder := Release(w.holder, t))
    else if choice !in todo || choice in w.holder then w
    else w.At(t, Expiring(todo - {choice}, claimed + {choice})).(holder := w.holder[choice := t])
  }

  /** UPDATE ... SET status = EXPIRED WHERE id = ANY(ids). */
  function Expire(rows: seq<Row>, ids: set<nat>): (r: seq<Row>)
    ensures |r| == |rows|
    ensures forall i: nat :: i < |rows| ==> r[i] == if i in ids then rows[i].(status := Expired) else rows[i]
  {
    seq(|rows|, i requires 0 <= i < |rows| => if i in ids then rows[i].(status := Expired) else rows[i])
  }

  function Run(w: World, acts: seq<Action>): World
    decreases |acts|
  {
    if acts == [] then w else Run(Step(w, acts[0]), acts[1..])
  }

  // ---------------------------------------------------------------- the invariant

  function UnitsOf(rows: seq<Row>, ids: set<nat>): nat {
    if rows == [] then 0
    else UnitsOf(rows[..|rows| - 1], ids) + if |rows| - 1 in ids then rows[|rows| - 1].units else 0
  }

  function UnitsAllocated(rows: seq<Row>, id: nat): nat {
    if rows == [] then 0
    else
      var last := rows[|rows| - 1];
      UnitsAllocated(rows[..|rows| - 1], id) + if last.allocation == Some(id) then last.units else 0
  }

  ghost predicate RowOk(w: World, i: nat)
    requires i < |w.rows|
  {
    && (w.rows[i].status.Available? ==> w.rows[i].allocation.None?)
    && (w.rows[i].status.Reserved? ==> w.rows[i].allocation.Some?)
    && (w.rows[i].allocation.Some? ==>
          && w.rows[i].allocation.value in w.allocations
          && w.rows[i].slot == w.allocations[w.rows[i].allocation.value].request.slot
          && w.rows[i].expiresAt > w.allocations[w.rows[i].allocation.value].request.now)
    && w.rows[i].units > 0
  }

  ghost predicate AllocationOk(w: World, a: nat)
    requires a in w.allocations
  {
    && a < w.nextId
    && w.allocations[a].units == UnitsAllocated(w.rows, a)
    && w.allocations[a].units >= w.allocations[a].request.want > 0
  }

  ghost predicate TxOk(w: World, t: nat)
    requires t in w.txs
  {
    var tx := w.txs[t];
    && (forall r :: r in tx.Locked() ==> r in w.holder && w.holder[r] == t)
    && (tx.Reserving() ==>
          && tx.request.want > 0 && tx.total == UnitsOf(w.rows, tx.claimed)
          && (forall r :: r in tx.claimed ==> r < |w.rows| && Matches(w.rows[r], tx.request)))
    && (tx.Recording? || tx.Marking? || tx.Committing? ==> tx.total >= tx.request.want)
    && (tx.Marking? || tx.Committing? ==> tx.id < w.nextId && tx.id !in w.allocations)
  }

  ghost predicate HolderOk(w: World, r: nat)
    requires r in w.holder
  {
    w.holder[r] in w.txs && r in w.txs[w.holder[r]].Locked()
  }

  /** No two transactions are about to insert the same allocation. */
  ghost predicate IdsApart(txs: map<nat, Tx>) {
    forall t, u ::
      t in txs && u in txs && t != u
        && (txs[t].Marking? || txs[t].Committing?) && (txs[u].Marking? || txs[u].Committing?) ==>
      txs[t].id != txs[u].id
  }

  ghost predicate Inv(w: World) {
    && (forall i: nat :: i < |w.rows| ==> RowOk(w, i))
    && (forall a :: a in w.allocations ==> AllocationOk(w, a))
    && (forall t :: t in w.txs ==> TxOk(w, t))
    && (forall r :: r in w.holder ==> HolderOk(w, r))
    && IdsApart(w.txs)
  }

  // ---------------------------------------------------------------- sums

  lemma {:induction false} UnitsOfMore(rows: seq<Row>, ids: set<nat>, i: nat)
    requires i !in ids
    ensures UnitsOf(rows, ids + {i}) == UnitsOf(rows, ids) + if i < |rows| then rows[i].units else 0
  {
    if rows != [] { UnitsOfMore(rows[..|rows| - 1], ids, i); }
  }

  /** Sums depend on the rows' units only. */
  lemma {:induction false} UnitsOfSame(rows: seq<Row>, rows': seq<Row>, ids: set<nat>)
    requires |rows| == |rows'| && forall i: nat :: i < |rows| ==> rows'[i].units == rows[i].units
    ensures UnitsOf(rows', ids) == UnitsOf(rows, ids)
  {
    if rows != [] { UnitsOfSame(rows[..|rows| - 1], rows'[..|rows| - 1], ids); }
  }

  lemma {:induction false} UnitsOfNone(rows: seq<Row>)
    ensures UnitsOf(rows, {}) == 0
  {
    if rows != [] { UnitsOfNone(rows[..|rows| - 1]); }
  }

  lemma {:induction false} AllocatedSame(rows: seq<Row>, rows': seq<Row>, a: nat)
    requires |rows| == |rows'|
    requires forall i: nat :: i < |rows| ==>
      rows'[i].units == rows[i].units && (rows'[i].allocation == Some(a) <==> rows[i].allocation == Some(a))
    ensures UnitsAllocated(rows', a) == UnitsAllocated(rows, a)
  {
    if rows != [] { AllocatedSame(rows[..|rows| - 1], rows'[..|rows| - 1], a); }
  }

  lemma {:induction false} AllocatedIsMarked(rows: seq<Row>, ids: set<nat>, a: nat)
    requires forall i: nat :: i < |rows| ==> (rows[i].allocation == Some(a) <==> i in ids)
    ensures UnitsAllocated(rows, a) == UnitsOf(rows, ids)
  {
    if rows != [] { AllocatedIsMarked(rows[..|rows| - 1], ids, a); }
  }
}
