/** The `dispatch_attempts` table (dispatcher/internal/dispatch/attempts.go): its rows, and one
    function per SQL statement. A row's id is its index, as a bigserial never reused. */
module Attempts {
  import opened Common

  datatype Status = Built | Signed | Broadcast | Confirmed | Failed {
    /** The statuses past which Broadcast never acts. */
    predicate Terminal() { Broadcast? || Confirmed? || Failed? }

    /** The lifecycle's edges, transitively closed and reflexive. */
    predicate Reaches(to: Status) {
      || this == to
      || Built?
      || (Signed? && to.Terminal())
      || (Broadcast? && to.Confirmed?)
    }
  }

  datatype Row = Row(
    order: nat,
    slot: nat,
    number: nat,
    unsignedHash: Digest,
    signedTx: Option<Bytes>,
    tronTxId: Option<nat>,
    status: Status)

  type Table = seq<Row>

  /** The two unique indexes: on unsigned_tx_hash and on (order_id, attempt_number). */
  ghost predicate Unique(t: Table) {
    forall i, j :: 0 <= i < j < |t| ==>
      && t[i].unsignedHash != t[j].unsignedHash
      && !(t[i].order == t[j].order && t[i].number == t[j].number)
  }

  datatype Insertion = Inserted | HashTaken | NumberTaken

  /** INSERT ... ON CONFLICT (unsigned_tx_hash) DO NOTHING. Only the hash index is named by the
      clause, so a clash on (order_id, attempt_number) alone is an error, not a no-op. */
  function TryInsert(t: Table, order: nat, number: nat, hash: Digest): (r: Insertion) {
    if exists i :: 0 <= i < |t| && t[i].unsignedHash == hash then HashTaken
    else if exists i :: 0 <= i < |t| && t[i].order == order && t[i].number == number then NumberTaken
    else Inserted
  }

  function NewRow(order: nat, slot: nat, number: nat, hash: Digest): Row {
    Row(order, slot, number, hash, None, None, Built)
  }

  /** SELECT ... WHERE unsigned_tx_hash = h. */
  function FindHash(t: Table, hash: Digest): (r: Option<nat>)
    ensures r.Some? ==> r.value < |t| && t[r.value].unsignedHash == hash
    ensures r.None? ==> forall i :: 0 <= i < |t| ==> t[i].unsignedHash != hash
  {
    if t == [] then None
    else if t[|t| - 1].unsignedHash == hash then Some(|t| - 1)
    else FindHash(t[..|t| - 1], hash)
  }

  /** UPDATE ... SET status = SIGNED, signed_tx = sig WHERE id = id AND status = BUILT. */
  function MarkSigned(t: Table, id: nat, sig: Bytes): Table
    requires id < |t|
  {
    if t[id].status.Built? then t[id := t[id].(status := Signed, signedTx := Some(sig))] else t
  }

  /** UPDATE ... SET status = FAILED WHERE id = id AND status IN (BUILT, SIGNED). */
  function MarkFailed(t: Table, id: nat): Table
    requires id < |t|
  {
    if t[id].status.Built? || t[id].status.Signed? then t[id := t[id].(status := Failed)] else t
  }

  /** UPDATE ... SET status = BROADCAST, tron_txid = txid WHERE id = id: no status guard. */
  function MarkBroadcast(t: Table, id: nat, txid: nat): Table
    requires id < |t|
  {
    t[id := t[id].(status := Broadcast, tronTxId := Some(txid))]
  }

  /** UPDATE ... SET status = CONFIRMED WHERE id = id AND status = BROADCAST. */
  function MarkConfirmed(t: Table, id: nat): Table
    requires id < |t|
  {
    if t[id].status.Broadcast? then t[id := t[id].(status := Confirmed)] else t
  }

  /** SELECT ... WHERE order_id = o ORDER BY attempt_number DESC LIMIT 1. */
  function LatestForOrder(t: Table, order: nat): (r: Option<nat>)
    ensures r.Some? ==> r.value < |t| && t[r.value].order == order
    ensures r.Some? ==> forall i :: 0 <= i < |t| && t[i].order == order ==> t[i].number <= t[r.value].number
    ensures r.None? ==> forall i :: 0 <= i < |t| ==> t[i].order != order
  {
    if t == [] then None
    else
      var last := |t| - 1;
      var rest := LatestForOrder(t[..last], order);
      if t[last].order == order && (rest.None? || t[rest.value].number < t[last].number) then Some(last)
      else rest
  }
}
