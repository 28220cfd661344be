/** When FAILED means never paid: what a row can tell about the chain. Every table the program can
    reach is rebuilt, row by row, by a run that puts a chosen FAILED row on chain if it can. */
module FailedTrust {
  import opened Common
  import opened Attempts
  import opened BroadcastProtocol
  import opened BroadcastSafety
  import opened BroadcastProgress

  /** The row could have been sent: 65 signature bytes are stored. */
  predicate Sendable(row: Row) { row.signedTx.Some? && |row.signedTx.value| == 65 }

  /** Unique rows of the known shapes. */
  ghost predicate Possible(rows: Table) { Unique(rows) && forall i :: 0 <= i < |rows| ==> RowShape(rows[i]) }

  // ---------------------------------------------------------------- stretches of a run

  lemma InsertRun(w: World, t: nat, a: Args)
    requires t !in w.threads && Unused(w.rows, a)
    ensures Run(w, [StartBroadcast(t, a), Advance(t, Ok)]) ==
      World(w.rows + [NewRow(a.order, a.slot, a.number, Sha256(a.unsignedTx))], w.holder,
        w.threads[t := Checking(a, |w.rows|)], w.calls, w.retired)
  {
    InsertStep(w, t, a);
    RunUnfold(w, [StartBroadcast(t, a), Advance(t, Ok)],
      [w.At(t, Inserting(a)), Step(w.At(t, Inserting(a)), Advance(t, Ok))]);
  }

  lemma SignRun(w: World, t: nat, a: Args, id: nat, sig: Bytes)
    requires t in w.threads && w.threads[t] == Checking(a, id) && id < |w.rows|
      && w.rows[id].status.Built? && id !in w.holder
    ensures Run(w, [Advance(t, Ok), Advance(t, S1Signed(sig)), Advance(t, Ok)]) ==
      World(MarkSigned(w.rows, id, sig), w.holder, w.threads[t := Locking(a, id)], w.calls, w.retired)
  {
    assert w.At(t, Checking(a, id)) == w;
    CheckStep(w, t, a, id);
    SignStep(w, t, a, id, sig);
    StoreStep(w, t, a, id, sig);
    RunUnfold(w, [Advance(t, Ok), Advance(t, S1Signed(sig)), Advance(t, Ok)], [
      w.At(t, Requesting(a, id)), w.At(t, Storing(a, id, sig)),
      w.At(t, Locking(a, id)).(rows := MarkSigned(w.rows, id, sig))]);
  }

  lemma TimeoutStep(w: World, t: nat, a: Args, id: nat, sig: Bytes)
    requires id !in w.holder
    ensures Step(w.At(t, Calling(a, id, sig)).(holder := w.holder[id := t]), Advance(t, ChainTimeout)) ==
      World(w.rows, w.holder, w.threads[t := Done(Error)],
        w.calls + [Call(id, SignedTx(a.unsignedTx, sig), true, RolledBack)], w.retired)
  {
    assert w.threads[t := Calling(a, id, sig)][t := Done(Error)] == w.threads[t := Done(Error)];
    assert w.holder[id := t] - {id} == w.holder;
  }

  lemma TimeoutRun(w: World, t: nat, a: Args, id: nat, sig: Bytes)
    requires t in w.threads && w.threads[t] == Locking(a, id) && id < |w.rows| && id !in w.holder
    requires w.rows[id].status.Signed? && w.rows[id].signedTx == Some(sig) && |sig| == 65
    ensures Run(w, [Advance(t, Ok), Advance(t, ChainTimeout)]) ==
      World(w.rows, w.holder, w.threads[t := Done(Error)],
        w.calls + [Call(id, SignedTx(a.unsignedTx, sig), true, RolledBack)], w.retired)
  {
    assert w.At(t, Locking(a, id)) == w;
    LockStep(w, t, a, id, sig);
    TimeoutStep(w, t, a, id, sig);
    var held := w.At(t, Calling(a, id, sig)).(holder := w.holder[id := t]);
    RunUnfold(w, [Advance(t, Ok), Advance(t, ChainTimeout)], [held, Step(held, Advance(t, ChainTimeout))]);
  }

  lemma SendRun(w: World, t: nat, a: Args, id: nat, sig: Bytes, txid: nat)
    requires t in w.threads && w.threads[t] == Locking(a, id) && id < |w.rows| && id !in w.holder
    requires w.rows[id].status.Signed? && w.rows[id].signedTx == Some(sig) && |sig| == 65
    ensures
      var row := w.rows[id].(status := Broadcast, tronTxId := Some(txid));
      Run(w, Moves(t, [Ok, ChainAccepted(txid), Ok])) ==
        World(w.rows[id := row], w.holder, w.threads[t := Done(Returned(row))],
          w.calls + [Call(id, SignedTx(a.unsignedTx, sig), true, Committed)], w.retired)
  {
    assert w.At(t, Locking(a, id)) == w;
    SendAnswered(w, t, a, id, sig, txid);
  }

  lemma FailStep(w: World, u: nat, id: nat)
    requires id < |w.rows| && id !in w.holder
    ensures Step(w.At(u, Failing(id, false)), Advance(u, Ok)) ==
      World(MarkFailed(w.rows, id), w.holder, w.threads[u := Done(Returned(MarkFailed(w.rows, id)[id]))], w.calls,
        w.retired)
  {
    var pc := Done(Returned(MarkFailed(w.rows, id)[id]));
    assert w.threads[u := Failing(id, false)][u := pc] == w.threads[u := pc];
  }

  lemma FailRun(w: World, u: nat, id: nat)
    requires u !in w.threads && id < |w.rows| && id !in w.holder
    ensures Run(w, [StartMarkFailed(u, id), Advance(u, Ok)]) ==
      World(MarkFailed(w.rows, id), w.holder, w.threads[u := Done(Returned(MarkFailed(w.rows, id)[id]))], w.calls,
        w.retired)
  {
    FailStep(w, u, id);
    RunUnfold(w, [StartMarkFailed(u, id), Advance(u, Ok)],
      [w.At(u, Failing(id, false)), Step(w.At(u, Failing(id, false)), Advance(u, Ok))]);
  }

  lemma ConfirmStep(w: World, u: nat, id: nat)
    requires id < |w.rows| && id !in w.holder
    ensures Step(w.At(u, Confirming(id)), Advance(u, Ok)) ==
      World(MarkConfirmed(w.rows, id), w.holder, w.threads[u := Done(Returned(MarkConfirmed(w.rows, id)[id]))], w.calls,
        w.retired)
  {
    var pc := Done(Returned(MarkConfirmed(w.rows, id)[id]));
    assert w.threads[u := Confirming(id)][u := pc] == w.threads[u := pc];
  }

  lemma ConfirmRun(w: World, u: nat, id: nat)
    requires u !in w.threads && id < |w.rows| && id !in w.holder
    ensures Run(w, [StartConfirm(u, id), Advance(u, Ok)]) ==
      World(MarkConfirmed(w.rows, id), w.holder, w.threads[u := Done(Returned(MarkConfirmed(w.rows, id)[id]))], w.calls,
        w.retired)
  {
    ConfirmStep(w, u, id);
    RunUnfold(w, [StartConfirm(u, id), Advance(u, Ok)],
      [w.At(u, Confirming(id)), Step(w.At(u, Confirming(id)), Advance(u, Ok))]);
  }

  // ---------------------------------------------------------------- one row at a time

  /** A world at rest with this table: no lock is held, and names from 2 * |rows| on are free. */
  ghost predicate Rest(w: World, rows: Table) {
    w.rows == rows && w.holder == map[] && forall t :: t in w.threads ==> t < 2 * |rows|
  }

  function ArgsOf(row: Row): Args { Args(row.order, row.slot, row.number, row.unsignedHash.preimage) }

  /** As inserted, or as signed, by thread 2 * |rows|. */
  lemma Prepared(w: World, row: Row) returns (acts: seq<Action>, w': World)
    requires Rest(w, w.rows) && Unused(w.rows, ArgsOf(row))
    ensures w' == Run(w, acts) && w'.holder == map[]
      && w'.calls == w.calls && w'.threads.Keys == w.threads.Keys + {2 * |w.rows|}
    ensures w'.rows == w.rows + [row.(tronTxId := None, status := if row.signedTx.Some? then Signed else Built)]
    ensures row.signedTx.Some? ==> w'.threads[2 * |w.rows|] == Locking(ArgsOf(row), |w.rows|)
  {
    var n, t, a := |w.rows|, 2 * |w.rows|, ArgsOf(row);
    InsertRun(w, t, a);
    acts := [StartBroadcast(t, a), Advance(t, Ok)];
    w' := World(w.rows + [NewRow(row.order, row.slot, row.number, row.unsignedHash)], w.holder,
      w.threads[t := Checking(a, n)], w.calls, w.retired);
    if row.signedTx.Some? {
      var sig := row.signedTx.value;
      SignRun(w', t, a, n, sig);
      RunConcat(w, acts, [Advance(t, Ok), Advance(t, S1Signed(sig)), Advance(t, Ok)]);
      acts := acts + [Advance(t, Ok), Advance(t, S1Signed(sig)), Advance(t, Ok)];
      w' := World(MarkSigned(w'.rows, n, sig), w'.holder, w'.threads[t := Locking(a, n)], w'.calls, w'.retired);
    }
  }

  /** The row stands as sent; it is confirmed. */
  lemma FinishConfirmed(w: World, row: Row, n: nat)
    requires w.holder == map[] && |w.rows| == n + 1 && row.status.Confirmed?
    requires w.rows[n] == row.(status := Broadcast) && forall t :: t in w.threads ==> t <= 2 * n
    ensures Rest(Run(w, [StartConfirm(2 * n + 1, n), Advance(2 * n + 1, Ok)]), w.rows[n := row])
  {
    ConfirmRun(w, 2 * n + 1, n);
    assert MarkConfirmed(w.rows, n) == w.rows[n := row];
  }

  /** The row stands as signed; it is sent, and confirmed if need be. */
  lemma FinishSent(w: World, row: Row, n: nat) returns (acts: seq<Action>)
    requires w.holder == map[] && |w.rows| == n + 1 && RowShape(row) && (row.status.Broadcast? || row.status.Confirmed?)
    requires w.rows[n] == row.(tronTxId := None, status := Signed)
    requires 2 * n in w.threads && w.threads[2 * n] == Locking(ArgsOf(row), n)
      && forall t :: t in w.threads ==> t <= 2 * n
    ensures Rest(Run(w, acts), w.rows[n := row])
  {
    SendRun(w, 2 * n, ArgsOf(row), n, row.signedTx.value, row.tronTxId.value);
    acts := Moves(2 * n, [Ok, ChainAccepted(row.tronTxId.value), Ok]);
    var w1 := Run(w, acts);
    assert w1.rows == w.rows[n := row.(status := Broadcast)];
    if row.status.Confirmed? {
      FinishConfirmed(w1, row, n);
      assert w1.rows[n := row] == w.rows[n := row];
      RunConcat(w, acts, [StartConfirm(2 * n + 1, n), Advance(2 * n + 1, Ok)]);
      acts := acts + [StartConfirm(2 * n + 1, n), Advance(2 * n + 1, Ok)];
    }
  }

  /** The row stands as inserted or signed; it may be sent without a word, and is failed. */
  lemma FinishFailed(w: World, row: Row, n: nat, sent: bool) returns (acts: seq<Action>)
    requires w.holder == map[] && |w.rows| == n + 1 && RowShape(row) && row.status.Failed? && (sent ==> Sendable(row))
    requires w.rows[n] == row.(status := if row.signedTx.Some? then Signed else Built)
    requires row.signedTx.Some? ==> 2 * n in w.threads && w.threads[2 * n] == Locking(ArgsOf(row), n)
    requires forall t :: t in w.threads ==> t <= 2 * n
    ensures Rest(Run(w, acts), w.rows[n := row]) && (sent ==> OnChain(Run(w, acts), n))
  {
    var w1 := w;
    acts := [];
    if sent {
      TimeoutRun(w, 2 * n, ArgsOf(row), n, row.signedTx.value);
      acts := [Advance(2 * n, Ok), Advance(2 * n, ChainTimeout)];
      w1 := Run(w, acts);
      assert w1.calls[|w.calls|].row == n && w1.calls[|w.calls|].accepted;
    }
    FailRun(w1, 2 * n + 1, n);
    RunConcat(w, acts, [StartMarkFailed(2 * n + 1, n), Advance(2 * n + 1, Ok)]);
    acts := acts + [StartMarkFailed(2 * n + 1, n), Advance(2 * n + 1, Ok)];
  }

  /** One more row, whatever it looks like. */
  lemma OneMoreRow(w: World, row: Row, sent: bool) returns (acts: seq<Action>)
    requires Rest(w, w.rows) && Unused(w.rows, ArgsOf(row))
      && RowShape(row) && (sent ==> row.status.Failed? && Sendable(row))
    ensures Rest(Run(w, acts), w.rows + [row]) && (sent ==> OnChain(Run(w, acts), |w.rows|))
  {
    var n := |w.rows|;
    var w1;
    acts, w1 := Prepared(w, row);
    var more := [];
    if row.status.Broadcast? || row.status.Confirmed? {
      more := FinishSent(w1, row, n);
      assert w1.rows[n := row] == w.rows + [row];
    } else if row.status.Failed? {
      more := FinishFailed(w1, row, n, sent);
      assert w1.rows[n := row] == w.rows + [row];
    }
    RunConcat(w, acts, more);
    acts := acts + more;
  }

  /** A table with these rows can be reached, a FAILED row with 65 signature bytes on chain. */
  lemma {:induction false} Rebuilt(rows: Table, paid: Option<nat>) returns (acts: seq<Action>)
    requires Possible(rows)
    requires paid.Some? ==> paid.value < |rows| && rows[paid.value].status.Failed? && Sendable(rows[paid.value])
    ensures Rest(Run(INIT, acts), rows) && (paid.Some? ==> OnChain(Run(INIT, acts), paid.value))
    decreases |rows|
  {
    acts := [];
    if rows != [] {
      var n := |rows| - 1;
      var row := rows[n];
      acts := Rebuilt(rows[..n], if paid == Some(n) then None else paid);
      var w := Run(INIT, acts);
      assert Unused(w.rows, ArgsOf(row));
      var more := OneMoreRow(w, row, paid == Some(n));
      RunConcat(INIT, acts, more);
      RunKeeps(INIT, acts);
      RunForward(w, more);
      assert rows[..n] + [row] == rows;
      if paid.Some? && paid.value < n { StillOnChain(w, Run(w, more), paid.value); }
      acts := acts + more;
    }
  }

  lemma StillOnChain(w: World, w': World, r: nat)
    requires OnChain(w, r) && Forward(w, w')
    ensures OnChain(w', r)
  {
    var k :| 0 <= k < |w.calls| && w.calls[k].row == r && w.calls[k].accepted;
    assert w'.calls[k].row == r && w'.calls[k].accepted;
  }

  // ---------------------------------------------------------------- the theorems

  lemma ReachedIsPossible(acts: seq<Action>)
    ensures Possible(Run(INIT, acts).rows)
  {
    RunKeeps(INIT, acts);
    var w := Run(INIT, acts);
    forall i | 0 <= i < |w.rows| ensures RowShape(w.rows[i]) { assert RowOk(w, i); }
  }

  /** Exactly the tables with unique rows of the known shapes are reachable. */
  lemma TableReachableIff(rows: Table)
    ensures (exists acts :: Run(INIT, acts).rows == rows) <==> Possible(rows)
  {
    if Possible(rows) {
      var acts := Rebuilt(rows, None);
      assert Run(INIT, acts).rows == rows;
    }
    forall acts | Run(INIT, acts).rows == rows ensures Possible(rows) { ReachedIsPossible(acts); }
  }

  lemma NeverSent(acts: seq<Action>, r: nat)
    requires r < |Run(INIT, acts).rows| && !Sendable(Run(INIT, acts).rows[r])
    ensures !OnChain(Run(INIT, acts), r)
  {
    RunKeeps(INIT, acts);
    var w := Run(INIT, acts);
    forall k | 0 <= k < |w.calls| ensures w.calls[k].row != r { assert CallOk(w, w.calls[k]); }
  }

  /** Whatever run led to this table, the row was never paid in it. */
  ghost predicate NeverPaidBehind(rows: Table, r: nat) {
    forall acts :: Run(INIT, acts).rows == rows ==> !OnChain(Run(INIT, acts), r)
  }

  /** All a caller can see is the table. It tells that a FAILED attempt was never paid if and only if
      no 65-byte signature is stored in its row. */
  lemma FailedTrustedIff(rows: Table, r: nat)
    requires (exists acts :: Run(INIT, acts).rows == rows) && r < |rows| && rows[r].status.Failed?
    ensures NeverPaidBehind(rows, r) <==> !Sendable(rows[r])
  {
    TableReachableIff(rows);
    if Sendable(rows[r]) {
      var acts := Rebuilt(rows, Some(r));
      assert Run(INIT, acts).rows == rows && OnChain(Run(INIT, acts), r);
    } else {
      forall acts | Run(INIT, acts).rows == rows ensures !OnChain(Run(INIT, acts), r) { NeverSent(acts, r); }
    }
  }
}
