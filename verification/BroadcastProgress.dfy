/** What a Broadcast left alone achieves: the happy paths, from any reachable state. */
module BroadcastProgress {
  import opened Common
  import opened Attempts
  import opened BroadcastProtocol
  import opened BroadcastSafety

  /** No row carries this transfer or this attempt number of its order. */
  predicate Unused(rows: Table, a: Args) {
    TryInsert(rows, a.order, a.number, Sha256(a.unsignedTx)).Inserted?
  }

  lemma HeldRowExists(w: World, id: nat)
    requires Inv(w) && id in w.holder
    ensures id < |w.rows|
  {
    assert HolderOk(w, id);
    assert ThreadOk(w, w.holder[id]);
  }

  // ---------------------------------------------------------------- one step each

  lemma InsertStep(w: World, t: nat, a: Args)
    requires Unused(w.rows, a)
    ensures Step(w.At(t, Inserting(a)), Advance(t, Ok)) ==
      w.At(t, Checking(a, |w.rows|)).(rows := w.rows + [NewRow(a.order, a.slot, a.number, Sha256(a.unsignedTx))])
  {
    assert w.threads[t := Inserting(a)][t := Checking(a, |w.rows|)] == w.threads[t := Checking(a, |w.rows|)];
  }

  lemma FindStep(w: World, t: nat, a: Args, id: nat)
    requires Unique(w.rows) && id < |w.rows|
      && w.rows[id].unsignedHash == Sha256(a.unsignedTx) && !w.rows[id].status.Terminal()
    ensures Step(w.At(t, Inserting(a)), Advance(t, Ok)) == w.At(t, Finding(a))
    ensures Step(w.At(t, Finding(a)), Advance(t, Ok)) == w.At(t, Checking(a, id))
  {
    var found := FindHash(w.rows, Sha256(a.unsignedTx));
    assert found == Some(id);
    assert w.threads[t := Inserting(a)][t := Finding(a)] == w.threads[t := Finding(a)];
    assert w.threads[t := Finding(a)][t := Checking(a, id)] == w.threads[t := Checking(a, id)];
  }

  lemma CheckStep(w: World, t: nat, a: Args, id: nat)
    requires id < |w.rows| && !w.rows[id].status.Terminal()
    ensures Step(w.At(t, Checking(a, id)), Advance(t, Ok)) ==
      w.At(t, if w.rows[id].status.Signed? then Locking(a, id) else Requesting(a, id))
  {
    var pc := if w.rows[id].status.Signed? then Locking(a, id) else Requesting(a, id);
    assert w.threads[t := Checking(a, id)][t := pc] == w.threads[t := pc];
  }

  lemma SignStep(w: World, t: nat, a: Args, id: nat, sig: Bytes)
    ensures Step(w.At(t, Requesting(a, id)), Advance(t, S1Signed(sig))) == w.At(t, Storing(a, id, sig))
  {
    assert w.threads[t := Requesting(a, id)][t := Storing(a, id, sig)] == w.threads[t := Storing(a, id, sig)];
  }

  lemma StoreStep(w: World, t: nat, a: Args, id: nat, sig: Bytes)
    requires id < |w.rows| && w.rows[id].status.Built? && id !in w.holder
    ensures Step(w.At(t, Storing(a, id, sig)), Advance(t, Ok)) ==
      w.At(t, Locking(a, id)).(rows := MarkSigned(w.rows, id, sig))
  {
    assert w.threads[t := Storing(a, id, sig)][t := Locking(a, id)] == w.threads[t := Locking(a, id)];
  }

  lemma LockStep(w: World, t: nat, a: Args, id: nat, sig: Bytes)
    requires id < |w.rows| && id !in w.holder && w.rows[id].status.Signed?
      && w.rows[id].signedTx == Some(sig) && |sig| == 65
    ensures Step(w.At(t, Locking(a, id)), Advance(t, Ok)) == w.At(t, Calling(a, id, sig)).(holder := w.holder[id := t])
  {
    assert w.threads[t := Locking(a, id)][t := Calling(a, id, sig)] == w.threads[t := Calling(a, id, sig)];
  }

  lemma CallStep(w: World, t: nat, a: Args, id: nat, sig: Bytes, txid: nat)
    ensures Step(w.At(t, Calling(a, id, sig)), Advance(t, ChainAccepted(txid))) ==
      w.At(t, Writing(a, id, |w.calls|, txid)).(calls := w.calls + [Call(id, SignedTx(a.unsignedTx, sig), true, Open)])
  {
    assert w.threads[t := Calling(a, id, sig)][t := Writing(a, id, |w.calls|, txid)] ==
      w.threads[t := Writing(a, id, |w.calls|, txid)];
  }

  lemma WriteStep(w: World, t: nat, a: Args, id: nat, call: Call, txid: nat)
    requires id < |w.rows| && id !in w.holder
    ensures
      var row := w.rows[id].(status := Broadcast, tronTxId := Some(txid));
      Step(w.At(t, Writing(a, id, |w.calls|, txid)).(holder := w.holder[id := t], calls := w.calls + [call]),
        Advance(t, Ok))
      == World(w.rows[id := row], w.holder, w.threads[t := Done(Returned(row))],
        w.calls + [call.(fate := Committed)], w.retired)
  {
    var after := Step(w.At(t, Writing(a, id, |w.calls|, txid)).(holder := w.holder[id := t], calls := w.calls + [call]),
      Advance(t, Ok));
    assert after.holder == w.holder;
    assert after.calls == w.calls + [call.(fate := Committed)];
    assert after.threads == w.threads[t := Done(Returned(after.rows[id]))];
  }

  // ---------------------------------------------------------------- runs of one thread

  function Moves(t: nat, replies: seq<Reply>): seq<Action> {
    seq(|replies|, i requires 0 <= i < |replies| => Advance(t, replies[i]))
  }

  /** The run of thread t that these answers make. */
  function Answered(w: World, t: nat, replies: seq<Reply>): (r: World)
    ensures r == Run(w, Moves(t, replies))
    decreases |replies|
  {
    if replies == [] then w
    else
      assert Moves(t, replies)[1..] == Moves(t, replies[1..]);
      Answered(Step(w, Advance(t, replies[0])), t, replies[1..])
  }

  lemma AnsweredOne(w: World, t: nat, reply: Reply, rest: seq<Reply>)
    ensures Answered(w, t, [reply] + rest) == Answered(Step(w, Advance(t, reply)), t, rest)
  {
    assert ([reply] + rest)[1..] == rest;
  }

  /** Signed already: lock, call, commit. */
  lemma SendAnswered(w: World, t: nat, a: Args, id: nat, sig: Bytes, txid: nat)
    requires id < |w.rows| && id !in w.holder && w.rows[id].status.Signed?
      && w.rows[id].signedTx == Some(sig) && |sig| == 65
    ensures
      var row := w.rows[id].(status := Broadcast, tronTxId := Some(txid));
      Answered(w.At(t, Locking(a, id)), t, [Ok, ChainAccepted(txid), Ok]) == World(
        w.rows[id := row], w.holder, w.threads[t := Done(Returned(row))],
        w.calls + [Call(id, SignedTx(a.unsignedTx, sig), true, Committed)], w.retired)
  {
    var call := Call(id, SignedTx(a.unsignedTx, sig), true, Open);
    var held := w.(holder := w.holder[id := t]);
    LockStep(w, t, a, id, sig);
    AnsweredOne(w.At(t, Locking(a, id)), t, Ok, [ChainAccepted(txid), Ok]);
    CallStep(held, t, a, id, sig, txid);
    AnsweredOne(held.At(t, Calling(a, id, sig)), t, ChainAccepted(txid), [Ok]);
    WriteStep(w, t, a, id, call, txid);
    AnsweredOne(w.At(t, Writing(a, id, |w.calls|, txid)).(holder := w.holder[id := t], calls := w.calls + [call]), t,
      Ok, []);
  }

  /** A BUILT row: S1 signs, then it is sent. */
  lemma SignAnswered(w: World, t: nat, a: Args, id: nat, sig: Bytes, txid: nat)
    requires id < |w.rows| && id !in w.holder && w.rows[id].status.Built? && |sig| == 65
    ensures
      var row := w.rows[id].(status := Broadcast, signedTx := Some(sig), tronTxId := Some(txid));
      Answered(w.At(t, Checking(a, id)), t, [Ok, S1Signed(sig), Ok, Ok, ChainAccepted(txid), Ok]) == World(
        w.rows[id := row], w.holder, w.threads[t := Done(Returned(row))],
        w.calls + [Call(id, SignedTx(a.unsignedTx, sig), true, Committed)], w.retired)
  {
    CheckStep(w, t, a, id);
    AnsweredOne(w.At(t, Checking(a, id)), t, Ok, [S1Signed(sig), Ok, Ok, ChainAccepted(txid), Ok]);
    SignStep(w, t, a, id, sig);
    AnsweredOne(w.At(t, Requesting(a, id)), t, S1Signed(sig), [Ok, Ok, ChainAccepted(txid), Ok]);
    StoreStep(w, t, a, id, sig);
    AnsweredOne(w.At(t, Storing(a, id, sig)), t, Ok, [Ok, ChainAccepted(txid), Ok]);
    var signed := w.(rows := MarkSigned(w.rows, id, sig));
    SendAnswered(signed, t, a, id, sig, txid);
  }

  /** From any reachable world, a Broadcast of an unused transfer that S1 signs with 65 bytes and
      the node accepts adds one BROADCAST row and one accepted, committed call, and nothing else. */
  lemma FreshBroadcastSends(w: World, t: nat, a: Args, sig: Bytes, txid: nat)
    requires Inv(w) && t !in w.threads && Unused(w.rows, a) && |sig| == 65
    ensures
      var row := Row(a.order, a.slot, a.number, Sha256(a.unsignedTx), Some(sig), Some(txid), Broadcast);
      Answered(Step(w, StartBroadcast(t, a)), t, [Ok, Ok, S1Signed(sig), Ok, Ok, ChainAccepted(txid), Ok]) == World(
        w.rows + [row], w.holder, w.threads[t := Done(Returned(row))],
        w.calls + [Call(|w.rows|, SignedTx(a.unsignedTx, sig), true, Committed)], w.retired)
  {
    if |w.rows| in w.holder { HeldRowExists(w, |w.rows|); }
    InsertStep(w, t, a);
    AnsweredOne(w.At(t, Inserting(a)), t, Ok, [Ok, S1Signed(sig), Ok, Ok, ChainAccepted(txid), Ok]);
    SignAnswered(w.(rows := w.rows + [NewRow(a.order, a.slot, a.number, Sha256(a.unsignedTx))]), t, a, |w.rows|, sig,
      txid);
  }

  /** A retry of a transfer whose row is already SIGNED never asks S1 again: whoever signed it, the
      stored signature is what reaches the chain. */
  lemma ResumedBroadcastReusesSignature(w: World, t: nat, a: Args, id: nat, sig: Bytes, txid: nat)
    requires Inv(w) && t !in w.threads && id < |w.rows| && id !in w.holder
    requires w.rows[id].unsignedHash == Sha256(a.unsignedTx)
    requires w.rows[id].status.Signed? && w.rows[id].signedTx == Some(sig) && |sig| == 65
    ensures
      var row := w.rows[id].(status := Broadcast, tronTxId := Some(txid));
      Answered(Step(w, StartBroadcast(t, a)), t, [Ok, Ok, Ok, Ok, ChainAccepted(txid), Ok]) == World(
        w.rows[id := row], w.holder, w.threads[t := Done(Returned(row))],
        w.calls + [Call(id, SignedTx(a.unsignedTx, sig), true, Committed)], w.retired)
  {
    FindStep(w, t, a, id);
    AnsweredOne(w.At(t, Inserting(a)), t, Ok, [Ok, Ok, Ok, ChainAccepted(txid), Ok]);
    AnsweredOne(w.At(t, Finding(a)), t, Ok, [Ok, Ok, ChainAccepted(txid), Ok]);
    CheckStep(w, t, a, id);
    AnsweredOne(w.At(t, Checking(a, id)), t, Ok, [Ok, ChainAccepted(txid), Ok]);
    SendAnswered(w, t, a, id, sig, txid);
  }
}
