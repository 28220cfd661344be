/** What every run of the broadcast protocol keeps. */
module BroadcastSafety {
  import opened Common
  import opened Attempts
  import opened BroadcastProtocol

  // ---------------------------------------------------------------- one lemma per kind of step

  /** A step that only moves a thread outside the transaction. */
  lemma MoveKeeps(w: World, t: nat, pc: Pc)
    requires Inv(w)
    requires t in w.threads ==> !w.threads[t].Calling? && !w.threads[t].Writing?
    requires !pc.Calling? && !pc.Writing?
    requires ThreadOk(w.At(t, pc), t)
    ensures Inv(w.At(t, pc))
  {
    var w' := w.At(t, pc);
    forall r | 0 <= r < |w'.rows| ensures RowOk(w', r) { assert RowOk(w, r); }
    forall u | u in w'.threads ensures ThreadOk(w', u) {
      if u != t { assert ThreadOk(w, u); }
    }
    forall r | r in w'.holder ensures HolderOk(w', r) { assert HolderOk(w, r); }
  }

  lemma InsertKeeps(w: World, t: nat, a: Args)
    requires Inv(w) && t in w.threads && w.threads[t] == Inserting(a)
    ensures Inv(DoInsert(w, t, a))
  {
    if TryInsert(w.rows, a.order, a.number, Sha256(a.unsignedTx)).Inserted? {
      var w' := DoInsert(w, t, a);
      forall r | 0 <= r < |w'.rows| ensures RowOk(w', r) {
        if r < |w.rows| { assert RowOk(w, r); }
      }
      forall k | 0 <= k < |w'.calls| ensures CallOk(w', w'.calls[k]) { assert CallOk(w, w.calls[k]); }
      forall u | u in w'.threads ensures ThreadOk(w', u) {
        if u != t { assert ThreadOk(w, u); }
      }
      forall r | r in w'.holder ensures HolderOk(w', r) { assert HolderOk(w, r); }
    } else {
      MoveKeeps(w, t, DoInsert(w, t, a).threads[t]);
    }
  }

  /** An UPDATE of a row nobody holds: BUILT to SIGNED, BUILT or SIGNED to FAILED, BROADCAST to
      CONFIRMED, or no match. */
  lemma UpdateKeeps(w: World, t: nat, id: nat, rows: Table, pc: Pc)
    requires Inv(w) && id < |w.rows| && id !in w.holder
    requires t in w.threads && !w.threads[t].Calling? && !w.threads[t].Writing?
    requires pc.Done? || pc.Examining? || (pc.Locking? && IsRowOf(w, pc.a, pc.id))
    requires
      || rows == MarkFailed(w.rows, id)
      || rows == MarkConfirmed(w.rows, id)
      || exists sig :: rows == MarkSigned(w.rows, id, sig)
    ensures Inv(w.At(t, pc).(rows := rows))
  {
    var w' := w.At(t, pc).(rows := rows);
    assert forall r :: 0 <= r < |rows| && r != id ==> rows[r] == w.rows[r];
    forall k | 0 <= k < |w'.calls| ensures CallOk(w', w'.calls[k]) {
      assert CallOk(w, w.calls[k]);
      assert RowOk(w, w.calls[k].row);
    }
    forall r | 0 <= r < |w'.rows| ensures RowOk(w', r) { assert RowOk(w, r); }
    forall u | u in w'.threads ensures ThreadOk(w', u) {
      if u != t { assert ThreadOk(w, u); }
    }
    forall r | r in w'.holder ensures HolderOk(w', r) { assert HolderOk(w, r); }
  }

  lemma LockKeeps(w: World, t: nat, a: Args, id: nat)
    requires Inv(w) && t in w.threads && w.threads[t] == Locking(a, id) && id < |w.rows|
    ensures Inv(DoLock(w, t, a, id))
  {
    var w' := DoLock(w, t, a, id);
    if id in w.holder {
    } else if w'.threads[t].Done? {
      MoveKeeps(w, t, w'.threads[t]);
    } else {
      assert ThreadOk(w, t);
      forall r | 0 <= r < |w'.rows| ensures RowOk(w', r) { assert RowOk(w, r); }
      forall k | 0 <= k < |w'.calls| ensures CallOk(w', w'.calls[k]) { assert CallOk(w, w.calls[k]); }
      forall u | u in w'.threads ensures ThreadOk(w', u) {
        if u != t { assert ThreadOk(w, u); }
      }
      forall r | r in w'.holder ensures HolderOk(w', r) {
        if r != id { assert HolderOk(w, r); }
      }
    }
  }

  lemma AbortKeeps(w: World, t: nat, outcome: Outcome)
    requires Inv(w) && t in w.threads
    ensures Inv(Abort(w, t, w.threads[t], outcome))
  {
    var pc := w.threads[t];
    var w' := Abort(w, t, pc, outcome);
    assert ThreadOk(w, t);
    if !pc.Calling? && !pc.Writing? {
      MoveKeeps(w, t, Done(outcome));
    } else {
      ReleaseKeeps(w, t, pc.id, w', outcome);
    }
  }

  /** The end of a transaction that changed no row: the lock goes, its open call is rolled back. */
  ghost predicate Released(w: World, t: nat, id: nat, w': World, outcome: Outcome) {
    && w'.rows == w.rows && w'.holder == w.holder - {id} && w'.threads == w.threads[t := Done(outcome)]
    && |w.calls| <= |w'.calls|
    && (forall k :: 0 <= k < |w.calls| ==>
          w'.calls[k] == if w.calls[k].row == id then w.calls[k].(fate := RolledBack) else w.calls[k])
    && (forall k :: |w.calls| <= k < |w'.calls| ==>
          w'.calls[k].row == id && w'.calls[k].fate.RolledBack? && Backed(w.rows, w'.calls[k]))
  }

  lemma ReleaseKeepsRows(w: World, t: nat, id: nat, w': World, outcome: Outcome)
    requires Released(w, t, id, w', outcome)
    requires forall r :: 0 <= r < |w.rows| ==> RowOk(w, r)
    requires id < |w.rows| && w.rows[id].status.Signed?
    ensures forall r :: 0 <= r < |w'.rows| ==> RowOk(w', r)
  {
    forall r | 0 <= r < |w'.rows| ensures RowOk(w', r) {
      assert RowOk(w, r);
      if w.rows[r].status.Broadcast? || w.rows[r].status.Confirmed? {
        var k :| 0 <= k < |w.calls| && w.calls[k].row == r && w.calls[k].fate.Committed?;
        assert w'.calls[k] == w.calls[k];
      }
    }
  }

  lemma ReleaseKeepsCalls(w: World, t: nat, id: nat, w': World, outcome: Outcome)
    requires Released(w, t, id, w', outcome)
    requires forall k :: 0 <= k < |w.calls| ==> CallOk(w, w.calls[k])
    requires OnlyLastOpen(w.calls)
    ensures forall k :: 0 <= k < |w'.calls| ==> CallOk(w', w'.calls[k])
    ensures OnlyLastOpen(w'.calls)
  {
    forall k | 0 <= k < |w'.calls| ensures CallOk(w', w'.calls[k]) {
      if k < |w.calls| { assert CallOk(w, w.calls[k]); }
    }
    forall i, j | 0 <= i < j < |w'.calls| && w'.calls[i].row == w'.calls[j].row
      ensures w'.calls[i].fate.RolledBack?
    {
      if j < |w.calls| { assert w.calls[i].row == w.calls[j].row; }
    }
  }

  lemma ReleaseKeeps(w: World, t: nat, id: nat, w': World, outcome: Outcome)
    requires Inv(w) && t in w.threads && w.threads[t].Holds(id)
    requires Released(w, t, id, w', outcome)
    ensures Inv(w')
  {
    assert ThreadOk(w, t);
    ReleaseKeepsRows(w, t, id, w', outcome);
    ReleaseKeepsCalls(w, t, id, w', outcome);
    forall u | u in w'.threads ensures ThreadOk(w', u) {
      if u != t { assert ThreadOk(w, u); }
    }
    forall r | r in w'.holder ensures HolderOk(w', r) { assert HolderOk(w, r); }
  }

  lemma AcceptKeeps(w: World, t: nat, a: Args, id: nat, sig: Bytes, txid: nat)
    requires Inv(w) && t in w.threads && w.threads[t] == Calling(a, id, sig)
    ensures Inv(DoCall(w, t, a, id, sig, ChainAccepted(txid)))
  {
    var w' := DoCall(w, t, a, id, sig, ChainAccepted(txid));
    assert ThreadOk(w, t);
    forall r | 0 <= r < |w'.rows| ensures RowOk(w', r) {
      assert RowOk(w, r);
      if w.rows[r].status.Broadcast? || w.rows[r].status.Confirmed? {
        var k :| 0 <= k < |w.calls| && w.calls[k].row == r && w.calls[k].fate.Committed?;
        assert w'.calls[k] == w.calls[k];
      }
    }
    forall k | 0 <= k < |w'.calls| ensures CallOk(w', w'.calls[k]) {
      if k < |w.calls| { assert CallOk(w, w.calls[k]); }
    }
    forall u | u in w'.threads ensures ThreadOk(w', u) {
      if u != t { assert ThreadOk(w, u); }
    }
    forall r | r in w'.holder ensures HolderOk(w', r) { assert HolderOk(w, r); }
  }

  lemma CallKeeps(w: World, t: nat, a: Args, id: nat, sig: Bytes, reply: Reply)
    requires Inv(w) && t in w.threads && w.threads[t] == Calling(a, id, sig)
    ensures Inv(DoCall(w, t, a, id, sig, reply))
  {
    if reply.ChainAccepted? {
      AcceptKeeps(w, t, a, id, sig, reply.txid);
    } else {
      assert ThreadOk(w, t);
      ReleaseKeeps(w, t, id, DoCall(w, t, a, id, sig, reply), Error);
    }
  }

  lemma WriteKeeps(w: World, t: nat, a: Args, id: nat, k: nat, txid: nat)
    requires Inv(w) && t in w.threads && w.threads[t] == Writing(a, id, k, txid)
    ensures Inv(DoWrite(w, t, id, k, txid))
  {
    var w' := DoWrite(w, t, id, k, txid);
    assert ThreadOk(w, t);
    assert w'.calls[k].fate.Committed?;
    forall r | 0 <= r < |w'.rows| ensures RowOk(w', r) {
      assert RowOk(w, r);
      if r != id && (w.rows[r].status.Broadcast? || w.rows[r].status.Confirmed?) {
        var j :| 0 <= j < |w.calls| && w.calls[j].row == r && w.calls[j].fate.Committed?;
        assert w'.calls[j] == w.calls[j];
      }
    }
    forall j | 0 <= j < |w'.calls| ensures CallOk(w', w'.calls[j]) { assert CallOk(w, w.calls[j]); }
    forall u | u in w'.threads ensures ThreadOk(w', u) {
      if u != t { assert ThreadOk(w, u); }
    }
    forall r | r in w'.holder ensures HolderOk(w', r) { assert HolderOk(w, r); }
  }

  /** The statements that only read, and S1's answer. */
  lemma ReadKeeps(w: World, t: nat, reply: Reply)
    requires Inv(w) && t in w.threads && !reply.Fails()
    requires var pc := w.threads[t]; pc.Finding? || pc.Checking? || pc.ReadingBack? || pc.Freezing?
    ensures Inv(AdvanceThread(w, t, w.threads[t], reply))
  {
    assert ThreadOk(w, t);
    var pc := AdvanceThread(w, t, w.threads[t], reply).threads[t];
    assert AdvanceThread(w, t, w.threads[t], reply) == w.At(t, pc);
    MoveKeeps(w, t, pc);
  }

  lemma RequestKeeps(w: World, t: nat, a: Args, id: nat, reply: Reply)
    requires Inv(w) && t in w.threads && w.threads[t] == Requesting(a, id)
    ensures Inv(DoRequest(w, t, a, id, reply))
  {
    assert ThreadOk(w, t);
    match reply
    case S1Pending => MoveKeeps(w, t, Done(SignaturePending));
    case S1Rejected => MoveKeeps(w, t, Rejecting(id));
    case S1Signed(sig) => MoveKeeps(w, t, Storing(a, id, sig));
    case _ => MoveKeeps(w, t, Done(Error));
  }

  lemma StoreKeeps(w: World, t: nat, a: Args, id: nat, sig: Bytes)
    requires Inv(w) && t in w.threads && w.threads[t] == Storing(a, id, sig)
    ensures id < |w.rows| && Inv(DoStore(w, t, a, id, sig))
  {
    assert ThreadOk(w, t);
    if id in w.holder {
    } else if w.rows[id].status.Built? {
      UpdateKeeps(w, t, id, MarkSigned(w.rows, id, sig), Locking(a, id));
    } else {
      MoveKeeps(w, t, ReadingBack(a, id));
    }
  }

  lemma FailKeeps(w: World, t: nat, id: nat, next: Pc)
    requires Inv(w) && t in w.threads && !w.threads[t].Calling?
      && !w.threads[t].Writing? && (next.Done? || next.Examining?)
    ensures Inv(DoFail(w, t, id, next))
  {
    if id in w.holder {
    } else if id < |w.rows| {
      UpdateKeeps(w, t, id, MarkFailed(w.rows, id), next);
    } else {
      MoveKeeps(w, t, Done(Error));
    }
  }

  lemma ConfirmKeeps(w: World, t: nat, id: nat)
    requires Inv(w) && t in w.threads && w.threads[t] == Confirming(id)
    ensures Inv(DoConfirm(w, t, id))
  {
    if id in w.holder {
    } else if id < |w.rows| {
      UpdateKeeps(w, t, id, MarkConfirmed(w.rows, id), DoConfirm(w, t, id).threads[t]);
    } else {
      MoveKeeps(w, t, Done(Error));
    }
  }

  /** markConfirmed's UPDATE run by a process of its own. */
  lemma ConfirmRowKeeps(w: World, id: nat)
    requires Inv(w) && id < |w.rows|
    ensures Inv(w.(rows := MarkConfirmed(w.rows, id)))
  {
    var w' := w.(rows := MarkConfirmed(w.rows, id));
    forall k | 0 <= k < |w'.calls| ensures CallOk(w', w'.calls[k]) { assert CallOk(w, w.calls[k]); }
    forall r | 0 <= r < |w'.rows| ensures RowOk(w', r) { assert RowOk(w, r); }
    forall u | u in w'.threads ensures ThreadOk(w', u) { assert ThreadOk(w, u); }
    forall r | r in w'.holder ensures HolderOk(w', r) { assert HolderOk(w, r); }
  }

  /** The slots are nobody else's business. */
  lemma RetireKeeps(w: World, slot: nat)
    requires Inv(w)
    ensures Inv(w.(retired := w.retired + {slot}))
  {
    var w' := w.(retired := w.retired + {slot});
    forall k | 0 <= k < |w'.calls| ensures CallOk(w', w'.calls[k]) { assert CallOk(w, w.calls[k]); }
    forall r | 0 <= r < |w'.rows| ensures RowOk(w', r) { assert RowOk(w, r); }
    forall u | u in w'.threads ensures ThreadOk(w', u) { assert ThreadOk(w, u); }
    forall r | r in w'.holder ensures HolderOk(w', r) { assert HolderOk(w, r); }
  }

  lemma AdvanceKeeps(w: World, t: nat, reply: Reply)
    requires Inv(w) && t in w.threads
    ensures Inv(AdvanceThread(w, t, w.threads[t], reply))
  {
    var pc := w.threads[t];
    if pc.Done? {
    } else if reply.Fails() {
      AbortKeeps(w, t, Error);
    } else {
      match pc
      case Inserting(a) => InsertKeeps(w, t, a);
      case Storing(a, id, sig) => StoreKeeps(w, t, a, id, sig);
      case Rejecting(id) => FailKeeps(w, t, id, Done(SignatureRejected));
      case Locking(a, id) =>
        assert ThreadOk(w, t);
        LockKeeps(w, t, a, id);
      case Calling(a, id, sig) => CallKeeps(w, t, a, id, sig, reply);
      case Writing(a, id, k, txid) => WriteKeeps(w, t, a, id, k, txid);
      case Failing(id, frozen) =>
        if id < |w.rows| { FailKeeps(w, t, id, AfterFail(w, id, frozen)); }
        else { MoveKeeps(w, t, Done(Error)); }
      case Examining(slot, outcome) =>
        MoveKeeps(w, t, if slot in w.retired then Done(Error) else Retiring(slot, outcome));
      case Retiring(slot, outcome) =>
        MoveKeeps(w, t, Done(outcome));
        RetireKeeps(w.At(t, Done(outcome)), slot);
      case Confirming(id) => ConfirmKeeps(w, t, id);
      case Requesting(a, id) => RequestKeeps(w, t, a, id, reply);
      case _ => ReadKeeps(w, t, reply);
    }
  }

  lemma StepKeeps(w: World, act: Action)
    requires Inv(w)
    ensures Inv(Step(w, act))
  {
    match act
    case StartBroadcast(t, a) => if t !in w.threads { MoveKeeps(w, t, Inserting(a)); }
    case StartFreeze(t, id) => if t !in w.threads { MoveKeeps(w, t, Freezing(id)); }
    case StartMarkFailed(t, id) => if t !in w.threads { MoveKeeps(w, t, Failing(id, false)); }
    case StartConfirm(t, id) => if t !in w.threads { MoveKeeps(w, t, Confirming(id)); }
    case Advance(t, reply) => if t in w.threads { AdvanceKeeps(w, t, reply); }
    case Retire(slot) => RetireKeeps(w, slot);
    case Crash(t) => if t in w.threads { AbortKeeps(w, t, Crashed); }
  }

  lemma {:induction false} RunKeeps(w: World, acts: seq<Action>)
    requires Inv(w)
    ensures Inv(Run(w, acts))
    decreases |acts|
  {
    if acts != [] {
      StepKeeps(w, acts[0]);
      RunKeeps(Step(w, acts[0]), acts[1..]);
    }
  }

  // ---------------------------------------------------------------- how a row may change

  /** Rows are never removed or re-identified, a stored signature never changes, statuses only
      move forward, and a row past SIGNED sees no further chain call. */
  ghost predicate Forward(before: World, after: World) {
    && |before.rows| <= |after.rows|
    && |before.calls| <= |after.calls|
    && (forall k :: 0 <= k < |before.calls| ==>
          after.calls[k] == before.calls[k].(fate := after.calls[k].fate))
    && forall r :: 0 <= r < |before.rows| ==> RowForward(before, after, r)
  }

  ghost predicate RowForward(before: World, after: World, r: nat)
    requires r < |before.rows| <= |after.rows| && |before.calls| <= |after.calls|
  {
    var b, a := before.rows[r], after.rows[r];
    && a.order == b.order && a.slot == b.slot && a.number == b.number && a.unsignedHash == b.unsignedHash
    && (b.signedTx.Some? ==> a.signedTx == b.signedTx)
    && b.status.Reaches(a.status)
    && (b.status.Terminal() ==> SameCalls(before.calls, after.calls, r))
  }

  ghost predicate SameCalls(before: seq<Call>, after: seq<Call>, r: nat)
    requires |before| <= |after|
  {
    && (forall k :: 0 <= k < |before| && before[k].row == r ==> after[k] == before[k])
    && (forall k :: |before| <= k < |after| ==> after[k].row != r)
  }

  lemma QuietForward(w: World, w': World)
    requires w'.rows == w.rows && w'.calls == w.calls
    ensures Forward(w, w')
  {}

  lemma AbortForward(w: World, t: nat, outcome: Outcome)
    requires Inv(w) && t in w.threads
    ensures Forward(w, Abort(w, t, w.threads[t], outcome))
  {
    assert ThreadOk(w, t);
  }

  /** A chain call is only ever made, and its fate only ever decided, on a SIGNED row. */
  lemma CallForward(w: World, t: nat, a: Args, id: nat, sig: Bytes, reply: Reply)
    requires Inv(w) && t in w.threads && w.threads[t] == Calling(a, id, sig)
    ensures Forward(w, DoCall(w, t, a, id, sig, reply))
  {
    assert ThreadOk(w, t);
    var w' := DoCall(w, t, a, id, sig, reply);
    assert w'.rows == w.rows && |w'.calls| == |w.calls| + 1 && w'.calls[|w.calls|].row == id;
    assert w'.calls[..|w.calls|] == w.calls;
  }

  lemma WriteForward(w: World, t: nat, a: Args, id: nat, k: nat, txid: nat)
    requires Inv(w) && t in w.threads && w.threads[t] == Writing(a, id, k, txid)
    ensures Forward(w, DoWrite(w, t, id, k, txid))
  {
    assert ThreadOk(w, t);
  }

  lemma StoreForward(w: World, t: nat, a: Args, id: nat, sig: Bytes)
    requires Inv(w) && id < |w.rows|
    ensures Forward(w, DoStore(w, t, a, id, sig))
  {
    assert RowOk(w, id);
  }

  lemma InsertForward(w: World, t: nat, a: Args)
    ensures Forward(w, DoInsert(w, t, a))
  {}

  lemma FailForward(w: World, t: nat, id: nat, next: Pc)
    ensures Forward(w, DoFail(w, t, id, next))
  {}

  lemma ConfirmForward(w: World, t: nat, id: nat)
    ensures Forward(w, DoConfirm(w, t, id))
  {}

  ghost predicate Reads(pc: Pc) {
    pc.Finding? || pc.Checking? || pc.Requesting? || pc.ReadingBack? || pc.Freezing?
      || pc.Locking? || pc.Examining? || pc.Retiring?
  }

  lemma ReadForward(w: World, t: nat, reply: Reply)
    requires t in w.threads && Reads(w.threads[t]) && !reply.Fails()
    ensures Forward(w, AdvanceThread(w, t, w.threads[t], reply))
  {
    QuietForward(w, AdvanceThread(w, t, w.threads[t], reply));
  }

  lemma AdvanceForward(w: World, t: nat, reply: Reply)
    requires Inv(w) && t in w.threads
    ensures Forward(w, AdvanceThread(w, t, w.threads[t], reply))
  {
    var pc := w.threads[t];
    if pc.Done? {
      QuietForward(w, w);
    } else if reply.Fails() {
      AbortForward(w, t, Error);
    } else if Reads(pc) {
      ReadForward(w, t, reply);
    } else {
      WritesForward(w, t, reply);
    }
  }

  lemma WritesForward(w: World, t: nat, reply: Reply)
    requires Inv(w) && t in w.threads && !Reads(w.threads[t]) && !w.threads[t].Done? && !reply.Fails()
    ensures Forward(w, AdvanceThread(w, t, w.threads[t], reply))
  {
    match w.threads[t]
    case Inserting(a) => InsertForward(w, t, a);
    case Storing(a, id, sig) =>
      assert ThreadOk(w, t);
      StoreForward(w, t, a, id, sig);
    case Rejecting(id) => FailForward(w, t, id, Done(SignatureRejected));
    case Calling(a, id, sig) => CallForward(w, t, a, id, sig, reply);
    case Writing(a, id, k, txid) => WriteForward(w, t, a, id, k, txid);
    case Failing(id, frozen) =>
      if id < |w.rows| { FailForward(w, t, id, AfterFail(w, id, frozen)); }
      else { QuietForward(w, w.At(t, Done(Error))); }
    case Confirming(id) => ConfirmForward(w, t, id);
    case _ =>
  }

  lemma StepForward(w: World, act: Action)
    requires Inv(w)
    ensures Forward(w, Step(w, act))
  {
    match act
    case Advance(t, reply) => if t in w.threads { AdvanceForward(w, t, reply); }
    case Crash(t) => if t in w.threads { AbortForward(w, t, Crashed); }
    case _ =>
  }

  lemma ForwardTransitive(w0: World, w1: World, w2: World)
    requires Forward(w0, w1) && Forward(w1, w2)
    ensures Forward(w0, w2)
  {
    forall r | 0 <= r < |w0.rows| ensures RowForward(w0, w2, r) {
      assert RowForward(w0, w1, r) && RowForward(w1, w2, r);
    }
  }

  /** Over any stretch of any run, rows only move forward. */
  lemma {:induction false} RunForward(w: World, acts: seq<Action>)
    requires Inv(w)
    ensures Forward(w, Run(w, acts))
    decreases |acts|
  {
    if acts == [] {
    } else {
      var w1 := Step(w, acts[0]);
      StepForward(w, acts[0]);
      StepKeeps(w, acts[0]);
      RunForward(w1, acts[1..]);
      ForwardTransitive(w, w1, Run(w1, acts[1..]));
    }
  }

  lemma {:induction false} RunConcat(w: World, before: seq<Action>, after: seq<Action>)
    ensures Run(w, before + after) == Run(Run(w, before), after)
    decreases |before|
  {
    if before == [] {
      assert before + after == after;
    } else {
      assert (before + after)[0] == before[0] && (before + after)[1..] == before[1..] + after;
      RunConcat(Step(w, before[0]), before[1..], after);
    }
  }

  // ---------------------------------------------------------------- one thread among others

  /** A step of thread t, or its start. */
  predicate By(act: Action, t: nat) { !act.Retire? && act.t == t }

  ghost predicate Without(acts: seq<Action>, t: nat) {
    forall i :: 0 <= i < |acts| ==> !By(acts[i], t)
  }

  lemma StepLeaves(w: World, act: Action, t: nat)
    requires !By(act, t) && t in w.threads
    ensures t in Step(w, act).threads && Step(w, act).threads[t] == w.threads[t]
  {
    match act
    case Advance(u, reply) =>
      if u in w.threads {
        match w.threads[u]
        case Inserting(a) =>
        case Finding(a) =>
        case _ =>
      }
    case _ =>
  }

  lemma {:induction false} OthersLeave(w: World, acts: seq<Action>, t: nat)
    requires Without(acts, t) && t in w.threads
    ensures t in Run(w, acts).threads && Run(w, acts).threads[t] == w.threads[t]
    decreases |acts|
  {
    if acts != [] {
      assert Without(acts[1..], t);
      StepLeaves(w, acts[0], t);
      OthersLeave(Step(w, acts[0]), acts[1..], t);
    }
  }

  // ---------------------------------------------------------------- the theorems

  /** In every run, two chain calls carry the same signed transaction exactly when they are made
      for the same attempt row: one transaction per attempt, and no transaction for two. */
  lemma OneTransactionPerAttempt(acts: seq<Action>, i: nat, j: nat)
    requires i < |Run(INIT, acts).calls| && j < |Run(INIT, acts).calls|
    ensures
      var calls := Run(INIT, acts).calls;
      calls[i].tx == calls[j].tx <==> calls[i].row == calls[j].row
  {
    RunKeeps(INIT, acts);
    var w := Run(INIT, acts);
    assert CallOk(w, w.calls[i]) && CallOk(w, w.calls[j]);
  }

  /** How many calls of a row satisfy a condition on (accepted, fate). */
  function Count(calls: seq<Call>, r: nat, p: (bool, Fate) -> bool): nat {
    if calls == [] then 0
    else
      var c := calls[|calls| - 1];
      Count(calls[..|calls| - 1], r, p) + if c.row == r && p(c.accepted, c.fate) then 1 else 0
  }

  const ACCEPTED := (accepted: bool, fate: Fate) => accepted
  const ROLLED_BACK := (accepted: bool, fate: Fate) => fate.RolledBack?

  lemma {:induction false} AcceptedBound(calls: seq<Call>, r: nat)
    requires OnlyLastOpen(calls)
    ensures Count(calls, r, ACCEPTED) <= 1 + Count(calls, r, ROLLED_BACK)
    ensures (forall k :: 0 <= k < |calls| && calls[k].row == r ==> calls[k].fate.RolledBack?) ==>
      Count(calls, r, ACCEPTED) <= Count(calls, r, ROLLED_BACK)
  {
    if calls == [] {
    } else {
      var n := |calls| - 1;
      var rest := calls[..n];
      assert forall k :: 0 <= k < n ==> rest[k] == calls[k];
      AcceptedBound(rest, r);
      if calls[n].row == r {
        assert forall k :: 0 <= k < n && calls[k].row == r ==> calls[k].fate.RolledBack?;
      }
    }
  }

  /** In every run, the chain accepts an attempt at most once more often than a transaction was
      rolled back after its chain call. */
  lemma AtMostOneMoreThanRollbacks(acts: seq<Action>, r: nat)
    ensures
      var calls := Run(INIT, acts).calls;
      Count(calls, r, ACCEPTED) <= 1 + Count(calls, r, ROLLED_BACK)
  {
    RunKeeps(INIT, acts);
    AcceptedBound(Run(INIT, acts).calls, r);
  }

  /** Once an attempt is FAILED, BROADCAST or CONFIRMED in the table, no later step of any run
      calls the chain for it again, and FAILED and CONFIRMED are never left. */
  lemma NoCallAfterTerminal(before: seq<Action>, after: seq<Action>, r: nat)
    requires r < |Run(INIT, before).rows|
    requires Run(INIT, before).rows[r].status.Terminal()
    ensures
      var w, w' := Run(INIT, before), Run(INIT, before + after);
      && |w.calls| <= |w'.calls| && SameCalls(w.calls, w'.calls, r)
      && r < |w'.rows|
      && (w.rows[r].status.Failed? ==> w'.rows[r].status.Failed?)
      && (w.rows[r].status.Confirmed? ==> w'.rows[r].status.Confirmed?)
  {
    RunKeeps(INIT, before);
    RunConcat(INIT, before, after);
    RunForward(Run(INIT, before), after);
    assert RowForward(Run(INIT, before), Run(INIT, before + after), r);
  }

  /** BROADCAST or CONFIRMED says exactly that one call was accepted and committed. */
  lemma BroadcastIffCommitted(acts: seq<Action>, r: nat)
    requires r < |Run(INIT, acts).rows|
    ensures
      var w := Run(INIT, acts);
      (w.rows[r].status.Broadcast? || w.rows[r].status.Confirmed?) <==>
      exists k :: 0 <= k < |w.calls| && w.calls[k].row == r && w.calls[k].fate.Committed?
    ensures
      var w := Run(INIT, acts);
      forall k :: 0 <= k < |w.calls| && w.calls[k].row == r && w.calls[k].fate.Committed? ==>
        && w.calls[k].accepted
        && forall i :: 0 <= i < |w.calls| && i != k && w.calls[i].row == r ==> w.calls[i].fate.RolledBack?
  {
    RunKeeps(INIT, acts);
    var w := Run(INIT, acts);
    assert RowOk(w, r);
    forall k | 0 <= k < |w.calls| && w.calls[k].row == r && w.calls[k].fate.Committed?
      ensures w.calls[k].accepted && (w.rows[r].status.Broadcast? || w.rows[r].status.Confirmed?)
      ensures forall i :: 0 <= i < |w.calls| && i != k && w.calls[i].row == r ==> w.calls[i].fate.RolledBack?
    {
      assert CallOk(w, w.calls[k]);
      forall i | 0 <= i < |w.calls| && i != k && w.calls[i].row == r ensures w.calls[i].fate.RolledBack? {
        if k < i { assert false; }
      }
    }
  }

  ghost predicate OnChain(w: World, r: nat) {
    exists k :: 0 <= k < |w.calls| && w.calls[k].row == r && w.calls[k].accepted
  }

  const WITNESS_SIG: Bytes := seq(65, _ => 0)
  const WITNESS_ARGS := Args(1, 1, 1, [])
  const WITNESS_ROW := Row(1, 1, 1, Sha256([]), Some(WITNESS_SIG), None, Signed)
  const WITNESS_CALL := Call(0, SignedTx([], WITNESS_SIG), true, RolledBack)
  const SIGNING := [StartBroadcast(0, WITNESS_ARGS), Advance(0, Ok), Advance(0, Ok),
                    Advance(0, S1Signed(WITNESS_SIG)), Advance(0, Ok)]
  const SENDING := [Advance(0, Ok), Advance(0, ChainTimeout)]
  const FREEZING := [StartFreeze(1, 0), Advance(1, Ok), Advance(1, Ok), Advance(1, Ok), Advance(1, Ok)]

  lemma WitnessSigning()
    ensures Run(INIT, SIGNING) == World([WITNESS_ROW], map[], map[0 := Locking(WITNESS_ARGS, 0)], [], {})
  {
    var a := WITNESS_ARGS;
    var built := [NewRow(1, 1, 1, Sha256([]))];
    RunUnfold(INIT, SIGNING, [
      World([], map[], map[0 := Inserting(a)], [], {}),
      World(built, map[], map[0 := Checking(a, 0)], [], {}),
      World(built, map[], map[0 := Requesting(a, 0)], [], {}),
      World(built, map[], map[0 := Storing(a, 0, WITNESS_SIG)], [], {}),
      World([WITNESS_ROW], map[], map[0 := Locking(a, 0)], [], {})]);
  }

  lemma WitnessSending()
    ensures
      Run(World([WITNESS_ROW], map[], map[0 := Locking(WITNESS_ARGS, 0)], [], {}), SENDING)
      == World([WITNESS_ROW], map[], map[0 := Done(Error)], [WITNESS_CALL], {})
  {
    RunUnfold(World([WITNESS_ROW], map[], map[0 := Locking(WITNESS_ARGS, 0)], [], {}), SENDING, [
      World([WITNESS_ROW], map[0 := 0], map[0 := Calling(WITNESS_ARGS, 0, WITNESS_SIG)], [], {}),
      World([WITNESS_ROW], map[], map[0 := Done(Error)], [WITNESS_CALL], {})]);
  }

  lemma WitnessFreezing()
    ensures
      var failed := WITNESS_ROW.(status := Failed);
      Run(World([WITNESS_ROW], map[], map[0 := Done(Error)], [WITNESS_CALL], {}), FREEZING)
      == World([failed], map[], map[0 := Done(Error), 1 := Done(Returned(failed))], [WITNESS_CALL], {1})
  {
    var failed := WITNESS_ROW.(status := Failed);
    RunUnfold(World([WITNESS_ROW], map[], map[0 := Done(Error)], [WITNESS_CALL], {}), FREEZING, [
      World([WITNESS_ROW], map[], map[0 := Done(Error), 1 := Freezing(0)], [WITNESS_CALL], {}),
      World([WITNESS_ROW], map[], map[0 := Done(Error), 1 := Failing(0, true)], [WITNESS_CALL], {}),
      World([failed], map[], map[0 := Done(Error), 1 := Examining(1, Returned(failed))], [WITNESS_CALL], {}),
      World([failed], map[], map[0 := Done(Error), 1 := Retiring(1, Returned(failed))], [WITNESS_CALL], {}),
      World([failed], map[], map[0 := Done(Error), 1 := Done(Returned(failed))], [WITNESS_CALL], {1})]);
  }

  /** Such a run exists: the node accepts but the caller times out, then a freeze fails the row. */
  lemma FailedYetOnChain()
    ensures
      var w := Run(INIT, SIGNING + SENDING + FREEZING);
      |w.rows| == 1 && w.rows[0].status.Failed? && OnChain(w, 0)
  {
    WitnessSigning();
    WitnessSending();
    WitnessFreezing();
    RunConcat(INIT, SIGNING, SENDING);
    RunConcat(INIT, SIGNING + SENDING, FREEZING);
    var w := Run(INIT, SIGNING + SENDING + FREEZING);
    assert w.calls[0] == WITNESS_CALL;
  }

  /** A run spelled out state by state. */
  lemma {:induction false} RunUnfold(w: World, acts: seq<Action>, states: seq<World>)
    requires |acts| == |states| > 0
    requires states[0] == Step(w, acts[0])
    requires forall i :: 0 < i < |acts| ==> states[i] == Step(states[i - 1], acts[i])
    ensures Run(w, acts) == states[|states| - 1]
    decreases |acts|
  {
    if |acts| == 1 {
      assert acts[1..] == [];
    } else {
      RunUnfold(states[0], acts[1..], states[1..]);
    }
  }
}
