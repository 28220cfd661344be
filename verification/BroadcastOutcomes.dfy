/** How a Broadcast or a freeze ends, answer by answer, when nothing disturbs it; and, over every run,
    what alone can make a row FAILED (dispatcher/internal/dispatch/broadcast.go, freeze.go). */
module BroadcastOutcomes {
  import opened Common
  import opened Attempts
  import opened BroadcastProtocol
  import opened BroadcastSafety
  import opened BroadcastProgress

  // ---------------------------------------------------------------- what S1 answers

  function Fresh(a: Args, status: Status): Row {
    Row(a.order, a.slot, a.number, Sha256(a.unsignedTx), None, None, status)
  }

  lemma RequestStep(w: World, t: nat, a: Args, id: nat, s1: Reply)
    requires !s1.S1Signed?
    ensures Step(w.At(t, Requesting(a, id)), Advance(t, s1)) ==
      w.At(t, if s1.S1Rejected? then Rejecting(id) else Done(if s1.S1Pending? then SignaturePending else Error))
  {
    var next := if s1.S1Rejected? then Rejecting(id)
                else Done(if s1.S1Pending? then SignaturePending else Error);
    assert w.threads[t := Requesting(a, id)][t := next] == w.threads[t := next];
  }

  lemma RejectStep(w: World, t: nat, id: nat)
    requires id < |w.rows| && w.rows[id].status.Built? && id !in w.holder
    ensures Step(w.At(t, Rejecting(id)), Advance(t, Ok)) ==
      w.At(t, Done(SignatureRejected)).(rows := w.rows[id := w.rows[id].(status := Failed)])
  {
    assert w.threads[t := Rejecting(id)][t := Done(SignatureRejected)] == w.threads[t := Done(SignatureRejected)];
  }

  /** A BUILT row whose signature only awaits approval, or cannot be had at all, stays as it is; one
      whose signature is rejected is FAILED. */
  lemma UnsignedAnswered(w: World, t: nat, a: Args, id: nat, s1: Reply)
    requires id < |w.rows| && w.rows[id].status.Built? && id !in w.holder && !s1.S1Signed?
    ensures Answered(w.At(t, Checking(a, id)), t, [Ok, s1, Ok]) ==
      if s1.S1Rejected? then
        w.At(t, Done(SignatureRejected)).(rows := w.rows[id := w.rows[id].(status := Failed)])
      else w.At(t, Done(if s1.S1Pending? then SignaturePending else Error))
  {
    CheckStep(w, t, a, id);
    AnsweredOne(w.At(t, Checking(a, id)), t, Ok, [s1, Ok]);
    RequestStep(w, t, a, id, s1);
    AnsweredOne(w.At(t, Requesting(a, id)), t, s1, [Ok]);
    if s1.S1Rejected? {
      RejectStep(w, t, id);
      AnsweredOne(w.At(t, Rejecting(id)), t, Ok, []);
    } else {
      var next := Done(if s1.S1Pending? then SignaturePending else Error);
      AnsweredOne(w.At(t, next), t, Ok, []);
    }
  }

  /** A transfer not seen before, from any reachable state: it leaves exactly one more row, BUILT
      unless S1 rejected it, and no call. */
  lemma FreshUnsigned(w: World, t: nat, a: Args, s1: Reply)
    requires Inv(w) && t !in w.threads && Unused(w.rows, a) && !s1.S1Signed?
    ensures Answered(Step(w, StartBroadcast(t, a)), t, [Ok, Ok, s1, Ok]) ==
      if s1.S1Rejected? then w.At(t, Done(SignatureRejected)).(rows := w.rows + [Fresh(a, Failed)])
      else if s1.S1Pending? then w.At(t, Done(SignaturePending)).(rows := w.rows + [Fresh(a, Built)])
      else w.At(t, Done(Error)).(rows := w.rows + [Fresh(a, Built)])
  {
    if |w.rows| in w.holder { HeldRowExists(w, |w.rows|); }
    InsertStep(w, t, a);
    AnsweredOne(w.At(t, Inserting(a)), t, Ok, [Ok, s1, Ok]);
    UnsignedAnswered(w.(rows := w.rows + [Fresh(a, Built)]), t, a, |w.rows|, s1);
  }

  /** A retry while S1 has still not approved: nothing changes, and it says so. */
  lemma RetriedUnsigned(w: World, t: nat, a: Args, id: nat, s1: Reply)
    requires Inv(w) && t !in w.threads && id < |w.rows| && id !in w.holder && !s1.S1Signed?
    requires w.rows[id].unsignedHash == Sha256(a.unsignedTx) && w.rows[id].status.Built?
    ensures Answered(Step(w, StartBroadcast(t, a)), t, [Ok, Ok, Ok, s1, Ok]) ==
      if s1.S1Rejected? then
        w.At(t, Done(SignatureRejected)).(rows := w.rows[id := w.rows[id].(status := Failed)])
      else w.At(t, Done(if s1.S1Pending? then SignaturePending else Error))
  {
    FindStep(w, t, a, id);
    AnsweredOne(w.At(t, Inserting(a)), t, Ok, [Ok, Ok, s1, Ok]);
    AnsweredOne(w.At(t, Finding(a)), t, Ok, [Ok, s1, Ok]);
    UnsignedAnswered(w, t, a, id, s1);
  }

  // ---------------------------------------------------------------- rows that are past SIGNED

  /** Broadcast of a transfer that is BROADCAST, CONFIRMED or FAILED returns its row as it stands. */
  lemma TerminalIsReturned(w: World, t: nat, a: Args, id: nat)
    requires Inv(w) && t !in w.threads && id < |w.rows|
    requires w.rows[id].unsignedHash == Sha256(a.unsignedTx) && w.rows[id].status.Terminal()
    ensures Answered(Step(w, StartBroadcast(t, a)), t, [Ok, Ok]) == w.At(t, Done(Returned(w.rows[id])))
  {
    var next := Done(Returned(w.rows[id]));
    assert FindHash(w.rows, Sha256(a.unsignedTx)) == Some(id);
    assert w.threads[t := Inserting(a)][t := Finding(a)] == w.threads[t := Finding(a)];
    AnsweredOne(w.At(t, Inserting(a)), t, Ok, [Ok]);
    assert w.threads[t := Finding(a)][t := next] == w.threads[t := next];
    AnsweredOne(w.At(t, Finding(a)), t, Ok, []);
  }

  /** Wherever else a Broadcast comes to read its row past SIGNED, in whatever run, it returns it. */
  lemma OvertakenIsReturned(w: World, t: nat, a: Args, id: nat, reply: Reply)
    requires Inv(w) && t in w.threads && id < |w.rows| && w.rows[id].status.Terminal() && !reply.Fails()
    requires w.threads[t] in {Checking(a, id), ReadingBack(a, id), Locking(a, id)} && id !in w.holder
    ensures Step(w, Advance(t, reply)) == w.At(t, Done(Returned(w.rows[id])))
  {}

  /** An attempt number the order has already used for another transfer is an error that changes
      nothing. */
  lemma NumberTakenIsRefused(w: World, t: nat, a: Args, id: nat)
    requires t !in w.threads && id < |w.rows| && w.rows[id].order == a.order && w.rows[id].number == a.number
    requires forall i :: 0 <= i < |w.rows| ==> w.rows[i].unsignedHash != Sha256(a.unsignedTx)
    ensures Answered(Step(w, StartBroadcast(t, a)), t, [Ok]) == w.At(t, Done(Error))
  {
    assert w.threads[t := Inserting(a)][t := Done(Error)] == w.threads[t := Done(Error)];
    AnsweredOne(w.At(t, Inserting(a)), t, Ok, []);
  }

  // ---------------------------------------------------------------- what the chain answers

  /** A SIGNED row the chain does not acknowledge stays SIGNED, to be sent again; the call is on record
      as rolled back, accepted exactly if it only timed out. */
  lemma UnacknowledgedStaysSigned(w: World, t: nat, a: Args, id: nat, sig: Bytes, chain: Reply)
    requires id < |w.rows| && id !in w.holder && w.rows[id].status.Signed?
      && w.rows[id].signedTx == Some(sig) && |sig| == 65
    requires chain.ChainTimeout? || chain.ChainRefused?
    ensures Answered(w.At(t, Locking(a, id)), t, [Ok, chain]) == w.At(t, Done(Error)).(
      calls := w.calls + [Call(id, SignedTx(a.unsignedTx, sig), chain.ChainTimeout?, RolledBack)])
  {
    var held := w.(holder := w.holder[id := t]);
    LockStep(w, t, a, id, sig);
    AnsweredOne(w.At(t, Locking(a, id)), t, Ok, [chain]);
    assert w.threads[t := Calling(a, id, sig)][t := Done(Error)] == w.threads[t := Done(Error)];
    assert w.holder[id := t] - {id} == w.holder;
    AnsweredOne(held.At(t, Calling(a, id, sig)), t, chain, []);
  }

  /** Without 65 bytes of signature nothing is sent. */
  lemma ShortSignatureIsRefused(w: World, t: nat, a: Args, id: nat, sig: Bytes)
    requires id < |w.rows| && id !in w.holder && w.rows[id].status.Signed?
      && w.rows[id].signedTx == Some(sig) && |sig| != 65
    ensures Answered(w.At(t, Locking(a, id)), t, [Ok]) == w.At(t, Done(Error))
  {
    assert w.threads[t := Locking(a, id)][t := Done(Error)] == w.threads[t := Done(Error)];
    AnsweredOne(w.At(t, Locking(a, id)), t, Ok, []);
  }

  // ---------------------------------------------------------------- freezes

  /** The end of a freeze: the slot is retired, or somebody else has retired it. */
  lemma RetireAnswered(w: World, u: nat, slot: nat, outcome: Outcome)
    ensures Answered(w.At(u, Examining(slot, outcome)), u, [Ok, Ok]) ==
      w.At(u, Done(if slot in w.retired then Error else outcome)).(retired := w.retired + {slot})
  {
    var next := if slot in w.retired then Done(Error) else Retiring(slot, outcome);
    var last := if slot in w.retired then Done(Error) else Done(outcome);
    assert w.threads[u := Examining(slot, outcome)][u := next] == w.threads[u := next];
    AnsweredOne(w.At(u, Examining(slot, outcome)), u, Ok, [Ok]);
    assert w.threads[u := next][u := last] == w.threads[u := last];
    AnsweredOne(w.At(u, next), u, Ok, []);
    if slot in w.retired { assert w.retired + {slot} == w.retired; }
  }

  /** A freeze of an attempt that was not sent yet fails it and retires its slot, unless somebody else
      has retired that: then the attempt is FAILED all the same, and the caller hears an error. */
  lemma FreezeAbandons(w: World, u: nat, id: nat)
    requires u !in w.threads && id < |w.rows| && id !in w.holder
    requires w.rows[id].status.Built? || w.rows[id].status.Signed?
    ensures
      var row := w.rows[id].(status := Failed);
      Answered(Step(w, StartFreeze(u, id)), u, [Ok, Ok, Ok, Ok]) ==
        w.At(u, Done(if row.slot in w.retired then Error else Returned(row))).(
          rows := w.rows[id := row], retired := w.retired + {row.slot})
  {
    var row := w.rows[id].(status := Failed);
    FreezeReads(w, u, id);
    AnsweredOne(w.At(u, Freezing(id)), u, Ok, [Ok, Ok, Ok]);
    FreezeFails(w, u, id, row);
    AnsweredOne(w.At(u, Failing(id, true)), u, Ok, [Ok, Ok]);
    RetireAnswered(w.(rows := w.rows[id := row]), u, row.slot, Returned(row));
  }

  lemma FreezeReads(w: World, u: nat, id: nat)
    requires id < |w.rows| && (w.rows[id].status.Built? || w.rows[id].status.Signed?)
    ensures Step(w.At(u, Freezing(id)), Advance(u, Ok)) == w.At(u, Failing(id, true))
  {
    assert w.threads[u := Freezing(id)][u := Failing(id, true)] == w.threads[u := Failing(id, true)];
  }

  lemma FreezeFails(w: World, u: nat, id: nat, row: Row)
    requires id < |w.rows| && id !in w.holder && row == w.rows[id].(status := Failed)
    requires w.rows[id].status.Built? || w.rows[id].status.Signed?
    ensures Step(w.At(u, Failing(id, true)), Advance(u, Ok)) ==
      w.(rows := w.rows[id := row]).At(u, Examining(row.slot, Returned(row)))
  {
    var next := Examining(row.slot, Returned(row));
    assert w.threads[u := Failing(id, true)][u := next] == w.threads[u := next];
  }

  /** A freeze of an attempt that is over does nothing and retires nothing. */
  lemma FreezeOfSettled(w: World, u: nat, id: nat)
    requires u !in w.threads && id < |w.rows| && (w.rows[id].status.Confirmed? || w.rows[id].status.Failed?)
    ensures Answered(Step(w, StartFreeze(u, id)), u, [Ok]) == w.At(u, Done(Returned(w.rows[id])))
  {
    var next := Done(Returned(w.rows[id]));
    assert w.threads[u := Freezing(id)][u := next] == w.threads[u := next];
    AnsweredOne(w.At(u, Freezing(id)), u, Ok, []);
  }

  // ---------------------------------------------------------------- what fails a row

  /** S1 rejects the signature of this row, or a freeze or a MarkFailed of it begins. */
  ghost predicate Cause(w: World, act: Action, id: nat) {
    match act
    case Advance(t, reply) => t in w.threads && w.threads[t].Requesting? && w.threads[t].id == id && reply.S1Rejected?
    case StartFreeze(_, r) => r == id
    case StartMarkFailed(_, r) => r == id
    case _ => false
  }

  ghost predicate Caused(w: World, acts: seq<Action>, id: nat)
    decreases |acts|
  {
    acts != [] && (Cause(w, acts[0], id) || Caused(Step(w, acts[0]), acts[1..], id))
  }

  predicate AboutToFail(pc: Pc, id: nat) { (pc.Rejecting? || pc.Freezing? || pc.Failing?) && pc.id == id }

  /** FAILED, or with a thread on its way to fail it. */
  ghost predicate Doomed(w: World, id: nat) {
    || (id < |w.rows| && w.rows[id].status.Failed?)
    || exists t :: t in w.threads && AboutToFail(w.threads[t], id)
  }

  /** Neither the row nor this thread takes a turn for the worse. */
  ghost predicate Spares(w: World, w': World, t: nat, id: nat) {
    && (id < |w'.rows| ==> !w'.rows[id].status.Failed?)
    && t in w'.threads && !AboutToFail(w'.threads[t], id) && w'.threads == w.threads[t := w'.threads[t]]
  }

  lemma SigningSpares(w: World, t: nat, reply: Reply, id: nat)
    requires t in w.threads && !Doomed(w, id) && !Cause(w, Advance(t, reply), id) && !reply.Fails()
    requires var pc := w.threads[t]; pc.Inserting? || pc.Finding? || pc.Checking? || pc.Requesting? || pc.Storing?
    ensures Spares(w, AdvanceThread(w, t, w.threads[t], reply), t, id)
  {}

  lemma SendingSpares(w: World, t: nat, reply: Reply, id: nat)
    requires t in w.threads && !Doomed(w, id) && !reply.Fails()
    requires var pc := w.threads[t]; pc.ReadingBack? || pc.Locking? || pc.Calling? || pc.Writing? || pc.Confirming?
    ensures Spares(w, AdvanceThread(w, t, w.threads[t], reply), t, id)
  {}

  /** A thread at work on another row. */
  lemma FailingSpares(w: World, t: nat, reply: Reply, id: nat)
    requires t in w.threads && !Doomed(w, id) && !reply.Fails()
    requires
      var pc := w.threads[t];
      pc.Rejecting? || pc.Freezing? || pc.Failing? || pc.Examining? || pc.Retiring? || pc.Done?
    ensures Spares(w, AdvanceThread(w, t, w.threads[t], reply), t, id)
  {
    assert !AboutToFail(w.threads[t], id);
  }

  lemma AdvanceSpares(w: World, t: nat, reply: Reply, id: nat)
    requires t in w.threads && !Doomed(w, id) && !Cause(w, Advance(t, reply), id)
    ensures Spares(w, Step(w, Advance(t, reply)), t, id)
  {
    var pc := w.threads[t];
    assert !AboutToFail(pc, id);
    if pc.Done? || reply.Fails() {
    } else if pc.Inserting? || pc.Finding? || pc.Checking? || pc.Requesting? || pc.Storing? {
      SigningSpares(w, t, reply, id);
    } else if pc.ReadingBack? || pc.Locking? || pc.Calling? || pc.Writing? || pc.Confirming? {
      SendingSpares(w, t, reply, id);
    } else {
      FailingSpares(w, t, reply, id);
    }
  }

  lemma StepSpares(w: World, act: Action, id: nat)
    requires !Doomed(w, id) && !Cause(w, act, id)
    ensures !Doomed(Step(w, act), id)
  {
    if act.Advance? && act.t in w.threads { AdvanceSpares(w, act.t, act.reply, id); }
  }

  lemma {:induction false} RunDooms(w: World, acts: seq<Action>, id: nat)
    requires Doomed(Run(w, acts), id) && !Doomed(w, id)
    ensures Caused(w, acts, id)
    decreases |acts|
  {
    if acts != [] {
      var w1 := Step(w, acts[0]);
      if !Cause(w, acts[0], id) {
        StepSpares(w, acts[0], id);
        RunDooms(w1, acts[1..], id);
      }
    }
  }

  /** In every run: a row is FAILED only if S1 rejected its signature, or a freeze or a MarkFailed of
      this very row was begun. An answer that only keeps a caller waiting, an error, a crash or a
      timeout never fails a row. */
  lemma FailedOnlyBy(acts: seq<Action>, id: nat)
    requires id < |Run(INIT, acts).rows| && Run(INIT, acts).rows[id].status.Failed?
    ensures Caused(INIT, acts, id)
  {
    RunDooms(INIT, acts, id);
  }
}
