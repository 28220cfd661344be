/** A payout the orchestrator has let go of is never taken up again
    (dispatcher/internal/orchestrate/runloop.go): dispatchOne passes over every order that is not
    screened, and entering dispatching comes before the broadcast. The comments there promise that a
    pending signature is resumed on the next tick and that a rejected attempt is followed by a new one;
    the code does neither. */
module Stalled {
  import opened Common
  import A = Attempts
  import B = BroadcastProtocol
  import S = BroadcastSafety
  import opened Ledger
  import opened Lifecycle
  import opened LifecycleInvariant
  import opened LifecycleSafety
  import opened LifecycleRuns
  import R = ReconciliationSafety
  import G = LedgerGrowth
  import H = HeldRelease
  import M = MissedMarkRuns
  import T = LifecycleTheorems

  /** A thread that carries a transfer. */
  predicate Carries(pc: B.Pc) {
    || pc.Inserting? || pc.Finding? || pc.Checking? || pc.Requesting? || pc.Storing? || pc.ReadingBack?
    || pc.Locking? || pc.Calling? || pc.Writing?
  }

  ghost predicate Carried(pc: B.Pc, hash: Digest) { Carries(pc) && Sha256(pc.a.unsignedTx) == hash }

  /** The orchestrator is between this order's conversion and the end of its broadcast. */
  predicate AtWork(pc: Orch, o: nat) { (pc.Recording? || pc.Building? || pc.Sending?) && pc.o == o }

  /** The order is converted, the orchestrator is not at work on it, its attempt was not sent, and
      nobody carries its transfer. */
  ghost predicate LetGo(w: World, o: nat, r: nat) {
    && RowOf(w.att.rows, r, o) && !w.att.rows[r].status.Broadcast? && !w.att.rows[r].status.Confirmed?
    && Has(w.ledger.journal, Conversion(o)) && !AtWork(w.orch, o)
    && Uncarried(w.att, w.att.rows[r].unsignedHash)
    && (forall q :: q in w.pending && q != o ==> Sha256(w.pending[q].unsignedTx) != w.att.rows[r].unsignedHash)
  }

  ghost predicate Uncarried(w: B.World, hash: Digest) { forall t :: t in w.threads ==> !Carried(w.threads[t], hash) }

  /** No other transfer built has the bytes of this one. */
  predicate Distinct(act: Action, hash: Digest) { act.OrchStep? ==> Sha256(act.tx) != hash }

  /** The row is as it was, or FAILED; and no call was made for it. */
  ghost predicate Untried(w: B.World, w': B.World, r: nat) {
    && r < |w.rows| <= |w'.rows| && |w.calls| <= |w'.calls|
    && (w'.rows[r] == w.rows[r] || w'.rows[r] == w.rows[r].(status := A.Failed))
    && (forall k :: 0 <= k < |w'.calls| && w'.calls[k].row == r ==> k < |w.calls| && w.calls[k].row == r)
  }

  /** A step that leaves the payout be. */
  ghost predicate LeavesBe(w: World, w': World, o: nat, r: nat)
    requires r < |w.att.rows|
  {
    && Untried(w.att, w'.att, r) && Uncarried(w'.att, w.att.rows[r].unsignedHash)
    && (forall q :: q in w'.pending && q != o ==> Sha256(w'.pending[q].unsignedTx) != w.att.rows[r].unsignedHash)
  }

  // ---------------------------------------------------------------- the attempts

  lemma SigningUntried(w: B.World, t: nat, reply: B.Reply, r: nat)
    requires t in w.threads && B.ThreadOk(w, t) && r < |w.rows| && !reply.Fails()
    requires !Carried(w.threads[t], w.rows[r].unsignedHash)
    requires var pc := w.threads[t]; pc.Inserting? || pc.Finding? || pc.Checking? || pc.Requesting? || pc.Storing?
    ensures Untried(w, B.AdvanceThread(w, t, w.threads[t], reply), r)
  {}

  lemma SendingUntried(w: B.World, t: nat, reply: B.Reply, r: nat)
    requires t in w.threads && B.ThreadOk(w, t) && r < |w.rows| && !reply.Fails()
    requires !Carried(w.threads[t], w.rows[r].unsignedHash)
    requires var pc := w.threads[t]; pc.ReadingBack? || pc.Locking? || pc.Calling? || pc.Writing?
    ensures Untried(w, B.AdvanceThread(w, t, w.threads[t], reply), r)
  {}

  lemma FailingUntried(w: B.World, t: nat, reply: B.Reply, r: nat)
    requires r < |w.rows| && t in w.threads && !w.threads[t].Confirming? && !Carries(w.threads[t])
    ensures Untried(w, B.AdvanceThread(w, t, w.threads[t], reply), r)
  {}

  /** A step of a thread that does not carry this row's transfer, and does not confirm. */
  lemma AdvanceUntried(w: B.World, t: nat, reply: B.Reply, r: nat)
    requires B.Inv(w) && r < |w.rows| && t in w.threads && !w.threads[t].Confirming?
    requires !Carried(w.threads[t], w.rows[r].unsignedHash)
    ensures Untried(w, B.AdvanceThread(w, t, w.threads[t], reply), r)
  {
    assert B.ThreadOk(w, t);
    var pc := w.threads[t];
    if !Carries(pc) {
      FailingUntried(w, t, reply, r);
    } else if reply.Fails() {
    } else if pc.ReadingBack? || pc.Locking? || pc.Calling? || pc.Writing? {
      SendingUntried(w, t, reply, r);
    } else {
      SigningUntried(w, t, reply, r);
    }
  }

  lemma SigningCarries(w: B.World, t: nat, reply: B.Reply)
    requires t in w.threads && !reply.Fails()
    requires var pc := w.threads[t]; pc.Inserting? || pc.Finding? || pc.Checking? || pc.Requesting? || pc.Storing?
    ensures t in B.AdvanceThread(w, t, w.threads[t], reply).threads
    ensures var pc := B.AdvanceThread(w, t, w.threads[t], reply).threads[t]; Carries(pc) ==> pc.a == w.threads[t].a
  {}

  lemma SendingCarries(w: B.World, t: nat, reply: B.Reply)
    requires t in w.threads && !reply.Fails()
    requires var pc := w.threads[t]; pc.ReadingBack? || pc.Locking? || pc.Calling? || pc.Writing?
    ensures t in B.AdvanceThread(w, t, w.threads[t], reply).threads
    ensures var pc := B.AdvanceThread(w, t, w.threads[t], reply).threads[t]; Carries(pc) ==> pc.a == w.threads[t].a
  {}

  lemma FailingCarries(w: B.World, t: nat, reply: B.Reply)
    requires t in w.threads && !Carries(w.threads[t])
    ensures t in B.AdvanceThread(w, t, w.threads[t], reply).threads
    ensures !Carries(B.AdvanceThread(w, t, w.threads[t], reply).threads[t])
  {}

  /** A thread keeps to its transfer. */
  lemma AdvanceUncarried(w: B.World, t: nat, reply: B.Reply, hash: Digest)
    requires t in w.threads && Uncarried(w, hash)
    ensures Uncarried(B.AdvanceThread(w, t, w.threads[t], reply), hash)
  {
    AdvanceMoves(w, t, reply);
    var pc := w.threads[t];
    assert !Carried(pc, hash);
    if !Carries(pc) {
      FailingCarries(w, t, reply);
    } else if reply.Fails() {
    } else if pc.ReadingBack? || pc.Locking? || pc.Calling? || pc.Writing? {
      SendingCarries(w, t, reply);
    } else {
      SigningCarries(w, t, reply);
    }
  }

  lemma AttemptUntried(w: B.World, act: B.Action, r: nat)
    requires B.Inv(w) && r < |w.rows| && Uncarried(w, w.rows[r].unsignedHash)
    requires forall t :: t in w.threads ==> !w.threads[t].Confirming?
    requires act.StartBroadcast? ==> Sha256(act.a.unsignedTx) != w.rows[r].unsignedHash
    ensures Untried(w, B.Step(w, act), r) && Uncarried(B.Step(w, act), w.rows[r].unsignedHash)
  {
    if act.Advance? && act.t in w.threads {
      AdvanceUntried(w, act.t, act.reply, r);
      AdvanceUncarried(w, act.t, act.reply, w.rows[r].unsignedHash);
    }
  }

  // ---------------------------------------------------------------- the orchestrator

  /** It comes to be at work on an order only from its look at it or its conversion. */
  lemma WorkFrom(w: World, act: Action, o: nat)
    requires AtWork(Step(w, act).orch, o)
    ensures AtWork(w.orch, o) || ((w.orch.Looking? || w.orch.Entering?) && w.orch.o == o)
  {
    match act
    case OrchStep(reply, slot, at, tx, t) => OrchWorkFrom(w, reply, slot, at, tx, t, o);
    case OrchBroadcast(answer) => assert Step(w, act).orch.Idle? || Step(w, act).orch == w.orch;
    case ReconStep(p, reply, at) => if p in w.recon { assert DoRecon(w, p, w.recon[p], reply, at).orch == w.orch; }
    case _ =>
  }

  lemma OrchWorkFrom(w: World, reply: Reply, slot: nat, at: nat, tx: Bytes, t: nat, o: nat)
    ensures AtWork(DoOrch(w, reply, slot, at, tx, t).orch, o) ==>
      AtWork(w.orch, o) || ((w.orch.Looking? || w.orch.Entering?) && w.orch.o == o)
  {
    if reply.Failed? && !w.orch.Sending? {
    } else if w.orch.Settling? {
      SettleIsNoWork(w, reply, o);
    } else if w.orch.Entering? {
      EnterIsOwnWork(w, reply, o);
    } else if w.orch.Building? {
      BuildWorkFrom(w, tx, t, o);
    } else if w.orch.Looking? || w.orch.Recording? || w.orch.Sending? {
      LookWorkFrom(w, reply, slot, at, tx, t, o);
    } else {
      OtherWorkFrom(w, reply, slot, at, tx, t, o);
    }
  }

  lemma SettleIsNoWork(w: World, reply: Reply, o: nat)
    requires w.orch.Settling?
    ensures
      var c := w.orch;
      !AtWork(DoSettle(w, reply, c.o, c.snap, c.id, c.at, c.version, c.retried).orch, o)
  {}

  lemma EnterIsOwnWork(w: World, reply: Reply, o: nat)
    requires w.orch.Entering?
    ensures
      var c := w.orch;
      AtWork(DoEnter(w, reply, c.o, c.snap, c.slot, c.at, c.version, c.retried).orch, o) ==> c.o == o
  {}

  lemma BuildWorkFrom(w: World, tx: Bytes, t: nat, o: nat)
    requires w.orch.Building?
    ensures AtWork(DoBuild(w, w.orch.o, w.orch.slot, tx, t).orch, o) ==> AtWork(w.orch, o)
  {}

  lemma LookWorkFrom(w: World, reply: Reply, slot: nat, at: nat, tx: Bytes, t: nat, o: nat)
    requires w.orch.Looking? || w.orch.Recording? || w.orch.Sending?
    ensures AtWork(DoOrch(w, reply, slot, at, tx, t).orch, o) ==>
      AtWork(w.orch, o) || (w.orch.Looking? && w.orch.o == o)
  {}

  lemma OtherWorkFrom(w: World, reply: Reply, slot: nat, at: nat, tx: Bytes, t: nat, o: nat)
    requires !w.orch.Entering? && !w.orch.Settling? && !w.orch.Building?
    requires !w.orch.Looking? && !w.orch.Recording? && !w.orch.Sending?
    ensures !AtWork(DoOrch(w, reply, slot, at, tx, t).orch, o)
  {}

  /** A converted order is neither looked at nor being converted. */
  lemma StaysIdle(w: World, act: Action, o: nat)
    requires Inv(w) && Has(w.ledger.journal, Conversion(o)) && !AtWork(w.orch, o)
    ensures !AtWork(Step(w, act).orch, o)
  {
    if AtWork(Step(w, act).orch, o) { WorkFrom(w, act, o); }
  }

  /** Attempts untouched, and of the cached transfers at most some forgotten. */
  ghost predicate KeepsAttempts(w: World, w': World) {
    w'.att == w.att && forall q :: q in w'.pending ==> q in w.pending && w'.pending[q] == w.pending[q]
  }

  lemma KeepingLetsGo(w: World, w': World, o: nat, r: nat)
    requires LetGo(w, o, r) && KeepsAttempts(w, w')
    ensures LeavesBe(w, w', o, r)
  {}

  lemma OrchLetsGo(w: World, reply: Reply, slot: nat, at: nat, tx: Bytes, t: nat, o: nat, r: nat)
    requires Inv(w) && LetGo(w, o, r) && Sha256(tx) != w.att.rows[r].unsignedHash
    ensures LeavesBe(w, DoOrch(w, reply, slot, at, tx, t), o, r)
  {
    if w.orch.Building? && !reply.Failed? {
      BuildLetsGo(w, w.orch.o, w.orch.slot, tx, t, o, r);
    } else if w.orch.MarkingConfirmed? && !reply.Failed? {
      if w.orch.id < |w.att.rows| { ConfirmLetsGo(w, reply, w.orch.o, w.orch.id, o, r); }
    } else {
      OtherKeeps(w, reply, slot, at, tx, t);
      KeepingLetsGo(w, DoOrch(w, reply, slot, at, tx, t), o, r);
    }
  }

  lemma OtherKeeps(w: World, reply: Reply, slot: nat, at: nat, tx: Bytes, t: nat)
    requires (!w.orch.Building? && !w.orch.MarkingConfirmed?) || reply.Failed?
    ensures KeepsAttempts(w, DoOrch(w, reply, slot, at, tx, t))
  {
    if reply.Failed? && !w.orch.Sending? {
    } else if w.orch.Entering? {
      EnterKeeps(w, reply);
    } else if w.orch.Settling? {
      SettleKeeps(w, reply);
    } else {
      ReadKeeps(w, reply, slot, at, tx, t);
    }
  }

  lemma EnterKeeps(w: World, reply: Reply)
    requires w.orch.Entering?
    ensures
      var c := w.orch;
      KeepsAttempts(w, DoEnter(w, reply, c.o, c.snap, c.slot, c.at, c.version, c.retried))
  {}

  lemma SettleKeeps(w: World, reply: Reply)
    requires w.orch.Settling?
    ensures
      var c := w.orch;
      KeepsAttempts(w, DoSettle(w, reply, c.o, c.snap, c.id, c.at, c.version, c.retried))
  {}

  lemma BuildShape(w: World, q: nat, slot: nat, tx: Bytes, t: nat) returns (args: B.Args)
    requires t !in w.att.threads
    ensures args.unsignedTx == tx || (q in w.pending && args.unsignedTx == w.pending[q].unsignedTx)
    ensures DoBuild(w, q, slot, tx, t) ==
      w.(orch := Sending(q, t), pending := w.pending[q := args], att := B.Step(w.att, B.StartBroadcast(t, args)))
  {
    var latest := A.LatestForOrder(w.att.rows, q);
    args := if q in w.pending then w.pending[q].(slot := slot)
            else B.Args(q, slot, if latest.Some? then w.att.rows[latest.value].number + 1 else 1, tx);
  }

  lemma BuildLetsGo(w: World, q: nat, slot: nat, tx: Bytes, t: nat, o: nat, r: nat)
    requires LetGo(w, o, r) && Sha256(tx) != w.att.rows[r].unsignedHash && q != o
    ensures LeavesBe(w, DoBuild(w, q, slot, tx, t), o, r)
  {
    if t !in w.att.threads { var args := BuildShape(w, q, slot, tx, t); }
  }

  /** Only a BROADCAST row is confirmed. */
  lemma ConfirmLetsGo(w: World, reply: Reply, q: nat, id: nat, o: nat, r: nat)
    requires LetGo(w, o, r) && id < |w.att.rows|
    ensures LeavesBe(w, DoMarkConfirmed(w, reply, q, id), o, r)
  {}

  lemma ReadKeeps(w: World, reply: Reply, slot: nat, at: nat, tx: Bytes, t: nat)
    requires !w.orch.Building? && !w.orch.Entering? && !w.orch.Settling? && !w.orch.MarkingConfirmed?
    requires !(reply.Failed? && !w.orch.Sending?)
    ensures KeepsAttempts(w, DoOrch(w, reply, slot, at, tx, t))
  {}

  lemma NobodyConfirms(w: World)
    requires Inv(w)
    ensures forall t :: t in w.att.threads ==> !w.att.threads[t].Confirming?
  {
    forall t | t in w.att.threads ensures !w.att.threads[t].Confirming? { assert AttemptThreadOk(w, t); }
  }

  /** A step that touches the attempts, and of the rest at most forgets a cached transfer. */
  lemma AttemptLetsGo(w: World, w': World, act: B.Action, o: nat, r: nat)
    requires Inv(w) && LetGo(w, o, r) && w'.att == B.Step(w.att, act) && !act.StartBroadcast?
    requires forall q :: q in w'.pending ==> q in w.pending && w'.pending[q] == w.pending[q]
    ensures LeavesBe(w, w', o, r)
  {
    NobodyConfirms(w);
    AttemptUntried(w.att, act, r);
  }

  lemma BroadcastShape(w: World, answer: B.Reply)
    requires w.orch.Sending?
    ensures DoBroadcast(w, answer).att == B.Step(w.att, B.Advance(w.orch.t, answer))
    ensures forall q :: q in DoBroadcast(w, answer).pending ==>
      q in w.pending && DoBroadcast(w, answer).pending[q] == w.pending[q]
  {}

  /** Whoever acts on the attempts beside the orchestrator's own steps. */
  lemma OthersLetGo(w: World, act: Action, o: nat, r: nat)
    requires Inv(w) && LetGo(w, o, r)
    requires act.OrchBroadcast? || act.OrchCrash? || act.Freeze? || act.FreezeStep? || act.FreezeCrash?
      || act.RetireSlot?
    ensures LeavesBe(w, Step(w, act), o, r)
  {
    var w' := Step(w, act);
    match act
    case OrchBroadcast(answer) =>
      if w.orch.Sending? {
        BroadcastShape(w, answer);
        AttemptLetsGo(w, w', B.Advance(w.orch.t, answer), o, r);
      }
    case OrchCrash => if w.orch.Sending? { AttemptLetsGo(w, w', B.Crash(w.orch.t), o, r); }
    case Freeze(t, id) => AttemptLetsGo(w, w', B.StartFreeze(t, id), o, r);
    case FreezeStep(t, answer) => if !OwnThread(w, t) { AttemptLetsGo(w, w', B.Advance(t, answer), o, r); }
    case FreezeCrash(t) => if !OwnThread(w, t) { AttemptLetsGo(w, w', B.Crash(t), o, r); }
    case RetireSlot(slot) => AttemptLetsGo(w, w', B.Retire(slot), o, r);
  }

  lemma UsersLetGo(w: World, act: Action)
    requires act.Quote? || act.Move? || act.PostForeign? || act.ReverseForeign? || act.SetHalt?
      || act.Dispatch? || act.Confirm? || act.Reconcile?
    ensures Step(w, act).att == w.att && Step(w, act).pending == w.pending
  {}

  /** Nothing that happens later takes the payout up again. */
  lemma StepLetsGo(w: World, act: Action, o: nat, r: nat)
    requires Inv(w) && LetGo(w, o, r) && Distinct(act, w.att.rows[r].unsignedHash)
    ensures LeavesBe(w, Step(w, act), o, r)
  {
    if act.OrchStep? {
      OrchLetsGo(w, act.reply, act.slot, act.at, act.tx, act.t, o, r);
    } else if act.ReconStep? {
      if act.p in w.recon { ReconLetsGo(w, act.p, w.recon[act.p], act.reply, act.at); }
    } else if act.Quote? || act.Move? || act.PostForeign? || act.ReverseForeign? || act.SetHalt?
      || act.Dispatch? || act.Confirm? || act.Reconcile? {
      UsersLetGo(w, act);
    } else {
      OthersLetGo(w, act, o, r);
    }
  }

  lemma ReconLetsGo(w: World, p: nat, c: Recon, reply: Reply, at: nat)
    ensures DoRecon(w, p, c, reply, at).att == w.att && DoRecon(w, p, c, reply, at).pending == w.pending
  {}

  lemma StillLetGo(w: World, act: Action, o: nat, r: nat)
    requires Inv(w) && LetGo(w, o, r) && Distinct(act, w.att.rows[r].unsignedHash)
    ensures LetGo(Step(w, act), o, r) && Untried(w.att, Step(w, act).att, r)
    ensures Step(w, act).att.rows[r].unsignedHash == w.att.rows[r].unsignedHash
  {
    StepLetsGo(w, act, o, r);
    StaysIdle(w, act, o);
    G.StaysPosted(w, act, Conversion(o));
    LeftIsLetGo(w, Step(w, act), o, r);
  }

  lemma LeftIsLetGo(w: World, w': World, o: nat, r: nat)
    requires LetGo(w, o, r) && LeavesBe(w, w', o, r)
    requires Has(w'.ledger.journal, Conversion(o)) && !AtWork(w'.orch, o)
    ensures LetGo(w', o, r)
  {}

  lemma UntriedTransitive(w0: B.World, w1: B.World, w2: B.World, r: nat)
    requires Untried(w0, w1, r) && Untried(w1, w2, r)
    ensures Untried(w0, w2, r)
  {}

  /** Whatever happens after the orchestrator has let go of a converted order: its attempt is never sent,
      nor signed, and there is no other; at most a freeze fails it, and then a pass gives the money back. */
  lemma {:induction false} NeverResumed(w: World, acts: seq<Action>, o: nat, r: nat)
    requires Inv(w) && LetGo(w, o, r)
    requires forall i :: 0 <= i < |acts| ==> Distinct(acts[i], w.att.rows[r].unsignedHash)
    ensures Untried(w.att, Run(w, acts).att, r)
    ensures forall q: nat :: RowOf(Run(w, acts).att.rows, q, o) ==> q == r
    decreases |acts|
  {
    if acts == [] {
      assert OneAttempt(w.att.rows);
    } else {
      var w1 := Step(w, acts[0]);
      R.StepKeeps(w, acts[0]);
      StillLetGo(w, acts[0], o, r);
      NeverResumed(w1, acts[1..], o, r);
      UntriedTransitive(w.att, w1.att, Run(w, acts).att, r);
    }
  }

  // ---------------------------------------------------------------- it happens

  lemma PutOffStep(w: World, a: B.Args, r: nat)
    requires w.orch.Sending? && w.orch.t in w.att.threads && w.att.threads[w.orch.t] == B.Requesting(a, r)
    ensures Step(w, OrchBroadcast(B.S1Pending)) ==
      w.(orch := Idle, att := w.att.At(w.orch.t, B.Done(B.SignaturePending)))
  {}

  /** S1 puts the orchestrator off: from then on it has let go of the order. */
  lemma PutOffIsLetGo(w: World, o: nat, r: nat, a: B.Args)
    requires Inv(w) && w.orch.Sending? && w.orch.o == o && RowOf(w.att.rows, r, o)
    requires w.orch.t in w.att.threads && w.att.threads[w.orch.t] == B.Requesting(a, r)
    requires !w.att.rows[r].status.Broadcast? && !w.att.rows[r].status.Confirmed?
    requires forall t :: t in w.att.threads && t != w.orch.t ==> !Carried(w.att.threads[t], w.att.rows[r].unsignedHash)
    requires forall q :: q in w.pending && q != o ==> Sha256(w.pending[q].unsignedTx) != w.att.rows[r].unsignedHash
    ensures LetGo(Step(w, OrchBroadcast(B.S1Pending)), o, r)
  {
    assert ViewOk(ViewAt(w, o));
    PutOffStep(w, a, r);
  }

  lemma RejectedStep(w: World, r: nat)
    requires w.orch.Sending? && w.orch.t in w.att.threads && w.att.threads[w.orch.t] == B.Rejecting(r)
    requires r < |w.att.rows| && r !in w.att.holder && (w.att.rows[r].status.Built? || w.att.rows[r].status.Signed?)
    ensures Step(w, OrchBroadcast(B.Ok)) ==
      w.(orch := Idle, pending := w.pending - {w.orch.o},
         att := w.att.At(w.orch.t, B.Done(B.SignatureRejected)).(
           rows := w.att.rows[r := w.att.rows[r].(status := A.Failed)]))
  {}

  /** And once the attempt is FAILED because S1 rejected it: no other follows. */
  lemma RejectedIsLetGo(w: World, o: nat, r: nat)
    requires Inv(w) && w.orch.Sending? && w.orch.o == o && RowOf(w.att.rows, r, o)
    requires w.orch.t in w.att.threads && w.att.threads[w.orch.t] == B.Rejecting(r) && r !in w.att.holder
    requires w.att.rows[r].status.Built? || w.att.rows[r].status.Signed?
    requires forall t :: t in w.att.threads && t != w.orch.t ==> !Carried(w.att.threads[t], w.att.rows[r].unsignedHash)
    requires forall q :: q in w.pending && q != o ==> Sha256(w.pending[q].unsignedTx) != w.att.rows[r].unsignedHash
    ensures LetGo(Step(w, OrchBroadcast(B.Ok)), o, r)
  {
    assert ViewOk(ViewAt(w, o));
    RejectedStep(w, r);
  }

  const PUT_OFF := [B.Ok, B.Ok, B.S1Pending]

  /** The first order's signature is pending, and the orchestrator has gone on. */
  function PutOffWorld(): World {
    M.Signing([A.NewRow(0, 1, 1, Sha256([]))], B.Done(B.SignaturePending)).(orch := Idle)
  }

  lemma PutOffRun()
    ensures Run(Init(), M.SENDING + H.Broadcasts(PUT_OFF)) == PutOffWorld()
  {
    var built := [A.NewRow(0, 1, 1, Sha256([]))];
    var w, w1 := M.SendingWorld(), M.Signing(built, B.Checking(M.ARGS, 0));
    var w2 := M.Signing(built, B.Requesting(M.ARGS, 0));
    M.SendingRun();
    T.RunConcat(Init(), M.SENDING, H.Broadcasts(PUT_OFF));
    M.InsertedStep();
    CheckedStep();
    PutOffStep(w2, M.ARGS, 0);
    M.RunUnfold(w, H.Broadcasts(PUT_OFF), [w1, w2, PutOffWorld()]);
  }

  lemma PutOffIsReached()
    ensures Run(Init(), M.SENDING + H.Broadcasts(PUT_OFF)) == PutOffWorld()
    ensures Inv(PutOffWorld()) && LetGo(PutOffWorld(), 0, 0) && PutOffWorld().att.calls == []
  {
    PutOffRun();
    T.Reachable(M.SENDING + H.Broadcasts(PUT_OFF));
    assert PutOffWorld().ledger.journal[1].key == Conversion(0);
  }

  lemma CheckedStep()
    ensures
      var built := [A.NewRow(0, 1, 1, Sha256([]))];
      Step(M.Signing(built, B.Checking(M.ARGS, 0)), OrchBroadcast(B.Ok)) == M.Signing(built, B.Requesting(M.ARGS, 0))
  {}

  /** From the start to there and on: S1 puts the first order's signature off, and whatever happens then,
      with other transfers for other orders, that order is not sent. */
  lemma PendingIsNeverSent(after: seq<Action>)
    requires forall i :: 0 <= i < |after| ==> Distinct(after[i], Sha256([]))
    ensures
      var w := Run(Init(), M.SENDING + H.Broadcasts(PUT_OFF) + after);
      && |w.att.rows| > 0 && w.att.rows[0].order == 0
      && (w.att.rows[0].status.Built? || w.att.rows[0].status.Failed?)
      && forall k: nat :: !T.CallFor(w.att, k, 0)
  {
    var acts, w0 := M.SENDING + H.Broadcasts(PUT_OFF), PutOffWorld();
    PutOffIsReached();
    T.RunConcat(Init(), acts, after);
    T.Reachable(acts + after);
    NeverResumed(w0, after, 0, 0);
    var w := Run(w0, after);
    forall k: nat ensures !T.CallFor(w.att, k, 0) {
      assert k < |w.att.calls| ==> w.att.calls[k].row != 0;
      assert k < |w.att.calls| ==> !RowOf(w.att.rows, w.att.calls[k].row, 0);
    }
  }
}
