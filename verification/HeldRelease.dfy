/** The assumption behind one transaction per order. C1's table lists held -> screened, a manual
    release (ledger/internal/orders/transitions.go), and dispatchOne takes a screened order that
    already has a dispatch_state row straight to Broadcast, without a second conversion. Released
    after its conversion was reversed, an order is therefore paid out of nothing; released before
    it was ever converted, it is safe. */
module HeldRelease {
  import opened Common
  import A = Attempts
  import B = BroadcastProtocol
  import S = BroadcastSafety
  import P = BroadcastProgress
  import opened Ledger
  import opened Lifecycle
  import opened LifecycleInvariant
  import opened LifecycleSafety
  import R = ReconciliationSafety
  import T = LifecycleTheorems

  /** A payout although the conversion is reversed: an accepted, committed call for the order. */
  ghost predicate PaidOutOfNothing(w: World, o: nat) {
    Has(w.ledger.journal, Reversal(Conversion(o))) &&
    exists k: nat :: T.CallFor(w.att, k, o) && w.att.calls[k].accepted && w.att.calls[k].fate.Committed?
  }

  /** The release, as C1 accepts it: no entry is asked for. */
  function Release(w: World, o: nat): World
    requires o < |w.ledger.orders|
  {
    OtherMove(w, o, Screened, None)
  }

  // ---------------------------------------------------------------- fresh names

  /** A transfer no row carries. */
  lemma {:induction false} FreshTransfer(rows: A.Table) returns (tx: Bytes)
    ensures forall i :: 0 <= i < |rows| ==> |rows[i].unsignedHash.preimage| < |tx|
  {
    if rows == [] {
      tx := [];
    } else {
      var n := |rows| - 1;
      var rest := FreshTransfer(rows[..n]);
      tx := rest + rows[n].unsignedHash.preimage + [0];
    }
  }

  lemma {:induction false} FreshThread(threads: map<nat, B.Pc>) returns (t: nat)
    ensures forall u :: u in threads ==> u < t
    decreases |threads|
  {
    if threads == map[] {
      t := 0;
    } else {
      var u :| u in threads;
      var rest := FreshThread(threads - {u});
      t := if rest <= u then u + 1 else rest;
      assert forall v :: v in threads ==> v == u || v in threads - {u};
    }
  }

  // ---------------------------------------------------------------- the orchestrator's run

  function Broadcasts(replies: seq<B.Reply>): seq<Action> {
    seq(|replies|, i requires 0 <= i < |replies| => OrchBroadcast(replies[i]))
  }

  lemma {:induction false} DoneStays(att: B.World, t: nat, replies: seq<B.Reply>)
    requires t in att.threads && att.threads[t].Done?
    ensures P.Answered(att, t, replies) == att
    decreases |replies|
  {
    if replies != [] { DoneStays(att, t, replies[1..]); }
  }

  lemma {:induction false} IdleStays(w: World, replies: seq<B.Reply>)
    requires w.orch.Idle?
    ensures Run(w, Broadcasts(replies)) == w
    decreases |replies|
  {
    if replies != [] {
      assert Broadcasts(replies)[1..] == Broadcasts(replies[1..]);
      IdleStays(w, replies[1..]);
    }
  }

  lemma StepStays(att: B.World, t: nat, reply: B.Reply)
    requires t in att.threads
    ensures t in B.Step(att, B.Advance(t, reply)).threads
  {}

  /** Answer by answer, the orchestrator lets its thread run until it returns a row. */
  lemma {:induction false} OrchAnswered(w: World, replies: seq<B.Reply>)
    requires w.orch.Sending? && w.orch.t in w.att.threads && !w.att.threads[w.orch.t].Done?
    requires
      var att := P.Answered(w.att, w.orch.t, replies);
      w.orch.t in att.threads && att.threads[w.orch.t].Done? && att.threads[w.orch.t].outcome.Returned?
    ensures Run(w, Broadcasts(replies)) ==
      w.(att := P.Answered(w.att, w.orch.t, replies), orch := Idle, pending := w.pending - {w.orch.o})
    decreases |replies|
  {
    if replies == [] {
      assert false;
    } else {
      var t := w.orch.t;
      var att := B.Step(w.att, B.Advance(t, replies[0]));
      assert Broadcasts(replies)[1..] == Broadcasts(replies[1..]);
      StepStays(w.att, t, replies[0]);
      if att.threads[t].Done? {
        DoneStays(att, t, replies[1..]);
        IdleStays(Step(w, OrchBroadcast(replies[0])), replies[1..]);
      } else {
        OrchAnswered(w.(att := att), replies[1..]);
      }
    }
  }

  // ---------------------------------------------------------------- the double payout

  const SIG: Bytes := seq(65, _ => 0)
  const GRANTED := [B.Ok, B.Ok, B.S1Signed(SIG), B.Ok, B.Ok, B.ChainAccepted(0), B.Ok]

  /** A restarted orchestrator on a screened order that has a dispatch_state row. */
  function Resume(o: nat, tx: Bytes, t: nat): seq<Action> {
    [OrchCrash, Dispatch(o), OrchStep(Ok, 0, 0, [], 0), OrchStep(Ok, 0, 0, [], 0), OrchStep(Ok, 0, 0, tx, t)]
  }

  function NextNumber(rows: A.Table, o: nat): nat {
    var latest := A.LatestForOrder(rows, o);
    if latest.Some? then rows[latest.value].number + 1 else 1
  }

  lemma ResumeReads(w: World, o: nat)
    requires o < |w.ledger.orders| && w.ledger.orders[o].state.Screened? && !w.ledger.orders[o].sweep
      && o in w.local && w.orch.Idle?
    ensures Step(w, Dispatch(o)) == w.(orch := Fetching(o))
    ensures Step(w.(orch := Fetching(o)), OrchStep(Ok, 0, 0, [], 0)) == w.(orch := Looking(o, w.ledger.orders[o]))
    ensures Step(w.(orch := Looking(o, w.ledger.orders[o])), OrchStep(Ok, 0, 0, [], 0)) ==
      w.(orch := Building(o, w.local[o].slot))
  {}

  lemma ResumeBuilds(w: World, o: nat, slot: nat, tx: Bytes, t: nat)
    requires w.orch == Building(o, slot) && w.pending == map[] && t !in w.att.threads
    ensures
      var args := B.Args(o, slot, NextNumber(w.att.rows, o), tx);
      Step(w, OrchStep(Ok, 0, 0, tx, t)) ==
        w.(orch := Sending(o, t), pending := map[o := args], att := B.Step(w.att, B.StartBroadcast(t, args)))
  {
    var args := B.Args(o, slot, NextNumber(w.att.rows, o), tx);
    assert w.pending[o := args] == map[o := args];
  }

  lemma ResumeSends(w: World, w0: World, o: nat, tx: Bytes, t: nat)
    requires w0 == Step(w, OrchCrash) && w0.orch.Idle? && w0.pending == map[] && t !in w0.att.threads
    requires o < |w0.ledger.orders| && w0.ledger.orders[o].state.Screened?
      && !w0.ledger.orders[o].sweep && o in w0.local
    ensures
      var args := B.Args(o, w0.local[o].slot, NextNumber(w0.att.rows, o), tx);
      Run(w, Resume(o, tx, t)) ==
        w0.(orch := Sending(o, t), pending := map[o := args], att := B.Step(w0.att, B.StartBroadcast(t, args)))
  {
    var slot := w0.local[o].slot;
    ResumeReads(w0, o);
    ResumeBuilds(w0.(orch := Building(o, slot)), o, slot, tx, t);
    var args := B.Args(o, slot, NextNumber(w0.att.rows, o), tx);
    RunFive(w, Resume(o, tx, t), w0, w0.(orch := Fetching(o)), w0.(orch := Looking(o, w0.ledger.orders[o])),
      w0.(orch := Building(o, slot)),
      w0.(orch := Sending(o, t), pending := map[o := args], att := B.Step(w0.att, B.StartBroadcast(t, args))));
  }

  lemma RunFive(w: World, acts: seq<Action>, w0: World, w1: World, w2: World, w3: World, w4: World)
    requires |acts| == 5 && w0 == Step(w, acts[0]) && w1 == Step(w0, acts[1]) && w2 == Step(w1, acts[2])
    requires w3 == Step(w2, acts[3]) && w4 == Step(w3, acts[4])
    ensures Run(w, acts) == w4
  {
    assert acts[1..][1..] == acts[2..] && acts[2..][1..] == acts[3..]
        && acts[3..][1..] == acts[4..] && acts[4..][1..] == [];
    assert Run(w3, acts[4..]) == w4;
    assert Run(w2, acts[3..]) == w4;
    assert Run(w1, acts[2..]) == w4;
    assert Run(w0, acts[1..]) == w4;
  }

  lemma NumberUnused(rows: A.Table, o: nat, tx: Bytes, slot: nat)
    requires forall i :: 0 <= i < |rows| ==> |rows[i].unsignedHash.preimage| < |tx|
    ensures P.Unused(rows, B.Args(o, slot, NextNumber(rows, o), tx))
  {}

  lemma CrashKeepsRows(w: World)
    requires B.Inv(w.att)
    ensures B.Inv(DoOrchCrash(w).att)
    ensures DoOrchCrash(w).ledger == w.ledger && DoOrchCrash(w).local == w.local
  {
    if w.orch.Sending? { S.StepKeeps(w.att, B.Crash(w.orch.t)); }
  }

  /** From any world in which a reversed order is screened again, the orchestrator goes on to pay
      it: no stale cache, answer of the halt flag or earlier failed attempt prevents that. */
  lemma ReleasedIsPaid(w: World, o: nat) returns (acts: seq<Action>)
    requires B.Inv(w.att) && o < |w.ledger.orders| && w.ledger.orders[o].state.Screened? && !w.ledger.orders[o].sweep
    requires o in w.local && Has(w.ledger.journal, Reversal(Conversion(o)))
    ensures PaidOutOfNothing(Run(w, acts), o)
  {
    var w0 := DoOrchCrash(w);
    CrashKeepsRows(w);
    var tx := FreshTransfer(w0.att.rows);
    var t := FreshThread(w0.att.threads);
    var args := B.Args(o, w.local[o].slot, NextNumber(w0.att.rows, o), tx);
    ResumeSends(w, w0, o, tx, t);
    NumberUnused(w0.att.rows, o, tx, w.local[o].slot);
    P.FreshBroadcastSends(w0.att, t, args, SIG, 0);
    var w1 := Run(w, Resume(o, tx, t));
    assert w1.att == w0.att.At(t, B.Inserting(args));
    OrchAnswered(w1, GRANTED);
    acts := Resume(o, tx, t) + Broadcasts(GRANTED);
    T.RunConcat(w, Resume(o, tx, t), Broadcasts(GRANTED));
    var att := Run(w, acts).att;
    assert T.CallFor(att, |w0.att.calls|, o) && att.calls[|w0.att.calls|].fate.Committed?;
  }

  ghost predicate LeadsToLoss(w: World, acts: seq<Action>, o: nat) { PaidOutOfNothing(Run(w, acts), o) }

  /** From every reachable kind of world, releasing a held order can lead to a payout of a reversed
      conversion exactly when the order had been converted: whether the conversion entry exists is
      what whoever releases it has to check. */
  lemma ReleaseUnsafeIffConverted(w: World, o: nat)
    requires Inv(w) && o < |w.ledger.orders| && w.ledger.orders[o].state.Held? && !w.ledger.orders[o].sweep
    ensures (exists acts :: LeadsToLoss(Release(w, o), acts, o)) <==> Has(w.ledger.journal, Conversion(o))
  {
    assert ViewOk(ViewAt(w, o));
    if Has(w.ledger.journal, Conversion(o)) {
      var acts := ReleasedIsPaid(Release(w, o), o);
      assert LeadsToLoss(Release(w, o), acts, o);
    } else {
      StateMoveKeeps(w, o, Screened);
      forall acts ensures !LeadsToLoss(Release(w, o), acts, o) {
        R.RunKeeps(Release(w, o), acts);
        NeverPaid(Run(Release(w, o), acts), o);
      }
    }
  }

  lemma NeverPaid(w: World, o: nat)
    requires Inv(w)
    ensures !PaidOutOfNothing(w, o)
  {
    if ViewAt(w, o).reversed {
      forall k: nat | T.CallFor(w.att, k, o) ensures w.att.calls[k].fate.RolledBack? { T.ReversedWasNotSent(w, o, k); }
    }
  }
}
