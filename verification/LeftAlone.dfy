/** A whole payout, and a whole reconciliation, with nobody in the way. */
module LeftAlone {
  import opened Common
  import A = Attempts
  import B = BroadcastProtocol
  import BP = BroadcastProgress
  import opened Ledger
  import opened Lifecycle
  import opened LifecycleInvariant
  import opened LifecycleProgress
  import H = HeldRelease
  import RM = Reconciler
  import T = LifecycleTheorems

  // ---------------------------------------------------------------- a payout

  function Grants(sig: Bytes, txid: nat): seq<B.Reply> {
    [B.Ok, B.Ok, B.S1Signed(sig), B.Ok, B.Ok, B.ChainAccepted(txid), B.Ok]
  }

  /** The world in which an order has been converted, recorded, signed and sent. */
  ghost function SentWorld(w: World, o: nat, slot: nat, at: nat, tx: Bytes, t: nat, sig: Bytes, txid: nat): World
    requires o < |w.ledger.orders|
  {
    var row := A.Row(o, slot, 1, Sha256(tx), Some(sig), Some(txid), A.Broadcast);
    var call := B.Call(|w.att.rows|, B.SignedTx(tx, sig), true, B.Committed);
    World(Entered(w.ledger, o, Dispatching, Entry(Conversion(o), ConversionLines(w.ledger.orders[o]), at)),
          B.World(w.att.rows + [row], w.att.holder, w.att.threads[t := B.Done(B.Returned(row))], w.att.calls + [call],
                  w.att.retired),
          w.local[o := LocalRow(slot, LDispatching, at)], Idle, w.pending, w.recon)
  }

  /** From every state the invariant allows: a dispatchOne nothing disturbs takes an eligible order
      whose amounts are in order to one BROADCAST attempt and one accepted, committed call. */
  lemma PayoutAlone(w: World, o: nat, slot: nat, at: nat, tx: Bytes, t: nat, sig: Bytes, txid: nat)
    requires Inv(w) && w.orch.Idle? && t !in w.att.threads && |sig| == 65
    requires Eligible(w, o) && Payable(w.ledger.orders[o]) && !w.ledger.halted
    requires BP.Unused(w.att.rows, B.Args(o, slot, 1, tx))
    ensures Run(w, Dispatches(o, slot, at, tx, t) + H.Broadcasts(Grants(sig, txid))) ==
      SentWorld(w, o, slot, at, tx, t, sig, txid)
  {
    T.RunConcat(w, Dispatches(o, slot, at, tx, t), H.Broadcasts(Grants(sig, txid)));
    DispatchAlone(w, o, slot, at, tx, t);
    FreshOrder(w, o);
    DispatchedIsSent(w, o, slot, at, tx, t, sig, txid);
  }

  lemma DispatchedIsSent(w: World, o: nat, slot: nat, at: nat, tx: Bytes, t: nat, sig: Bytes, txid: nat)
    requires B.Inv(w.att) && t !in w.att.threads && |sig| == 65 && o !in w.pending
    requires Eligible(w, o) && Payable(w.ledger.orders[o]) && !w.ledger.halted
    requires BP.Unused(w.att.rows, B.Args(o, slot, 1, tx))
    ensures Run(DispatchedWorld(w, o, slot, at, tx, t), H.Broadcasts(Grants(sig, txid))) ==
      SentWorld(w, o, slot, at, tx, t, sig, txid)
  {
    var args := B.Args(o, slot, 1, tx);
    SentAlone(w.att, DispatchedWorld(w, o, slot, at, tx, t), args, sig, txid);
    assert w.pending[o := args] - {o} == w.pending;
  }

  /** The broadcast of a first attempt, all of it granted. */
  lemma SentAlone(att: B.World, w: World, args: B.Args, sig: Bytes, txid: nat)
    requires w.orch.Sending? && B.Inv(att) && w.orch.t !in att.threads && |sig| == 65
    requires w.att == B.Step(att, B.StartBroadcast(w.orch.t, args)) && BP.Unused(att.rows, args)
    ensures
      var row := A.Row(args.order, args.slot, args.number, Sha256(args.unsignedTx), Some(sig), Some(txid), A.Broadcast);
      var call := B.Call(|att.rows|, B.SignedTx(args.unsignedTx, sig), true, B.Committed);
      Run(w, H.Broadcasts(Grants(sig, txid))) == w.(
        att := B.World(att.rows + [row], att.holder, att.threads[w.orch.t := B.Done(B.Returned(row))],
                       att.calls + [call], att.retired),
        orch := Idle, pending := w.pending - {w.orch.o})
  {
    BP.FreshBroadcastSends(att, w.orch.t, args, sig, txid);
    H.OrchAnswered(w, Grants(sig, txid));
  }

  // ---------------------------------------------------------------- a reconciliation

  /** For the next n turns nobody else acts and everything is answered. */
  ghost predicate Quiet(turns: seq<RM.Turn>, n: nat, at: nat) {
    n <= |turns| && forall i :: 0 <= i < n ==> turns[i] == RM.Turn([], Ok, at)
  }

  ghost predicate PassEnded(w: World, p: nat) { p in w.recon && w.recon[p].Ended() }

  /** The pass under a quiet schedule is the run of its own steps. */
  lemma {:induction false} PlayAlone(w: World, p: nat, turns: seq<RM.Turn>, n: nat, at: nat)
    requires Quiet(turns, n, at) && p in w.recon && PassEnded(Run(w, Turns(ReconStep(p, Ok, at), n)), p)
    ensures RM.Play(w, p, turns).0 == Run(w, Turns(ReconStep(p, Ok, at), n))
    decreases n
  {
    var next := ReconStep(p, Ok, at);
    if w.recon[p].Ended() {
      Stays(w, next, n);
    } else if n > 0 {
      OneTurn(w, next, n);
      assert Run(w, []) == w;
      StillThere(w, p, at);
      PlayAlone(Step(w, next), p, turns[1..], n - 1, at);
    }
  }

  lemma StillThere(w: World, p: nat, at: nat)
    requires p in w.recon
    ensures p in Step(w, ReconStep(p, Ok, at)).recon
  {}

  /** ReconcileOne on an order whose payout has failed, left alone: it closes the order. */
  method ReconcileLeftAlone(r: RM.Reconciler, o: nat, at: nat) returns (closed: bool)
    requires r.Valid() && r.p !in r.recon && HasFailed(r.Now(), o) && Quiet(r.turns, 6, at)
    modifies r
    ensures r.Valid() && closed && Has(r.ledger.journal, Reversal(Conversion(o)))
    ensures old(Has(r.ledger.journal, Conversion(o)))
    ensures r.Now() == ClosedWorld(old(r.Now()), r.p, o, WithReversal(old(r.ledger.journal), o, at))
  {
    ghost var w, turns := r.Now(), r.turns;
    ReconcileAlone(w, r.p, o, at);
    Began(w, Reconcile(r.p, o), ReconStep(r.p, Ok, at), 6);
    PlayAlone(Step(w, Reconcile(r.p, o)), r.p, turns, 6, at);
    closed := r.ReconcileOne(o);
  }
}
