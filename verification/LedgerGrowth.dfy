/** How C1's journal grows: every step of the lifecycle leaves it alone or appends one entry, and this
    says which entries there are. */
module LedgerGrowth {
  import opened Common
  import A = Attempts
  import opened Ledger
  import opened Lifecycle
  import opened LifecycleInvariant
  import opened LifecycleSafety
  import R = ReconciliationSafety

  /** The entries a step may append. */
  ghost predicate Appends(w: World, e: Entry) {
    match e.key
    case Foreign(_) => true
    case Conversion(o) => w.orch.Entering? && w.orch.o == o && e.lines == ConversionLines(w.orch.snap)
    case Settlement(o, n) =>
      && w.orch.Settling? && w.orch.o == o && w.orch.id < |w.att.rows| && w.att.rows[w.orch.id].number == n
      && e.lines == SettlementLines(w.orch.snap, w.att.rows[w.orch.id].slot)
    case Reversal(k) =>
      exists i ::
        0 <= i < |w.ledger.journal| && w.ledger.journal[i].key == k && e.lines == Negated(w.ledger.journal[i].lines)
  }

  /** One more entry, or none; quotes stay what they were. */
  ghost predicate LedgerGrows(w: World, l: Ledger) {
    && SameQuotes(w.ledger.orders, l.orders)
    && (l.journal == w.ledger.journal ||
        (l.journal != [] && l.journal[..|l.journal| - 1] == w.ledger.journal
         && var e := l.journal[|l.journal| - 1]; Appends(w, e) && !Has(w.ledger.journal, e.key)))
  }

  /** A request appends its own entry or nothing. */
  lemma TransitionGrows(l: Ledger, o: nat, to: OrderState, version: nat, cause: Cause)
    ensures
      var l' := Transition(l, o, to, version, cause).1;
      && SameQuotes(l.orders, l'.orders)
      && (l'.journal == l.journal ||
          (cause.Inline? && l'.journal == l.journal + [cause.entry] && !Has(l.journal, cause.entry.key)))
  {}

  lemma RequestGrows(w: World, o: nat, to: OrderState, version: nat, cause: Cause)
    requires cause.Inline? ==> Appends(w, cause.entry)
    ensures LedgerGrows(w, Transition(w.ledger, o, to, version, cause).1)
  {
    TransitionGrows(w.ledger, o, to, version, cause);
    var l := Transition(w.ledger, o, to, version, cause).1;
    if l.journal != w.ledger.journal { assert l.journal[..|l.journal| - 1] == w.ledger.journal; }
  }

  lemma ReverseGrows(w: World, i: nat, at: nat)
    requires Reverse(w.ledger.journal, i, at).Reversed?
    ensures LedgerGrows(w, w.ledger.(journal := Reverse(w.ledger.journal, i, at).journal))
  {
    var j := Reverse(w.ledger.journal, i, at).journal;
    assert j[..|j| - 1] == w.ledger.journal;
  }

  // ---------------------------------------------------------------- step by step

  lemma OrchGrows(w: World, reply: Reply, slot: nat, at: nat, tx: Bytes, t: nat)
    ensures LedgerGrows(w, DoOrch(w, reply, slot, at, tx, t).ledger)
  {
    if reply.Failed? && !w.orch.Sending? {
    } else if w.orch.Entering? {
      var c := w.orch;
      RequestGrows(w, c.o, Dispatching, c.version, Inline(Entry(Conversion(c.o), ConversionLines(c.snap), c.at)));
      EnterLedger(w, reply, c.o, c.snap, c.slot, c.at, c.version, c.retried);
    } else if w.orch.Settling? {
      SettleGrows(w, reply);
    } else {
      OtherOrchLedger(w, reply, slot, at, tx, t);
    }
  }

  lemma EnterLedger(w: World, reply: Reply, o: nat, snap: Order, slot: nat, at: nat, version: nat, retried: bool)
    ensures DoEnter(w, reply, o, snap, slot, at, version, retried).ledger ==
      Transition(w.ledger, o, Dispatching, version, Inline(Entry(Conversion(o), ConversionLines(snap), at))).1
  {}

  lemma SettleGrows(w: World, reply: Reply)
    requires w.orch.Settling?
    ensures
      var c := w.orch;
      LedgerGrows(w, DoSettle(w, reply, c.o, c.snap, c.id, c.at, c.version, c.retried).ledger)
  {
    var c := w.orch;
    if c.id < |w.att.rows| {
      var row := w.att.rows[c.id];
      RequestGrows(w, c.o, Settled, c.version,
                   Inline(Entry(Settlement(c.o, row.number), SettlementLines(c.snap, row.slot), c.at)));
    }
  }

  lemma OtherOrchLedger(w: World, reply: Reply, slot: nat, at: nat, tx: Bytes, t: nat)
    requires !w.orch.Entering? && !w.orch.Settling? && !(reply.Failed? && !w.orch.Sending?)
    ensures DoOrch(w, reply, slot, at, tx, t).ledger == w.ledger
  {}

  lemma ReconGrows(w: World, p: nat, r: Recon, reply: Reply, at: nat)
    ensures LedgerGrows(w, DoRecon(w, p, r, reply, at).ledger)
  {
    if reply.Failed? {
    } else if r.Reversing? {
      if Reverse(w.ledger.journal, r.entry, at).Reversed? { ReverseGrows(w, r.entry, at); }
    } else if r.Holding? {
      RequestGrows(w, r.o, Held, r.version, Existing(r.reversal));
      assert DoRecon(w, p, r, reply, at).ledger ==
        Transition(w.ledger, r.o, Held, r.version, Existing(r.reversal)).1;
    } else {
      assert DoRecon(w, p, r, reply, at).ledger == w.ledger;
    }
  }

  lemma UserGrows(w: World, act: Action)
    requires act.Quote? || act.Move? || act.PostForeign? || act.ReverseForeign? || act.SetHalt?
    ensures LedgerGrows(w, Step(w, act).ledger)
  {
    match act
    case Move(o, to, cause) =>
      if Step(w, act) != w {
        var posted := if cause.Some? then Inline(cause.value) else NoEntry;
        RequestGrows(w, o, to, w.ledger.orders[o].version, posted);
      }
    case PostForeign(e) =>
      if IsForeign(e) && Post(w.ledger.journal, e).Posted? {
        var j := w.ledger.journal + [e];
        assert j[..|j| - 1] == w.ledger.journal;
      }
    case ReverseForeign(i, at) =>
      if i < |w.ledger.journal| && Reverse(w.ledger.journal, i, at).Reversed? { ReverseGrows(w, i, at); }
    case _ =>
  }

  lemma StepGrows(w: World, act: Action)
    ensures LedgerGrows(w, Step(w, act).ledger)
  {
    match act
    case OrchStep(reply, slot, at, tx, t) => OrchGrows(w, reply, slot, at, tx, t);
    case ReconStep(p, reply, at) => if p in w.recon { ReconGrows(w, p, w.recon[p], reply, at); }
    case OrchBroadcast(answer) => assert Step(w, act).ledger == w.ledger;
    case _ =>
      if act.Quote? || act.Move? || act.PostForeign? || act.ReverseForeign? || act.SetHalt? { UserGrows(w, act); }
  }

  lemma GrownStays(w: World, l: Ledger, key: Key)
    requires LedgerGrows(w, l) && Has(w.ledger.journal, key)
    ensures Has(l.journal, key)
  {
    if l.journal != w.ledger.journal {
      var e := l.journal[|l.journal| - 1];
      assert l.journal == w.ledger.journal + [e];
      HasAppend(w.ledger.journal, e, key);
    }
  }

  /** What is posted stays posted. */
  lemma StaysPosted(w: World, act: Action, key: Key)
    requires Has(w.ledger.journal, key)
    ensures Has(Step(w, act).ledger.journal, key)
  {
    StepGrows(w, act);
    GrownStays(w, Step(w, act).ledger, key);
  }
}
