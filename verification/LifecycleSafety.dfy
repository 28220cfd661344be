/** Every step of the order lifecycle keeps its invariant. */
module LifecycleSafety {
  import opened Common
  import A = Attempts
  import opened Ledger
  import opened Lifecycle
  import opened LifecycleInvariant

  // ---------------------------------------------------------------- frames

  /** What no step of anybody undoes for an order: facts once true stay true, and a held or
      refunded conversion stays so. */
  ghost predicate Firm(v: View, v': View) {
    && (v.converted ==> v'.converted)
    && (v.reversed ==> v'.reversed)
    && (v.paid ==> v'.paid)
    && (v.failed ==> v'.failed)
    && (v.local.Some? ==> v'.local.Some?)
    && (v.local == Some(LSettled) ==> v'.local == Some(LSettled))
    && (v.converted && (v.state == Some(Held) || v.state == Some(Refunded)) ==>
          v'.state == Some(Held) || v'.state == Some(Refunded))
  }

  /** While others act, moreover, a screened order stays untouched. */
  ghost predicate Grows(v: View, v': View) {
    && Firm(v, v')
    && (v.state == Some(Screened) && !v.converted ==> v'.state == Some(Screened) && !v'.converted)
  }

  ghost predicate Evolves(w: World, w': World) {
    && (forall o :: Firm(ViewAt(w, o), ViewAt(w', o)))
    && w.ledger.journal <= w'.ledger.journal
    && SameQuotes(w.ledger.orders, w'.ledger.orders)
    && |w.att.rows| <= |w'.att.rows|
    && (forall r :: 0 <= r < |w.att.rows| ==>
          w'.att.rows[r].order == w.att.rows[r].order && w.att.rows[r].status.Reaches(w'.att.rows[r].status))
  }

  ghost predicate SameQuotes(orders: seq<Order>, orders': seq<Order>) {
    && |orders| <= |orders'|
    && forall o :: 0 <= o < |orders| ==>
         orders'[o].(state := Quoted, version := 0) == orders[o].(state := Quoted, version := 0)
  }

  lemma ReconFrame(w: World, w': World)
    requires forall p :: p in w.recon ==> ReconOk(w, w.recon[p])
    requires Evolves(w, w') && forall o :: ViewOk(ViewAt(w, o))
    ensures forall p :: p in w.recon ==> ReconOk(w', w.recon[p])
  {
    forall p | p in w.recon ensures ReconOk(w', w.recon[p]) {
      assert ReconOk(w, w.recon[p]);
      ReconFrameOne(w, w', w.recon[p]);
    }
  }

  lemma ReconFrameOne(w: World, w': World, r: Recon)
    requires ReconOk(w, r) && Evolves(w, w')
    requires forall o :: ViewOk(ViewAt(w, o))
    ensures ReconOk(w', r)
  {
    if !r.Ended() { assert Firm(ViewAt(w, r.o), ViewAt(w', r.o)); }
  }

  lemma OrchFrame(w: World, w': World)
    requires OrchOk(w) && Evolves(w, w') && forall o :: Grows(ViewAt(w, o), ViewAt(w', o))
    requires w'.orch == w.orch && w'.pending.Keys <= w.pending.Keys
    requires forall o :: ViewAt(w', o).attempted ==> ViewAt(w, o).attempted
    requires forall t :: t in w.att.threads ==> t in w'.att.threads
    ensures OrchOk(w')
  {
    if !w.orch.Idle? && !w.orch.Fetching? && !w.orch.FindingLatest? {
      assert Grows(ViewAt(w, w.orch.o), ViewAt(w', w.orch.o));
    }
  }

  // ---------------------------------------------------------------- the journal

  lemma {:induction false} NoLiability(lines: seq<Line>, c: nat)
    requires forall i :: 0 <= i < |lines| ==> !(lines[i].account.Liability? && lines[i].account.asset.TRC20?)
    ensures LineBalance(lines, Liability(c, TRC20)) == 0
  {
    if lines != [] { NoLiability(lines[..|lines| - 1], c); }
  }

  lemma ForeignEntryOk(orders: seq<Order>, e: Entry)
    requires IsForeign(e) && Balanced(e.lines)
    ensures EntryOk(orders, e)
  {
    forall c ensures LineBalance(e.lines, Liability(c, TRC20)) == Effect(orders, e.key, c) { NoLiability(e.lines, c); }
  }

  lemma ReversalEntryOk(l: Ledger, i: nat, at: nat)
    requires JournalOk(l) && i < |l.journal| && (l.journal[i].key.Conversion? || l.journal[i].key.Foreign?)
    ensures EntryOk(l.orders, Entry(Reversal(l.journal[i].key), Negated(l.journal[i].lines), at))
  {
    var e := l.journal[i];
    assert EntryOk(l.orders, e);
    NegatedSums(e.lines, BEP20, Corridor(BEP20));
    NegatedSums(e.lines, TRC20, Corridor(BEP20));
    forall c ensures LineBalance(Negated(e.lines), Liability(c, TRC20)) == Effect(l.orders, Reversal(e.key), c) {
      NegatedSums(e.lines, TRC20, Liability(c, TRC20));
    }
  }

  lemma AppendJournalOk(l: Ledger, e: Entry)
    requires JournalOk(l) && EntryOk(l.orders, e) && !Has(l.journal, e.key)
    ensures JournalOk(l.(journal := l.journal + [e]))
  {}

  /** Moving orders along, or quoting a new one, changes no entry's effect. */
  lemma OrdersJournalOk(l: Ledger, orders: seq<Order>)
    requires JournalOk(l) && SameQuotes(l.orders, orders)
    requires forall i :: 0 <= i < |l.journal| ==> KeyKnown(l, l.journal[i].key)
    ensures JournalOk(l.(orders := orders))
  {
    forall i | 0 <= i < |l.journal| ensures EntryOk(orders, l.journal[i]) {
      assert EntryOk(l.orders, l.journal[i]) && KeyKnown(l, l.journal[i].key);
      forall c ensures Effect(orders, l.journal[i].key, c) == Effect(l.orders, l.journal[i].key, c) {}
    }
  }

  ghost predicate KeyKnown(l: Ledger, key: Key) {
    match key
    case Conversion(o) => o < |l.orders|
    case Settlement(o, _) => o < |l.orders|
    case Reversal(k) => k.Conversion? ==> k.order < |l.orders|
    case Foreign(_) => true
  }

  lemma KeysKnown(w: World)
    requires Inv(w)
    ensures forall i :: 0 <= i < |w.ledger.journal| ==> KeyKnown(w.ledger, w.ledger.journal[i].key)
  {
    var l := w.ledger;
    forall i | 0 <= i < |l.journal| ensures KeyKnown(l, l.journal[i].key) {
      var key := l.journal[i].key;
      assert Has(l.journal, key);
      match key
      case Conversion(o) => assert ViewOk(ViewAt(w, o));
      case Settlement(o, n) => assert ViewOk(ViewAt(w, o)) && ViewAt(w, o).paid;
      case Reversal(k) => if k.Conversion? { assert ViewOk(ViewAt(w, k.order)); }
      case Foreign(_) =>
    }
  }

  // ---------------------------------------------------------------- steps of C1

  /** A step that changes C1 only. */
  lemma LedgerStep(w: World, l: Ledger)
    requires Inv(w) && JournalOk(l) && w.ledger.journal <= l.journal && SameQuotes(w.ledger.orders, l.orders)
    requires forall o :: ViewOk(ViewAt(w.(ledger := l), o)) && Grows(ViewAt(w, o), ViewAt(w.(ledger := l), o))
    ensures Inv(w.(ledger := l))
  {
    var w' := w.(ledger := l);
    OrchFrame(w, w');
    ReconFrame(w, w');
    forall t | t in w'.att.threads ensures AttemptThreadOk(w', t) { assert AttemptThreadOk(w, t); }
    forall o | o in w'.pending ensures ViewAt(w', o).converted { assert Grows(ViewAt(w, o), ViewAt(w', o)); }
  }

  lemma QuoteKeeps(w: World, order: Order)
    requires Inv(w)
    ensures Inv(Step(w, Quote(order)))
  {
    if order.state.Quoted? {
      var orders := w.ledger.orders + [order];
      var l := w.ledger.(orders := orders);
      KeysKnown(w);
      OrdersJournalOk(w.ledger, orders);
      forall o ensures ViewOk(ViewAt(w.(ledger := l), o)) && Grows(ViewAt(w, o), ViewAt(w.(ledger := l), o)) {
        assert ViewOk(ViewAt(w, o));
      }
      LedgerStep(w, l);
    }
  }

  /** How a View sees one more entry. */
  lemma ViewAppend(l: Ledger, rows: A.Table, local: map<nat, LocalRow>, e: Entry, o: nat)
    requires !Has(l.journal, e.key)
    ensures
      var v, v' := ViewOf(l, rows, local, o), ViewOf(l.(journal := l.journal + [e]), rows, local, o);
      && v'.converted == (v.converted || e.key == Conversion(o))
      && v'.reversed == (v.reversed || e.key == Reversal(Conversion(o)))
      && v'.paid == (v.paid || (e.key.Settlement? && e.key.order == o))
      && (v.paidOnce && !(v.paid && e.key.Settlement? && e.key.order == o) ==> v'.paidOnce)
      && v' == v.(converted := v'.converted, reversed := v'.reversed, paid := v'.paid, paidOnce := v'.paidOnce)
  {
    HasAppend(l.journal, e, Conversion(o));
    HasAppend(l.journal, e, Reversal(Conversion(o)));
    PaidAppend(l.journal, e, o);
  }

  lemma PaidAppend(j: Journal, e: Entry, o: nat)
    requires !Has(j, e.key)
    ensures Paid(j + [e], o) <==> (Paid(j, o) || (e.key.Settlement? && e.key.order == o))
    ensures PaidOnce(j, o) && !(Paid(j, o) && e.key.Settlement? && e.key.order == o) ==> PaidOnce(j + [e], o)
  {
    forall n ensures Has(j + [e], Settlement(o, n)) <==> (Has(j, Settlement(o, n)) || e.key == Settlement(o, n)) {
      HasAppend(j, e, Settlement(o, n));
    }
    if e.key.Settlement? && e.key.order == o { assert Has(j + [e], Settlement(o, e.key.attempt)); }
    if Paid(j, o) {
      var n :| Has(j, Settlement(o, n));
      assert Has(j + [e], Settlement(o, n));
    }
  }

  /** One more entry that is no conversion, settlement or conversion's reversal. */
  lemma ForeignAppendKeeps(w: World, e: Entry)
    requires Inv(w) && EntryOk(w.ledger.orders, e) && !Has(w.ledger.journal, e.key)
    requires e.key.Foreign? || (e.key.Reversal? && e.key.of.Foreign?)
    ensures Inv(w.(ledger := w.ledger.(journal := w.ledger.journal + [e])))
  {
    var l := w.ledger.(journal := w.ledger.journal + [e]);
    AppendJournalOk(w.ledger, e);
    forall o ensures ViewOk(ViewAt(w.(ledger := l), o)) && Grows(ViewAt(w, o), ViewAt(w.(ledger := l), o)) {
      assert ViewOk(ViewAt(w, o));
      ViewAppend(w.ledger, w.att.rows, w.local, e, o);
    }
    LedgerStep(w, l);
  }

  lemma PostForeignKeeps(w: World, e: Entry)
    requires Inv(w)
    ensures Inv(Step(w, PostForeign(e)))
  {
    if IsForeign(e) && Post(w.ledger.journal, e).Posted? {
      ForeignEntryOk(w.ledger.orders, e);
      ForeignAppendKeeps(w, e);
    }
  }

  lemma ReverseForeignKeeps(w: World, i: nat, at: nat)
    requires Inv(w)
    ensures Inv(Step(w, ReverseForeign(i, at)))
  {
    var l := w.ledger;
    if i < |l.journal| && l.journal[i].key.Foreign? && Reverse(l.journal, i, at).Reversed? {
      ReversalEntryOk(l, i, at);
      ForeignAppendKeeps(w, Entry(Reversal(l.journal[i].key), Negated(l.journal[i].lines), at));
    }
  }

  lemma HaltKeeps(w: World, halted: bool)
    requires Inv(w)
    ensures Inv(Step(w, SetHalt(halted)))
  {
    var l := w.ledger.(halted := halted);
    forall o ensures ViewOk(ViewAt(w.(ledger := l), o)) && Grows(ViewAt(w, o), ViewAt(w.(ledger := l), o)) {
      assert ViewAt(w.(ledger := l), o) == ViewAt(w, o);
      assert ViewOk(ViewAt(w, o));
    }
    LedgerStep(w, l);
  }

  /** Another component's legal move of an order, without its entry. */
  lemma StateMoveKeeps(w: World, o: nat, to: OrderState)
    requires Inv(w) && o < |w.ledger.orders|
    requires Legal(w.ledger.orders[o].state, to) && !Dispatchers(w.ledger.orders[o].state, to)
    requires to.Screened? ==> !Has(w.ledger.journal, Conversion(o))
    ensures
      Inv(w.(ledger := w.ledger.(orders := w.ledger.orders[o := Moved(w.ledger.orders[o], to)])))
  {
    var orders := w.ledger.orders[o := Moved(w.ledger.orders[o], to)];
    var l := w.ledger.(orders := orders);
    KeysKnown(w);
    OrdersJournalOk(w.ledger, orders);
    forall q ensures ViewOk(ViewAt(w.(ledger := l), q)) && Grows(ViewAt(w, q), ViewAt(w.(ledger := l), q)) {
      assert ViewOk(ViewAt(w, q));
      assert ViewAt(w.(ledger := l), q) == ViewAt(w, q).(state := ViewAt(w.(ledger := l), q).state);
    }
    LedgerStep(w, l);
  }

  lemma MoveKeeps(w: World, o: nat, to: OrderState, cause: Option<Entry>)
    requires Inv(w)
    ensures Inv(Step(w, Move(o, to, cause)))
  {
    var w' := Step(w, Move(o, to, cause));
    if w' != w {
      assert Legal(w.ledger.orders[o].state, to);
      StateMoveKeeps(w, o, to);
      var w1 := w.(ledger := w.ledger.(orders := w.ledger.orders[o := Moved(w.ledger.orders[o], to)]));
      if w' != w1 {
        assert cause.Some? && w' == w1.(ledger := w1.ledger.(journal := w1.ledger.journal + [cause.value]));
        ForeignEntryOk(w1.ledger.orders, cause.value);
        ForeignAppendKeeps(w1, cause.value);
      }
    }
  }
}
