/** The runs behind MissedMarks, spelled out from the beginning: a pass that dies between C1's hold
    and MarkHeld, and a confirmation whose settlement is acknowledged to nobody and whose retry,
    under a new timestamp, C1 refuses. */
module MissedMarkRuns {
  import opened Common
  import A = Attempts
  import B = BroadcastProtocol
  import P = BroadcastProgress
  import opened Ledger
  import opened Lifecycle
  import opened LifecycleInvariant
  import R = ReconciliationSafety
  import T = LifecycleTheorems
  import H = HeldRelease
  import opened MissedMarks

  /** A run spelled out state by state. */
  lemma {:induction false} RunUnfold(w: World, acts: seq<Action>, states: seq<World>)
    requires |acts| == |states| > 0 && states[0] == Step(w, acts[0])
    requires forall i :: 0 < i < |acts| ==> states[i] == Step(states[i - 1], acts[i])
    ensures Run(w, acts) == states[|states| - 1]
    decreases |acts|
  {
    if |acts| == 1 {
      assert acts[1..] == [];
    } else {
      RunUnfold(states[0], acts[1..], states[1..]);
    }
  }

  // ---------------------------------------------------------------- an order that is dispatched

  function OrderIn(state: OrderState, version: nat): Order { Order(0, false, 4, 2, 1, 1, state, version) }

  const FUNDING := Entry(Foreign(0), [Line(Other(BEP20, 0), 1), Line(Other(BEP20, 0), -1)], 0)
  const E2 := Entry(Conversion(0), ConversionLines(OrderIn(Screened, 2)), 5)
  const ARGS := B.Args(0, 1, 1, [])
  const QUOTED := [Quote(OrderIn(Quoted, 0)), Move(0, Funded, Some(FUNDING)), Move(0, Screened, None)]
  const ENTERED := [Dispatch(0), OrchStep(Ok, 0, 0, [], 0), OrchStep(Ok, 0, 0, [], 0), OrchStep(Ok, 1, 5, [], 0)]
  const RECORDED := [OrchStep(Ok, 0, 0, [], 0), OrchStep(Ok, 0, 0, [], 0), OrchStep(Ok, 0, 0, [], 0)]

  function Before(ledger: Ledger, orch: Orch): World { World(ledger, B.INIT, map[], orch, map[], map[]) }

  function Screened2(): Ledger { Ledger([OrderIn(Screened, 2)], [FUNDING], false) }

  function Dispatching3(): Ledger { Ledger([OrderIn(Dispatching, 3)], [FUNDING, E2], false) }

  lemma FundingAcceptable()
    ensures Acceptable(FUNDING.lines) && Post([], FUNDING) == Posted([FUNDING])
  {
    var ls := FUNDING.lines;
    assert ls[..1] == [ls[0]] && ls[..1][..0] == [];
    assert LineSum(ls[..1], BEP20) == 1 && LineSum(ls[..1], TRC20) == 0;
    assert [] + [FUNDING] == [FUNDING];
  }

  lemma QuotedRun()
    ensures Run(Init(), QUOTED) == Before(Screened2(), Idle)
  {
    FundingAcceptable();
    var quoted, funded := Ledger([OrderIn(Quoted, 0)], [], false), Ledger([OrderIn(Funded, 1)], [FUNDING], false);
    assert [] + [OrderIn(Quoted, 0)] == [OrderIn(Quoted, 0)];
    assert Step(Before(quoted, Idle), QUOTED[1]) == Before(funded, Idle);
    assert Step(Before(funded, Idle), QUOTED[2]) == Before(Screened2(), Idle);
    RunUnfold(Init(), QUOTED, [Before(quoted, Idle), Before(funded, Idle), Before(Screened2(), Idle)]);
  }

  lemma EnteredRun()
    ensures Run(Before(Screened2(), Idle), ENTERED) ==
      Before(Screened2(), Entering(0, OrderIn(Screened, 2), 1, 5, 2, false))
  {
    var snap := OrderIn(Screened, 2);
    RunUnfold(Before(Screened2(), Idle), ENTERED, [
      Before(Screened2(), Fetching(0)), Before(Screened2(), Looking(0, snap)),
      Before(Screened2(), Selecting(0, snap)), Before(Screened2(), Entering(0, snap, 1, 5, 2, false))]);
  }

  lemma Converted()
    ensures Transition(Screened2(), 0, Dispatching, 2, Inline(E2)) == (Verdict.Done, Dispatching3())
  {
    ConversionBalance(OrderIn(Screened, 2));
    assert !Has(Screened2().journal, Conversion(0));
    assert [FUNDING] + [E2] == [FUNDING, E2];
    assert Screened2().orders[0 := Moved(OrderIn(Screened, 2), Dispatching)] == [OrderIn(Dispatching, 3)];
  }

  function WithRow(orch: Orch): World { Before(Dispatching3(), orch).(local := map[0 := LocalRow(1, LDispatching, 5)]) }

  function SendingWorld(): World {
    WithRow(Sending(0, 0)).(pending := map[0 := ARGS], att := B.INIT.At(0, B.Inserting(ARGS)))
  }

  lemma RecordedRun()
    ensures Run(Before(Screened2(), Entering(0, OrderIn(Screened, 2), 1, 5, 2, false)), RECORDED) == SendingWorld()
  {
    Converted();
    assert Step(WithRow(Building(0, 1)), RECORDED[2]) == SendingWorld();
    RunUnfold(Before(Screened2(), Entering(0, OrderIn(Screened, 2), 1, 5, 2, false)), RECORDED, [
      Before(Dispatching3(), Recording(0, 1, 5)), WithRow(Building(0, 1)), SendingWorld()]);
  }

  const SENDING := QUOTED + ENTERED + RECORDED

  lemma SendingRun()
    ensures Run(Init(), SENDING) == SendingWorld()
  {
    QuotedRun();
    EnteredRun();
    RecordedRun();
    T.RunConcat(Init(), QUOTED, ENTERED);
    T.RunConcat(Init(), QUOTED + ENTERED, RECORDED);
  }

  // ---------------------------------------------------------------- a pass dies before MarkHeld

  const REJECTED := [OrchBroadcast(B.Ok), OrchBroadcast(B.Ok), OrchBroadcast(B.S1Rejected), OrchBroadcast(B.Ok)]
  const REVERSED :=
    [Reconcile(0, 0), ReconStep(0, Ok, 0), ReconStep(0, Ok, 0), ReconStep(0, Ok, 0), ReconStep(0, Ok, 6)]
  const DYING := [ReconStep(0, Ok, 0), ReconStep(0, Failed, 0)]
  const FAILED_ROW := A.NewRow(0, 1, 1, Sha256([])).(status := A.Failed)
  const UNDONE := Entry(Reversal(Conversion(0)), Negated(E2.lines), 6)

  function FailedWorld(ledger: Ledger, recon: map<nat, Recon>): World {
    World(ledger, B.World([FAILED_ROW], map[], map[0 := B.Done(B.SignatureRejected)], [], {}),
      map[0 := LocalRow(1, LDispatching, 5)], Idle, map[], recon)
  }

  function Signing(rows: A.Table, pc: B.Pc): World {
    SendingWorld().(att := B.World(rows, map[], map[0 := pc], [], {}))
  }

  lemma InsertedStep()
    ensures Step(SendingWorld(), OrchBroadcast(B.Ok)) == Signing([A.NewRow(0, 1, 1, Sha256([]))], B.Checking(ARGS, 0))
  {
    assert [] + [A.NewRow(0, 1, 1, Sha256([]))] == [A.NewRow(0, 1, 1, Sha256([]))];
  }

  lemma RejectedStep()
    ensures Step(Signing([A.NewRow(0, 1, 1, Sha256([]))], B.Rejecting(0)), OrchBroadcast(B.Ok)) ==
      FailedWorld(Dispatching3(), map[])
  {
    assert A.MarkFailed([A.NewRow(0, 1, 1, Sha256([]))], 0) == [FAILED_ROW];
    assert map[0 := ARGS] - {0} == map[];
  }

  lemma AskedStep(rows: A.Table)
    requires |rows| == 1 && rows[0].status == A.Built
    ensures Step(Signing(rows, B.Checking(ARGS, 0)), OrchBroadcast(B.Ok)) == Signing(rows, B.Requesting(ARGS, 0))
  {}

  lemma AnsweredStep(rows: A.Table)
    ensures Step(Signing(rows, B.Requesting(ARGS, 0)), OrchBroadcast(B.S1Rejected)) == Signing(rows, B.Rejecting(0))
  {}

  lemma RejectedRun()
    ensures Run(SendingWorld(), REJECTED) == FailedWorld(Dispatching3(), map[])
  {
    var built := [A.NewRow(0, 1, 1, Sha256([]))];
    InsertedStep();
    AskedStep(built);
    AnsweredStep(built);
    RejectedStep();
    RunUnfold(SendingWorld(), REJECTED, [Signing(built, B.Checking(ARGS, 0)), Signing(built, B.Requesting(ARGS, 0)),
      Signing(built, B.Rejecting(0)), FailedWorld(Dispatching3(), map[])]);
  }

  lemma ReversedRun()
    ensures Run(FailedWorld(Dispatching3(), map[]), REVERSED)
      == FailedWorld(Ledger([OrderIn(Dispatching, 3)], [FUNDING, E2, UNDONE], false), map[0 := Holding(0, 3, 2, false)])
  {
    var l, l' := Dispatching3(), Ledger([OrderIn(Dispatching, 3)], [FUNDING, E2, UNDONE], false);
    assert l.journal[1].key == Conversion(0) && Find(l.journal, Conversion(0)) == Some(1);
    assert Reverse(l.journal, 1, 6) == Reversed(l'.journal) by {
      assert !Has(l.journal, Reversal(Conversion(0)));
      assert l.journal + [UNDONE] == l'.journal;
    }
    var w1, w2 := FailedWorld(l, map[0 := Examining(0)]), FailedWorld(l, map[0 := FetchingFailed(0)]);
    var w3, w4 := FailedWorld(l, map[0 := Resolving(0, 3)]), FailedWorld(l, map[0 := Reversing(0, 3, 1)]);
    assert A.LatestForOrder([FAILED_ROW], 0) == Some(0);
    assert Step(w1, REVERSED[1]) == w2;
    assert Step(w4, REVERSED[4]) == FailedWorld(l', map[0 := Holding(0, 3, 2, false)]);
    RunUnfold(FailedWorld(l, map[]), REVERSED, [w1, w2, w3, w4, FailedWorld(l', map[0 := Holding(0, 3, 2, false)])]);
  }

  lemma DyingRun()
    ensures Run(FailedWorld(Ledger([OrderIn(Dispatching, 3)], [FUNDING, E2, UNDONE], false),
      map[0 := Holding(0, 3, 2, false)]), DYING)
      == FailedWorld(Ledger([OrderIn(Held, 4)], [FUNDING, E2, UNDONE], false), map[0 := Over])
  {
    var l, l' := Ledger([OrderIn(Dispatching, 3)], [FUNDING, E2, UNDONE], false),
      Ledger([OrderIn(Held, 4)], [FUNDING, E2, UNDONE], false);
    assert l.orders[0 := Moved(OrderIn(Dispatching, 3), Held)] == l'.orders;
    assert Transition(l, 0, Held, 3, Existing(2)) == (Verdict.Done, l');
    RunUnfold(FailedWorld(l, map[0 := Holding(0, 3, 2, false)]), DYING,
      [FailedWorld(l', map[0 := MarkingHeld(0)]), FailedWorld(l', map[0 := Over])]);
  }

  /** S1 rejects the signature, a pass reverses the conversion and holds the order, and dies: from
      then on the row stays DISPATCHING for good. */
  lemma PassDies(after: seq<Action>)
    ensures Missed(Run(Init(), SENDING + REJECTED + REVERSED + DYING + after), 0)
  {
    SendingRun();
    RejectedRun();
    ReversedRun();
    DyingRun();
    T.RunConcat(Init(), SENDING, REJECTED);
    T.RunConcat(Init(), SENDING + REJECTED, REVERSED);
    T.RunConcat(Init(), SENDING + REJECTED + REVERSED, DYING);
    T.RunConcat(Init(), SENDING + REJECTED + REVERSED + DYING, after);
    var w := Run(Init(), SENDING + REJECTED + REVERSED + DYING);
    assert w.ledger.journal[1].key == Conversion(0);
    MissedForever(w, after, 0);
  }

  // ---------------------------------------------------------------- a retry C1 refuses

  /** confirmOne up to MarkSettled, on this clock. */
  function Confirming(o: nat, at: nat, reply: Reply): seq<Action> {
    [Confirm(o), OrchStep(Ok, 0, 0, [], 0), OrchStep(Ok, 0, 0, [], 0), OrchStep(Ok, 0, at, [], 0),
      OrchStep(reply, 0, 0, [], 0)]
  }

  /** What confirmOne asks C1 to post for the attempt. */
  function Request(w: World, o: nat, id: nat, at: nat): Entry
    requires o < |w.ledger.orders| && id < |w.att.rows|
  {
    Entry(Settlement(o, w.att.rows[id].number), SettlementLines(w.ledger.orders[o], w.att.rows[id].slot), at)
  }

  /** The one attempt of a paid order that is not marked yet is BROADCAST. */
  lemma SentRowOf(w: World, o: nat) returns (id: nat)
    requires Inv(w) && o < |w.ledger.orders| && w.ledger.orders[o].state.Settled?
      && o in w.local && w.local[o].status.LDispatching?
    ensures A.LatestForOrder(w.att.rows, o) == Some(id) && id < |w.att.rows| && w.att.rows[id].status == A.Broadcast
  {
    assert ViewOk(ViewAt(w, o)) && ViewAt(w, o).sent;
    id :| RowOf(w.att.rows, id, o) && (w.att.rows[id].status.Broadcast? || w.att.rows[id].status.Confirmed?);
  }

  /** The run of confirmOne up to its settlement request. */
  lemma ConfirmAsks(w: World, o: nat, id: nat, at: nat, reply: Reply)
    requires w.orch.Idle? && o in w.local && o < |w.ledger.orders|
    requires A.LatestForOrder(w.att.rows, o) == Some(id) && id < |w.att.rows| && w.att.rows[id].status == A.Broadcast
    ensures
      var order := w.ledger.orders[o];
      Run(w, Confirming(o, at, reply)) ==
        Step(w.(orch := Settling(o, order, id, at, order.version, false)), OrchStep(reply, 0, 0, [], 0))
  {
    var order := w.ledger.orders[o];
    var w4 := w.(orch := Settling(o, order, id, at, order.version, false));
    H.RunFive(w, Confirming(o, at, reply), w.(orch := FindingLatest(o)), w.(orch := FetchingFinal(o, id)),
              w.(orch := Polling(o, order, id)), w4, Step(w4, OrchStep(reply, 0, 0, [], 0)));
  }

  /** confirmOne once more on an order C1 has settled while its row is DISPATCHING: it gets as far as
      marking the row if and only if it asks with the lines and the timestamp of the settlement C1
      already has; it changes nothing in C1 either way. */
  lemma ConfirmAgainIff(w: World, o: nat, at: nat) returns (id: nat)
    requires Inv(w) && w.orch.Idle? && o < |w.ledger.orders| && w.ledger.orders[o].state.Settled?
    requires o in w.local && w.local[o].status.LDispatching?
    ensures A.LatestForOrder(w.att.rows, o) == Some(id) && id < |w.att.rows|
    ensures Run(w, Confirming(o, at, Ok)) ==
      w.(orch := if w.ledger.orders[o].amountOut != 0 && Recorded(w.ledger.journal, Request(w, o, id, at))
        then MarkingSettled(o, id) else Idle)
  {
    id := SentRowOf(w, o);
    ConfirmAsks(w, o, id, at, Ok);
    SettlementBalance(w.ledger.orders[o], w.att.rows[id].slot);
    if w.ledger.orders[o].amountOut != 0 {
      SettlementRetryIff(w, o, Request(w, o, id, at));
    } else {
      assert Request(w, o, id, at).lines[0].amount == 0;
    }
  }

  const E3 := Entry(Settlement(0, 1), SettlementLines(OrderIn(Dispatching, 3), 1), 10)

  function Granted(sig: Bytes): seq<B.Reply> { [B.Ok, B.Ok, B.S1Signed(sig), B.Ok, B.Ok, B.ChainAccepted(0), B.Ok] }

  function PaidRow(sig: Bytes): A.Row { A.Row(0, 1, 1, Sha256([]), Some(sig), Some(0), A.Broadcast) }

  function PaidWorld(ledger: Ledger, sig: Bytes): World {
    World(ledger,
      B.World([PaidRow(sig)], map[], map[0 := B.Done(B.Returned(PaidRow(sig)))],
        [B.Call(0, B.SignedTx([], sig), true, B.Committed)], {}),
      map[0 := LocalRow(1, LDispatching, 5)], Idle, map[], map[])
  }

  function Settled4(): Ledger { Ledger([OrderIn(Settled, 4)], [FUNDING, E2, E3], false) }

  lemma PaidRun(sig: Bytes)
    requires |sig| == 65
    ensures Run(SendingWorld(), H.Broadcasts(Granted(sig))) == PaidWorld(Dispatching3(), sig)
  {
    P.FreshBroadcastSends(B.INIT, 0, ARGS, sig, 0);
    H.OrchAnswered(SendingWorld(), Granted(sig));
    assert map[0 := ARGS] - {0} == map[];
  }

  lemma SettledAt10()
    ensures Transition(Dispatching3(), 0, Settled, 3, Inline(E3)) == (Verdict.Done, Settled4())
  {
    SettlementBalance(OrderIn(Dispatching, 3), 1);
    assert !Has(Dispatching3().journal, Settlement(0, 1));
    assert Dispatching3().journal + [E3] == Settled4().journal;
    assert Dispatching3().orders[0 := Moved(OrderIn(Dispatching, 3), Settled)] == Settled4().orders;
  }

  lemma LostStep(w: World, o: nat, snap: Order, id: nat, at: nat, version: nat, e: Entry, l: Ledger)
    requires id < |w.att.rows|
      && e == Entry(Settlement(o, w.att.rows[id].number), SettlementLines(snap, w.att.rows[id].slot), at)
    requires Transition(w.ledger, o, Settled, version, Inline(e)) == (Verdict.Done, l)
    ensures Step(w.(orch := Settling(o, snap, id, at, version, false)), OrchStep(Lost, 0, 0, [], 0)) ==
      w.(ledger := l, orch := Idle)
  {}

  lemma LostRun(sig: Bytes)
    ensures Run(PaidWorld(Dispatching3(), sig), Confirming(0, 10, Lost)) == PaidWorld(Settled4(), sig)
  {
    var w := PaidWorld(Dispatching3(), sig);
    assert A.LatestForOrder([PaidRow(sig)], 0) == Some(0);
    ConfirmAsks(w, 0, 0, 10, Lost);
    SettledAt10();
    LostStep(w, 0, OrderIn(Dispatching, 3), 0, 10, 3, E3, Settled4());
  }

  lemma SettledUnheard(sig: Bytes)
    requires |sig| == 65
    ensures Run(Init(), SENDING + H.Broadcasts(Granted(sig)) + Confirming(0, 10, Lost)) == PaidWorld(Settled4(), sig)
  {
    SendingRun();
    PaidRun(sig);
    LostRun(sig);
    T.RunConcat(Init(), SENDING, H.Broadcasts(Granted(sig)));
    T.RunConcat(Init(), SENDING + H.Broadcasts(Granted(sig)), Confirming(0, 10, Lost));
  }

  /** The order is paid, C1 settles it at time 10, the response is lost. The next confirmation, on a
      later clock, is refused, and the row stays DISPATCHING. */
  lemma RetryIsRefused(sig: Bytes, later: nat)
    requires |sig| == 65 && later != 10
    ensures
      var w := Run(Init(), SENDING + H.Broadcasts(Granted(sig)) + Confirming(0, 10, Lost) + Confirming(0, later, Ok));
      && |w.ledger.orders| == 1 && w.ledger.orders[0].state.Settled? && w.orch.Idle?
      && 0 in w.local && w.local[0].status.LDispatching?
  {
    SettledUnheard(sig);
    T.RunConcat(Init(), SENDING + H.Broadcasts(Granted(sig)) + Confirming(0, 10, Lost), Confirming(0, later, Ok));
    T.Reachable(SENDING + H.Broadcasts(Granted(sig)) + Confirming(0, 10, Lost));
    var id := ConfirmAgainIff(PaidWorld(Settled4(), sig), 0, later);
  }
}
