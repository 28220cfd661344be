/** The dispatcher's books: what its entries add up to on every account, in every run. Other
    components post to some of these accounts too; the sums here are over the dispatcher's own. */
module Books {
  import opened Common
  import A = Attempts
  import B = BroadcastProtocol
  import S = BroadcastSafety
  import opened Ledger
  import opened Lifecycle
  import opened LifecycleInvariant
  import opened LifecycleSafety
  import opened LedgerGrowth
  import O = OrchestratorSafety
  import R = ReconciliationSafety
  import C = Conservation

  // ---------------------------------------------------------------- what the entries say

  /** A conversion carries its order's amounts, a settlement those of the attempt that was sent, and
      a conversion's reversal the opposite of the conversion. */
  ghost predicate Written(orders: seq<Order>, rows: A.Table, e: Entry) {
    match e.key
    case Conversion(o) => o < |orders| && e.lines == ConversionLines(orders[o])
    case Settlement(o, n) => o < |orders| && exists r: nat :: SettledBy(orders, rows, e, r)
    case Reversal(k) => k.Conversion? ==> k.order < |orders| && e.lines == Negated(ConversionLines(orders[k.order]))
    case Foreign(_) => true
  }

  ghost predicate SettledBy(orders: seq<Order>, rows: A.Table, e: Entry, r: nat)
    requires e.key.Settlement? && e.key.order < |orders|
  {
    && RowOf(rows, r, e.key.order) && rows[r].number == e.key.attempt
    && e.lines == SettlementLines(orders[e.key.order], rows[r].slot)
  }

  ghost predicate AllWritten(w: World) {
    forall i :: 0 <= i < |w.ledger.journal| ==> Written(w.ledger.orders, w.att.rows, w.ledger.journal[i])
  }

  /** Attempt rows keep their order, number and slot. */
  ghost predicate SameRows(rows: A.Table, rows': A.Table) {
    && |rows| <= |rows'|
    && forall r :: 0 <= r < |rows| ==>
         rows'[r].order == rows[r].order && rows'[r].number == rows[r].number && rows'[r].slot == rows[r].slot
  }

  lemma ForwardRows(w: B.World, w': B.World)
    requires S.Forward(w, w')
    ensures SameRows(w.rows, w'.rows)
  {
    forall r | 0 <= r < |w.rows|
      ensures w'.rows[r].order == w.rows[r].order && w'.rows[r].number == w.rows[r].number
      ensures w'.rows[r].slot == w.rows[r].slot
    {
      assert S.RowForward(w, w', r);
    }
  }

  lemma AttemptRows(w: B.World, act: B.Action)
    requires B.Inv(w)
    ensures SameRows(w.rows, B.Step(w, act).rows)
  {
    S.StepForward(w, act);
    ForwardRows(w, B.Step(w, act));
  }

  lemma StepRows(w: World, act: Action)
    requires Inv(w)
    ensures SameRows(w.att.rows, Step(w, act).att.rows)
  {
    match act
    case OrchStep(reply, slot, at, tx, t) => OrchRows(w, reply, slot, at, tx, t);
    case OrchBroadcast(answer) => BroadcastRows(w, answer);
    case OrchCrash => if w.orch.Sending? { AttemptRows(w.att, B.Crash(w.orch.t)); }
    case ReconStep(p, reply, at) => if p in w.recon { ReconRows(w, p, w.recon[p], reply, at); }
    case Freeze(t, id) => AttemptRows(w.att, B.StartFreeze(t, id));
    case FreezeStep(t, answer) => AttemptRows(w.att, B.Advance(t, answer));
    case FreezeCrash(t) => AttemptRows(w.att, B.Crash(t));
    case _ =>
  }

  lemma BroadcastRows(w: World, answer: B.Reply)
    requires Inv(w)
    ensures SameRows(w.att.rows, DoBroadcast(w, answer).att.rows)
  {
    if w.orch.Sending? { AttemptRows(w.att, B.Advance(w.orch.t, answer)); }
  }

  lemma ReconRows(w: World, p: nat, r: Recon, reply: Reply, at: nat)
    ensures DoRecon(w, p, r, reply, at).att == w.att
  {}

  lemma OrchRows(w: World, reply: Reply, slot: nat, at: nat, tx: Bytes, t: nat)
    ensures SameRows(w.att.rows, DoOrch(w, reply, slot, at, tx, t).att.rows)
  {
    if w.orch.Entering? {
      var c := w.orch;
      assert DoEnter(w, reply, c.o, c.snap, c.slot, c.at, c.version, c.retried).att == w.att;
    } else if w.orch.Settling? {
      var c := w.orch;
      assert DoSettle(w, reply, c.o, c.snap, c.id, c.at, c.version, c.retried).att == w.att;
    } else if w.orch.Building? {
      assert DoBuild(w, w.orch.o, w.orch.slot, tx, t).att.rows == w.att.rows;
    }
  }

  lemma SameLines(orders: seq<Order>, orders': seq<Order>, o: nat)
    requires SameQuotes(orders, orders') && o < |orders|
    ensures ConversionLines(orders'[o]) == ConversionLines(orders[o])
    ensures forall slot :: SettlementLines(orders'[o], slot) == SettlementLines(orders[o], slot)
  {
    var s, t := orders[o].(state := Quoted, version := 0), orders'[o].(state := Quoted, version := 0);
    assert s == t && s.amountIn == t.amountIn && s.amountOut == t.amountOut && s.fee == t.fee
        && s.networkFee == t.networkFee && s.customer == t.customer;
  }

  lemma StaysWritten(orders: seq<Order>, rows: A.Table, orders': seq<Order>, rows': A.Table, e: Entry)
    requires Written(orders, rows, e) && SameQuotes(orders, orders') && SameRows(rows, rows')
    ensures Written(orders', rows', e)
  {
    match e.key
    case Conversion(o) => SameLines(orders, orders', o);
    case Settlement(o, n) =>
      SameLines(orders, orders', o);
      var r: nat :| SettledBy(orders, rows, e, r);
      assert SettledBy(orders', rows', e, r);
    case Reversal(k) => if k.Conversion? { SameLines(orders, orders', k.order); }
    case Foreign(_) =>
  }

  lemma NewIsWritten(w: World, e: Entry)
    requires Inv(w) && AllWritten(w) && Appends(w, e)
    ensures Written(w.ledger.orders, w.att.rows, e)
  {
    match e.key
    case Conversion(o) => O.SameQuoteSame(w, o, w.orch.snap);
    case Settlement(o, n) =>
      O.SameQuoteSame(w, o, w.orch.snap);
      assert SettledBy(w.ledger.orders, w.att.rows, e, w.orch.id);
    case Reversal(k) =>
      var i :| 0 <= i < |w.ledger.journal| && w.ledger.journal[i].key == k
        && e.lines == Negated(w.ledger.journal[i].lines);
      assert Written(w.ledger.orders, w.att.rows, w.ledger.journal[i]);
    case Foreign(_) =>
  }

  lemma GrownIsWritten(w: World, l: Ledger, rows: A.Table, i: nat)
    requires Inv(w) && AllWritten(w) && LedgerGrows(w, l) && SameRows(w.att.rows, rows) && i < |l.journal|
    ensures Written(l.orders, rows, l.journal[i])
  {
    var e := l.journal[i];
    if i < |w.ledger.journal| {
      assert e == w.ledger.journal[i] && Written(w.ledger.orders, w.att.rows, e);
    } else {
      NewIsWritten(w, e);
    }
    StaysWritten(w.ledger.orders, w.att.rows, l.orders, rows, e);
  }

  lemma StepWrites(w: World, act: Action)
    requires Inv(w) && AllWritten(w)
    ensures AllWritten(Step(w, act))
  {
    var l, rows := Step(w, act).ledger, Step(w, act).att.rows;
    StepGrows(w, act);
    StepRows(w, act);
    forall i | 0 <= i < |l.journal| ensures Written(l.orders, rows, l.journal[i]) {
      GrownIsWritten(w, l, rows, i);
    }
  }

  lemma {:induction false} RunWrites(w: World, acts: seq<Action>)
    requires Inv(w) && AllWritten(w)
    ensures Inv(Run(w, acts)) && AllWritten(Run(w, acts))
    decreases |acts|
  {
    if acts != [] {
      R.StepKeeps(w, acts[0]);
      StepWrites(w, acts[0]);
      RunWrites(Step(w, acts[0]), acts[1..]);
    }
  }

  // ---------------------------------------------------------------- sums by order

  /** The dispatcher's own entries: conversions, their reversals, settlements. */
  predicate Own(key: Key) { key.Conversion? || key.Settlement? || (key.Reversal? && key.of.Conversion?) }

  function OwnBalance(j: Journal, account: Account): int {
    if j == [] then 0
    else
      var e := j[|j| - 1];
      OwnBalance(j[..|j| - 1], account) + if Own(e.key) then LineBalance(e.lines, account) else 0
  }

  /** The slot an order's payout leaves from: that of its attempt. */
  function SlotOf(rows: A.Table, o: nat): Option<nat> {
    match A.LatestForOrder(rows, o)
    case None => None
    case Some(r) => Some(rows[r].slot)
  }

  function Converted(order: Order, account: Account): int { LineBalance(ConversionLines(order), account) }

  function Paidout(order: Order, slot: Option<nat>, account: Account): int {
    if slot.Some? then LineBalance(SettlementLines(order, slot.value), account) else 0
  }

  /** What an entry does to an account, by its key alone. */
  ghost function Booked(orders: seq<Order>, rows: A.Table, key: Key, account: Account): int {
    match key
    case Conversion(o) => if o < |orders| then Converted(orders[o], account) else 0
    case Settlement(o, _) => if o < |orders| then Paidout(orders[o], SlotOf(rows, o), account) else 0
    case Reversal(k) => if k.Conversion? && k.order < |orders| then -Converted(orders[k.order], account) else 0
    case Foreign(_) => 0
  }

  lemma WrittenIsBooked(orders: seq<Order>, rows: A.Table, e: Entry, account: Account)
    requires Written(orders, rows, e) && OneAttempt(rows) && Own(e.key)
    ensures LineBalance(e.lines, account) == Booked(orders, rows, e.key, account)
  {
    match e.key
    case Settlement(o, n) => var r: nat :| SettledBy(orders, rows, e, r);
    case Reversal(k) => NegatedSums(ConversionLines(orders[k.order]), BEP20, account);
    case _ =>
  }

  /** f(0) + ... + f(n - 1). */
  ghost function Sum(f: nat -> int, n: nat): int { if n == 0 then 0 else Sum(f, n - 1) + f(n - 1) }

  lemma {:induction false} SumSame(f: nat -> int, g: nat -> int, n: nat)
    requires forall k: nat :: k < n ==> f(k) == g(k)
    ensures Sum(f, n) == Sum(g, n)
  {
    if n > 0 { SumSame(f, g, n - 1); }
  }

  lemma {:induction false} SumChanges(f: nat -> int, g: nat -> int, n: nat, at: int, more: int)
    requires forall k: nat :: k < n ==> g(k) == f(k) + if k == at then more else 0
    ensures Sum(g, n) == Sum(f, n) + if 0 <= at < n then more else 0
  {
    if n > 0 { SumChanges(f, g, n - 1, at, more); }
  }

  lemma {:induction false} SumNothing(f: nat -> int, n: nat)
    requires forall k: nat :: k < n ==> f(k) == 0
    ensures Sum(f, n) == 0
  {
    if n > 0 { SumNothing(f, n - 1); }
  }

  /** What an order's entries do to an account. */
  ghost function Position(j: Journal, orders: seq<Order>, rows: A.Table, o: nat, account: Account): int {
    if o >= |orders| then 0
    else
      (if Has(j, Conversion(o)) then Converted(orders[o], account) else 0)
      - (if Has(j, Reversal(Conversion(o))) then Converted(orders[o], account) else 0)
      + (if Paid(j, o) then Paidout(orders[o], SlotOf(rows, o), account) else 0)
  }

  ghost function Positions(j: Journal, orders: seq<Order>, rows: A.Table, account: Account): int {
    Sum((o: nat) => Position(j, orders, rows, o, account), |orders|)
  }

  lemma PositionAppend(j: Journal, e: Entry, orders: seq<Order>, rows: A.Table, o: nat, account: Account)
    requires !Has(j, e.key) && (e.key.Settlement? ==> !Paid(j, e.key.order)) && o < |orders|
    ensures Position(j + [e], orders, rows, o, account) == Position(j, orders, rows, o, account)
      + if o == C.OrderOf(e.key) then Booked(orders, rows, e.key, account) else 0
  {
    HasAppend(j, e, Conversion(o));
    HasAppend(j, e, Reversal(Conversion(o)));
    PaidAppend(j, e, o);
  }

  lemma PositionsAppend(j: Journal, e: Entry, orders: seq<Order>, rows: A.Table, account: Account)
    requires !Has(j, e.key) && (e.key.Settlement? ==> !Paid(j, e.key.order))
    ensures Positions(j + [e], orders, rows, account) == Positions(j, orders, rows, account)
      + if 0 <= C.OrderOf(e.key) < |orders| then Booked(orders, rows, e.key, account) else 0
  {
    var f := (o: nat) => Position(j, orders, rows, o, account);
    var g := (o: nat) => Position(j + [e], orders, rows, o, account);
    forall o: nat | o < |orders|
      ensures g(o) == f(o) + if o == C.OrderOf(e.key) then Booked(orders, rows, e.key, account) else 0
    {
      PositionAppend(j, e, orders, rows, o, account);
    }
    SumChanges(f, g, |orders|, C.OrderOf(e.key), Booked(orders, rows, e.key, account));
  }

  ghost predicate DistinctKeys(j: Journal) { forall i, k :: 0 <= i < k < |j| ==> j[i].key != j[k].key }

  lemma {:induction false} OwnIsPositions(j: Journal, orders: seq<Order>, rows: A.Table, account: Account)
    requires DistinctKeys(j) && OneAttempt(rows) && forall o :: PaidOnce(j, o)
    requires forall i :: 0 <= i < |j| ==> Written(orders, rows, j[i])
    ensures OwnBalance(j, account) == Positions(j, orders, rows, account)
    decreases |j|
  {
    if j == [] {
      SumNothing((o: nat) => Position([], orders, rows, o, account), |orders|);
    } else {
      var n := |j| - 1;
      var e := j[n];
      assert j == j[..n] + [e] && Written(orders, rows, e);
      C.PrefixPaidOnce(j[..n], e);
      OwnIsPositions(j[..n], orders, rows, account);
      if e.key.Settlement? { C.FirstSettlement(j[..n], e); }
      PositionsAppend(j[..n], e, orders, rows, account);
      if Own(e.key) { WrittenIsBooked(orders, rows, e, account); }
    }
  }

  // ---------------------------------------------------------------- the books

  /** The sum of an amount over the orders that are converted and not reversed. */
  ghost function Earned(l: Ledger, amount: Order -> int): int {
    Sum((o: nat) => EarnedFor(l, amount, o), |l.orders|)
  }

  ghost function EarnedFor(l: Ledger, amount: Order -> int, o: nat): int {
    if o < |l.orders| && Has(l.journal, Conversion(o)) && !Has(l.journal, Reversal(Conversion(o)))
    then amount(l.orders[o]) else 0
  }

  /** The sum of amount_out over the orders that are settled and whose transfer left this slot. */
  ghost function SpentBy(w: World, slot: nat): int {
    Sum((o: nat) => SpentFor(w, slot, o), |w.ledger.orders|)
  }

  ghost function SpentFor(w: World, slot: nat, o: nat): int {
    if o < |w.ledger.orders| && Paid(w.ledger.journal, o) && SlotOf(w.att.rows, o) == Some(slot)
    then w.ledger.orders[o].amountOut else 0
  }

  /** On an account that only conversions touch. */
  lemma PositionsAreEarned(w: World, account: Account, amount: Order -> int)
    requires Inv(w)
    requires forall o: Order :: Converted(o, account) == amount(o)
    requires forall o: Order, slot :: Paidout(o, slot, account) == 0
    ensures Positions(w.ledger.journal, w.ledger.orders, w.att.rows, account) == Earned(w.ledger, amount)
  {
    var f := (o: nat) => Position(w.ledger.journal, w.ledger.orders, w.att.rows, o, account);
    var g := (o: nat) => EarnedFor(w.ledger, amount, o);
    forall o: nat | o < |w.ledger.orders| ensures f(o) == g(o) { assert ViewOk(ViewAt(w, o)); }
    SumSame(f, g, |w.ledger.orders|);
  }

  lemma PositionsAreSpent(w: World, slot: nat)
    ensures Positions(w.ledger.journal, w.ledger.orders, w.att.rows, SlotAsset(slot)) == -SpentBy(w, slot)
  {
    var f := (o: nat) => Position(w.ledger.journal, w.ledger.orders, w.att.rows, o, SlotAsset(slot));
    var g := (o: nat) => -SpentFor(w, slot, o);
    forall o: nat | o < |w.ledger.orders| ensures f(o) == g(o) {
      var order, from := w.ledger.orders[o], SlotOf(w.att.rows, o);
      ConversionPosts(order, SlotAsset(slot));
      if from.Some? { SettlementPosts(order, from.value, SlotAsset(slot)); }
    }
    SumSame(f, g, |w.ledger.orders|);
    SumOpposite((o: nat) => SpentFor(w, slot, o), g, |w.ledger.orders|);
  }

  lemma {:induction false} SumOpposite(f: nat -> int, g: nat -> int, n: nat)
    requires forall k: nat :: k < n ==> g(k) == -f(k)
    ensures Sum(g, n) == -Sum(f, n)
  {
    if n > 0 { SumOpposite(f, g, n - 1); }
  }

  lemma RunIsBooked(acts: seq<Action>, account: Account)
    ensures
      var w := Run(Init(), acts);
      && Inv(w)
      && OwnBalance(w.ledger.journal, account) ==
         Positions(w.ledger.journal, w.ledger.orders, w.att.rows, account)
  {
    R.InitKeeps();
    RunWrites(Init(), acts);
    var w := Run(Init(), acts);
    forall o ensures PaidOnce(w.ledger.journal, o) { assert ViewOk(ViewAt(w, o)); }
    OwnIsPositions(w.ledger.journal, w.ledger.orders, w.att.rows, account);
  }

  lemma EarnedOn(acts: seq<Action>, account: Account, amount: Order -> int)
    requires forall o: Order :: Converted(o, account) == amount(o)
    requires forall o: Order, slot :: Paidout(o, slot, account) == 0
    ensures
      var l := Run(Init(), acts).ledger;
      OwnBalance(l.journal, account) == Earned(l, amount)
  {
    RunIsBooked(acts, account);
    var w := Run(Init(), acts);
    PositionsAreEarned(w, account, amount);
  }

  /** In every run: the fee revenue the dispatcher has booked is the sum of fee over the orders that
      are converted and not reversed, the network-fee revenue that of network_fee; the corridor took in
      the sum of amount_in in BEP20 and gave it out in TRC20. */
  lemma RevenueIsEarned(acts: seq<Action>)
    ensures
      var l := Run(Init(), acts).ledger;
      && OwnBalance(l.journal, RevenueFee) == Earned(l, (o: Order) => -o.fee)
      && OwnBalance(l.journal, RevenueNetworkFee) == Earned(l, (o: Order) => -o.networkFee)
      && OwnBalance(l.journal, Corridor(BEP20)) == Earned(l, (o: Order) => -o.amountIn)
      && OwnBalance(l.journal, Corridor(TRC20)) == Earned(l, (o: Order) => o.amountIn)
  {
    forall account: Account, o: Order, slot | !account.Liability? && !account.SlotAsset?
      ensures Paidout(o, slot, account) == 0
    {
      if slot.Some? { SettlementPosts(o, slot.value, account); }
    }
    forall account: Account, o: Order
      ensures account == RevenueFee ==> Converted(o, account) == -o.fee
      ensures account == RevenueNetworkFee ==> Converted(o, account) == -o.networkFee
      ensures account == Corridor(BEP20) ==> Converted(o, account) == -o.amountIn
      ensures account == Corridor(TRC20) ==> Converted(o, account) == o.amountIn
    {
      ConversionPosts(o, account);
    }
    EarnedOn(acts, RevenueFee, (o: Order) => -o.fee);
    EarnedOn(acts, RevenueNetworkFee, (o: Order) => -o.networkFee);
    EarnedOn(acts, Corridor(BEP20), (o: Order) => -o.amountIn);
    EarnedOn(acts, Corridor(TRC20), (o: Order) => o.amountIn);
  }

  /** A customer's BEP20 liability is down by the sum of amount_in over that customer's orders that are
      converted and not reversed. */
  lemma DepositsAreUsed(acts: seq<Action>, c: nat)
    ensures
      var l := Run(Init(), acts).ledger;
      OwnBalance(l.journal, Liability(c, BEP20)) ==
        Earned(l, (o: Order) => if o.customer == c then o.amountIn else 0)
  {
    var account, amount := Liability(c, BEP20), (o: Order) => if o.customer == c then o.amountIn else 0;
    forall o: Order ensures Converted(o, account) == amount(o) { ConversionPosts(o, account); }
    forall o: Order, slot ensures Paidout(o, slot, account) == 0 {
      if slot.Some? { SettlementPosts(o, slot.value, account); }
    }
    EarnedOn(acts, account, amount);
  }

  /** What the dispatcher has taken from a slot is the sum of amount_out over the orders settled whose
      transfer left that slot. */
  lemma SlotsPaySettlements(acts: seq<Action>, slot: nat)
    ensures
      var w := Run(Init(), acts);
      OwnBalance(w.ledger.journal, SlotAsset(slot)) == -SpentBy(w, slot)
  {
    RunIsBooked(acts, SlotAsset(slot));
    var w := Run(Init(), acts);
    PositionsAreSpent(w, slot);
  }
}
