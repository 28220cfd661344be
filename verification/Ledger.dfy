/** C1, the ledger the dispatcher talks to: versioned orders and an append-only journal of balanced
    entries (ledger/internal/orders/store.go, transitions.go; ledger/internal/journal/post.go,
    validate.go, reversal.go). One request is one database transaction, so one step here. */
module Ledger {
  import opened Common

  datatype OrderState = Quoted | Funded | Screened | Dispatching | Settled | Held | Refunded | Expired

  datatype Order = Order(
    customer: nat,
    sweep: bool,
    amountIn: int,
    amountOut: int,
    fee: int,
    networkFee: int,
    state: OrderState,
    version: nat)

  datatype Asset = BEP20 | TRC20

  datatype Account =
    | Liability(customer: nat, asset: Asset)
    | Corridor(asset: Asset)
    | RevenueFee
    | RevenueNetworkFee
    | SlotAsset(slot: nat)
    | Other(asset: Asset, code: nat)

  function AssetOf(a: Account): Asset {
    match a
    case Liability(_, asset) => asset
    case Corridor(asset) => asset
    case Other(asset, _) => asset
    case _ => TRC20
  }

  /** Positive is a debit, negative a credit. */
  datatype Line = Line(account: Account, amount: int)

  /** Idempotency keys; a reversal's key is derived from the key of what it reverses. */
  datatype Key =
    | Conversion(order: nat)
    | Settlement(order: nat, attempt: nat)
    | Reversal(of: Key)
    | Foreign(id: nat)

  /** The entry type and the order. The dispatcher's are settled by the key; others state theirs. */
  datatype Subject = ByKey | Stated(entryType: nat, order: Option<nat>)

  datatype Entry = Entry(key: Key, lines: seq<Line>, occurredAt: nat, subject: Subject := ByKey)

  type Journal = seq<Entry>

  datatype Ledger = Ledger(orders: seq<Order>, journal: Journal, halted: bool)

  // ---------------------------------------------------------------- sums

  function LineSum(lines: seq<Line>, asset: Asset): int {
    if lines == [] then 0
    else LineSum(lines[..|lines| - 1], asset) +
         (var l := lines[|lines| - 1]; if AssetOf(l.account) == asset then l.amount else 0)
  }

  function LineBalance(lines: seq<Line>, account: Account): int {
    if lines == [] then 0
    else LineBalance(lines[..|lines| - 1], account) +
         (var l := lines[|lines| - 1]; if l.account == account then l.amount else 0)
  }

  function Total(j: Journal, asset: Asset): int {
    if j == [] then 0 else Total(j[..|j| - 1], asset) + LineSum(j[|j| - 1].lines, asset)
  }

  function Balance(j: Journal, account: Account): int {
    if j == [] then 0 else Balance(j[..|j| - 1], account) + LineBalance(j[|j| - 1].lines, account)
  }

  // ---------------------------------------------------------------- posting

  predicate Balanced(lines: seq<Line>) {
    LineSum(lines, BEP20) == 0 && LineSum(lines, TRC20) == 0
  }

  /** journal.validate: at least two lines, none zero, every asset summing to zero. */
  predicate Acceptable(lines: seq<Line>) {
    && |lines| >= 2
    && (forall i :: 0 <= i < |lines| ==> lines[i].amount != 0)
    && Balanced(lines)
  }

  function Find(j: Journal, key: Key): (r: Option<nat>)
    ensures r.Some? ==> r.value < |j| && j[r.value].key == key
    ensures r.None? ==> forall i :: 0 <= i < |j| ==> j[i].key != key
  {
    if j == [] then None
    else if j[|j| - 1].key == key then Some(|j| - 1)
    else Find(j[..|j| - 1], key)
  }

  predicate Has(j: Journal, key: Key) { Find(j, key).Some? }

  datatype Posting = Posted(journal: Journal) | Replayed | Conflict | Invalid

  /** What the payload hash covers; it ignores the order of lines, and the actor. */
  predicate SamePayload(e: Entry, f: Entry) {
    multiset(e.lines) == multiset(f.lines) && e.occurredAt == f.occurredAt && e.subject == f.subject
  }

  /** journal.Post: validate, then insert, replay an identical payload, or refuse another one. */
  function Post(j: Journal, e: Entry): Posting {
    if !Acceptable(e.lines) then Invalid
    else match Find(j, e.key)
      case None => Posted(j + [e])
      case Some(i) =>
        if SamePayload(j[i], e) then Replayed else Conflict
  }

  function Negated(lines: seq<Line>): (r: seq<Line>)
    ensures |r| == |lines|
    ensures forall i :: 0 <= i < |r| ==> r[i] == Line(lines[i].account, -lines[i].amount)
  {
    seq(|lines|, i requires 0 <= i < |lines| => Line(lines[i].account, -lines[i].amount))
  }

  datatype ReversalResult = Reversed(journal: Journal) | AlreadyReversed | Irreversible

  /** journal.Reverse: at most one reversal per entry, and none of a reversal. */
  function Reverse(j: Journal, i: nat, at: nat): ReversalResult {
    if i >= |j| || j[i].key.Reversal? then Irreversible
    else if Has(j, Reversal(j[i].key)) then AlreadyReversed
    else Reversed(j + [Entry(Reversal(j[i].key), Negated(j[i].lines), at)])
  }

  /** The journal after any number of requests, each accepted or not. */
  function PostAll(requests: seq<Entry>): Journal {
    if requests == [] then []
    else
      var before := PostAll(requests[..|requests| - 1]);
      match Post(before, requests[|requests| - 1])
      case Posted(j) => j
      case _ => before
  }

  /** The first acceptable request with this key. */
  predicate FirstWith(requests: seq<Entry>, key: Key, i: nat) {
    && i < |requests| && requests[i].key == key && Acceptable(requests[i].lines)
    && forall k :: 0 <= k < i && requests[k].key == key ==> !Acceptable(requests[k].lines)
  }

  predicate Stands(j: Journal, key: Key, e: Entry) { Has(j, key) && j[Find(j, key).value] == e }

  predicate OncePerKey(j: Journal) {
    forall k, m :: 0 <= k < m < |j| ==> j[k].key != j[m].key
  }

  /** An idempotency key is worth one entry: after any requests whatever, what stands under a key is
      the first acceptable request with it, once, and nothing if there was none. */
  lemma FirstPostWins(requests: seq<Entry>, key: Key)
    ensures Has(PostAll(requests), key) <==> exists i: nat :: FirstWith(requests, key, i)
    ensures forall i: nat :: FirstWith(requests, key, i) ==> Stands(PostAll(requests), key, requests[i])
    ensures OncePerKey(PostAll(requests))
  {
    PostedIff(requests, key);
    PostedOnce(requests);
    forall i: nat | FirstWith(requests, key, i)
      ensures Stands(PostAll(requests), key, requests[i])
    {
      PostedAsFirst(requests, key, i, Find(PostAll(requests), key).value);
    }
  }

  lemma {:induction false} PostedIff(requests: seq<Entry>, key: Key)
    ensures Has(PostAll(requests), key) <==> exists i: nat :: FirstWith(requests, key, i)
  {
    if requests != [] {
      var n := |requests| - 1;
      PostedIff(requests[..n], key);
      HasAppend(PostAll(requests[..n]), requests[n], key);
      FirstExtends(requests, key, n);
    }
  }

  lemma {:induction false} PostedOnce(requests: seq<Entry>)
    ensures OncePerKey(PostAll(requests))
  {
    if requests != [] {
      PostedOnce(requests[..|requests| - 1]);
    }
  }

  lemma {:induction false} PostedAsFirst(requests: seq<Entry>, key: Key, i: nat, k: nat)
    requires FirstWith(requests, key, i) && k < |PostAll(requests)| && PostAll(requests)[k].key == key
    ensures PostAll(requests)[k] == requests[i]
  {
    var n := |requests| - 1;
    var before := PostAll(requests[..n]);
    FirstExtends(requests, key, n);
    PostedIff(requests[..n], key);
    if k < |before| {
      assert Has(before, key);
      PostedAsFirst(requests[..n], key, i, k);
    }
  }

  lemma FirstExtends(requests: seq<Entry>, key: Key, n: nat)
    requires |requests| == n + 1
    ensures forall i: nat :: i < n ==> (FirstWith(requests, key, i) <==> FirstWith(requests[..n], key, i))
    ensures FirstWith(requests, key, n) <==>
      && requests[n].key == key && Acceptable(requests[n].lines)
      && !exists i: nat :: FirstWith(requests[..n], key, i)
  {
    if requests[n].key == key && Acceptable(requests[n].lines) && !FirstWith(requests, key, n) {
      var k :| 0 <= k < n && requests[k].key == key && Acceptable(requests[k].lines);
      var i := FirstUpTo(requests[..n], key, k);
    }
  }

  lemma {:induction false} FirstUpTo(requests: seq<Entry>, key: Key, k: nat) returns (i: nat)
    requires k < |requests| && requests[k].key == key && Acceptable(requests[k].lines)
    ensures FirstWith(requests, key, i)
    decreases k
  {
    i := k;
    if !FirstWith(requests, key, k) {
      var m :| 0 <= m < k && requests[m].key == key && Acceptable(requests[m].lines);
      i := FirstUpTo(requests, key, m);
    }
  }

  /** So a further acceptable request under a used key is a replay if and only if it repeats the first
      one, up to the order of its lines, and a conflict otherwise. */
  lemma RepeatIff(requests: seq<Entry>, i: nat, again: Entry)
    requires FirstWith(requests, again.key, i) && Acceptable(again.lines)
    ensures Post(PostAll(requests), again) == if SamePayload(requests[i], again) then Replayed else Conflict
  {
    FirstPostWins(requests, again.key);
  }

  /** An entry is reversed at most once, a reversal never, and the pair cancels on every account. */
  lemma ReverseTwice(j: Journal, i: nat, at: nat, later: nat, account: Account)
    requires Reverse(j, i, at).Reversed?
    ensures
      var j' := Reverse(j, i, at).journal;
      && |j'| == |j| + 1 && j'[..|j|] == j
      && Reverse(j', i, later).AlreadyReversed? && Reverse(j', |j|, later).Irreversible?
      && LineBalance(j'[i].lines, account) + LineBalance(j'[|j|].lines, account) == 0
  {
    var e := Entry(Reversal(j[i].key), Negated(j[i].lines), at);
    HasAppend(j, e, Reversal(j[i].key));
    NegatedSums(j[i].lines, BEP20, account);
  }

  // ---------------------------------------------------------------- transitions

  predicate Legal(from: OrderState, to: OrderState) {
    match from
    case Quoted => to.Funded? || to.Expired?
    case Funded => to.Screened? || to.Held? || to.Refunded? || to.Quoted?
    case Held => to.Screened? || to.Refunded?
    case Screened => to.Dispatching?
    case Dispatching => to.Settled? || to.Held?
    case _ => false
  }

  predicate HaltBlocked(from: OrderState, to: OrderState) {
    to.Refunded? || to.Dispatching? || to.Settled?
  }

  predicate RequiresEntry(from: OrderState, to: OrderState) {
    && !to.Expired? && !to.Screened?
    && !(from.Funded? && to.Held?)
  }

  datatype Cause = NoEntry | Inline(entry: Entry) | Existing(id: nat)

  datatype Verdict = Done | VersionConflict | Halted | Refused

  /** orders.Transition. An inline entry is posted in the same transaction; a redelivered request
      whose entry is already there, with the order already in the target state, is a success. */
  function Transition(l: Ledger, o: nat, to: OrderState, version: nat, cause: Cause): (Verdict, Ledger) {
    if o >= |l.orders| then (Refused, l)
    else
      var order := l.orders[o];
      if order.version != version then (VersionConflict, l)
      else if !Legal(order.state, to) then
        if to == order.state && cause.Inline?
          && Has(l.journal, cause.entry.key) && Post(l.journal, cause.entry).Replayed?
        then (Done, l) else (Refused, l)
      else if HaltBlocked(order.state, to) && l.halted then (Halted, l)
      else if RequiresEntry(order.state, to) == cause.NoEntry? then (Refused, l)
      else if cause.Existing? && cause.id >= |l.journal| then (Refused, l)
      else
        var moved := l.(orders := l.orders[o := Moved(order, to)]);
        if !cause.Inline? then (Done, moved)
        else match Post(l.journal, cause.entry)
          case Posted(j) => (Done, moved.(journal := j))
          case Replayed => (Done, moved)
          case _ => (Refused, l)
  }

  function Moved(o: Order, to: OrderState): Order { o.(state := to, version := o.version + 1) }

  /** The ledger after an accepted move and the new entry that caused it. */
  function Entered(l: Ledger, o: nat, to: OrderState, e: Entry): Ledger
    requires o < |l.orders|
  {
    l.(orders := l.orders[o := Moved(l.orders[o], to)], journal := l.journal + [e])
  }

  /** A request carrying an entry with an unused key either does everything or nothing. */
  lemma TransitionNewEntry(l: Ledger, o: nat, to: OrderState, version: nat, e: Entry)
    requires !Has(l.journal, e.key)
    ensures
      var (verdict, l') := Transition(l, o, to, version, Inline(e));
      if verdict.Done?
      then o < |l.orders| && Legal(l.orders[o].state, to) && Acceptable(e.lines) && l' == Entered(l, o, to, e)
      else l' == l
  {}

  /** A request for a move the table does not list changes nothing, even when it is a replay. */
  lemma TransitionIllegal(l: Ledger, o: nat, to: OrderState, version: nat, cause: Cause)
    requires o < |l.orders| && !Legal(l.orders[o].state, to)
    ensures Transition(l, o, to, version, cause).1 == l
    ensures Transition(l, o, to, version, cause).0.Done? ==>
      l.orders[o].state == to && cause.Inline? && Has(l.journal, cause.entry.key)
  {}

  // ---------------------------------------------------------------- the dispatcher's entries

  /** buildConversionLines: E2. */
  function ConversionLines(o: Order): seq<Line> {
    [ Line(Liability(o.customer, BEP20), o.amountIn),
      Line(Corridor(BEP20), -o.amountIn),
      Line(Corridor(TRC20), o.amountIn),
      Line(Liability(o.customer, TRC20), -o.amountOut),
      Line(RevenueFee, -o.fee),
      Line(RevenueNetworkFee, -o.networkFee) ]
  }

  /** buildSettlementLines: E3. */
  function SettlementLines(o: Order, slot: nat): seq<Line> {
    [ Line(Liability(o.customer, TRC20), o.amountOut),
      Line(SlotAsset(slot), -o.amountOut) ]
  }

  /** The conversion entry balances, asset by asset, exactly when the quote's amounts add up, and
      C1 accepts it exactly when moreover none of them is zero. */
  lemma ConversionBalance(o: Order)
    ensures Balanced(ConversionLines(o)) <==> o.amountIn == o.amountOut + o.fee + o.networkFee
    ensures Acceptable(ConversionLines(o)) <==>
      && o.amountIn == o.amountOut + o.fee + o.networkFee
      && o.amountIn != 0 && o.amountOut != 0 && o.fee != 0 && o.networkFee != 0
    ensures forall c ::
      LineBalance(ConversionLines(o), Liability(c, TRC20)) == if c == o.customer then -o.amountOut else 0
  {
    var ls := ConversionLines(o);
    assert ls[..5][..4] == ls[..4] && ls[..4][..3] == ls[..3] && ls[..3][..2] == ls[..2]
        && ls[..2][..1] == ls[..1] && ls[..1][..0] == [];
    assert ls[0].amount == o.amountIn && ls[3].amount == -o.amountOut
        && ls[4].amount == -o.fee && ls[5].amount == -o.networkFee;
    SumSix(ls, BEP20);
    SumSix(ls, TRC20);
    forall c ensures LineBalance(ls, Liability(c, TRC20)) == if c == o.customer then -o.amountOut else 0 {
      BalanceSix(ls, Liability(c, TRC20));
    }
  }

  function Share(l: Line, asset: Asset): int { if AssetOf(l.account) == asset then l.amount else 0 }

  function Part(l: Line, account: Account): int { if l.account == account then l.amount else 0 }

  lemma SumSix(ls: seq<Line>, asset: Asset)
    requires |ls| == 6
    ensures LineSum(ls, asset) ==
      Share(ls[0], asset) + Share(ls[1], asset) + Share(ls[2], asset)
        + Share(ls[3], asset) + Share(ls[4], asset) + Share(ls[5], asset)
  {
    assert ls[..5][..4] == ls[..4] && ls[..4][..3] == ls[..3] && ls[..3][..2] == ls[..2]
        && ls[..2][..1] == ls[..1] && ls[..1][..0] == [];
    assert LineSum(ls[..1], asset) == Share(ls[0], asset);
    assert LineSum(ls[..2], asset) == LineSum(ls[..1], asset) + Share(ls[1], asset);
    assert LineSum(ls[..3], asset) == LineSum(ls[..2], asset) + Share(ls[2], asset);
    assert LineSum(ls[..4], asset) == LineSum(ls[..3], asset) + Share(ls[3], asset);
    assert LineSum(ls[..5], asset) == LineSum(ls[..4], asset) + Share(ls[4], asset);
  }

  lemma BalanceSix(ls: seq<Line>, account: Account)
    requires |ls| == 6
    ensures LineBalance(ls, account) ==
      Part(ls[0], account) + Part(ls[1], account) + Part(ls[2], account) + Part(ls[3], account)
        + Part(ls[4], account) + Part(ls[5], account)
  {
    assert ls[..5][..4] == ls[..4] && ls[..4][..3] == ls[..3] && ls[..3][..2] == ls[..2]
        && ls[..2][..1] == ls[..1] && ls[..1][..0] == [];
    assert LineBalance(ls[..1], account) == Part(ls[0], account);
    assert LineBalance(ls[..2], account) == LineBalance(ls[..1], account) + Part(ls[1], account);
    assert LineBalance(ls[..3], account) == LineBalance(ls[..2], account) + Part(ls[2], account);
    assert LineBalance(ls[..4], account) == LineBalance(ls[..3], account) + Part(ls[3], account);
    assert LineBalance(ls[..5], account) == LineBalance(ls[..4], account) + Part(ls[4], account);
  }

  lemma SettlementBalance(o: Order, slot: nat)
    ensures Balanced(SettlementLines(o, slot))
    ensures forall c ::
      LineBalance(SettlementLines(o, slot), Liability(c, TRC20)) == if c == o.customer then o.amountOut else 0
  {
    var ls := SettlementLines(o, slot);
    assert ls[..1][..0] == [] && ls[..1] == [ls[0]];
    forall c ensures LineBalance(ls, Liability(c, TRC20)) == if c == o.customer then o.amountOut else 0 {
      assert LineBalance(ls[..1], Liability(c, TRC20)) == Part(ls[0], Liability(c, TRC20));
    }
    assert LineSum(ls[..1], TRC20) == Share(ls[0], TRC20);
    assert LineSum(ls[..1], BEP20) == 0;
  }

  /** What the conversion entry does to each account there is. */
  lemma ConversionPosts(o: Order, account: Account)
    ensures LineBalance(ConversionLines(o), account) ==
      if account == Liability(o.customer, BEP20) then o.amountIn
      else if account == Corridor(BEP20) then -o.amountIn
      else if account == Corridor(TRC20) then o.amountIn
      else if account == Liability(o.customer, TRC20) then -o.amountOut
      else if account == RevenueFee then -o.fee
      else if account == RevenueNetworkFee then -o.networkFee
      else 0
  {
    BalanceSix(ConversionLines(o), account);
  }

  /** And the settlement entry. */
  lemma SettlementPosts(o: Order, slot: nat, account: Account)
    ensures LineBalance(SettlementLines(o, slot), account) ==
      if account == Liability(o.customer, TRC20) then o.amountOut
      else if account == SlotAsset(slot) then -o.amountOut
      else 0
  {
    var ls := SettlementLines(o, slot);
    assert ls[..1][..0] == [] && ls[..1] == [ls[0]];
    assert LineBalance(ls[..1], account) == Part(ls[0], account);
  }

  lemma {:induction false} NegatedSums(lines: seq<Line>, asset: Asset, account: Account)
    ensures LineSum(Negated(lines), asset) == -LineSum(lines, asset)
    ensures LineBalance(Negated(lines), account) == -LineBalance(lines, account)
  {
    if lines != [] {
      var n := |lines| - 1;
      NegatedSums(lines[..n], asset, account);
      assert Negated(lines)[..n] == Negated(lines[..n]);
    }
  }

  /** A journal of balanced entries sums to zero in each asset. */
  lemma {:induction false} BalancedTotal(j: Journal, asset: Asset)
    requires forall i :: 0 <= i < |j| ==> Balanced(j[i].lines)
    ensures Total(j, asset) == 0
  {
    if j != [] {
      BalancedTotal(j[..|j| - 1], asset);
      assert Balanced(j[|j| - 1].lines);
    }
  }

  lemma HasAppend(j: Journal, e: Entry, key: Key)
    ensures Has(j + [e], key) <==> (Has(j, key) || e.key == key)
  {
    if e.key == key { assert (j + [e])[|j|].key == key; }
    if Find(j, key).Some? { assert (j + [e])[Find(j, key).value].key == key; }
    if Find(j + [e], key).Some? {
      var i := Find(j + [e], key).value;
      if i < |j| { assert j[i].key == key; }
    }
  }
}
