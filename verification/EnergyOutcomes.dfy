/** What a Reserve and a Reconcile come to when only their own turns are left
    (energybroker/internal/buffer/reserve.go, verify.go): from every reachable state, whatever other
    transactions hold by then. */
module EnergyOutcomes {
  import opened Common
  import opened EnergyBuffer
  import S = EnergySafety
  import R = EnergyReserve

  /** Turns of transaction t and no others, in which the on-chain reads answer so. */
  predicate OwnTurns(acts: seq<Action>, t: nat, delegated: map<nat, nat>) {
    forall i :: 0 <= i < |acts| ==>
      acts[i].Advance? && acts[i].t == t && acts[i].actual == Answer(delegated, acts[i].choice)
  }

  /** A read that fails finds nothing. */
  function Answer(delegated: map<nat, nat>, i: nat): Option<nat> {
    if i in delegated then Some(delegated[i]) else None
  }

  function Turn(t: nat, delegated: map<nat, nat>, choice: nat): Action {
    Advance(t, choice, Answer(delegated, choice))
  }

  /** The locks as they were, and t's. */
  function Locking(holder: map<nat, nat>, rows: set<nat>, t: nat): map<nat, nat> {
    map i | i in holder.Keys + rows :: if i in rows then t else holder[i]
  }

  lemma LockingReleased(w: World, rows: set<nat>, t: nat)
    requires Inv(w) && t !in w.txs && forall i :: i in rows ==> i !in w.holder
    ensures Release(Locking(w.holder, rows, t), t) == w.holder
  {
    forall i | i in w.holder ensures w.holder[i] != t { assert HolderOk(w, i); }
  }

  // ---------------------------------------------------------------- Reserve

  /** The rows a request may use, that nobody holds. */
  function Unheld(w: World, r: Request): set<nat> { R.Matching(w.rows, r) - w.holder.Keys }

  lemma UnheldAre(w: World, r: Request, i: nat)
    ensures i in Unheld(w, r) <==>
      && i < |w.rows| && i !in w.holder
      && w.rows[i].status.Available? && w.rows[i].slot == r.slot && r.now < w.rows[i].expiresAt
  {}

  /** Of these rows, the ones that expire soonest. */
  ghost predicate EarliestOf(rows: seq<Row>, free: set<nat>, claimed: set<nat>)
    requires forall i :: i in free ==> i < |rows|
  {
    claimed <= free && forall i, j :: i in claimed && j in free - claimed ==> rows[i].expiresAt <= rows[j].expiresAt
  }

  /** A shortest run of the soonest to expire that covers the request, with its exact sum. */
  ghost predicate Covers(w: World, r: Request, claimed: set<nat>, total: nat) {
    && EarliestOf(w.rows, Unheld(w, r), claimed) && total == UnitsOf(w.rows, claimed) && total >= r.want
    && exists last :: R.Shortest(w.rows, claimed, last, r.want)
  }

  /** It is on its way: it holds the soonest to expire and no row too many. */
  ghost predicate Claims(w: World, r: Request, claimed: set<nat>, total: nat) {
    && EarliestOf(w.rows, Unheld(w, r), claimed) && total == UnitsOf(w.rows, claimed)
    && (claimed == {} || exists last :: R.Shortest(w.rows, claimed, last, r.want))
  }

  /** What it did, if it has ended; w' is the world it ended in. */
  ghost predicate Reserved(w: World, w': World, t: nat, r: Request, result: Result) {
    match result
    case Granted(id, total, rows) =>
      && id == w.nextId && Covers(w, r, rows, total)
      && w' == World(Mark(w.rows, rows, id), w.allocations[id := Allocation(total, r)], id + 1, w.holder,
                     w.txs[t := Done(result)])
    case Exhausted => UnitsOf(w.rows, Unheld(w, r)) < r.want && w' == w.At(t, Done(Exhausted))
    case _ => false
  }

  ghost predicate Stage(w: World, r: Request, tx: Tx) {
    && tx.Reserving() && tx.request == r
    && (if tx.Claiming? then Claims(w, r, tx.claimed, tx.total) else Covers(w, r, tx.claimed, tx.total))
    && (tx.Marking? || tx.Committing? ==> tx.id == w.nextId)
  }

  /** The world while it is on its way. */
  function Held(w: World, t: nat, tx: Tx): World {
    World(w.rows, w.allocations, if tx.Marking? || tx.Committing? then w.nextId + 1 else w.nextId,
          Locking(w.holder, tx.Locked(), t), w.txs[t := tx])
  }

  /** Where a Reserve that began in w may be. */
  ghost predicate Underway(w: World, w': World, t: nat, r: Request) {
    && t in w'.txs
    && if w'.txs[t].Done? then Reserved(w, w', t, r, w'.txs[t].result)
       else Stage(w, r, w'.txs[t]) && w' == Held(w, t, w'.txs[t])
  }

  lemma Begins(w: World, t: nat, r: Request)
    requires t !in w.txs && r.want > 0 && r.slot != ""
    ensures Underway(w, Step(w, StartReserve(t, r.order, r.slot, r.want, r.now)), t, r)
  {
    UnitsOfNone(w.rows);
    assert Locking(w.holder, {}, t) == w.holder;
  }

  lemma EligibleIff(w: World, t: nat, tx: Tx, i: nat)
    requires tx.Claiming? && tx.claimed <= Unheld(w, tx.request)
    ensures Eligible(Held(w, t, tx), tx, i) <==> i in Unheld(w, tx.request) - tx.claimed
  {}

  /** The earliest of the rows left, and one more is claimed. */
  lemma ClaimsMore(w: World, r: Request, claimed: set<nat>, total: nat, i: nat)
    requires Claims(w, r, claimed, total) && total < r.want && i in Unheld(w, r) - claimed
    requires forall j :: j in Unheld(w, r) - claimed ==> w.rows[i].expiresAt <= w.rows[j].expiresAt
    ensures Claims(w, r, claimed + {i}, total + w.rows[i].units)
  {
    UnitsOfMore(w.rows, claimed, i);
    assert (claimed + {i}) - {i} == claimed;
    assert R.Shortest(w.rows, claimed + {i}, i, r.want);
  }

  lemma ClaimedEnough(w: World, r: Request, claimed: set<nat>, total: nat)
    requires Claims(w, r, claimed, total) && total >= r.want > 0
    ensures Covers(w, r, claimed, total)
  {
    UnitsOfNone(w.rows);
  }

  lemma EarliestIff(w: World, t: nat, tx: Tx, i: nat)
    requires tx.Claiming? && tx.claimed <= Unheld(w, tx.request)
    ensures
      var left := Unheld(w, tx.request) - tx.claimed;
      Earliest(Held(w, t, tx), tx, i) <==>
        i in left && forall j :: j in left ==> w.rows[i].expiresAt <= w.rows[j].expiresAt
  {
    forall j: nat ensures Eligible(Held(w, t, tx), tx, j) <==> j in Unheld(w, tx.request) - tx.claimed {
      EligibleIff(w, t, tx, j);
    }
  }

  lemma RowTurn(w: World, t: nat, tx: Tx, choice: nat)
    requires tx.Claiming? && tx.total < tx.request.want && Earliest(Held(w, t, tx), tx, choice)
    ensures choice < |w.rows| && DoClaim(Held(w, t, tx), t, tx, choice) ==
      Held(w, t, Claiming(tx.request, tx.claimed + {choice}, tx.total + w.rows[choice].units))
  {
    var next := Claiming(tx.request, tx.claimed + {choice}, tx.total + w.rows[choice].units);
    assert Locking(w.holder, tx.claimed, t)[choice := t] == Locking(w.holder, tx.claimed + {choice}, t);
    assert w.txs[t := tx][t := next] == w.txs[t := next];
  }

  lemma EmptyTurn(w: World, t: nat, tx: Tx, choice: nat)
    requires Inv(w) && t !in w.txs && tx.Claiming? && tx.claimed == Unheld(w, tx.request) && tx.total < tx.request.want
    ensures DoClaim(Held(w, t, tx), t, tx, choice) == w.At(t, Done(Exhausted))
  {
    forall i: nat ensures !Eligible(Held(w, t, tx), tx, i) { EligibleIff(w, t, tx, i); }
    LockingReleased(w, tx.claimed, t);
    assert w.txs[t := tx][t := Done(Exhausted)] == w.txs[t := Done(Exhausted)];
  }

  lemma IdleTurn(w: World, t: nat, tx: Tx, choice: nat, i: nat)
    requires tx.Claiming? && tx.claimed <= Unheld(w, tx.request) && i in Unheld(w, tx.request) - tx.claimed
    requires tx.total < tx.request.want && !Earliest(Held(w, t, tx), tx, choice)
    ensures DoClaim(Held(w, t, tx), t, tx, choice) == Held(w, t, tx)
  {
    EligibleIff(w, t, tx, i);
    assert i < |w.rows|;
  }

  lemma ClaimOn(w: World, t: nat, r: Request, tx: Tx, choice: nat)
    requires Inv(w) && t !in w.txs && r.want > 0 && tx.Claiming? && Stage(w, r, tx)
    ensures Underway(w, DoClaim(Held(w, t, tx), t, tx, choice), t, r)
  {
    var left := Unheld(w, r) - tx.claimed;
    EarliestIff(w, t, tx, choice);
    if tx.total >= r.want {
      ClaimedEnough(w, r, tx.claimed, tx.total);
      var next := Recording(r, tx.claimed, tx.total);
      assert w.txs[t := tx][t := next] == w.txs[t := next];
    } else if Earliest(Held(w, t, tx), tx, choice) {
      RowTurn(w, t, tx, choice);
      ClaimsMore(w, r, tx.claimed, tx.total, choice);
    } else if left == {} {
      assert tx.claimed == Unheld(w, r);
      EmptyTurn(w, t, tx, choice);
    } else {
      var i :| i in left;
      IdleTurn(w, t, tx, choice, i);
    }
  }

  lemma RecordOn(w: World, t: nat, r: Request, tx: Tx, choice: nat, actual: Option<nat>)
    requires tx.Recording? && Stage(w, r, tx)
    ensures Underway(w, AdvanceTx(Held(w, t, tx), t, tx, choice, actual), t, r)
  {
    var next := Marking(r, tx.claimed, tx.total, w.nextId);
    assert w.txs[t := tx][t := next] == w.txs[t := next];
  }

  lemma MarkOn(w: World, t: nat, r: Request, tx: Tx, choice: nat, actual: Option<nat>)
    requires tx.Marking? && Stage(w, r, tx)
    ensures Underway(w, AdvanceTx(Held(w, t, tx), t, tx, choice, actual), t, r)
  {
    var next := Committing(r, tx.claimed, tx.total, w.nextId);
    assert w.txs[t := tx][t := next] == w.txs[t := next];
  }

  lemma CommitTurn(w: World, t: nat, tx: Tx)
    requires Inv(w) && t !in w.txs && tx.Committing? && tx.claimed !! w.holder.Keys
    ensures DoCommit(Held(w, t, tx), t, tx.request, tx.claimed, tx.total, tx.id) ==
      World(Mark(w.rows, tx.claimed, tx.id), w.allocations[tx.id := Allocation(tx.total, tx.request)], w.nextId + 1,
            w.holder, w.txs[t := Done(Granted(tx.id, tx.total, tx.claimed))])
  {
    var done := Done(Granted(tx.id, tx.total, tx.claimed));
    LockingReleased(w, tx.claimed, t);
    assert w.txs[t := tx][t := done] == w.txs[t := done];
  }

  lemma CommitOn(w: World, t: nat, r: Request, tx: Tx, choice: nat, actual: Option<nat>)
    requires Inv(w) && t !in w.txs && tx.Committing? && Stage(w, r, tx)
    ensures Underway(w, AdvanceTx(Held(w, t, tx), t, tx, choice, actual), t, r)
  {
    CommitTurn(w, t, tx);
    assert AdvanceTx(Held(w, t, tx), t, tx, choice, actual) ==
      DoCommit(Held(w, t, tx), t, tx.request, tx.claimed, tx.total, tx.id);
  }

  lemma Goes(w: World, t: nat, r: Request, tx: Tx, choice: nat, actual: Option<nat>)
    requires Inv(w) && t !in w.txs && r.want > 0 && Stage(w, r, tx)
    ensures Underway(w, AdvanceTx(Held(w, t, tx), t, tx, choice, actual), t, r)
  {
    match tx
    case Claiming(_, _, _) => ClaimOn(w, t, r, tx, choice);
    case Recording(_, _, _) => RecordOn(w, t, r, tx, choice, actual);
    case Marking(_, _, _, _) => MarkOn(w, t, r, tx, choice, actual);
    case Committing(_, _, _, _) => CommitOn(w, t, r, tx, choice, actual);
  }

  lemma Kept(w: World, w': World, t: nat, r: Request, choice: nat, actual: Option<nat>)
    requires Inv(w) && t !in w.txs && r.want > 0 && Underway(w, w', t, r)
    ensures Underway(w, Step(w', Advance(t, choice, actual)), t, r)
  {
    var tx := w'.txs[t];
    assert Step(w', Advance(t, choice, actual)) == AdvanceTx(w', t, tx, choice, actual);
    if tx.Done? {
      assert AdvanceTx(w', t, tx, choice, actual) == w';
    } else {
      Goes(w, t, r, tx, choice, actual);
    }
  }

  lemma {:induction false} RunUnderway(w: World, w': World, t: nat, r: Request, acts: seq<Action>,
                                       delegated: map<nat, nat>)
    requires Inv(w) && t !in w.txs && r.want > 0 && Underway(w, w', t, r) && OwnTurns(acts, t, delegated)
    ensures Underway(w, Run(w', acts), t, r)
    decreases |acts|
  {
    if acts != [] {
      Kept(w, w', t, r, acts[0].choice, acts[0].actual);
      RunUnderway(w, Step(w', acts[0]), t, r, acts[1..], delegated);
    }
  }

  // ---------------------------------------------------------------- it ends

  lemma {:induction false} Soonest(rows: seq<Row>, ids: set<nat>) returns (i: nat)
    requires ids != {} && forall j :: j in ids ==> j < |rows|
    ensures i in ids && forall j :: j in ids ==> rows[i].expiresAt <= rows[j].expiresAt
    decreases ids
  {
    i :| i in ids;
    var rest := ids - {i};
    if rest == {} {
      assert ids == {i};
    } else {
      var j := Soonest(rows, rest);
      assert forall k :: k in ids ==> k == i || k in rest;
      if rows[j].expiresAt < rows[i].expiresAt { i := j; }
    }
  }

  /** How many turns it has left at most. */
  function TurnsLeft(w: World, tx: Tx): nat {
    match tx
    case Claiming(r, claimed, _) => 4 + |Unheld(w, r) - claimed|
    case Recording(_, _, _) => 3
    case Marking(_, _, _, _) => 2
    case Committing(_, _, _, _) => 1
    case _ => 0
  }

  lemma FewerLeft(ids: set<nat>, claimed: set<nat>, i: nat)
    requires i in ids - claimed
    ensures |ids - (claimed + {i})| < |ids - claimed|
  {
    assert ids - (claimed + {i}) == ids - claimed - {i};
  }

  /** The query has a row to return: it is claimed, and there is one turn less. */
  lemma RowNext(w: World, t: nat, tx: Tx) returns (choice: nat)
    requires tx.Claiming? && tx.claimed <= Unheld(w, tx.request) && tx.total < tx.request.want
    requires Unheld(w, tx.request) - tx.claimed != {}
    ensures
      var w' := DoClaim(Held(w, t, tx), t, tx, choice);
      t in w'.txs && TurnsLeft(w, w'.txs[t]) < TurnsLeft(w, tx)
  {
    var left := Unheld(w, tx.request) - tx.claimed;
    choice := Soonest(w.rows, left);
    EarliestIff(w, t, tx, choice);
    RowTurn(w, t, tx, choice);
    FewerLeft(Unheld(w, tx.request), tx.claimed, choice);
  }

  /** It has none, or none is needed. */
  lemma LoopNext(w: World, t: nat, tx: Tx)
    requires Inv(w) && t !in w.txs && tx.Claiming?
    requires tx.total >= tx.request.want || tx.claimed == Unheld(w, tx.request)
    ensures
      var w' := DoClaim(Held(w, t, tx), t, tx, 0);
      t in w'.txs && TurnsLeft(w, w'.txs[t]) < 4
  {
    if tx.total < tx.request.want { EmptyTurn(w, t, tx, 0); }
  }

  /** What follows the loop, statement by statement. */
  function Tail(tx: Tx, nextId: nat): Tx
    requires tx.Recording? || tx.Marking? || tx.Committing?
  {
    match tx
    case Recording(r, claimed, total) => Marking(r, claimed, total, nextId)
    case Marking(r, claimed, total, id) => Committing(r, claimed, total, id)
    case Committing(_, claimed, total, id) => Done(Granted(id, total, claimed))
  }

  lemma TailTurn(w: World, t: nat, tx: Tx, choice: nat, actual: Option<nat>)
    requires tx.Recording? || tx.Marking? || tx.Committing?
    ensures AdvanceTx(w, t, tx, choice, actual).txs == w.txs[t := Tail(tx, w.nextId)]
  {}

  lemma TailSooner(w: World, tx: Tx, nextId: nat)
    requires tx.Recording? || tx.Marking? || tx.Committing?
    ensures TurnsLeft(w, Tail(tx, nextId)) < TurnsLeft(w, tx)
  {}

  lemma ClaimNext(w: World, t: nat, r: Request, tx: Tx) returns (choice: nat)
    requires Inv(w) && t !in w.txs && tx.Claiming? && Stage(w, r, tx)
    ensures
      var w' := DoClaim(Held(w, t, tx), t, tx, choice);
      t in w'.txs && TurnsLeft(w, w'.txs[t]) < TurnsLeft(w, tx)
  {
    choice := 0;
    assert tx.claimed <= Unheld(w, r);
    if tx.total < r.want && Unheld(w, r) - tx.claimed != {} {
      choice := RowNext(w, t, tx);
    } else {
      assert tx.total < r.want ==> tx.claimed == Unheld(w, r);
      LoopNext(w, t, tx);
    }
  }

  /** With the row the query returns there is one turn less. */
  lemma NextTurn(w: World, t: nat, r: Request, tx: Tx, delegated: map<nat, nat>) returns (choice: nat)
    requires Inv(w) && t !in w.txs && Stage(w, r, tx)
    ensures
      var w' := AdvanceTx(Held(w, t, tx), t, tx, choice, Answer(delegated, choice));
      t in w'.txs && TurnsLeft(w, w'.txs[t]) < TurnsLeft(w, tx)
  {
    if tx.Claiming? {
      choice := ClaimNext(w, t, r, tx);
    } else {
      choice := 0;
      TailTurn(Held(w, t, tx), t, tx, choice, Answer(delegated, choice));
      TailSooner(w, tx, w.nextId);
      TailSooner(w, tx, w.nextId + 1);
    }
  }

  lemma NextStep(w: World, w': World, t: nat, r: Request, delegated: map<nat, nat>) returns (first: Action)
    requires Inv(w) && t !in w.txs && r.want > 0 && Underway(w, w', t, r) && !w'.txs[t].Done?
    ensures OwnTurns([first], t, delegated) && Underway(w, Step(w', first), t, r)
    ensures TurnsLeft(w, Step(w', first).txs[t]) < TurnsLeft(w, w'.txs[t])
  {
    StageOf(w, w', t, r);
    var choice := NextTurn(w, t, r, w'.txs[t], delegated);
    first := Turn(t, delegated, choice);
    Kept(w, w', t, r, choice, first.actual);
  }

  predicate Ended(w: World, t: nat) { t in w.txs && w.txs[t].Done? }

  lemma StageOf(w: World, w': World, t: nat, r: Request)
    requires Underway(w, w', t, r) && !w'.txs[t].Done?
    ensures Stage(w, r, w'.txs[t]) && w' == Held(w, t, w'.txs[t])
  {}

  lemma OneFirst(w: World, first: Action, rest: seq<Action>)
    ensures Run(w, [first] + rest) == Run(Step(w, first), rest)
  {
    assert ([first] + rest)[1..] == rest;
  }

  lemma {:induction false} GoesOn(w: World, w': World, t: nat, r: Request, delegated: map<nat, nat>)
    returns (acts: seq<Action>)
    requires Inv(w) && t !in w.txs && r.want > 0 && Underway(w, w', t, r)
    ensures OwnTurns(acts, t, delegated)
    ensures Ended(Run(w', acts), t)
    decreases TurnsLeft(w, w'.txs[t])
  {
    acts := [];
    if !Ended(w', t) {
      var first := NextStep(w, w', t, r, delegated);
      var rest := GoesOn(w, Step(w', first), t, r, delegated);
      OneFirst(w', first, rest);
      acts := [first] + rest;
    }
  }

  /** A Reserve of which only its own turns are left, others holding what they hold: whenever it has
      ended, it was granted if and only if the matching rows nobody holds cover the request. Then it has
      a shortest run of the soonest to expire, marked and recorded with their exact sum; otherwise
      nothing has changed. */
  lemma ReserveAlone(w: World, t: nat, order: nat, slot: string, want: int, now: nat, acts: seq<Action>,
                     delegated: map<nat, nat>)
    requires Inv(w) && t !in w.txs && OwnTurns(acts, t, delegated)
    ensures
      var w' := Run(Step(w, StartReserve(t, order, slot, want, now)), acts);
      t in w'.txs &&
      if want <= 0 || slot == "" then w' == w.At(t, Done(Refused))
      else
        var r := Request(order, slot, want, now);
        w'.txs[t].Done? ==>
          if UnitsOf(w.rows, Unheld(w, r)) < want then w' == w.At(t, Done(Exhausted))
          else
            && w'.txs[t].result.Granted? && Reserved(w, w', t, r, w'.txs[t].result)
            && Covers(w, r, w'.txs[t].result.rows, w'.txs[t].result.units)
  {
    if want <= 0 || slot == "" {
      StaysDone(w.At(t, Done(Refused)), t, acts, delegated);
    } else {
      var r := Request(order, slot, want, now);
      Begins(w, t, r);
      RunUnderway(w, Step(w, StartReserve(t, order, slot, want, now)), t, r, acts, delegated);
      var tx := Run(Step(w, StartReserve(t, order, slot, want, now)), acts).txs[t];
      if tx.Done? && tx.result.Granted? { R.UnitsOfSubset(w.rows, tx.result.rows, Unheld(w, r)); }
    }
  }

  lemma {:induction false} StaysDone(w: World, t: nat, acts: seq<Action>, delegated: map<nat, nat>)
    requires t in w.txs && w.txs[t].Done? && OwnTurns(acts, t, delegated)
    ensures Run(w, acts) == w
    decreases |acts|
  {
    if acts != [] { StaysDone(w, t, acts[1..], delegated); }
  }

  /** And its own turns do end it. */
  lemma ReserveEnds(w: World, t: nat, order: nat, slot: string, want: int, now: nat) returns (acts: seq<Action>)
    requires Inv(w) && t !in w.txs
    ensures OwnTurns(acts, t, map[])
    ensures
      var w' := Run(Step(w, StartReserve(t, order, slot, want, now)), acts);
      t in w'.txs && w'.txs[t].Done?
  {
    acts := [];
    if want > 0 && slot != "" {
      var r := Request(order, slot, want, now);
      Begins(w, t, r);
      acts := GoesOn(w, Step(w, StartReserve(t, order, slot, want, now)), t, r, map[]);
    }
  }

  // ---------------------------------------------------------------- Reconcile

  /** The rows about to expire whose delegation was read and falls short. */
  function Missing(w: World, horizon: nat, delegated: map<nat, nat>): set<nat> {
    set i | i in NearingExpiry(w.rows, horizon) && i in delegated && delegated[i] < w.rows[i].units
  }

  lemma MissingAre(w: World, horizon: nat, delegated: map<nat, nat>, i: nat)
    ensures i in Missing(w, horizon, delegated) <==>
      && i < |w.rows| && (w.rows[i].status.Available? || w.rows[i].status.Reserved?)
      && w.rows[i].expiresAt <= horizon && i in delegated && delegated[i] < w.rows[i].units
  {}

  /** Where a Reconcile that began in w may be: all the rows not read yet are still to do, and none that
      somebody holds is taken. */
  ghost predicate Looking(w: World, w': World, t: nat, horizon: nat, delegated: map<nat, nat>) {
    var missing := Missing(w, horizon, delegated);
    t in w'.txs &&
    match w'.txs[t]
    case Querying(todo, expire) =>
      todo <= NearingExpiry(w.rows, horizon) && expire == missing - todo && w' == w.At(t, w'.txs[t])
    case Expiring(todo, claimed) =>
      && todo + claimed == missing && todo !! claimed && claimed !! w.holder.Keys
      && w' == w.At(t, w'.txs[t]).(holder := Locking(w.holder, claimed, t))
    case Done(result) =>
      && result.Reconciled? && missing !! w.holder.Keys
      && w' == w.At(t, Done(Reconciled)).(rows := Expire(w.rows, missing))
    case _ => false
  }

  lemma QueryOn(w: World, w': World, t: nat, horizon: nat, delegated: map<nat, nat>, choice: nat)
    requires Looking(w, w', t, horizon, delegated) && w'.txs[t].Querying?
    ensures Looking(w, Step(w', Turn(t, delegated, choice)), t, horizon, delegated)
  {
    var tx, next := w'.txs[t], Step(w', Turn(t, delegated, choice)).txs[t];
    assert w.txs[t := tx][t := next] == w.txs[t := next];
    if tx.todo == {} { assert Locking(w.holder, {}, t) == w.holder; }
  }

  lemma TakeOn(w: World, w': World, t: nat, horizon: nat, delegated: map<nat, nat>, choice: nat)
    requires Looking(w, w', t, horizon, delegated) && w'.txs[t].Expiring? && w'.txs[t].todo != {}
    ensures Looking(w, Step(w', Turn(t, delegated, choice)), t, horizon, delegated)
  {
    var tx, next := w'.txs[t], Step(w', Turn(t, delegated, choice)).txs[t];
    assert w.txs[t := tx][t := next] == w.txs[t := next];
    if choice in tx.todo && choice !in w'.holder {
      assert w'.holder[choice := t] == Locking(w.holder, tx.claimed + {choice}, t);
    }
  }

  lemma ExpireOn(w: World, w': World, t: nat, horizon: nat, delegated: map<nat, nat>, choice: nat)
    requires Inv(w) && t !in w.txs && Looking(w, w', t, horizon, delegated)
    requires w'.txs[t].Expiring? && w'.txs[t].todo == {}
    ensures Looking(w, Step(w', Turn(t, delegated, choice)), t, horizon, delegated)
  {
    var tx := w'.txs[t];
    assert w.txs[t := tx][t := Done(Reconciled)] == w.txs[t := Done(Reconciled)];
    assert tx.claimed == Missing(w, horizon, delegated);
    LockingReleased(w, tx.claimed, t);
  }

  lemma LookOn(w: World, w': World, t: nat, horizon: nat, delegated: map<nat, nat>, choice: nat)
    requires Inv(w) && t !in w.txs && Looking(w, w', t, horizon, delegated)
    ensures Looking(w, Step(w', Turn(t, delegated, choice)), t, horizon, delegated)
  {
    if w'.txs[t].Querying? { QueryOn(w, w', t, horizon, delegated, choice); }
    else if w'.txs[t].Expiring? && w'.txs[t].todo != {} { TakeOn(w, w', t, horizon, delegated, choice); }
    else if w'.txs[t].Expiring? { ExpireOn(w, w', t, horizon, delegated, choice); }
  }

  lemma {:induction false} RunLooks(w: World, w': World, t: nat, horizon: nat, acts: seq<Action>,
                                    delegated: map<nat, nat>)
    requires Inv(w) && t !in w.txs && Looking(w, w', t, horizon, delegated) && OwnTurns(acts, t, delegated)
    ensures Looking(w, Run(w', acts), t, horizon, delegated)
    decreases |acts|
  {
    if acts != [] {
      LookOn(w, w', t, horizon, delegated, acts[0].choice);
      RunLooks(w, Step(w', acts[0]), t, horizon, acts[1..], delegated);
    }
  }

  /** A Reconcile of which only its own turns are left: whenever it has ended, exactly the AVAILABLE and
      RESERVED rows that expire by the horizon, and whose delegation was read and falls short, are
      EXPIRED; nobody holds one of them, and nothing else has changed. */
  lemma ReconcileAlone(w: World, t: nat, horizon: nat, acts: seq<Action>, delegated: map<nat, nat>)
    requires Inv(w) && t !in w.txs && OwnTurns(acts, t, delegated)
    ensures
      var w' := Run(Step(w, StartReconcile(t, horizon)), acts);
      t in w'.txs && (w'.txs[t].Done? ==>
        && w' == w.At(t, Done(Reconciled)).(rows := w'.rows) && |w'.rows| == |w.rows|
        && Missing(w, horizon, delegated) !! w.holder.Keys
        && forall i: nat :: i < |w.rows| ==>
             w'.rows[i] == if i in Missing(w, horizon, delegated) then w.rows[i].(status := Expired) else w.rows[i])
  {
    RunLooks(w, Step(w, StartReconcile(t, horizon)), t, horizon, acts, delegated);
  }

  predicate Before(tx: Tx, tx': Tx) {
    if tx'.Done? then !tx.Done?
    else if tx.Querying? && tx'.Querying? then tx'.todo < tx.todo
    else if tx.Expiring? && tx'.Expiring? then tx'.todo < tx.todo
    else tx.Querying? && tx'.Expiring?
  }

  lemma LookNext(w: World, w': World, t: nat, horizon: nat, delegated: map<nat, nat>) returns (choice: nat)
    requires Looking(w, w', t, horizon, delegated) && !w'.txs[t].Done?
    requires Missing(w, horizon, delegated) !! w.holder.Keys
    ensures
      var w1 := Step(w', Turn(t, delegated, choice));
      t in w1.txs && Before(w'.txs[t], w1.txs[t])
  {
    var tx := w'.txs[t];
    choice := 0;
    if tx.todo != {} {
      choice :| choice in tx.todo;
      assert tx.todo - {choice} < tx.todo;
    }
  }

  /** And they end it, unless somebody holds a row it is to write off. */
  lemma {:induction false} LookingEnds(w: World, w': World, t: nat, horizon: nat, delegated: map<nat, nat>)
    returns (acts: seq<Action>)
    requires Inv(w) && t !in w.txs && Looking(w, w', t, horizon, delegated)
    requires Missing(w, horizon, delegated) !! w.holder.Keys
    ensures OwnTurns(acts, t, delegated)
    ensures t in Run(w', acts).txs && Run(w', acts).txs[t].Done?
    decreases var tx := w'.txs[t]; if tx.Querying? then 2 else if tx.Expiring? then 1 else 0,
      if w'.txs[t].Querying? || w'.txs[t].Expiring? then w'.txs[t].todo else {}
  {
    acts := [];
    if !w'.txs[t].Done? {
      var choice := LookNext(w, w', t, horizon, delegated);
      var first := Turn(t, delegated, choice);
      LookOn(w, w', t, horizon, delegated, choice);
      var rest := LookingEnds(w, Step(w', first), t, horizon, delegated);
      OneFirst(w', first, rest);
      acts := [first] + rest;
    }
  }

  lemma ReconcileEnds(w: World, t: nat, horizon: nat, delegated: map<nat, nat>) returns (acts: seq<Action>)
    requires Inv(w) && t !in w.txs && Missing(w, horizon, delegated) !! w.holder.Keys
    ensures OwnTurns(acts, t, delegated)
    ensures
      var w' := Run(Step(w, StartReconcile(t, horizon)), acts);
      t in w'.txs && w'.txs[t].Done?
  {
    acts := LookingEnds(w, Step(w, StartReconcile(t, horizon)), t, horizon, delegated);
  }
}
