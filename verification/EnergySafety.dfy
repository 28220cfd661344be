/** What every run of the energy buffer keeps. */
module EnergySafety {
  import opened Common
  import opened EnergyBuffer

  // ---------------------------------------------------------------- one lemma per kind of step

  /** A transaction moves on without touching a row or a lock. */
  lemma MoveKeeps(w: World, t: nat, tx: Tx, nextId: nat)
    requires Inv(w) && (t in w.txs ==> w.txs[t].Locked() == tx.Locked()) && (t !in w.txs ==> tx.Locked() == {})
    requires nextId >= w.nextId && TxOk(w.At(t, tx).(nextId := nextId), t)
    requires forall u ::
      u in w.txs && u != t && (w.txs[u].Marking? || w.txs[u].Committing?) && (tx.Marking? || tx.Committing?) ==>
        w.txs[u].id != tx.id
    ensures Inv(w.At(t, tx).(nextId := nextId))
  {
    var w' := w.At(t, tx).(nextId := nextId);
    forall i: nat | i < |w'.rows| ensures RowOk(w', i) { assert RowOk(w, i); }
    forall a | a in w'.allocations ensures AllocationOk(w', a) { assert AllocationOk(w, a); }
    forall u | u in w'.txs ensures TxOk(w', u) { if u != t { assert TxOk(w, u); } }
    forall r | r in w'.holder ensures HolderOk(w', r) { assert HolderOk(w, r); }
  }

  lemma LockKeeps(w: World, t: nat, tx: Tx, r: nat)
    requires Inv(w) && t in w.txs && r !in w.holder && !tx.Marking? && !tx.Committing?
    requires tx.Locked() == w.txs[t].Locked() + {r}
    requires TxOk(w.At(t, tx).(holder := w.holder[r := t]), t)
    ensures Inv(w.At(t, tx).(holder := w.holder[r := t]))
  {
    var w' := w.At(t, tx).(holder := w.holder[r := t]);
    forall i: nat | i < |w'.rows| ensures RowOk(w', i) { assert RowOk(w, i); }
    forall a | a in w'.allocations ensures AllocationOk(w', a) { assert AllocationOk(w, a); }
    forall u | u in w'.txs ensures TxOk(w', u) { if u != t { assert TxOk(w, u); } }
    forall q | q in w'.holder ensures HolderOk(w', q) { if q != r { assert HolderOk(w, q); } }
  }

  lemma RollBackKeeps(w: World, t: nat, result: Result)
    requires Inv(w) && t in w.txs
    ensures Inv(RollBack(w, t, result))
  {
    var w' := RollBack(w, t, result);
    forall i: nat | i < |w'.rows| ensures RowOk(w', i) { assert RowOk(w, i); }
    forall a | a in w'.allocations ensures AllocationOk(w', a) { assert AllocationOk(w, a); }
    forall u | u in w'.txs ensures TxOk(w', u) {
      if u != t { assert TxOk(w, u); }
    }
    forall r | r in w'.holder ensures HolderOk(w', r) { assert HolderOk(w, r); }
  }

  lemma ClaimKeeps(w: World, t: nat, choice: nat)
    requires Inv(w) && t in w.txs && w.txs[t].Claiming?
    ensures Inv(DoClaim(w, t, w.txs[t], choice))
  {
    var tx := w.txs[t];
    assert TxOk(w, t);
    if tx.total >= tx.request.want {
      MoveKeeps(w, t, Recording(tx.request, tx.claimed, tx.total), w.nextId);
    } else if Earliest(w, tx, choice) {
      var tx' := Claiming(tx.request, tx.claimed + {choice}, tx.total + w.rows[choice].units);
      assert choice !in tx.claimed;
      UnitsOfMore(w.rows, tx.claimed, choice);
      LockKeeps(w, t, tx', choice);
    } else if !(exists i: nat :: i < |w.rows| && Eligible(w, tx, i)) {
      RollBackKeeps(w, t, Exhausted);
    }
  }

  lemma RecordKeeps(w: World, t: nat)
    requires Inv(w) && t in w.txs && (w.txs[t].Recording? || w.txs[t].Marking?)
    ensures Inv(AdvanceTx(w, t, w.txs[t], 0, None))
  {
    var tx := w.txs[t];
    assert TxOk(w, t);
    if tx.Recording? {
      forall a | a in w.allocations ensures a != w.nextId { assert AllocationOk(w, a); }
      forall u | u in w.txs && (w.txs[u].Marking? || w.txs[u].Committing?) ensures w.txs[u].id != w.nextId {
        assert TxOk(w, u);
      }
      MoveKeeps(w, t, Marking(tx.request, tx.claimed, tx.total, w.nextId), w.nextId + 1);
    } else {
      MoveKeeps(w, t, Committing(tx.request, tx.claimed, tx.total, tx.id), w.nextId);
    }
  }

  /** Other transactions hold other rows. */
  lemma LocksApart(w: World, t: nat, u: nat, r: nat)
    requires Inv(w) && t in w.txs && u in w.txs && t != u && r in w.txs[t].Locked()
    ensures r !in w.txs[u].Locked()
  {
    assert TxOk(w, t) && TxOk(w, u);
  }

  /** A change of rows one transaction has locked, at its end. */
  lemma OthersKeep(w: World, t: nat, w': World, u: nat)
    requires Inv(w) && t in w.txs && u in w.txs && u != t
    requires |w'.rows| == |w.rows| && w'.holder == Release(w.holder, t) && u in w'.txs
      && w'.txs[u] == w.txs[u] && w'.nextId >= w.nextId
    requires forall r: nat :: r < |w.rows| ==> w'.rows[r].units == w.rows[r].units
    requires forall r: nat :: r < |w.rows| && r !in w.txs[t].Locked() ==> w'.rows[r] == w.rows[r]
    requires forall a :: a in w'.allocations ==> a in w.allocations || (w.txs[t].Committing? && a == w.txs[t].id)
    ensures TxOk(w', u)
  {
    assert TxOk(w, u);
    var tx := w.txs[u];
    UnitsOfSame(w.rows, w'.rows, tx.Locked());
    forall r | r in tx.Locked() ensures r !in w.txs[t].Locked() { LocksApart(w, u, t, r); }
  }

  lemma CommitRows(w: World, t: nat)
    requires Inv(w) && t in w.txs && w.txs[t].Committing?
    ensures
      var tx := w.txs[t];
      var w' := DoCommit(w, t, tx.request, tx.claimed, tx.total, tx.id);
      && (forall i: nat :: i < |w'.rows| ==> RowOk(w', i))
      && (forall a :: a in w'.allocations ==> AllocationOk(w', a))
  {
    var tx := w.txs[t];
    var w' := DoCommit(w, t, tx.request, tx.claimed, tx.total, tx.id);
    assert TxOk(w, t);
    forall i: nat | i < |w'.rows|
      ensures RowOk(w', i) && (w'.rows[i].allocation == Some(tx.id) <==> i in tx.claimed)
      ensures forall a :: a in w.allocations ==> (w'.rows[i].allocation == Some(a) <==> w.rows[i].allocation == Some(a))
    {
      assert RowOk(w, i);
    }
    AllocatedIsMarked(w'.rows, tx.claimed, tx.id);
    UnitsOfSame(w.rows, w'.rows, tx.claimed);
    forall a | a in w'.allocations ensures AllocationOk(w', a) {
      if a != tx.id {
        assert AllocationOk(w, a);
        AllocatedSame(w.rows, w'.rows, a);
      }
    }
  }

  lemma CommitKeeps(w: World, t: nat)
    requires Inv(w) && t in w.txs && w.txs[t].Committing?
    ensures Inv(AdvanceTx(w, t, w.txs[t], 0, None))
  {
    var tx := w.txs[t];
    var w' := DoCommit(w, t, tx.request, tx.claimed, tx.total, tx.id);
    CommitRows(w, t);
    forall u | u in w'.txs ensures TxOk(w', u) {
      if u != t {
        OthersKeep(w, t, w', u);
      }
    }
    forall r | r in w'.holder ensures HolderOk(w', r) { assert HolderOk(w, r); }
  }

  lemma ExpireRows(w: World, claimed: set<nat>)
    requires Inv(w)
    ensures
      var w' := w.(rows := Expire(w.rows, claimed));
      && (forall i: nat :: i < |w'.rows| ==> RowOk(w', i))
      && (forall a :: a in w'.allocations ==> AllocationOk(w', a))
  {
    var w' := w.(rows := Expire(w.rows, claimed));
    forall i: nat | i < |w'.rows| ensures RowOk(w', i) && w'.rows[i].allocation == w.rows[i].allocation {
      assert RowOk(w, i);
    }
    forall a | a in w'.allocations ensures AllocationOk(w', a) {
      assert AllocationOk(w, a);
      AllocatedSame(w.rows, w'.rows, a);
    }
  }

  lemma ExpireCommitKeeps(w: World, t: nat, choice: nat)
    requires Inv(w) && t in w.txs && w.txs[t].Expiring? && w.txs[t].todo == {}
    ensures Inv(DoExpire(w, t, {}, w.txs[t].claimed, choice))
  {
    var tx := w.txs[t];
    var w' := DoExpire(w, t, {}, tx.claimed, choice);
    var w1 := w.(rows := Expire(w.rows, tx.claimed));
    ExpireRows(w, tx.claimed);
    forall i: nat | i < |w'.rows| ensures RowOk(w', i) { assert RowOk(w1, i); }
    forall a | a in w'.allocations ensures AllocationOk(w', a) { assert AllocationOk(w1, a); }
    forall u | u in w'.txs ensures TxOk(w', u) {
      if u != t { OthersKeep(w, t, w', u); }
    }
    forall r | r in w'.holder ensures HolderOk(w', r) { assert HolderOk(w, r); }
  }

  lemma ExpireKeeps(w: World, t: nat, choice: nat)
    requires Inv(w) && t in w.txs && w.txs[t].Expiring?
    ensures Inv(DoExpire(w, t, w.txs[t].todo, w.txs[t].claimed, choice))
  {
    var tx := w.txs[t];
    assert TxOk(w, t);
    if tx.todo == {} {
      ExpireCommitKeeps(w, t, choice);
    } else if choice in tx.todo && choice !in w.holder {
      LockKeeps(w, t, Expiring(tx.todo - {choice}, tx.claimed + {choice}), choice);
    }
  }

  lemma QueryKeeps(w: World, t: nat, choice: nat, actual: Option<nat>)
    requires Inv(w) && t in w.txs && w.txs[t].Querying?
    ensures Inv(AdvanceTx(w, t, w.txs[t], choice, actual))
  {
    var w' := AdvanceTx(w, t, w.txs[t], choice, actual);
    if w' != w { MoveKeeps(w, t, w'.txs[t], w.nextId); }
  }

  lemma InsertKeeps(w: World, row: Row)
    requires Inv(w) && row.status.Available? && row.allocation.None? && row.units > 0
    ensures Inv(w.(rows := w.rows + [row]))
  {
    var w' := w.(rows := w.rows + [row]);
    assert w'.rows[..|w.rows|] == w.rows;
    forall i: nat | i < |w'.rows| ensures RowOk(w', i) { if i < |w.rows| { assert RowOk(w, i); } }
    forall a | a in w'.allocations ensures AllocationOk(w', a) { assert AllocationOk(w, a); }
    forall u | u in w'.txs ensures TxOk(w', u) { assert TxOk(w, u); }
    forall r | r in w'.holder ensures HolderOk(w', r) { assert HolderOk(w, r); }
  }

  lemma AdvanceKeeps(w: World, t: nat, choice: nat, actual: Option<nat>)
    requires Inv(w) && t in w.txs
    ensures Inv(AdvanceTx(w, t, w.txs[t], choice, actual))
  {
    var tx := w.txs[t];
    if tx.Claiming? { ClaimKeeps(w, t, choice); }
    else if tx.Recording? || tx.Marking? { RecordKeeps(w, t); }
    else if tx.Committing? { CommitKeeps(w, t); }
    else if tx.Querying? { QueryKeeps(w, t, choice, actual); }
    else if tx.Expiring? { ExpireKeeps(w, t, choice); }
  }

  lemma StepKeeps(w: World, act: Action)
    requires Inv(w)
    ensures Inv(Step(w, act))
  {
    match act
    case Insert(row) => if Step(w, act) != w { InsertKeeps(w, row); }
    case StartReserve(t, order, slot, want, now) =>
      if t !in w.txs {
        UnitsOfNone(w.rows);
        MoveKeeps(w, t, Step(w, act).txs[t], w.nextId);
      }
    case StartReconcile(t, horizon) => if t !in w.txs { MoveKeeps(w, t, Step(w, act).txs[t], w.nextId); }
    case Advance(t, choice, actual) => if t in w.txs { AdvanceKeeps(w, t, choice, actual); }
    case Crash(t) => if t in w.txs { RollBackKeeps(w, t, Dead); }
  }

  lemma {:induction false} RunKeeps(w: World, acts: seq<Action>)
    requires Inv(w)
    ensures Inv(Run(w, acts))
    decreases |acts|
  {
    if acts != [] {
      StepKeeps(w, acts[0]);
      RunKeeps(Step(w, acts[0]), acts[1..]);
    }
  }

  // ---------------------------------------------------------------- how a row may change

  ghost predicate StatusForward(before: Status, after: Status) {
    || before == after
    || after.Expired?
    || (before.Available? && after.Reserved?)
  }

  ghost predicate RowForward(before: Row, after: Row) {
    && after.slot == before.slot && after.units == before.units && after.expiresAt == before.expiresAt
    && (before.allocation.Some? ==> after.allocation == before.allocation)
    && StatusForward(before.status, after.status)
  }

  /** Rows and allocations are never removed or rewritten; statuses only move forward. */
  ghost predicate Forward(w: World, w': World) {
    && |w.rows| <= |w'.rows|
    && (forall i: nat :: i < |w.rows| ==> RowForward(w.rows[i], w'.rows[i]))
    && (forall a :: a in w.allocations ==> a in w'.allocations && w'.allocations[a] == w.allocations[a])
  }

  lemma CommitForward(w: World, t: nat)
    requires Inv(w) && t in w.txs && w.txs[t].Committing?
    ensures Forward(w, AdvanceTx(w, t, w.txs[t], 0, None))
  {
    assert TxOk(w, t);
    forall i: nat | i < |w.rows| ensures RowForward(w.rows[i], AdvanceTx(w, t, w.txs[t], 0, None).rows[i]) {
      assert RowOk(w, i);
    }
  }

  lemma AdvanceForward(w: World, t: nat, choice: nat, actual: Option<nat>)
    requires Inv(w) && t in w.txs
    ensures Forward(w, AdvanceTx(w, t, w.txs[t], choice, actual))
    ensures !w.txs[t].Committing? && !w.txs[t].Expiring? ==>
      AdvanceTx(w, t, w.txs[t], choice, actual).rows == w.rows
        && AdvanceTx(w, t, w.txs[t], choice, actual).allocations == w.allocations
  {
    if w.txs[t].Committing? { CommitForward(w, t); }
  }

  lemma StepForward(w: World, act: Action)
    requires Inv(w)
    ensures Forward(w, Step(w, act))
  {
    match act
    case Advance(t, choice, actual) => if t in w.txs { AdvanceForward(w, t, choice, actual); }
    case _ =>
  }

  lemma {:induction false} RunForward(w: World, acts: seq<Action>)
    requires Inv(w)
    ensures Forward(w, Run(w, acts))
    decreases |acts|
  {
    if acts != [] {
      var w1 := Step(w, acts[0]);
      StepForward(w, acts[0]);
      StepKeeps(w, acts[0]);
      RunForward(w1, acts[1..]);
      var w2 := Run(w1, acts[1..]);
      forall i: nat | i < |w.rows| ensures RowForward(w.rows[i], w2.rows[i]) {
        assert RowForward(w.rows[i], w1.rows[i]) && RowForward(w1.rows[i], w2.rows[i]);
      }
    }
  }

  lemma {:induction false} RunConcat(w: World, before: seq<Action>, after: seq<Action>)
    ensures Run(w, before + after) == Run(Run(w, before), after)
    decreases |before|
  {
    if before == [] {
      assert before + after == after;
    } else {
      assert (before + after)[0] == before[0] && (before + after)[1..] == before[1..] + after;
      RunConcat(Step(w, before[0]), before[1..], after);
    }
  }

  // ---------------------------------------------------------------- the theorems

  /** No row is ever in two allocations: once allocated, it keeps that allocation for good; and an
      expired row stays expired, so it is never reserved again. */
  lemma NoRowTwice(before: seq<Action>, after: seq<Action>, i: nat)
    requires i < |Run(INIT, before).rows|
    ensures
      var row := Run(INIT, before).rows[i];
      var w' := Run(INIT, before + after);
      && i < |w'.rows| && w'.rows[i].units == row.units
      && (row.allocation.Some? ==> w'.rows[i].allocation == row.allocation && !w'.rows[i].status.Available?)
      && (row.status.Expired? ==> w'.rows[i].status.Expired?)
  {
    RunKeeps(INIT, before);
    RunConcat(INIT, before, after);
    RunForward(Run(INIT, before), after);
    RunKeeps(INIT, before + after);
    assert RowForward(Run(INIT, before).rows[i], Run(INIT, before + after).rows[i]);
    assert RowOk(Run(INIT, before + after), i);
  }

  /** In every run, an allocation's units are the sum of its rows, never less than was asked for,
      and a reserved row belongs to an allocation there is. */
  lemma AllocationsCover(acts: seq<Action>, a: nat)
    requires a in Run(INIT, acts).allocations
    ensures
      var w := Run(INIT, acts);
      w.allocations[a].units == UnitsAllocated(w.rows, a) >= w.allocations[a].request.want > 0
  {
    RunKeeps(INIT, acts);
    assert AllocationOk(Run(INIT, acts), a);
  }

  /** A row is available exactly as long as it is in no allocation and not expired; the allocation
      it is in exists and is for the row's own slot, at a time before the row's expiry. */
  lemma RowsAreAllocatedRightly(acts: seq<Action>, i: nat)
    requires i < |Run(INIT, acts).rows|
    ensures
      var w := Run(INIT, acts);
      var row := w.rows[i];
      && (row.status.Available? ==> row.allocation.None?)
      && (row.status.Reserved? ==> row.allocation.Some?)
      && (row.allocation.Some? ==>
            && row.allocation.value in w.allocations
            && row.slot == w.allocations[row.allocation.value].request.slot
            && row.expiresAt > w.allocations[row.allocation.value].request.now)
  {
    RunKeeps(INIT, acts);
    assert RowOk(Run(INIT, acts), i);
  }

  /** The rows a request could use that no other transaction holds. */
  ghost function Free(w: World, t: nat, r: Request): set<nat> {
    set i: nat | i < |w.rows| && Matches(w.rows[i], r) && (i in w.holder ==> w.holder[i] == t)
  }

  /** A Reserve gives up exactly when the matching rows that no other transaction holds fall short,
      and by then it has claimed every one of them. Rows held by a Reserve that later dies, or by a
      Reconcile, count as absent: such a failure says nothing about the total. */
  lemma ExhaustedIff(w: World, t: nat, choice: nat)
    requires Inv(w) && t in w.txs && w.txs[t].Claiming?
    ensures
      var free := Free(w, t, w.txs[t].request);
      DoClaim(w, t, w.txs[t], choice).txs[t] == Done(Exhausted) <==>
      w.txs[t].claimed == free && UnitsOf(w.rows, free) < w.txs[t].request.want
  {
    var tx := w.txs[t];
    var free := Free(w, t, tx.request);
    assert TxOk(w, t);
    assert tx.claimed <= free;
    forall r | r in w.holder && w.holder[r] == t ensures r in tx.claimed { assert HolderOk(w, r); }
    assert forall i: nat :: i in free && i !in tx.claimed ==> Eligible(w, tx, i);
    if tx.claimed == free {
      forall i: nat | i < |w.rows| ensures !Eligible(w, tx, i) {}
    } else {
      var i :| i in free && i !in tx.claimed;
      assert Eligible(w, tx, i);
    }
  }

  /** A Reserve changes nothing before its commit, and one that fails or dies changes nothing at
      all: no row, no allocation, and no lock stays behind. */
  lemma FailedReserveChangesNothing(w: World, act: Action, t: nat)
    requires Inv(w) && t in w.txs && w.txs[t].Reserving() && (act == Crash(t) || (act.Advance? && act.t == t))
    ensures
      var w' := Step(w, act);
      && t in w'.txs
      && (!(w'.txs[t].Done? && w'.txs[t].result.Granted?) ==> w'.rows == w.rows && w'.allocations == w.allocations)
      && (w'.txs[t].Done? ==> forall r :: r in w'.holder ==> w'.holder[r] != t)
  {
    if act.Advance? { AdvanceForward(w, t, act.choice, act.actual); }
  }

  /** Locks do not outlive transactions. */
  lemma NoLockLeaks(acts: seq<Action>)
    requires forall t :: t in Run(INIT, acts).txs ==> Run(INIT, acts).txs[t].Done?
    ensures Run(INIT, acts).holder == map[]
  {
    RunKeeps(INIT, acts);
    var w := Run(INIT, acts);
    forall r ensures r !in w.holder {
      if r in w.holder { assert false; }
    }
  }

  // ---------------------------------------------------------------- what was granted stays granted

  ghost predicate GrantOk(w: World, t: nat)
    requires t in w.txs
  {
    w.txs[t].Done? && w.txs[t].result.Granted? ==>
      && w.txs[t].result.allocation in w.allocations
      && w.allocations[w.txs[t].result.allocation].units == w.txs[t].result.units
      && forall r :: r in w.txs[t].result.rows ==>
        r < |w.rows| && w.rows[r].allocation == Some(w.txs[t].result.allocation)
  }

  lemma AdvanceOne(w: World, t: nat, choice: nat, actual: Option<nat>)
    requires t in w.txs
    ensures OnlyTx(w, t, AdvanceTx(w, t, w.txs[t], choice, actual))
  {
    var tx := w.txs[t];
    if tx.Claiming? { assert OnlyTx(w, t, DoClaim(w, t, tx, choice)); }
    else if tx.Expiring? { assert OnlyTx(w, t, DoExpire(w, t, tx.todo, tx.claimed, choice)); }
    else if tx.Querying? { assert OnlyTx(w, t, DoQuery(w, t, tx.todo, tx.expire, choice, actual)); }
  }

  ghost predicate OnlyTx(w: World, t: nat, w': World) {
    && w'.txs.Keys == w.txs.Keys
    && forall u :: u in w.txs && u != t ==> w'.txs[u] == w.txs[u]
  }

  lemma DoneStays(w: World, act: Action, t: nat)
    requires t in w.txs && w.txs[t].Done?
    ensures t in Step(w, act).txs && Step(w, act).txs[t] == w.txs[t]
  {
    if act.Advance? && act.t in w.txs && act.t != t { AdvanceOne(w, act.t, act.choice, act.actual); }
  }

  lemma GrantStays(w: World, w': World, t: nat)
    requires t in w.txs && GrantOk(w, t) && Forward(w, w') && t in w'.txs && w'.txs[t] == w.txs[t]
    ensures GrantOk(w', t)
  {
    if w.txs[t].Done? && w.txs[t].result.Granted? {
      forall r | r in w.txs[t].result.rows
        ensures r < |w'.rows| && w'.rows[r].allocation == Some(w.txs[t].result.allocation)
      {
        assert RowForward(w.rows[r], w'.rows[r]);
      }
    }
  }

  /** Only a commit grants anything. */
  lemma GrantBegins(w: World, t: nat, choice: nat, actual: Option<nat>)
    requires Inv(w) && t in w.txs && !w.txs[t].Done?
    ensures GrantOk(AdvanceTx(w, t, w.txs[t], choice, actual), t)
  {
    assert TxOk(w, t);
  }

  lemma GrantNew(w: World, act: Action, t: nat)
    requires t in Step(w, act).txs && (t in w.txs ==> !w.txs[t].Done?) && !(act.Advance? && act.t == t)
    ensures GrantOk(Step(w, act), t)
  {
    if act.Advance? && act.t in w.txs { AdvanceOne(w, act.t, act.choice, act.actual); }
  }

  lemma {:induction false} GrantsKeep(w: World, acts: seq<Action>)
    requires Inv(w) && forall t :: t in w.txs ==> GrantOk(w, t)
    ensures forall t :: t in Run(w, acts).txs ==> GrantOk(Run(w, acts), t)
    decreases |acts|
  {
    if acts != [] {
      var w' := Step(w, acts[0]);
      forall t | t in w'.txs ensures GrantOk(w', t) {
        if t in w.txs && w.txs[t].Done? {
          DoneStays(w, acts[0], t);
          StepForward(w, acts[0]);
          GrantStays(w, w', t);
        } else {
          if acts[0].Advance? && acts[0].t == t { GrantBegins(w, t, acts[0].choice, acts[0].actual); }
          else { GrantNew(w, acts[0], t); }
        }
      }
      StepKeeps(w, acts[0]);
      GrantsKeep(w', acts[1..]);
    }
  }

  /** What a Reserve was granted is still its own at any later time: the allocation exists with the
      units reported, and every row reported still carries it. */
  lemma GrantsHold(acts: seq<Action>, t: nat)
    requires t in Run(INIT, acts).txs
    ensures GrantOk(Run(INIT, acts), t)
  {
    GrantsKeep(INIT, acts);
  }
}
