/** The remaining steps -- those that touch attempts, and reconciliation -- and all runs. */
module LifecycleRuns {
  import opened Common
  import A = Attempts
  import B = BroadcastProtocol
  import S = BroadcastSafety
  import opened Ledger
  import opened Lifecycle
  import opened LifecycleInvariant
  import opened LifecycleSafety
  import opened OrchestratorSafety

  // ---------------------------------------------------------------- steps of the attempts

  /** The step inserts this row. */
  ghost predicate Inserts(w: B.World, act: B.Action, a: B.Args) {
    act.Advance? && act.t in w.threads && w.threads[act.t] == B.Inserting(a)
  }

  /** Only an inserting thread adds a row, and only a confirming one confirms one. */
  ghost predicate RowsFollow(w: B.World, act: B.Action, w': B.World) {
    && |w.rows| <= |w'.rows| <= |w.rows| + 1
    && (|w'.rows| > |w.rows| ==>
          exists a :: Inserts(w, act, a)
            && w'.rows[|w.rows|] == A.NewRow(a.order, a.slot, a.number, Sha256(a.unsignedTx)))
    && (forall r :: 0 <= r < |w.rows| ==>
          && w'.rows[r].order == w.rows[r].order && w.rows[r].status.Reaches(w'.rows[r].status)
          && (w'.rows[r].status.Confirmed? ==>
            w.rows[r].status.Confirmed? || (act.Advance? && act.t in w.threads && w.threads[act.t].Confirming?)))
  }

  ghost predicate ThreadsFollow(w: B.World, act: B.Action, w': B.World) {
    && (forall t :: t in w.threads ==> t in w'.threads)
    && (forall t :: t in w'.threads && w'.threads[t].Inserting? ==>
          || (t in w.threads && w.threads[t] == w'.threads[t] && !(act.Advance? && act.t == t))
          || act == B.StartBroadcast(t, w'.threads[t].a))
    && (forall t :: t in w'.threads && w'.threads[t].Confirming? ==>
          || (t in w.threads && w.threads[t] == w'.threads[t])
          || act.StartConfirm?)
  }

  lemma AdvanceRows(w: B.World, t: nat, reply: B.Reply)
    requires t in w.threads
    ensures RowsAdvance(w.rows, B.AdvanceThread(w, t, w.threads[t], reply).rows, w.threads[t])
  {
    var pc := w.threads[t];
    if !pc.Done? && !reply.Fails() {
      match pc
      case Calling(a, id, sig) => assert B.DoCall(w, t, a, id, sig, reply).rows == w.rows;
      case Storing(_, id, sig) => if id < |w.rows| { assert RowAdvance(w.rows, A.MarkSigned(w.rows, id, sig), id, pc); }
      case Rejecting(id) => if id < |w.rows| { assert RowAdvance(w.rows, A.MarkFailed(w.rows, id), id, pc); }
      case Failing(id, _) => if id < |w.rows| { assert RowAdvance(w.rows, A.MarkFailed(w.rows, id), id, pc); }
      case Writing(_, id, k, txid) =>
        if id < |w.rows| { assert RowAdvance(w.rows, A.MarkBroadcast(w.rows, id, txid), id, pc); }
      case Confirming(id) => if id < |w.rows| { assert RowAdvance(w.rows, A.MarkConfirmed(w.rows, id), id, pc); }
      case _ =>
    }
  }

  /** What one statement of a thread at pc does to the table. */
  ghost predicate RowsAdvance(rows: A.Table, rows': A.Table, pc: B.Pc) {
    || rows' == rows
    || (pc.Inserting? && rows' == rows + [A.NewRow(pc.a.order, pc.a.slot, pc.a.number, Sha256(pc.a.unsignedTx))])
    || (|rows'| == |rows| && exists id :: 0 <= id < |rows| && RowAdvance(rows, rows', id, pc))
  }

  ghost predicate RowAdvance(rows: A.Table, rows': A.Table, id: nat, pc: B.Pc)
    requires id < |rows| == |rows'|
  {
    rows' == rows[id := rows'[id]] && rows'[id].order == rows[id].order
      && (rows'[id].status.Confirmed? ==> rows[id].status.Confirmed? || pc.Confirming?)
  }

  lemma RowsFollowStep(w: B.World, act: B.Action)
    requires B.Inv(w)
    ensures RowsFollow(w, act, B.Step(w, act))
  {
    S.StepForward(w, act);
    var w' := B.Step(w, act);
    forall r | 0 <= r < |w.rows|
      ensures w'.rows[r].order == w.rows[r].order && w.rows[r].status.Reaches(w'.rows[r].status)
    {
      assert S.RowForward(w, w', r);
    }
    if act.Advance? && act.t in w.threads {
      AdvanceRows(w, act.t, act.reply);
      if w.threads[act.t].Inserting? { assert Inserts(w, act, w.threads[act.t].a); }
    }
  }

  /** A thread that advances never comes to insert or to confirm. */
  ghost predicate Moves(w: B.World, t: nat, w': B.World)
    requires t in w.threads
  {
    && t in w'.threads
    && w'.threads == w.threads[t := w'.threads[t]]
    && !w'.threads[t].Inserting?
    && (w'.threads[t].Confirming? ==> w'.threads[t] == w.threads[t])
  }

  lemma SigningMoves(w: B.World, t: nat, reply: B.Reply)
    requires t in w.threads && !reply.Fails()
    requires var pc := w.threads[t]; pc.Inserting? || pc.Finding? || pc.Checking? || pc.Requesting? || pc.Storing?
    ensures Moves(w, t, B.AdvanceThread(w, t, w.threads[t], reply))
  {}

  lemma SendingMoves(w: B.World, t: nat, reply: B.Reply)
    requires t in w.threads && !reply.Fails()
    requires var pc := w.threads[t]; pc.Locking? || pc.Calling? || pc.Writing?
    ensures Moves(w, t, B.AdvanceThread(w, t, w.threads[t], reply))
  {}

  lemma AdvanceMoves(w: B.World, t: nat, reply: B.Reply)
    requires t in w.threads
    ensures Moves(w, t, B.AdvanceThread(w, t, w.threads[t], reply))
  {
    var pc := w.threads[t];
    if pc.Done? || reply.Fails() {
    } else if pc.Inserting? || pc.Finding? || pc.Checking? || pc.Requesting? || pc.Storing? {
      SigningMoves(w, t, reply);
    } else if pc.Locking? || pc.Calling? || pc.Writing? {
      SendingMoves(w, t, reply);
    }
  }

  lemma ThreadsFollowStep(w: B.World, act: B.Action)
    ensures ThreadsFollow(w, act, B.Step(w, act))
  {
    match act
    case Advance(t, reply) => if t in w.threads { AdvanceMoves(w, t, reply); }
    case _ =>
  }

  /** Rows that only move forward, none inserted or confirmed. */
  ghost predicate RowsGrow(rows: A.Table, rows': A.Table) {
    && |rows'| == |rows|
    && forall r :: 0 <= r < |rows| ==>
         && rows'[r].order == rows[r].order && rows[r].status.Reaches(rows'[r].status)
         && (rows'[r].status.Confirmed? ==> rows[r].status.Confirmed?)
  }

  lemma ViewRowsGrow(l: Ledger, local: map<nat, LocalRow>, rows: A.Table, rows': A.Table, o: nat)
    requires RowsGrow(rows, rows')
    ensures
      var v, v' := ViewOf(l, rows, local, o), ViewOf(l, rows', local, o);
      && (v.failed ==> v'.failed) && (v.sent ==> v'.sent)
      && v' == v.(failed := v'.failed, sent := v'.sent)
  {
    var v, v' := ViewOf(l, rows, local, o), ViewOf(l, rows', local, o);
    forall r: nat ensures RowOf(rows', r, o) <==> RowOf(rows, r, o) {}
    if v.failed {
      var r: nat :| RowOf(rows, r, o) && rows[r].status.Failed?;
      assert RowOf(rows', r, o);
    }
    if v.sent {
      var r: nat :| RowOf(rows, r, o) && (rows[r].status.Broadcast? || rows[r].status.Confirmed?);
      assert RowOf(rows', r, o);
    }
    if v.confirmed {
      var r: nat :| RowOf(rows, r, o) && rows[r].status.Confirmed?;
      assert RowOf(rows', r, o);
    }
  }

  /** A step of the attempts in which no row is inserted or confirmed. */
  lemma AttemptsGrow(w: World, act: B.Action)
    requires Inv(w) && RowsFollow(w.att, act, B.Step(w.att, act)) && |B.Step(w.att, act).rows| == |w.att.rows|
    ensures
      var w' := w.(att := B.Step(w.att, act));
      forall o :: ViewOk(ViewAt(w', o)) && Grows(ViewAt(w, o), ViewAt(w', o))
        && ViewAt(w', o).attempted == ViewAt(w, o).attempted
  {
    if act.Advance? && act.t in w.att.threads { assert AttemptThreadOk(w, act.t); }
    forall o
      ensures
        var v, v' := ViewAt(w, o), ViewAt(w.(att := B.Step(w.att, act)), o);
        ViewOk(v') && Grows(v, v') && v'.attempted == v.attempted
    {
      assert ViewOk(ViewAt(w, o));
      ViewRowsGrow(w.ledger, w.local, w.att.rows, B.Step(w.att, act).rows, o);
    }
  }

  lemma FreezeStepKeeps(w: World, act: B.Action)
    requires Inv(w)
    requires act.StartFreeze? || act.Retire? || ((act.Advance? || act.Crash?) && !OwnThread(w, act.t))
    ensures Inv(w.(att := B.Step(w.att, act)))
  {
    var w' := w.(att := B.Step(w.att, act));
    S.StepKeeps(w.att, act);
    RowsFollowStep(w.att, act);
    ThreadsFollowStep(w.att, act);
    if (act.Advance? || act.Crash?) && act.t in w.att.threads { assert AttemptThreadOk(w, act.t); }
    AttemptsGrow(w, act);
    OrchFrame(w, w');
    ReconFrame(w, w');
    forall t | t in w'.att.threads ensures AttemptThreadOk(w', t) {
      if t in w.att.threads { assert AttemptThreadOk(w, t); }
    }
  }

  // ---------------------------------------------------------------- the orchestrator's Broadcast

  /** The orchestrator's own thread inserts the first and only row of its order. */
  lemma InsertionKeeps(w: World, act: B.Action, a: B.Args)
    requires Inv(w) && w.orch.Sending? && act.Advance? && act.t == w.orch.t && Inserts(w.att, act, a)
    requires |B.Step(w.att, act).rows| > |w.att.rows|
    ensures Inv(w.(att := B.Step(w.att, act)))
  {
    var att := B.Step(w.att, act);
    var w' := w.(att := att);
    var o := w.orch.o;
    assert AttemptThreadOk(w, act.t);
    S.StepKeeps(w.att, act);
    RowsFollowStep(w.att, act);
    ThreadsFollowStep(w.att, act);
    InsertionViews(w, act, a);
    forall r | 0 <= r < |w.att.rows| ensures w.att.rows[r].order != o {
      assert !RowOf(w.att.rows, r, o);
    }
    ReconFrame(w, w');
    forall t | t in w'.att.threads ensures AttemptThreadOk(w', t) {
      if t in w.att.threads { assert AttemptThreadOk(w, t); }
    }
  }

  lemma InsertionViews(w: World, act: B.Action, a: B.Args)
    requires Inv(w) && w.orch.Sending? && act.Advance? && act.t == w.orch.t && Inserts(w.att, act, a)
    requires |B.Step(w.att, act).rows| > |w.att.rows|
    ensures B.Step(w.att, act).rows == w.att.rows + [A.NewRow(a.order, a.slot, a.number, Sha256(a.unsignedTx))]
    ensures
      var w' := w.(att := B.Step(w.att, act));
      forall q :: ViewOk(ViewAt(w', q)) && Grows(ViewAt(w, q), ViewAt(w', q))
  {
    var w' := w.(att := B.Step(w.att, act));
    var row := A.NewRow(a.order, a.slot, a.number, Sha256(a.unsignedTx));
    assert AttemptThreadOk(w, act.t);
    AdvanceRows(w.att, act.t, act.reply);
    forall q ensures ViewOk(ViewAt(w', q)) && Grows(ViewAt(w, q), ViewAt(w', q)) {
      assert ViewOk(ViewAt(w, q));
      ViewNewRow(w.ledger, w.local, w.att.rows, row, q);
    }
  }

  lemma ViewNewRow(l: Ledger, local: map<nat, LocalRow>, rows: A.Table, row: A.Row, o: nat)
    requires row.status.Built?
    ensures
      var v, v' := ViewOf(l, rows, local, o), ViewOf(l, rows + [row], local, o);
      v' == v.(attempted := v.attempted || row.order == o)
  {
    var rows' := rows + [row];
    forall r: nat | r < |rows| ensures rows'[r] == rows[r] {}
    assert row.order == o ==> RowOf(rows', |rows|, o);
    var v, v' := ViewOf(l, rows, local, o), ViewOf(l, rows', local, o);
    if v.attempted { var r: nat :| RowOf(rows, r, o); assert RowOf(rows', r, o); }
    if v'.attempted { var r: nat :| RowOf(rows', r, o); assert r < |rows| ==> RowOf(rows, r, o); }
    ViewNewRowStatus(l, local, rows, row, o);
  }

  lemma ViewNewRowStatus(l: Ledger, local: map<nat, LocalRow>, rows: A.Table, row: A.Row, o: nat)
    requires row.status.Built?
    ensures
      var v, v' := ViewOf(l, rows, local, o), ViewOf(l, rows + [row], local, o);
      v'.failed == v.failed && v'.sent == v.sent && v'.confirmed == v.confirmed
  {
    var rows' := rows + [row];
    forall r: nat | r < |rows| ensures rows'[r] == rows[r] && (RowOf(rows', r, o) <==> RowOf(rows, r, o)) {}
    var v, v' := ViewOf(l, rows, local, o), ViewOf(l, rows', local, o);
    if v.failed { var r: nat :| RowOf(rows, r, o) && rows[r].status.Failed?; assert RowOf(rows', r, o); }
    if v.sent {
      var r: nat :| RowOf(rows, r, o) && (rows[r].status.Broadcast? || rows[r].status.Confirmed?);
      assert RowOf(rows', r, o);
    }
    if v.confirmed { var r: nat :| RowOf(rows, r, o) && rows[r].status.Confirmed?; assert RowOf(rows', r, o); }
  }

  lemma OwnStepKeeps(w: World, act: B.Action)
    requires Inv(w) && w.orch.Sending? && (act.Advance? || act.Crash?) && act.t == w.orch.t
    ensures Inv(w.(att := B.Step(w.att, act)))
  {
    RowsFollowStep(w.att, act);
    if |B.Step(w.att, act).rows| > |w.att.rows| {
      var a :| Inserts(w.att, act, a);
      InsertionKeeps(w, act, a);
    } else {
      var w' := w.(att := B.Step(w.att, act));
      S.StepKeeps(w.att, act);
      ThreadsFollowStep(w.att, act);
      assert AttemptThreadOk(w, act.t);
      AttemptsGrow(w, act);
      OrchFrame(w, w');
      ReconFrame(w, w');
      forall t | t in w'.att.threads ensures AttemptThreadOk(w', t) {
        if t in w.att.threads { assert AttemptThreadOk(w, t); }
      }
    }
  }

  /** Once its broadcast thread is done, the orchestrator may turn to something else. */
  lemma LeaveBroadcast(w: World, pending: map<nat, B.Args>)
    requires Inv(w) && w.orch.Sending? && w.att.threads[w.orch.t].Done?
    requires forall o :: o in pending ==> o in w.pending && pending[o] == w.pending[o]
    ensures Inv(w.(orch := Idle, pending := pending))
  {
    forall t | t in w.att.threads ensures !w.att.threads[t].Inserting? { assert AttemptThreadOk(w, t); }
    OrchMove(w, Idle, pending);
  }

  lemma BroadcastKeeps(w: World, answer: B.Reply)
    requires Inv(w)
    ensures Inv(DoBroadcast(w, answer))
  {
    if w.orch.Sending? {
      var act := B.Advance(w.orch.t, answer);
      OwnStepKeeps(w, act);
      var w1 := w.(att := B.Step(w.att, act));
      if w1.att.threads[w.orch.t].Done? {
        LeaveBroadcast(w1, DoBroadcast(w, answer).pending);
      }
    }
  }

  lemma OrchCrashKeeps(w: World)
    requires Inv(w)
    ensures Inv(DoOrchCrash(w))
  {
    if w.orch.Sending? {
      OwnStepKeeps(w, B.Crash(w.orch.t));
      LeaveBroadcast(w.(att := B.Step(w.att, B.Crash(w.orch.t))), map[]);
    } else {
      NotSendingNobodyInserts(w);
      OrchMove(w, Idle, map[]);
    }
  }

  function Started(w: World, o: nat, args: B.Args, t: nat): World {
    w.(orch := Sending(o, t), pending := w.pending[o := args], att := w.att.At(t, B.Inserting(args)))
  }

  lemma StartedThreads(w: World, o: nat, args: B.Args, t: nat)
    requires Inv(w) && NobodyInserts(w) && t !in w.att.threads && args.order == o && !ViewAt(w, o).attempted
    ensures forall u :: u in Started(w, o, args, t).att.threads ==> AttemptThreadOk(Started(w, o, args, t), u)
  {
    var w' := Started(w, o, args, t);
    assert ViewAt(w', o) == ViewAt(w, o);
    forall u | u in w'.att.threads ensures AttemptThreadOk(w', u) {
      if u != t { assert AttemptThreadOk(w, u); }
    }
  }

  lemma StartedRecon(w: World, o: nat, args: B.Args, t: nat)
    requires Inv(w)
    ensures forall p :: p in w.recon ==> ReconOk(Started(w, o, args, t), w.recon[p])
  {
    var w' := Started(w, o, args, t);
    forall q ensures ViewAt(w', q) == ViewAt(w, q) {}
    ReconFrame(w, w');
  }

  /** Broadcast begins: a fresh thread, about to insert this order's first row. */
  lemma StartKeeps(w: World, o: nat, args: B.Args, t: nat)
    requires Inv(w) && NobodyInserts(w) && t !in w.att.threads && args.order == o
    requires ViewAt(w, o).local.Some? && !ViewAt(w, o).attempted
    ensures Inv(Started(w, o, args, t))
  {
    var w' := Started(w, o, args, t);
    S.StepKeeps(w.att, B.StartBroadcast(t, args));
    forall q ensures ViewAt(w', q) == ViewAt(w, q) {}
    assert ViewOk(ViewAt(w, o));
    StartedRecon(w, o, args, t);
    StartedThreads(w, o, args, t);
  }

  lemma BuildKeeps(w: World, o: nat, slot: nat, tx: Bytes, t: nat)
    requires Inv(w) && w.orch == Building(o, slot)
    ensures Inv(DoBuild(w, o, slot, tx, t))
  {
    if t !in w.att.threads {
      NotSendingNobodyInserts(w);
      StartKeeps(w, o, DoBuild(w, o, slot, tx, t).pending[o], t);
    }
  }

  lemma MarkConfirmedKeeps(w: World, reply: Reply, o: nat, id: nat)
    requires Inv(w) && w.orch == MarkingConfirmed(o, id)
    ensures Inv(DoMarkConfirmed(w, reply, o, id))
  {
    var rows := A.MarkConfirmed(w.att.rows, id);
    var w' := DoMarkConfirmed(w, reply, o, id);
    S.ConfirmRowKeeps(w.att, id);
    NotSendingNobodyInserts(w);
    forall q
      ensures ViewOk(ViewAt(w', q)) && Firm(ViewAt(w, q), ViewAt(w', q))
        && ViewAt(w', q).attempted == ViewAt(w, q).attempted
    {
      assert ViewOk(ViewAt(w, q));
      ViewConfirmed(w.ledger, w.local, w.att.rows, id, q);
    }
    ReconFrame(w, w');
    forall t | t in w'.att.threads ensures AttemptThreadOk(w', t) { assert AttemptThreadOk(w, t); }
  }

  lemma ViewConfirmed(l: Ledger, local: map<nat, LocalRow>, rows: A.Table, id: nat, o: nat)
    requires id < |rows|
    ensures
      var v, v' := ViewOf(l, rows, local, o), ViewOf(l, A.MarkConfirmed(rows, id), local, o);
      && v' == v.(confirmed := v'.confirmed)
      && (v'.confirmed ==> v.confirmed || rows[id].order == o)
  {
    var rows' := A.MarkConfirmed(rows, id);
    forall r: nat ensures RowOf(rows', r, o) <==> RowOf(rows, r, o) {}
    var v, v' := ViewOf(l, rows, local, o), ViewOf(l, rows', local, o);
    if v.failed { var r: nat :| RowOf(rows, r, o) && rows[r].status.Failed?; assert RowOf(rows', r, o); }
    if v.sent {
      var r: nat :| RowOf(rows, r, o) && (rows[r].status.Broadcast? || rows[r].status.Confirmed?);
      assert RowOf(rows', r, o);
    }
    if v'.failed { var r: nat :| RowOf(rows', r, o) && rows'[r].status.Failed?; assert RowOf(rows, r, o); }
    if v'.sent {
      var r: nat :| RowOf(rows', r, o) && (rows'[r].status.Broadcast? || rows'[r].status.Confirmed?);
      assert RowOf(rows, r, o);
    }
    if v'.confirmed {
      var r: nat :| RowOf(rows', r, o) && rows'[r].status.Confirmed?;
      assert RowOf(rows, r, o);
    }
  }
}
