/** dispatchOne and confirmOne as the programs write them (dispatcher/internal/orchestrate/runloop.go,
    dispatcher/internal/dispatch/dispatch.go, finality.go): request after request, statement after
    statement, everybody else running in between. Each is proved to do exactly what the lifecycle's
    orchestrator does under the same schedule, so what holds of every run holds of them. */
module Orchestrator {
  import opened Common
  import A = Attempts
  import B = BroadcastProtocol
  import opened Ledger
  import opened Lifecycle
  import opened LifecycleInvariant
  import R = ReconciliationSafety
  import T = LifecycleTheorems
  import H = HeldRelease

  /** What the others do before the next request or statement, how that one turns out, and what the
      process chooses there: slot, clock, transfer, thread, answer to the broadcast. */
  datatype Turn = Turn(others: seq<Action>, reply: Reply, slot: nat, at: nat, tx: Bytes, t: nat, answer: B.Reply)

  predicate Own(act: Action) { act.Dispatch? || act.Confirm? || act.OrchStep? || act.OrchBroadcast? || act.OrchCrash? }

  ghost predicate Elsewhere(acts: seq<Action>) { forall i :: 0 <= i < |acts| ==> !Own(acts[i]) }

  lemma StepLeaves(w: World, act: Action)
    requires !Own(act)
    ensures Step(w, act).orch == w.orch && Step(w, act).pending == w.pending
  {
    match act
    case ReconStep(p, reply, at) => if p in w.recon { ReconLeaves(w, p, w.recon[p], reply, at); }
    case _ =>
  }

  lemma ReconLeaves(w: World, p: nat, r: Recon, reply: Reply, at: nat)
    ensures DoRecon(w, p, r, reply, at).orch == w.orch && DoRecon(w, p, r, reply, at).pending == w.pending
  {}

  lemma {:induction false} OthersLeave(w: World, acts: seq<Action>)
    requires Elsewhere(acts)
    ensures Run(w, acts).orch == w.orch && Run(w, acts).pending == w.pending
    decreases |acts|
  {
    if acts != [] {
      StepLeaves(w, acts[0]);
      OthersLeave(Step(w, acts[0]), acts[1..]);
    }
  }

  /** The orchestrator's next step, as this turn has it. */
  function Act(w: World, turn: Turn): Action {
    if w.orch.Sending? then OrchBroadcast(turn.answer) else OrchStep(turn.reply, turn.slot, turn.at, turn.tx, turn.t)
  }

  /** The orchestrator under a schedule, until it is idle again. A schedule that ends early ends the
      process. */
  ghost function Play(w: World, turns: seq<Turn>): (World, seq<Turn>)
    decreases |turns|
  {
    if w.orch.Idle? then (w, turns)
    else if turns == [] then (Step(w, OrchCrash), [])
    else
      var w1 := Run(w, turns[0].others);
      Play(Step(w1, Act(w1, turns[0])), turns[1..])
  }

  /** Playing a schedule is a run of the lifecycle. */
  lemma {:induction false} PlayIsRun(w: World, turns: seq<Turn>) returns (acts: seq<Action>)
    ensures Run(w, acts) == Play(w, turns).0
    decreases |turns|
  {
    if w.orch.Idle? {
      acts := [];
    } else if turns == [] {
      acts := [OrchCrash];
      assert acts[1..] == [];
      assert Run(Step(w, OrchCrash), []) == Step(w, OrchCrash);
    } else {
      var w1 := Run(w, turns[0].others);
      var own := Act(w1, turns[0]);
      var rest := PlayIsRun(Step(w1, own), turns[1..]);
      assert ([own] + rest)[1..] == rest;
      T.RunConcat(w, turns[0].others, [own] + rest);
      acts := turns[0].others + ([own] + rest);
    }
  }

  class Orchestrator {
    var ledger: Ledger
    var att: B.World
    var local: map<nat, LocalRow>
    var orch: Orch
    var pending: map<nat, B.Args>
    var recon: map<nat, Recon>
    var turns: seq<Turn>

    function Now(): World reads this { World(ledger, att, local, orch, pending, recon) }

    ghost predicate Valid() reads this {
      Inv(Now()) && forall i :: 0 <= i < |turns| ==> Elsewhere(turns[i].others)
    }

    /** Where the schedule takes the orchestrator from here. Every method below leaves it unchanged. */
    ghost function Goal(): (World, seq<Turn>) reads this { Play(Now(), turns) }

    constructor (turns: seq<Turn>)
      requires forall i :: 0 <= i < |turns| ==> Elsewhere(turns[i].others)
      ensures Valid() && Now() == Init() && this.turns == turns
    {
      ledger, att, local, orch, pending, recon := Ledger([], [], false), B.INIT, map[], Idle, map[], map[];
      this.turns := turns;
      new;
      R.InitKeeps();
    }

    method Become(w: World)
      modifies this`ledger, this`att, this`local, this`orch, this`pending, this`recon
      ensures Now() == w
    {
      ledger, att, local, orch, pending, recon := w.ledger, w.att, w.local, w.orch, w.pending, w.recon;
    }

    method Others(acts: seq<Action>)
      requires Inv(Now()) && Elsewhere(acts)
      modifies this`ledger, this`att, this`local, this`orch, this`pending, this`recon
      ensures Inv(Now()) && Now() == Run(old(Now()), acts) && orch == old(orch) && pending == old(pending)
    {
      OthersLeave(Now(), acts);
      R.RunKeeps(Now(), acts);
      Become(Run(Now(), acts));
    }

    /** The others run; then the next turn is known. No turn left means that the process ends. */
    method Await() returns (turn: Option<Turn>)
      requires Valid() && !orch.Idle?
      modifies this
      ensures Valid() && |turns| <= |old(turns)|
      ensures turn.None? ==> Goal() == old(Goal()) && orch.Idle?
      ensures turn.Some? ==>
        && orch == old(orch) && pending == old(pending) && |turns| < |old(turns)|
        && Play(Step(Now(), Act(Now(), turn.value)), turns) == old(Goal())
    {
      if turns == [] {
        R.StepKeeps(Now(), OrchCrash);
        Become(DoOrchCrash(Now()));
        turn := None;
      } else {
        turn := Some(turns[0]);
        turns := turns[1..];
        Others(turn.value.others);
      }
    }

    lemma FailIs(turn: Turn)
      requires Inv(Now()) && !orch.Sending? && turn.reply.Failed?
      ensures Step(Now(), Act(Now(), turn)) == Now().(orch := Idle) && Inv(Now().(orch := Idle))
    {
      R.StepKeeps(Now(), Act(Now(), turn));
    }

    /** Await for a request or statement: one that fails outright ends this order's turn. */
    method Next() returns (turn: Option<Turn>)
      requires Valid() && !orch.Idle? && !orch.Sending?
      modifies this
      ensures Valid() && |turns| <= |old(turns)|
      ensures turn.None? ==> Goal() == old(Goal()) && orch.Idle?
      ensures turn.Some? ==>
        && orch == old(orch) && pending == old(pending) && |turns| < |old(turns)| && !turn.value.reply.Failed?
        && Play(Step(Now(), Act(Now(), turn.value)), turns) == old(Goal())
    {
      turn := Await();
      if turn.Some? && turn.value.reply.Failed? {
        FailIs(turn.value);
        orch := Idle;
        turn := None;
      }
    }

    /** A step of DoOrch keeps the invariant. */
    lemma StepIs(turn: Turn, w: World)
      requires Valid() && !orch.Sending? && w == DoOrch(Now(), turn.reply, turn.slot, turn.at, turn.tx, turn.t)
      ensures Step(Now(), Act(Now(), turn)) == w && Inv(w)
    {
      R.StepKeeps(Now(), Act(Now(), turn));
    }

    /** The order is dispatching and its conversion posted. */
    ghost predicate IsEntered(o: nat) reads this {
      o < |ledger.orders| && ledger.orders[o].state.Dispatching? && Has(ledger.journal, Conversion(o))
    }

    lemma EnteredIs(l: Ledger, o: nat, version: nat, e: Entry)
      requires e.key == Conversion(o)
      ensures
        var (verdict, l') := Transition(l, o, Dispatching, version, Inline(e));
        && (verdict.Done? ==> o < |l'.orders| && l'.orders[o].state.Dispatching? && Has(l'.journal, Conversion(o)))
        && (!verdict.Done? ==> l' == l)
    {
      HasAppend(l.journal, e, Conversion(o));
    }

    /** One request of EnterDispatching: it goes on only with the conversion posted and the order
        dispatching, and asks again or waits only if nothing happened. */
    method TryEnter(reply: Reply, o: nat, snap: Order, slot: nat, at: nat, version: nat, retried: bool)
      requires !reply.Failed? && orch == Entering(o, snap, slot, at, version, retried)
      modifies this
      ensures turns == old(turns) && Now() == DoEnter(old(Now()), reply, o, snap, slot, at, version, retried)
      ensures orch.Idle? || orch == Recording(o, slot, at) || orch == old(orch)
        || (!retried && orch == Refetching(o, snap, slot, at))
      ensures orch.Recording? ==> IsEntered(o)
      ensures orch.Refetching? || orch == old(orch) ==> ledger == old(ledger)
    {
      EnteredIs(ledger, o, version, Entry(Conversion(o), ConversionLines(snap), at));
      var (verdict, after) :=
        Transition(ledger, o, Dispatching, version, Inline(Entry(Conversion(o), ConversionLines(snap), at)));
      ledger := after;
      if reply.Lost? {
        orch := Idle;
      } else if verdict.Done? {
        orch := Recording(o, slot, at);
      } else if verdict.VersionConflict? && !retried {
        orch := Refetching(o, snap, slot, at);
      } else if !verdict.Halted? {
        orch := Idle;
      }
    }

    /** The refetch after a version conflict. */
    method Refetch(o: nat, snap: Order, slot: nat, at: nat)
      requires Valid() && orch == Refetching(o, snap, slot, at)
      modifies this
      ensures Valid() && Goal() == old(Goal()) && |turns| <= |old(turns)|
      ensures orch.Idle? || (orch.Entering? && orch == Entering(o, snap, slot, at, orch.version, true))
    {
      var turn := Next();
      if turn.None? { return; }
      var before := orch;
      var next := if o < |ledger.orders| then Entering(o, snap, slot, at, ledger.orders[o].version, true) else Idle;
      StepIs(turn.value, Now().(orch := next));
      orch := next;
    }

    /** EnterDispatching's loop: one retry after a version conflict, any number while C1 is halted. */
    method EnterDispatching(o: nat, snap: Order, slot: nat, at: nat) returns (entered: bool)
      requires Valid() && orch == Entering(o, snap, slot, at, snap.version, false)
      modifies this
      ensures Valid() && Goal() == old(Goal())
      ensures orch == if entered then Recording(o, slot, at) else Idle
      ensures entered ==> IsEntered(o)
    {
      while orch.Entering?
        invariant Valid() && Goal() == old(Goal())
        invariant orch.Entering? ==> orch == Entering(o, snap, slot, at, orch.version, orch.retried)
        invariant orch.Entering? || orch in {Idle, Recording(o, slot, at)}
        invariant orch.Recording? ==> IsEntered(o)
        decreases |turns|, orch.Entering?
      {
        var version, retried := orch.version, orch.retried;
        var turn := Next();
        if turn.Some? {
          StepIs(turn.value, DoEnter(Now(), turn.value.reply, o, snap, slot, at, version, retried));
          TryEnter(turn.value.reply, o, snap, slot, at, version, retried);
          if orch.Refetching? {
            Refetch(o, snap, slot, at);
          }
        }
      }
      entered := orch.Recording?;
    }

    // ---------------------------------------------------------- dispatchOne

    /** GetOrder: only a screened order that is not a Sweep is taken further. */
    method Fetch(o: nat)
      requires Valid() && orch == Fetching(o)
      modifies this
      ensures Valid() && Goal() == old(Goal()) && (orch.Idle? || (orch.Looking? && orch.o == o))
    {
      var turn := Next();
      if turn.None? { return; }
      var next := Idle;
      if o < |ledger.orders| && ledger.orders[o].state.Screened? && !ledger.orders[o].sweep {
        next := Looking(o, ledger.orders[o]);
      }
      StepIs(turn.value, Now().(orch := next));
      orch := next;
    }

    /** Store.Get: an order that was entered before keeps its slot. */
    method Look(o: nat, snap: Order)
      requires Valid() && orch == Looking(o, snap)
      modifies this
      ensures Valid() && Goal() == old(Goal())
      ensures orch.Idle? || orch == Selecting(o, snap) || (orch.Building? && orch.o == o)
    {
      var turn := Next();
      if turn.None? { return; }
      var next := if o in local then Building(o, local[o].slot) else Selecting(o, snap);
      StepIs(turn.value, Now().(orch := next));
      orch := next;
    }

    /** SelectForDispatch and the energy reservation: nothing in C1 yet. */
    method Select(o: nat, snap: Order)
      requires Valid() && orch == Selecting(o, snap)
      modifies this
      ensures Valid() && Goal() == old(Goal())
      ensures orch.Idle? || (orch.Entering? && orch == Entering(o, snap, orch.slot, orch.at, snap.version, false))
    {
      var turn := Next();
      if turn.None? { return; }
      var next := Entering(o, snap, turn.value.slot, turn.value.at, snap.version, false);
      StepIs(turn.value, Now().(orch := next));
      orch := next;
    }

    /** Store.Create: the row is inserted unless the order already has one. */
    method Record(o: nat, slot: nat, at: nat)
      requires Valid() && orch == Recording(o, slot, at)
      modifies this
      ensures Valid() && Goal() == old(Goal()) && orch in {Idle, Building(o, slot)}
      ensures orch.Building? ==> o in local
    {
      var turn := Next();
      if turn.None? { return; }
      StepIs(turn.value, DoRecord(Now(), turn.value.reply, o, slot, at));
      if o !in local {
        local := local[o := LocalRow(slot, LDispatching, at)];
      }
      orch := if turn.value.reply.Lost? then Idle else Building(o, slot);
    }

    /** The transfer of this order: cached in pending, or built now under an attempt number above
        every one the order has had, by one if it has had any. */
    method Transfer(o: nat, slot: nat, tx: Bytes) returns (args: B.Args)
      ensures o in pending ==> args == pending[o].(slot := slot)
      ensures o !in pending ==> args == B.Args(o, slot, args.number, tx)
      ensures o !in pending ==> forall r: nat :: RowOf(att.rows, r, o) ==> att.rows[r].number < args.number
      ensures o !in pending ==>
        args.number == 1 || exists r: nat :: RowOf(att.rows, r, o) && att.rows[r].number == args.number - 1
      ensures args == if o in pending then pending[o].(slot := slot) else B.Args(o, slot, H.NextNumber(att.rows, o), tx)
    {
      if o in pending {
        args := pending[o].(slot := slot);
      } else {
        var attemptNumber := 1;
        var latest := A.LatestForOrder(att.rows, o);
        if latest.Some? {
          attemptNumber := att.rows[latest.value].number + 1;
          assert RowOf(att.rows, latest.value, o);
        }
        args := B.Args(o, slot, attemptNumber, tx);
      }
    }

    /** Broadcast is called with it, under a thread of its own; a taken thread is no turn. */
    method TryBuild(o: nat, slot: nat, tx: Bytes, t: nat)
      requires orch == Building(o, slot)
      modifies this
      ensures turns == old(turns) && Now() == DoBuild(old(Now()), o, slot, tx, t)
      ensures orch in {Building(o, slot), Sending(o, t)}
    {
      if t !in att.threads {
        var args := Transfer(o, slot, tx);
        orch := Sending(o, t);
        pending := pending[o := args];
        att := B.Step(att, B.StartBroadcast(t, args));
      }
    }

    method Build(o: nat, slot: nat)
      requires Valid() && orch == Building(o, slot)
      modifies this
      ensures Valid() && Goal() == old(Goal()) && (orch.Idle? || (orch.Sending? && orch.o == o))
    {
      while orch.Building?
        invariant Valid() && Goal() == old(Goal())
        invariant orch == Building(o, slot) || orch.Idle? || (orch.Sending? && orch.o == o)
        decreases |turns|, orch.Building?
      {
        var turn := Next();
        if turn.Some? {
          StepIs(turn.value, DoBuild(Now(), o, slot, turn.value.tx, turn.value.t));
          TryBuild(o, slot, turn.value.tx, turn.value.t);
        }
      }
    }

    lemma AnswerIs(turn: Turn)
      requires Valid() && orch.Sending?
      ensures Step(Now(), Act(Now(), turn)) == DoBroadcast(Now(), turn.answer) && Inv(DoBroadcast(Now(), turn.answer))
    {
      R.StepKeeps(Now(), Act(Now(), turn));
    }

    /** One step of Broadcast; a returned row or a rejected signature drops the cached transfer,
        anything else keeps it. */
    method Answer(o: nat, t: nat, answer: B.Reply)
      requires orch == Sending(o, t)
      modifies this
      ensures turns == old(turns) && Now() == DoBroadcast(old(Now()), answer) && orch in {Idle, Sending(o, t)}
    {
      att := B.Step(att, B.Advance(t, answer));
      if t in att.threads && att.threads[t].Done? {
        orch := Idle;
        if att.threads[t].outcome.Returned? || att.threads[t].outcome.SignatureRejected? {
          pending := pending - {o};
        }
      }
    }

    method Broadcast(o: nat)
      requires Valid() && orch.Sending? && orch.o == o
      modifies this
      ensures Valid() && Goal() == old(Goal()) && orch.Idle?
    {
      while orch.Sending?
        invariant Valid() && Goal() == old(Goal())
        invariant orch.Idle? || (orch.Sending? && orch.o == o)
        decreases |turns|, orch.Sending?
      {
        var turn := Await();
        if turn.Some? {
          AnswerIs(turn.value);
          Answer(o, orch.t, turn.value.answer);
        }
      }
    }

    /** Up to the dispatch_state row. */
    method Enter(o: nat)
      requires Valid() && orch == Fetching(o)
      modifies this
      ensures Valid() && Goal() == old(Goal()) && (orch.Idle? || (orch.Building? && orch.o == o))
    {
      Fetch(o);
      if orch.Looking? { Look(o, orch.snap); }
      if orch.Selecting? { Select(o, orch.snap); }
      if orch.Entering? {
        var entered := EnterDispatching(o, orch.snap, orch.slot, orch.at);
        if entered { Record(o, orch.slot, orch.at); }
      }
    }

    /** dispatchOne. */
    method DispatchOne(o: nat)
      requires Valid() && orch.Idle?
      modifies this
      ensures Valid() && orch.Idle? && (Now(), turns) == Play(Step(old(Now()), Dispatch(o)), old(turns))
    {
      R.StepKeeps(Now(), Dispatch(o));
      orch := Fetching(o);
      Enter(o);
      if orch.Building? { Build(o, orch.slot); }
      if orch.Sending? { Broadcast(o); }
    }

    // ---------------------------------------------------------- confirmOne

    method FindLatest(o: nat)
      requires Valid() && orch == FindingLatest(o)
      modifies this
      ensures Valid() && Goal() == old(Goal()) && (orch.Idle? || (orch.FetchingFinal? && orch.o == o))
    {
      var turn := Next();
      if turn.None? { return; }
      var next := Idle;
      var latest := A.LatestForOrder(att.rows, o);
      if latest.Some? && att.rows[latest.value].status.Broadcast? {
        next := FetchingFinal(o, latest.value);
      }
      StepIs(turn.value, Now().(orch := next));
      orch := next;
    }

    method FetchFinal(o: nat, id: nat)
      requires Valid() && orch == FetchingFinal(o, id)
      modifies this
      ensures Valid() && Goal() == old(Goal()) && (orch.Idle? || (orch.Polling? && orch == Polling(o, orch.snap, id)))
    {
      var turn := Next();
      if turn.None? { return; }
      var next := if o < |ledger.orders| then Polling(o, ledger.orders[o], id) else Idle;
      StepIs(turn.value, Now().(orch := next));
      orch := next;
    }

    /** ConfirmFinality up to IsFinal; a CONFIRMED attempt is done already. */
    method Poll(o: nat, snap: Order, id: nat)
      requires Valid() && orch == Polling(o, snap, id)
      modifies this
      ensures Valid() && Goal() == old(Goal())
      ensures orch.Idle? || (orch.Settling? && orch == Settling(o, snap, id, orch.at, snap.version, false))
    {
      var turn := Next();
      if turn.None? { return; }
      StepIs(turn.value, DoPoll(Now(), o, snap, id, turn.value.at));
      if id < |att.rows| && att.rows[id].status.Broadcast? {
        orch := Settling(o, snap, id, turn.value.at, snap.version, false);
      } else {
        orch := Idle;
        if id < |att.rows| && att.rows[id].status.Confirmed? {
          pending := pending - {o};
        }
      }
    }

    /** The order is settled, and the attempt's settlement posted. */
    ghost predicate IsPaid(o: nat, id: nat) reads this {
      && o < |ledger.orders| && ledger.orders[o].state.Settled?
      && id < |att.rows| && Has(ledger.journal, Settlement(o, att.rows[id].number))
    }

    lemma PaidIs(l: Ledger, o: nat, version: nat, e: Entry)
      requires e.key.Settlement?
      ensures
        var (verdict, l') := Transition(l, o, Settled, version, Inline(e));
        && (verdict.Done? ==> o < |l'.orders| && l'.orders[o].state.Settled? && Has(l'.journal, e.key))
        && (!verdict.Done? ==> l' == l)
    {
      HasAppend(l.journal, e, e.key);
    }

    /** One request of settleOrder, under the same rules. */
    method TrySettle(reply: Reply, o: nat, snap: Order, id: nat, at: nat, version: nat, retried: bool)
      requires !reply.Failed? && orch == Settling(o, snap, id, at, version, retried)
      modifies this
      ensures turns == old(turns) && Now() == DoSettle(old(Now()), reply, o, snap, id, at, version, retried)
      ensures orch in {Idle, MarkingSettled(o, id), old(orch)} || (!retried && orch == RefetchingFinal(o, snap, id, at))
      ensures orch.MarkingSettled? ==> IsPaid(o, id)
      ensures orch.RefetchingFinal? || orch == old(orch) ==> ledger == old(ledger)
    {
      if id >= |att.rows| {
        orch := Idle;
        return;
      }
      var entry := Entry(Settlement(o, att.rows[id].number), SettlementLines(snap, att.rows[id].slot), at);
      PaidIs(ledger, o, version, entry);
      var (verdict, after) := Transition(ledger, o, Settled, version, Inline(entry));
      ledger := after;
      if reply.Lost? {
        orch := Idle;
      } else if verdict.Done? {
        orch := MarkingSettled(o, id);
      } else if verdict.VersionConflict? && !retried {
        orch := RefetchingFinal(o, snap, id, at);
      } else if !verdict.Halted? {
        orch := Idle;
      }
    }

    method RefetchFinal(o: nat, snap: Order, id: nat, at: nat)
      requires Valid() && orch == RefetchingFinal(o, snap, id, at)
      modifies this
      ensures Valid() && Goal() == old(Goal()) && |turns| <= |old(turns)|
      ensures orch.Idle? || (orch.Settling? && orch == Settling(o, snap, id, at, orch.version, true))
    {
      var turn := Next();
      if turn.None? { return; }
      var next := if o < |ledger.orders| then Settling(o, snap, id, at, ledger.orders[o].version, true) else Idle;
      StepIs(turn.value, Now().(orch := next));
      orch := next;
    }

    /** settleOrder's loop, under the same rules as EnterDispatching's. */
    method SettleOrder(o: nat, snap: Order, id: nat, at: nat)
      requires Valid() && orch == Settling(o, snap, id, at, snap.version, false)
      modifies this
      ensures Valid() && Goal() == old(Goal()) && orch in {Idle, MarkingSettled(o, id)}
      ensures orch.MarkingSettled? ==> IsPaid(o, id)
    {
      while orch.Settling?
        invariant Valid() && Goal() == old(Goal())
        invariant orch.Settling? ==> orch == Settling(o, snap, id, at, orch.version, orch.retried)
        invariant orch.Settling? || orch in {Idle, MarkingSettled(o, id)}
        invariant orch.MarkingSettled? ==> IsPaid(o, id)
        decreases |turns|, orch.Settling?
      {
        var version, retried := orch.version, orch.retried;
        var turn := Next();
        if turn.Some? {
          StepIs(turn.value, DoSettle(Now(), turn.value.reply, o, snap, id, at, version, retried));
          TrySettle(turn.value.reply, o, snap, id, at, version, retried);
          if orch.RefetchingFinal? {
            RefetchFinal(o, snap, id, at);
          }
        }
      }
    }

    /** Store.MarkSettled. */
    method MarkSettled(o: nat, id: nat)
      requires Valid() && orch == MarkingSettled(o, id)
      modifies this
      ensures Valid() && Goal() == old(Goal()) && orch in {Idle, MarkingConfirmed(o, id)}
      ensures orch.MarkingConfirmed? ==> o in local && local[o].status.LSettled?
    {
      var turn := Next();
      if turn.None? { return; }
      StepIs(turn.value, DoMarkSettled(Now(), turn.value.reply, o, id));
      orch := Idle;
      if o !in local || local[o].status.LHeld? { return; }
      if local[o].status.LDispatching? {
        local := local[o := local[o].(status := LSettled)];
      }
      if !turn.value.reply.Lost? {
        orch := MarkingConfirmed(o, id);
      }
    }

    /** AttemptStore.markConfirmed. */
    method MarkConfirmed(o: nat, id: nat)
      requires Valid() && orch == MarkingConfirmed(o, id)
      modifies this
      ensures Valid() && Goal() == old(Goal()) && orch.Idle?
    {
      var turn := Next();
      if turn.None? { return; }
      if id < |att.rows| {
        StepIs(turn.value, DoMarkConfirmed(Now(), turn.value.reply, o, id));
        att := att.(rows := A.MarkConfirmed(att.rows, id));
        if !turn.value.reply.Lost? {
          pending := pending - {o};
        }
      } else {
        StepIs(turn.value, Now().(orch := Idle));
      }
      orch := Idle;
    }

    /** confirmOne, for a row of ListDispatching. */
    method ConfirmOne(o: nat)
      requires Valid() && orch.Idle? && o in local
      modifies this
      ensures Valid() && orch.Idle? && (Now(), turns) == Play(Step(old(Now()), Confirm(o)), old(turns))
    {
      R.StepKeeps(Now(), Confirm(o));
      orch := FindingLatest(o);
      FindLatest(o);
      if orch.FetchingFinal? { FetchFinal(o, orch.id); }
      if orch.Polling? { Poll(o, orch.snap, orch.id); }
      if orch.Settling? { SettleOrder(o, orch.snap, orch.id, orch.at); }
      if orch.MarkingSettled? { MarkSettled(o, orch.id); }
      if orch.MarkingConfirmed? { MarkConfirmed(o, orch.id); }
    }
  }
}
