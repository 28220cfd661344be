/** What a freeze leaves behind (dispatcher/internal/dispatch/freeze.go): it reads the row, and by the
    time of its UPDATE the transfer may have been sent; and it retires the slot before it alerts, which
    fails if somebody else has retired it before. */
module FreezeRace {
  import opened Common
  import opened Attempts
  import opened BroadcastProtocol
  import opened BroadcastSafety
  import opened BroadcastProgress

  predicate Sent(status: Status) { status.Broadcast? || status.Confirmed? }

  /** What thread u saw: the status it read, the status its UPDATE met, and whether the slot could
      still be retired. */
  datatype Seen = Seen(read: Option<Status>, met: Option<Status>, slot: SlotSeen)

  datatype SlotSeen = NotYet | Free | Taken

  /** The step with which u gets past its statement. */
  predicate Passes(w: World, act: Action, u: nat) {
    act.Advance? && act.t == u && u in w.threads && !act.reply.Fails() && Step(w, act).threads[u] != w.threads[u]
  }

  /** What u sees in a run. */
  function Watch(w: World, acts: seq<Action>, u: nat): Seen
    decreases |acts|
  {
    if acts == [] then Seen(None, None, NotYet)
    else
      var rest := Watch(Step(w, acts[0]), acts[1..], u);
      if !Passes(w, acts[0], u) then rest
      else match w.threads[u]
        case Freezing(id) => if id < |w.rows| then rest.(read := Some(w.rows[id].status)) else rest
        case Failing(id, _) => if id < |w.rows| then rest.(met := Some(w.rows[id].status)) else rest
        case Examining(slot, _) => rest.(slot := if slot in w.retired then Taken else Free)
        case _ => rest
  }

  /** A thread that is done stays so, and from then on sees nothing. */
  lemma {:induction false} DoneStays(w: World, acts: seq<Action>, u: nat)
    requires u in w.threads && w.threads[u].Done?
    ensures u in Run(w, acts).threads && Run(w, acts).threads[u] == w.threads[u]
      && Watch(w, acts, u) == Seen(None, None, NotYet)
    decreases |acts|
  {
    if acts != [] {
      if !By(acts[0], u) { StepLeaves(w, acts[0], u); }
      DoneStays(Step(w, acts[0]), acts[1..], u);
    }
  }

  /** A row that is past SIGNED is sent or failed for good. */
  lemma SettledStays(w: World, acts: seq<Action>, id: nat)
    requires Inv(w) && id < |w.rows| && w.rows[id].status.Terminal()
    ensures id < |Run(w, acts).rows| && (Sent(Run(w, acts).rows[id].status) <==> Sent(w.rows[id].status))
  {
    RunForward(w, acts);
    assert RowForward(w, Run(w, acts), id);
  }

  ghost predicate Broken(pc: Pc) { pc == Done(Error) || pc == Done(Crashed) }

  // ---------------------------------------------------------------- the end: retiring the slot

  /** From the UPDATE of the slot on: it ends as intended, or in an error. */
  lemma {:induction false} RetireEnds(w: World, acts: seq<Action>, u: nat, slot: nat, outcome: Outcome)
    requires u in w.threads && w.threads[u] == Retiring(slot, outcome)
    ensures
      var w', seen := Run(w, acts), Watch(w, acts, u);
      && u in w'.threads && seen == Seen(None, None, NotYet)
      && (w'.threads[u] == w.threads[u] || w'.threads[u] == Done(outcome) || Broken(w'.threads[u]))
    decreases |acts|
  {
    if acts != [] {
      var w1 := Step(w, acts[0]);
      if !By(acts[0], u) { StepLeaves(w, acts[0], u); }
      if w1.threads[u].Done? { DoneStays(w1, acts[1..], u); } else { RetireEnds(w1, acts[1..], u, slot, outcome); }
    }
  }

  /** From MarkRetired on: it ends as intended only if the slot could be retired. */
  lemma {:induction false} ExamineEnds(w: World, acts: seq<Action>, u: nat, slot: nat, outcome: Outcome)
    requires u in w.threads && w.threads[u] == Examining(slot, outcome)
    ensures
      var w', seen := Run(w, acts), Watch(w, acts, u);
      && u in w'.threads && seen.read.None? && seen.met.None?
      && (seen.slot.NotYet? ==> w'.threads[u] == w.threads[u] || Broken(w'.threads[u]))
      && (seen.slot.Taken? ==> w'.threads[u] == Done(Error))
      && (seen.slot.Free? ==>
        w'.threads[u] == Retiring(slot, outcome) || w'.threads[u] == Done(outcome) || Broken(w'.threads[u]))
    decreases |acts|
  {
    if acts != [] {
      var w1 := Step(w, acts[0]);
      if !By(acts[0], u) { StepLeaves(w, acts[0], u); }
      if w1.threads[u].Done? {
        DoneStays(w1, acts[1..], u);
      } else if w1.threads[u].Retiring? {
        RetireEnds(w1, acts[1..], u, slot, outcome);
      } else {
        ExamineEnds(w1, acts[1..], u, slot, outcome);
      }
    }
  }

  // ---------------------------------------------------------------- the UPDATE of the row

  /** One step of the thread that is about to run its UPDATE. */
  lemma UpdateStep(w: World, act: Action, u: nat, id: nat)
    requires u in w.threads && w.threads[u] == Failing(id, true)
    ensures
      var w' := Step(w, act);
      && u in w'.threads
      && (w'.threads[u] == Failing(id, true) || w'.threads[u].Examining? || Broken(w'.threads[u]))
      && (w'.threads[u].Examining? ==>
            && Passes(w, act, u) && id < |w.rows| && w'.rows == MarkFailed(w.rows, id)
            && w'.threads[u] == Examining(w'.rows[id].slot, Returned(w'.rows[id])))
      && (!w'.threads[u].Examining? ==> id >= |w.rows| || !Passes(w, act, u))
  {
    if !By(act, u) { StepLeaves(w, act, u); }
  }

  /** From its UPDATE on: without an error it returns the row, which is sent exactly if the UPDATE
      met a row that was. */
  ghost predicate EndsAsMet(w: World, u: nat, id: nat, seen: Seen)
    requires u in w.threads
  {
    && seen.read.None? && w.threads[u] != Done(Alert)
    && (w.threads[u].Done? && w.threads[u].outcome.Returned? ==>
          && seen.met.Some? && seen.slot.Free? && id < |w.rows| && (Sent(w.rows[id].status) <==> Sent(seen.met.value)))
  }

  lemma {:induction false} UpdateEnds(w: World, acts: seq<Action>, u: nat, id: nat)
    requires Inv(w) && u in w.threads && w.threads[u] == Failing(id, true)
    ensures u in Run(w, acts).threads && EndsAsMet(Run(w, acts), u, id, Watch(w, acts, u))
    decreases |acts|
  {
    if acts != [] {
      var w1 := Step(w, acts[0]);
      StepKeeps(w, acts[0]);
      UpdateStep(w, acts[0], u, id);
      if w1.threads[u].Done? {
        DoneStays(w1, acts[1..], u);
      } else if w1.threads[u].Examining? {
        ExamineEnds(w1, acts[1..], u, w1.threads[u].slot, w1.threads[u].outcome);
        SettledStays(w1, acts[1..], id);
        assert Watch(w, acts, u) == Watch(w1, acts[1..], u).(met := Some(w.rows[id].status));
      } else {
        UpdateEnds(w1, acts[1..], u, id);
      }
    }
  }

  // ---------------------------------------------------------------- the read

  /** One step of the thread that is about to read the row. */
  lemma ReadStep(w: World, act: Action, u: nat, id: nat)
    requires u in w.threads && w.threads[u] == Freezing(id)
    ensures
      var w' := Step(w, act);
      && u in w'.threads
      && (w'.threads[u] == Freezing(id) || Broken(w'.threads[u]) ==> id >= |w.rows| || !Passes(w, act, u))
      && (w'.threads[u] != Freezing(id) && !Broken(w'.threads[u]) ==>
            && Passes(w, act, u) && id < |w.rows| && w'.rows == w.rows
            && w'.threads[u] == match w.rows[id].status
                                 case Built | Signed => Failing(id, true)
                                 case Broadcast => Examining(w.rows[id].slot, Alert)
                                 case Confirmed | Failed => Done(Returned(w.rows[id])))
  {
    if !By(act, u) { StepLeaves(w, act, u); }
  }

  /** A freeze, in every run. It alerts only if it read BROADCAST and its slot was not retired yet: if
      that was, it ends in an error. One that ends without alert or error leaves its row sent exactly if
      it read CONFIRMED, or read BUILT or SIGNED and its UPDATE met a row sent in the meantime. */
  ghost predicate EndsAsSeen(w: World, u: nat, id: nat, seen: Seen)
    requires u in w.threads
  {
    && (w.threads[u] == Done(Alert) ==> seen.read == Some(Status.Broadcast) && seen.slot.Free?)
    && (seen.read == Some(Status.Broadcast) && w.threads[u].Done? ==>
      w.threads[u] == Done(Alert) || Broken(w.threads[u]))
    && (seen.read == Some(Status.Broadcast) && seen.slot.Taken? ==> w.threads[u] == Done(Error))
    && (w.threads[u].Done? && w.threads[u].outcome.Returned? ==>
          && id < |w.rows|
          && (Sent(w.rows[id].status) <==>
                || seen.read == Some(Status.Confirmed)
                || ((seen.read == Some(Built) || seen.read == Some(Status.Signed))
                    && seen.met.Some? && Sent(seen.met.value))))
  }

  lemma {:induction false} FreezeEnds(w: World, acts: seq<Action>, u: nat, id: nat)
    requires Inv(w) && u in w.threads && w.threads[u] == Freezing(id)
    ensures u in Run(w, acts).threads && EndsAsSeen(Run(w, acts), u, id, Watch(w, acts, u))
    decreases |acts|
  {
    if acts != [] {
      var w1 := Step(w, acts[0]);
      StepKeeps(w, acts[0]);
      ReadStep(w, acts[0], u, id);
      if w1.threads[u].Done? {
        DoneStays(w1, acts[1..], u);
        if !Broken(w1.threads[u]) { SettledStays(w1, acts[1..], id); }
      } else if w1.threads[u].Failing? {
        UpdateEnds(w1, acts[1..], u, id);
      } else if w1.threads[u].Examining? {
        ExamineEnds(w1, acts[1..], u, w1.threads[u].slot, Alert);
        assert Watch(w, acts, u) == Watch(w1, acts[1..], u).(read := Some(w.rows[id].status));
      } else {
        FreezeEnds(w1, acts[1..], u, id);
      }
    }
  }

  /** Of every run that starts a freeze of this row. */
  lemma FreezeMissesIff(before: seq<Action>, u: nat, id: nat, after: seq<Action>)
    requires u !in Run(INIT, before).threads
    ensures
      var w0 := Step(Run(INIT, before), StartFreeze(u, id));
      var w := Run(INIT, before + [StartFreeze(u, id)] + after);
      u in w.threads && EndsAsSeen(w, u, id, Watch(w0, after, u))
  {
    var w0 := Run(INIT, before);
    RunKeeps(INIT, before);
    StepKeeps(w0, StartFreeze(u, id));
    RunConcat(INIT, before, [StartFreeze(u, id)]);
    RunConcat(INIT, before + [StartFreeze(u, id)], after);
    RunUnfold(w0, [StartFreeze(u, id)], [Step(w0, StartFreeze(u, id))]);
    FreezeEnds(Step(w0, StartFreeze(u, id)), after, u, id);
  }

  // ---------------------------------------------------------------- a broadcast that is missed

  const READING := [StartFreeze(1, 0), Advance(1, Ok)]
  const RACING := [Advance(0, Ok), Advance(0, ChainAccepted(7)), Advance(0, Ok)]
  const UPDATING := [Advance(1, Ok), Advance(1, Ok), Advance(1, Ok)]
  const SENT_ROW := WITNESS_ROW.(status := Status.Broadcast, tronTxId := Some(7))
  const SENT_CALL := Call(0, SignedTx([], WITNESS_SIG), true, Committed)

  function Racing(rows: Table, sender: Pc, freezer: Pc, calls: seq<Call>, retired: set<nat>): World {
    World(rows, map[], map[0 := sender, 1 := freezer], calls, retired)
  }

  lemma RaceReading()
    ensures Run(World([WITNESS_ROW], map[], map[0 := Locking(WITNESS_ARGS, 0)], [], {}), READING)
      == Racing([WITNESS_ROW], Locking(WITNESS_ARGS, 0), Failing(0, true), [], {})
  {
    RunUnfold(World([WITNESS_ROW], map[], map[0 := Locking(WITNESS_ARGS, 0)], [], {}), READING, [
      Racing([WITNESS_ROW], Locking(WITNESS_ARGS, 0), Freezing(0), [], {}),
      Racing([WITNESS_ROW], Locking(WITNESS_ARGS, 0), Failing(0, true), [], {})]);
  }

  lemma RaceSending()
    ensures Run(Racing([WITNESS_ROW], Locking(WITNESS_ARGS, 0), Failing(0, true), [], {}), RACING)
      == Racing([SENT_ROW], Done(Returned(SENT_ROW)), Failing(0, true), [SENT_CALL], {})
  {
    var w := World([WITNESS_ROW], map[], map[1 := Failing(0, true)], [], {});
    SendAnswered(w, 0, WITNESS_ARGS, 0, WITNESS_SIG, 7);
    assert w.At(0, Locking(WITNESS_ARGS, 0)) ==
      Racing([WITNESS_ROW], Locking(WITNESS_ARGS, 0), Failing(0, true), [], {});
    assert Moves(0, [Ok, ChainAccepted(7), Ok]) == RACING;
  }

  lemma RaceUpdating()
    ensures Run(Racing([SENT_ROW], Done(Returned(SENT_ROW)), Failing(0, true), [SENT_CALL], {}), UPDATING)
      == Racing([SENT_ROW], Done(Returned(SENT_ROW)), Done(Returned(SENT_ROW)), [SENT_CALL], {1})
  {
    var done := Done(Returned(SENT_ROW));
    RunUnfold(Racing([SENT_ROW], done, Failing(0, true), [SENT_CALL], {}), UPDATING, [
      Racing([SENT_ROW], done, Examining(1, Returned(SENT_ROW)), [SENT_CALL], {}),
      Racing([SENT_ROW], done, Retiring(1, Returned(SENT_ROW)), [SENT_CALL], {}),
      Racing([SENT_ROW], done, done, [SENT_CALL], {1})]);
  }

  /** The freeze reads SIGNED, the transfer is sent, the UPDATE matches nothing: no alert, and the
      row is BROADCAST. */
  lemma FreezeMisses()
    ensures
      var w := Run(INIT, SIGNING + READING + RACING + UPDATING);
      |w.rows| == 1 && w.rows[0].status == Status.Broadcast
        && 1 in w.threads && w.threads[1] == Done(Returned(w.rows[0]))
  {
    WitnessSigning();
    RaceReading();
    RaceSending();
    RaceUpdating();
    RunConcat(INIT, SIGNING, READING);
    RunConcat(INIT, SIGNING + READING, RACING);
    RunConcat(INIT, SIGNING + READING + RACING, UPDATING);
  }

  // ---------------------------------------------------------------- an alert that is missed

  function Freezes(u: nat, id: nat): seq<Action> {
    [StartFreeze(u, id), Advance(u, Ok), Advance(u, Ok), Advance(u, Ok)]
  }

  /** A freeze of a BROADCAST attempt that nothing disturbs alerts if and only if the slot has not been
      retired before; otherwise it only hands its caller an error. */
  lemma AlertIff(w: World, u: nat, id: nat)
    requires u !in w.threads && id < |w.rows| && w.rows[id].status.Broadcast?
    ensures Run(w, Freezes(u, id)) ==
      if w.rows[id].slot in w.retired then w.At(u, Done(Error))
      else w.At(u, Done(Alert)).(retired := w.retired + {w.rows[id].slot})
  {
    var slot := w.rows[id].slot;
    var w1, w2 := w.At(u, Freezing(id)), w.At(u, Examining(slot, Alert));
    FreezeReads(w, u, id);
    if slot in w.retired {
      RunUnfold(w, Freezes(u, id), [w1, w2, w.At(u, Done(Error)), w.At(u, Done(Error))]);
    } else {
      RunUnfold(w, Freezes(u, id),
        [w1, w2, w.At(u, Retiring(slot, Alert)), w.At(u, Done(Alert)).(retired := w.retired + {slot})]);
    }
  }

  lemma FreezeReads(w: World, u: nat, id: nat)
    requires id < |w.rows| && w.rows[id].status.Broadcast?
    ensures
      var slot := w.rows[id].slot;
      && Step(w.At(u, Freezing(id)), Advance(u, Ok)) == w.At(u, Examining(slot, Alert))
      && Step(w.At(u, Examining(slot, Alert)), Advance(u, Ok)) ==
        w.At(u, if slot in w.retired then Done(Error) else Retiring(slot, Alert))
      && Step(w.At(u, Retiring(slot, Alert)), Advance(u, Ok)) == w.At(u, Done(Alert)).(retired := w.retired + {slot})
      && Step(w.At(u, Done(Error)), Advance(u, Ok)) == w.At(u, Done(Error))
  {
    var slot := w.rows[id].slot;
    var next := if slot in w.retired then Done(Error) else Retiring(slot, Alert);
    assert w.threads[u := Freezing(id)][u := Examining(slot, Alert)] == w.threads[u := Examining(slot, Alert)];
    assert w.threads[u := Examining(slot, Alert)][u := next] == w.threads[u := next];
    assert w.threads[u := Retiring(slot, Alert)][u := Done(Alert)] == w.threads[u := Done(Alert)];
  }

  /** One transfer of an order nobody has seen. */
  lemma SendRun(w: World, t: nat, a: Args, sig: Bytes)
    requires Inv(w) && t !in w.threads && Unused(w.rows, a) && |sig| == 65
    ensures
      var row := Row(a.order, a.slot, a.number, Sha256(a.unsignedTx), Some(sig), Some(7), Status.Broadcast);
      var w' := Run(w, [StartBroadcast(t, a)] + Moves(t, [Ok, Ok, S1Signed(sig), Ok, Ok, ChainAccepted(7), Ok]));
      w'.rows == w.rows + [row] && w'.threads == w.threads[t := Done(Returned(row))] && w'.retired == w.retired
  {
    var sends := [Ok, Ok, S1Signed(sig), Ok, Ok, ChainAccepted(7), Ok];
    FreshBroadcastSends(w, t, a, sig, 7);
    var w1 := Step(w, StartBroadcast(t, a));
    RunUnfold(w, [StartBroadcast(t, a)], [w1]);
    RunConcat(w, [StartBroadcast(t, a)], Moves(t, sends));
  }

  const FIRST_ARGS := Args(1, 5, 1, [0])
  const SECOND_ARGS := Args(2, 5, 1, [1])

  function Sends(t: nat, a: Args, sig: Bytes): seq<Action> {
    [StartBroadcast(t, a)] + Moves(t, [Ok, Ok, S1Signed(sig), Ok, Ok, ChainAccepted(7), Ok])
  }

  lemma TwoSent(sig: Bytes)
    requires |sig| == 65
    ensures
      var w := Run(INIT, Sends(0, FIRST_ARGS, sig) + Sends(1, SECOND_ARGS, sig));
      && |w.rows| == 2 && (forall r :: 0 <= r < 2 ==> w.rows[r].status.Broadcast? && w.rows[r].slot == 5)
      && w.retired == {} && 2 !in w.threads && 3 !in w.threads
  {
    SendRun(INIT, 0, FIRST_ARGS, sig);
    RunKeeps(INIT, Sends(0, FIRST_ARGS, sig));
    SendRun(Run(INIT, Sends(0, FIRST_ARGS, sig)), 1, SECOND_ARGS, sig);
    RunConcat(INIT, Sends(0, FIRST_ARGS, sig), Sends(1, SECOND_ARGS, sig));
  }

  /** Two transfers of one slot are on their way when it is frozen: the freeze of the first alerts, that
      of the second does not. */
  lemma SecondAlertIsMissed(sig: Bytes)
    requires |sig| == 65
    ensures
      var w := Run(INIT, Sends(0, FIRST_ARGS, sig) + Sends(1, SECOND_ARGS, sig) + Freezes(2, 0) + Freezes(3, 1));
      && |w.rows| == 2 && (forall r :: 0 <= r < 2 ==> w.rows[r].status.Broadcast? && w.rows[r].slot == 5)
      && 2 in w.threads && w.threads[2] == Done(Alert) && 3 in w.threads && w.threads[3] == Done(Error)
  {
    var sent := Sends(0, FIRST_ARGS, sig) + Sends(1, SECOND_ARGS, sig);
    TwoSent(sig);
    var w := Run(INIT, sent);
    AlertIff(w, 2, 0);
    AlertIff(Run(w, Freezes(2, 0)), 3, 1);
    RunConcat(INIT, sent, Freezes(2, 0));
    RunConcat(INIT, sent + Freezes(2, 0), Freezes(3, 1));
  }
}
