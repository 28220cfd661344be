/** Broadcast and HandleMidFlightFreeze as the programs write them: statement after statement on
    the shared table, other threads running in between. Each is proved to do exactly what the
    protocol's thread does under the same schedule, so what holds of every run holds of them. */
module Dispatcher {
  import opened Common
  import opened Attempts
  import opened BroadcastProtocol
  import opened BroadcastSafety

  /** What the other threads do before the next statement of this one, and how it turns out. */
  datatype Turn = Turn(others: seq<Action>, reply: Reply)

  /** The protocol's own thread t under a schedule, until it is done: others run, then t takes its
      next step. A schedule that ends early ends the process. */
  ghost function Play(w: World, t: nat, turns: seq<Turn>): (World, seq<Turn>)
    decreases |turns|
  {
    if t !in w.threads || w.threads[t].Done? then (w, turns)
    else if turns == [] then (Step(w, Crash(t)), [])
    else Play(Step(Run(w, turns[0].others), Advance(t, turns[0].reply)), t, turns[1..])
  }

  /** Playing a schedule is a run of the protocol. */
  lemma {:induction false} PlayIsRun(w: World, t: nat, turns: seq<Turn>) returns (acts: seq<Action>)
    ensures Run(w, acts) == Play(w, t, turns).0
    decreases |turns|
  {
    if t !in w.threads || w.threads[t].Done? {
      acts := [];
    } else if turns == [] {
      acts := [Crash(t)];
      RunUnfold(w, acts, [Step(w, Crash(t))]);
    } else {
      var w1 := Run(w, turns[0].others);
      var own := [Advance(t, turns[0].reply)];
      var rest := PlayIsRun(Step(w1, own[0]), t, turns[1..]);
      RunUnfold(w1, own, [Step(w1, own[0])]);
      RunConcat(w1, own, rest);
      RunConcat(w, turns[0].others, own + rest);
      acts := turns[0].others + (own + rest);
    }
  }

  /** One of the first n answers is this one. */
  predicate Heard(turns: seq<Turn>, n: int, reply: Reply) {
    exists i :: 0 <= i < n && i < |turns| && turns[i].reply == reply
  }

  /** A thread of Broadcast that is not done. */
  predicate Broadcasting(pc: Pc) {
    || pc.Inserting? || pc.Finding? || pc.Checking? || pc.Requesting? || pc.Storing? || pc.ReadingBack?
    || pc.Rejecting? || pc.Locking? || pc.Calling? || pc.Writing?
  }

  /** What one step says about S1: only its rejection leads to a rejected signature, and only its
      putting the caller off to a pending one. */
  predicate StepHears(pc: Pc, pc': Pc, reply: Reply) {
    && (Broadcasting(pc') || pc'.Done?)
    && (pc'.Rejecting? || pc' == Done(SignatureRejected) ==> pc.Rejecting? || reply.S1Rejected?)
    && (pc' == Done(SignaturePending) ==> reply.S1Pending?)
  }

  lemma SigningHears(w: World, t: nat, reply: Reply)
    requires t in w.threads && !reply.Fails()
    requires var pc := w.threads[t]; pc.Inserting? || pc.Finding? || pc.Checking? || pc.Requesting? || pc.Storing?
    ensures t in Step(w, Advance(t, reply)).threads
    ensures StepHears(w.threads[t], Step(w, Advance(t, reply)).threads[t], reply)
  {}

  lemma SendingHears(w: World, t: nat, reply: Reply)
    requires t in w.threads && !reply.Fails()
    requires var pc := w.threads[t]; pc.ReadingBack? || pc.Rejecting? || pc.Locking? || pc.Calling? || pc.Writing?
    ensures t in Step(w, Advance(t, reply)).threads
    ensures StepHears(w.threads[t], Step(w, Advance(t, reply)).threads[t], reply)
  {}

  lemma Hears(w: World, t: nat, reply: Reply)
    requires t in w.threads && Broadcasting(w.threads[t])
    ensures t in Step(w, Advance(t, reply)).threads
    ensures StepHears(w.threads[t], Step(w, Advance(t, reply)).threads[t], reply)
  {
    var pc := w.threads[t];
    if reply.Fails() {
    } else if pc.Inserting? || pc.Finding? || pc.Checking? || pc.Requesting? || pc.Storing? {
      SigningHears(w, t, reply);
    } else {
      SendingHears(w, t, reply);
    }
  }

  /** A Broadcast ends in a rejected signature only if S1 rejected it in one of the turns it used, and in
      a pending one only if S1 put it off in the last of them. */
  ghost predicate EndsAsHeard(pc: Pc, outcome: Outcome, turns: seq<Turn>, rest: seq<Turn>) {
    && |rest| <= |turns|
    && (outcome.SignatureRejected? ==> pc.Rejecting? || Heard(turns, |turns| - |rest|, S1Rejected))
    && (outcome.SignaturePending? ==> |rest| < |turns| && turns[|turns| - |rest| - 1].reply.S1Pending?)
  }

  lemma OneMoreHeard(pc: Pc, pc': Pc, outcome: Outcome, turns: seq<Turn>, rest: seq<Turn>)
    requires turns != [] && StepHears(pc, pc', turns[0].reply) && EndsAsHeard(pc', outcome, turns[1..], rest)
    ensures EndsAsHeard(pc, outcome, turns, rest)
  {
    if outcome.SignatureRejected? && !pc.Rejecting? {
      if pc'.Rejecting? {
        assert turns[0].reply == S1Rejected;
      } else {
        var i :| 0 <= i < |turns[1..]| - |rest| && i < |turns[1..]| && turns[1..][i].reply == S1Rejected;
        assert turns[i + 1].reply == S1Rejected;
      }
    }
  }

  lemma {:induction false} PlayHears(w: World, t: nat, turns: seq<Turn>)
    requires t in w.threads && Broadcasting(w.threads[t])
    requires forall i :: 0 <= i < |turns| ==> Without(turns[i].others, t)
    ensures t in Play(w, t, turns).0.threads && Play(w, t, turns).0.threads[t].Done?
    ensures EndsAsHeard(w.threads[t], Play(w, t, turns).0.threads[t].outcome, turns, Play(w, t, turns).1)
    decreases |turns|
  {
    if turns != [] {
      var w1 := Run(w, turns[0].others);
      OthersLeave(w, turns[0].others, t);
      Hears(w1, t, turns[0].reply);
      var w2 := Step(w1, Advance(t, turns[0].reply));
      if w2.threads[t].Done? {
        assert Play(w, t, turns) == (w2, turns[1..]);
      } else {
        PlayHears(w2, t, turns[1..]);
        OneMoreHeard(w.threads[t], w2.threads[t], Play(w, t, turns).0.threads[t].outcome, turns, Play(w, t, turns).1);
      }
    }
  }

  lemma BroadcastHears(w: World, t: nat, a: Args, turns: seq<Turn>)
    requires t !in w.threads && forall i :: 0 <= i < |turns| ==> Without(turns[i].others, t)
    ensures
      var (w', rest) := Play(Step(w, StartBroadcast(t, a)), t, turns);
      t in w'.threads && w'.threads[t].Done? && EndsAsHeard(Inserting(a), w'.threads[t].outcome, turns, rest)
  {
    PlayHears(Step(w, StartBroadcast(t, a)), t, turns);
  }

  class Dispatcher {
    var rows: Table
    var holder: map<nat, nat>
    var threads: map<nat, Pc>
    var calls: seq<Call>
    var retired: set<nat>
    var turns: seq<Turn>

    function Now(): World reads this { World(rows, holder, threads, calls, retired) }

    ghost predicate Valid() reads this { Inv(Now()) }

    /** The rest of the schedule never steps thread t itself. */
    ghost predicate Scheduled(t: nat) reads this {
      forall i :: 0 <= i < |turns| ==> Without(turns[i].others, t)
    }

    /** Where the protocol's thread t ends from here. Every method below leaves it unchanged. */
    ghost function Goal(t: nat): (World, seq<Turn>) reads this { Play(Now(), t, turns) }

    constructor (turns: seq<Turn>)
      ensures Valid() && Now() == INIT && this.turns == turns
    {
      rows, holder, threads, calls, retired := [], map[], map[], [], {};
      this.turns := turns;
    }

    /** Other threads run; then the outcome of the next statement is known. No turn left means that
        this process ends here. */
    method Await(t: nat) returns (reply: Option<Reply>)
      requires Valid() && Scheduled(t) && t in threads && !threads[t].Done?
      modifies this
      ensures Valid() && Scheduled(t) && t in threads && |turns| <= |old(turns)|
      ensures reply.None? ==> Goal(t) == old(Goal(t)) && threads[t] == Done(Crashed)
      ensures reply.Some? ==>
        && threads[t] == old(threads[t]) && |turns| < |old(turns)|
        && Play(Step(Now(), Advance(t, reply.value)), t, turns) == old(Goal(t))
    {
      var w;
      if turns == [] {
        w := Abort(Now(), t, threads[t], Crashed);
        StepKeeps(Now(), Crash(t));
        reply := None;
      } else {
        var turn := turns[0];
        turns := turns[1..];
        w := Run(Now(), turn.others);
        OthersLeave(Now(), turn.others, t);
        RunKeeps(Now(), turn.others);
        reply := Some(turn.reply);
      }
      rows, holder, threads, calls, retired := w.rows, w.holder, w.threads, w.calls, w.retired;
    }

    /** Await, and an error of the statement itself ends the thread, its transaction rolled back. */
    method Next(t: nat) returns (reply: Option<Reply>)
      requires Valid() && Scheduled(t) && t in threads && !threads[t].Done?
      modifies this
      ensures Valid() && Scheduled(t) && t in threads && |turns| <= |old(turns)|
      ensures reply.None? ==> Goal(t) == old(Goal(t)) && threads[t] in {Done(Crashed), Done(Error)}
      ensures reply.Some? ==>
        && threads[t] == old(threads[t]) && |turns| < |old(turns)| && !reply.value.Fails()
        && Play(Step(Now(), Advance(t, reply.value)), t, turns) == old(Goal(t))
    {
      reply := Await(t);
      if reply.Some? && reply.value.Fails() {
        StepKeeps(Now(), Advance(t, reply.value));
        var w := Abort(Now(), t, threads[t], Error);
        rows, holder, threads, calls, retired := w.rows, w.holder, w.threads, w.calls, w.retired;
        reply := None;
      }
    }

    /** INSERT ... ON CONFLICT (unsigned_tx_hash) DO NOTHING. */
    method Insert(t: nat, a: Args, ghost reply: Reply) returns (r: Insertion)
      requires Valid() && t in threads && threads[t] == Inserting(a) && !reply.Fails()
      modifies this
      ensures Valid() && turns == old(turns) && Now() == Step(old(Now()), Advance(t, reply)) && t in threads
      ensures r.NumberTaken? ==> threads[t] == Done(Error)
      ensures r.HashTaken? ==> threads[t] == Finding(a)
      ensures r.Inserted? ==> |rows| > 0 && threads[t] == Checking(a, |rows| - 1)
    {
      StepKeeps(Now(), Advance(t, reply));
      r := TryInsert(rows, a.order, a.number, Sha256(a.unsignedTx));
      match r {
        case NumberTaken =>
          threads := threads[t := Done(Error)];
        case HashTaken =>
          threads := threads[t := Finding(a)];
        case Inserted =>
          threads := threads[t := Checking(a, |rows|)];
          rows := rows + [NewRow(a.order, a.slot, a.number, Sha256(a.unsignedTx))];
      }
    }

    /** AttemptStore.Create: insert, or read the row that already carries this transfer; a terminal
        row ends Broadcast. */
    method Create(t: nat, a: Args) returns (id: Option<nat>)
      requires Valid() && Scheduled(t) && t in threads && threads[t] == Inserting(a)
      modifies this
      ensures Valid() && Scheduled(t) && Goal(t) == old(Goal(t)) && t in threads
      ensures id.None? ==> Ended(t, a)
      ensures id.Some? ==> threads[t] == Checking(a, id.value)
    {
      id := None;
      var reply := Next(t);
      if reply.None? { return; }
      var r := Insert(t, a, reply.value);
      if r.Inserted? {
        id := Some(|rows| - 1);
      } else if r.HashTaken? {
        id := FindExisting(t, a);
      }
    }

    /** This Broadcast is over; a row it returns is the row of its own transfer, past SIGNED. */
    ghost predicate Ended(t: nat, a: Args) reads this {
      && t in threads && threads[t].Done?
      && (threads[t].outcome.Returned? ==> IsResult(threads[t].outcome.row, a))
    }

    ghost predicate IsResult(row: Row, a: Args) {
      row.status.Terminal() && row.unsignedHash == Sha256(a.unsignedTx)
    }

    /** getByUnsignedTxHash. */
    method FindExisting(t: nat, a: Args) returns (id: Option<nat>)
      requires Valid() && Scheduled(t) && t in threads && threads[t] == Finding(a)
      modifies this
      ensures Valid() && Scheduled(t) && Goal(t) == old(Goal(t)) && t in threads
      ensures id.None? ==> Ended(t, a)
      ensures id.Some? ==> threads[t] == Checking(a, id.value)
    {
      var reply := Next(t);
      if reply.None? { return None; }
      ghost var before := Now();
      id := FindHash(rows, Sha256(a.unsignedTx));
      if id.None? {
        threads := threads[t := Done(Error)];
      } else if rows[id.value].status.Terminal() {
        threads := threads[t := Done(Returned(rows[id.value]))];
        id := None;
      } else {
        threads := threads[t := Checking(a, id.value)];
      }
      StepKeeps(before, Advance(t, reply.value));
    }

    /** A row this thread works on exists and is the one of its transfer. */
    lemma OwnRow(t: nat, a: Args, id: nat)
      requires Valid() && t in threads
      requires threads[t] in {Checking(a, id), Requesting(a, id), ReadingBack(a, id), Locking(a, id)} ||
               ((threads[t].Storing? || threads[t].Writing?) && threads[t].a == a && threads[t].id == id)
      ensures id < |rows| && rows[id].unsignedHash == Sha256(a.unsignedTx)
    {
      assert ThreadOk(Now(), t);
    }

    /** ensureSigned: bring the row to SIGNED, asking S1 only if it is still BUILT. */
    method EnsureSigned(t: nat, a: Args, id: nat) returns (ready: bool)
      requires Valid() && Scheduled(t) && t in threads && threads[t] == Checking(a, id)
      modifies this
      ensures Valid() && Scheduled(t) && Goal(t) == old(Goal(t))
      ensures !ready ==> Ended(t, a)
      ensures ready ==> t in threads && threads[t] == Locking(a, id)
    {
      ready := false;
      var reply := Next(t);
      if reply.None? { return; }
      OwnRow(t, a, id);
      ghost var before := Now();
      var current := rows[id];
      if current.status.Terminal() {
        threads := threads[t := Done(Returned(current))];
      } else if current.status.Signed? {
        threads := threads[t := Locking(a, id)];
        ready := true;
      } else {
        threads := threads[t := Requesting(a, id)];
      }
      StepKeeps(before, Advance(t, reply.value));
      if threads[t].Requesting? {
        ready := RequestSignature(t, a, id);
      }
    }

    method RequestSignature(t: nat, a: Args, id: nat) returns (ready: bool)
      requires Valid() && Scheduled(t) && t in threads && threads[t] == Requesting(a, id)
      modifies this
      ensures Valid() && Scheduled(t) && Goal(t) == old(Goal(t))
      ensures !ready ==> Ended(t, a)
      ensures ready ==> t in threads && threads[t] == Locking(a, id)
    {
      ready := false;
      var reply := Next(t);
      if reply.None? { return; }
      ghost var before := Now();
      if reply.value.S1Signed? {
        threads := threads[t := Storing(a, id, reply.value.sig)];
        StepKeeps(before, Advance(t, reply.value));
        ready := Store(t, a, id, reply.value.sig);
      } else if reply.value.S1Rejected? {
        threads := threads[t := Rejecting(id)];
        StepKeeps(before, Advance(t, reply.value));
        Fail(t, id);
      } else {
        threads := threads[t := Done(if reply.value.S1Pending? then SignaturePending else Error)];
        StepKeeps(before, Advance(t, reply.value));
      }
    }

    /** The statements that wait for a held row. */
    ghost predicate WaitsFor(pc: Pc, id: nat) {
      (pc.Storing? || pc.Rejecting? || pc.Locking? || pc.Failing?) && pc.id == id
    }

    /** A statement blocked by a held row changes nothing. */
    lemma Blocked(t: nat, id: nat, reply: Reply)
      requires Valid() && t in threads && WaitsFor(threads[t], id) && id in holder && !reply.Fails()
      ensures Step(Now(), Advance(t, reply)) == Now()
    {
      assert ThreadOk(Now(), t);
      assert HolderOk(Now(), id);
      assert ThreadOk(Now(), holder[id]);
    }

    /** Waits until no transaction holds the row, as an UPDATE or SELECT ... FOR UPDATE does. */
    method NextOnRow(t: nat, id: nat) returns (reply: Option<Reply>)
      requires Valid() && Scheduled(t) && t in threads && WaitsFor(threads[t], id)
      modifies this
      ensures Valid() && Scheduled(t) && t in threads
      ensures reply.None? ==> Goal(t) == old(Goal(t)) && threads[t] in {Done(Crashed), Done(Error)}
      ensures reply.Some? ==>
        && threads[t] == old(threads[t]) && id !in holder && !reply.value.Fails()
        && Play(Step(Now(), Advance(t, reply.value)), t, turns) == old(Goal(t))
    {
      reply := Next(t);
      while reply.Some? && id in holder
        invariant Valid() && Scheduled(t) && t in threads
        invariant reply.None? ==> Goal(t) == old(Goal(t)) && threads[t] in {Done(Crashed), Done(Error)}
        invariant reply.Some? ==>
          && threads[t] == old(threads[t]) && !reply.value.Fails()
          && Play(Step(Now(), Advance(t, reply.value)), t, turns) == old(Goal(t))
        decreases |turns|, reply.Some?
      {
        Blocked(t, id, reply.value);
        reply := Next(t);
      }
    }

    /** MarkFailed, called on S1's rejection. */
    method Fail(t: nat, id: nat)
      requires Valid() && Scheduled(t) && t in threads && threads[t] == Rejecting(id)
      modifies this
      ensures Valid() && Scheduled(t) && Goal(t) == old(Goal(t)) && t in threads
      ensures threads[t].Done? && !threads[t].outcome.Returned?
    {
      var reply := NextOnRow(t, id);
      if reply.None? { return; }
      ghost var before := Now();
      if id < |rows| {
        rows := MarkFailed(rows, id);
        threads := threads[t := Done(SignatureRejected)];
      } else {
        threads := threads[t := Done(Error)];
      }
      StepKeeps(before, Advance(t, reply.value));
    }

    /** markSigned: the UPDATE guarded by status = BUILT, or the row as someone else left it. */
    method Store(t: nat, a: Args, id: nat, sig: Bytes) returns (ready: bool)
      requires Valid() && Scheduled(t) && t in threads && threads[t] == Storing(a, id, sig)
      modifies this
      ensures Valid() && Scheduled(t) && Goal(t) == old(Goal(t))
      ensures !ready ==> Ended(t, a)
      ensures ready ==> t in threads && threads[t] == Locking(a, id)
    {
      ready := false;
      var reply := NextOnRow(t, id);
      if reply.None? { return; }
      OwnRow(t, a, id);
      ghost var before := Now();
      if rows[id].status.Built? {
        rows := MarkSigned(rows, id, sig);
        threads := threads[t := Locking(a, id)];
        StepKeeps(before, Advance(t, reply.value));
        ready := true;
      } else {
        threads := threads[t := ReadingBack(a, id)];
        StepKeeps(before, Advance(t, reply.value));
        ready := ReadBack(t, a, id);
      }
    }

    method ReadBack(t: nat, a: Args, id: nat) returns (ready: bool)
      requires Valid() && Scheduled(t) && t in threads && threads[t] == ReadingBack(a, id)
      modifies this
      ensures Valid() && Scheduled(t) && Goal(t) == old(Goal(t))
      ensures !ready ==> Ended(t, a)
      ensures ready ==> t in threads && threads[t] == Locking(a, id)
    {
      ready := false;
      var reply := Next(t);
      if reply.None? { return; }
      OwnRow(t, a, id);
      ghost var before := Now();
      ready := !rows[id].status.Terminal();
      threads := threads[t := if ready then Locking(a, id) else Done(Returned(rows[id]))];
      StepKeeps(before, Advance(t, reply.value));
    }

    /** ensureBroadcast: one transaction around the chain call and the UPDATE after it. */
    method EnsureBroadcast(t: nat, a: Args, id: nat)
      requires Valid() && Scheduled(t) && t in threads && threads[t] == Locking(a, id)
      modifies this
      ensures Valid() && Scheduled(t) && Goal(t) == old(Goal(t))
      ensures Ended(t, a)
    {
      var reply := NextOnRow(t, id);
      if reply.None? { return; }
      OwnRow(t, a, id);
      ghost var before := Now();
      var current := rows[id];
      if current.status.Terminal() {
        threads := threads[t := Done(Returned(current))];
      } else if !current.status.Signed? || current.signedTx.None? || |current.signedTx.value| != 65 {
        threads := threads[t := Done(Error)];
      } else {
        holder := holder[id := t];
        threads := threads[t := Calling(a, id, current.signedTx.value)];
      }
      StepKeeps(before, Advance(t, reply.value));
      if threads[t].Calling? {
        CallChain(t, a, id, current.signedTx.value);
      }
    }

    /** chain.Broadcast itself. A timeout looks like a refusal here although the node accepted. */
    method Send(t: nat, a: Args, id: nat, sig: Bytes, reply: Reply)
      requires t in threads && threads[t] == Calling(a, id, sig)
      modifies this
      ensures turns == old(turns) && Now() == DoCall(old(Now()), t, a, id, sig, reply)
    {
      var tx := SignedTx(a.unsignedTx, sig);
      if reply.ChainAccepted? {
        threads := threads[t := Writing(a, id, |calls|, reply.txid)];
        calls := calls + [Call(id, tx, true, Open)];
      } else {
        calls := calls + [Call(id, tx, reply.ChainTimeout?, RolledBack)];
        holder := holder - {id};
        threads := threads[t := Done(Error)];
      }
    }

    /** markBroadcast and COMMIT. */
    method Commit(t: nat, a: Args, id: nat, k: nat, txid: nat)
      requires t in threads && threads[t] == Writing(a, id, k, txid) && id < |rows|
      modifies this
      ensures turns == old(turns) && Now() == DoWrite(old(Now()), t, id, k, txid)
    {
      rows := MarkBroadcast(rows, id, txid);
      holder := holder - {id};
      calls := Settled(calls, k, Committed);
      threads := threads[t := Done(Returned(rows[id]))];
    }

    lemma SendIsStep(t: nat, a: Args, id: nat, sig: Bytes, reply: Reply)
      requires Valid() && t in threads && threads[t] == Calling(a, id, sig) && !reply.Fails()
      ensures Step(Now(), Advance(t, reply)) == DoCall(Now(), t, a, id, sig, reply)
      ensures Inv(DoCall(Now(), t, a, id, sig, reply))
    {
      StepKeeps(Now(), Advance(t, reply));
    }

    lemma CommitIsStep(t: nat, a: Args, id: nat, k: nat, txid: nat, reply: Reply)
      requires Valid() && t in threads && threads[t] == Writing(a, id, k, txid) && !reply.Fails()
      ensures Step(Now(), Advance(t, reply)) == DoWrite(Now(), t, id, k, txid)
      ensures Inv(DoWrite(Now(), t, id, k, txid))
      ensures id < |rows| && rows[id].unsignedHash == Sha256(a.unsignedTx)
    {
      StepKeeps(Now(), Advance(t, reply));
      OwnRow(t, a, id);
    }

    /** The chain call, made while the row is held; any error rolls the transaction back. */
    method CallChain(t: nat, a: Args, id: nat, sig: Bytes)
      requires Valid() && Scheduled(t) && t in threads && threads[t] == Calling(a, id, sig)
      modifies this
      ensures Valid() && Scheduled(t) && Goal(t) == old(Goal(t))
      ensures Ended(t, a)
    {
      var reply := Next(t);
      if reply.None? { return; }
      SendIsStep(t, a, id, sig, reply.value);
      Send(t, a, id, sig, reply.value);
      if reply.value.ChainAccepted? {
        Record(t, a, id, threads[t].call, reply.value.txid);
      }
    }

    /** What follows an accepted call in the same transaction. */
    method Record(t: nat, a: Args, id: nat, k: nat, txid: nat)
      requires Valid() && Scheduled(t) && t in threads && threads[t] == Writing(a, id, k, txid)
      modifies this
      ensures Valid() && Scheduled(t) && Goal(t) == old(Goal(t))
      ensures Ended(t, a)
    {
      var reply := Next(t);
      if reply.None? { return; }
      CommitIsStep(t, a, id, k, txid, reply.value);
      Commit(t, a, id, k, txid);
    }

    /** Broadcast(orderID, slotID, attemptNumber, unsignedTx). */
    method Broadcast(t: nat, a: Args) returns (outcome: Outcome)
      requires Valid() && Scheduled(t) && t !in threads
      modifies this
      ensures Valid() && Scheduled(t)
      ensures (Now(), turns) == Play(Step(old(Now()), StartBroadcast(t, a)), t, old(turns))
      ensures t in threads && threads[t] == Done(outcome)
      ensures outcome.Returned? ==> IsResult(outcome.row, a)
      ensures EndsAsHeard(Inserting(a), outcome, old(turns), turns)
    {
      ghost var before := Now();
      BroadcastHears(before, t, a, turns);
      threads := threads[t := Inserting(a)];
      StepKeeps(before, StartBroadcast(t, a));
      var id := Create(t, a);
      if id.Some? {
        var ready := EnsureSigned(t, a, id.value);
        if ready {
          EnsureBroadcast(t, a, id.value);
        }
      }
      outcome := threads[t].outcome;
    }

    /** HandleMidFlightFreeze on one attempt: true asks for an alert, as the payout may have landed. */
    method HandleMidFlightFreeze(t: nat, id: nat) returns (needsAlert: bool)
      requires Valid() && Scheduled(t) && t !in threads
      modifies this
      ensures Valid() && Scheduled(t)
      ensures (Now(), turns) == Play(Step(old(Now()), StartFreeze(t, id)), t, old(turns))
      ensures t in threads && threads[t].Done? && (needsAlert <==> threads[t].outcome.Alert?)
    {
      ghost var before := Now();
      threads := threads[t := Freezing(id)];
      StepKeeps(before, StartFreeze(t, id));
      ReadFrozen(t, id);
      if threads[t].Failing? { Abandon(t, id); }
      if threads[t].Examining? { MarkRetired(t, threads[t].slot, threads[t].outcome); }
      needsAlert := threads[t].outcome.Alert?;
    }

    /** Get: the status decides. */
    method ReadFrozen(t: nat, id: nat)
      requires Valid() && Scheduled(t) && t in threads && threads[t] == Freezing(id)
      modifies this
      ensures Valid() && Scheduled(t) && Goal(t) == old(Goal(t)) && t in threads
      ensures threads[t].Done? || threads[t] == Failing(id, true)
        || (threads[t].Examining? && threads[t].outcome.Alert?)
    {
      var reply := Next(t);
      if reply.None? { return; }
      ghost var before := Now();
      if id >= |rows| {
        threads := threads[t := Done(Error)];
      } else {
        match rows[id].status {
          case Built | Signed =>
            threads := threads[t := Failing(id, true)];
          case Broadcast =>
            threads := threads[t := Examining(rows[id].slot, Alert)];
          case Confirmed | Failed =>
            threads := threads[t := Done(Returned(rows[id]))];
        }
      }
      StepKeeps(before, Advance(t, reply.value));
    }

    /** MarkFailed, called for an attempt that was still BUILT or SIGNED when it was read. */
    method Abandon(t: nat, id: nat)
      requires Valid() && Scheduled(t) && t in threads && threads[t] == Failing(id, true)
      modifies this
      ensures Valid() && Scheduled(t) && Goal(t) == old(Goal(t)) && t in threads
      ensures (threads[t].Done? && !threads[t].outcome.Alert?)
        || (threads[t].Examining? && threads[t].outcome.Returned?)
    {
      var reply := NextOnRow(t, id);
      if reply.None? { return; }
      ghost var before := Now();
      if id < |rows| {
        rows := MarkFailed(rows, id);
        threads := threads[t := Examining(rows[id].slot, Returned(rows[id]))];
      } else {
        threads := threads[t := Done(Error)];
      }
      StepKeeps(before, Advance(t, reply.value));
    }

    /** Slots.MarkRetired: one that is retired already is an error. */
    method MarkRetired(t: nat, slot: nat, outcome: Outcome)
      requires Valid() && Scheduled(t) && t in threads && threads[t] == Examining(slot, outcome)
      modifies this
      ensures Valid() && Scheduled(t) && Goal(t) == old(Goal(t)) && t in threads
      ensures threads[t] in {Done(Crashed), Done(Error), Done(outcome)}
    {
      var reply := Next(t);
      if reply.None? { return; }
      ghost var before := Now();
      threads := threads[t := if slot in retired then Done(Error) else Retiring(slot, outcome)];
      StepKeeps(before, Advance(t, reply.value));
      if threads[t].Retiring? { Retire(t, slot, outcome); }
    }

    /** Its UPDATE. */
    method Retire(t: nat, slot: nat, outcome: Outcome)
      requires Valid() && Scheduled(t) && t in threads && threads[t] == Retiring(slot, outcome)
      modifies this
      ensures Valid() && Scheduled(t) && Goal(t) == old(Goal(t)) && t in threads
      ensures threads[t] in {Done(Crashed), Done(Error), Done(outcome)}
    {
      var reply := Next(t);
      if reply.None? { return; }
      ghost var before := Now();
      threads := threads[t := Done(outcome)];
      retired := retired + {slot};
      StepKeeps(before, Advance(t, reply.value));
    }
  }
}
