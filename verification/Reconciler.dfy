/** ReconcileFailedDispatches for one order, with TwoCallReporter.ReportDispatchFailure inside it, as
    the programs write them (dispatcher/internal/dispatch/reconcile.go,
    dispatcher/internal/ledgerclient/dispatchfailure.go): reverse, then hold, then mark, everybody
    else running in between. */
module Reconciler {
  import opened Common
  import A = Attempts
  import B = BroadcastProtocol
  import opened Ledger
  import opened Lifecycle
  import opened LifecycleInvariant
  import R = ReconciliationSafety
  import T = LifecycleTheorems

  datatype Turn = Turn(others: seq<Action>, reply: Reply, at: nat)

  predicate Own(act: Action, p: nat) { (act.Reconcile? && act.p == p) || (act.ReconStep? && act.p == p) }

  ghost predicate Elsewhere(acts: seq<Action>, p: nat) { forall i :: 0 <= i < |acts| ==> !Own(acts[i], p) }

  ghost predicate SamePass(w: World, w': World, p: nat) { p in w.recon && p in w'.recon && w'.recon[p] == w.recon[p] }

  lemma StepLeaves(w: World, act: Action, p: nat)
    requires !Own(act, p) && p in w.recon
    ensures SamePass(w, Step(w, act), p)
  {
    match act
    case ReconStep(q, reply, at) => if q in w.recon { ReconLeaves(w, q, w.recon[q], reply, at, p); }
    case OrchStep(reply, slot, at, tx, t) => OrchLeaves(w, reply, slot, at, tx, t);
    case _ =>
  }

  lemma OrchLeaves(w: World, reply: Reply, slot: nat, at: nat, tx: Bytes, t: nat)
    ensures DoOrch(w, reply, slot, at, tx, t).recon == w.recon
  {
    if !reply.Failed? {
      if w.orch.Entering? {
        var c := w.orch;
        assert DoEnter(w, reply, c.o, c.snap, c.slot, c.at, c.version, c.retried).recon == w.recon;
      } else if w.orch.Settling? {
        var c := w.orch;
        assert DoSettle(w, reply, c.o, c.snap, c.id, c.at, c.version, c.retried).recon == w.recon;
      } else if w.orch.Building? {
        assert DoBuild(w, w.orch.o, w.orch.slot, tx, t).recon == w.recon;
      }
    }
  }

  lemma ReconLeaves(w: World, q: nat, r: Recon, reply: Reply, at: nat, p: nat)
    requires p != q && p in w.recon
    ensures SamePass(w, DoRecon(w, q, r, reply, at), p)
  {
    if !reply.Failed? {
      if r.Reversing? { assert SamePass(w, DoReverse(w, q, reply, r.o, r.version, r.entry, at), p); }
      else if r.Holding? { assert SamePass(w, DoHold(w, q, reply, r.o, r.version, r.reversal, r.retried), p); }
    }
  }

  lemma {:induction false} OthersLeave(w: World, acts: seq<Action>, p: nat)
    requires Elsewhere(acts, p) && p in w.recon
    ensures SamePass(w, Run(w, acts), p)
    decreases |acts|
  {
    if acts != [] {
      StepLeaves(w, acts[0], p);
      OthersLeave(Step(w, acts[0]), acts[1..], p);
    }
  }

  /** Pass p under a schedule, until it is over. A schedule that ends early ends the pass. */
  ghost function Play(w: World, p: nat, turns: seq<Turn>): (World, seq<Turn>)
    decreases |turns|
  {
    if p !in w.recon || w.recon[p].Ended() then (w, turns)
    else if turns == [] then (Step(w, ReconStep(p, Failed, 0)), [])
    else Play(Step(Run(w, turns[0].others), ReconStep(p, turns[0].reply, turns[0].at)), p, turns[1..])
  }

  /** Playing a schedule is a run of the lifecycle. */
  lemma {:induction false} PlayIsRun(w: World, p: nat, turns: seq<Turn>) returns (acts: seq<Action>)
    ensures Run(w, acts) == Play(w, p, turns).0
    decreases |turns|
  {
    if p !in w.recon || w.recon[p].Ended() {
      acts := [];
    } else if turns == [] {
      var last := ReconStep(p, Failed, 0);
      acts := [last];
      assert acts[1..] == [];
      assert Run(Step(w, last), []) == Step(w, last);
    } else {
      var w1 := Run(w, turns[0].others);
      var own := ReconStep(p, turns[0].reply, turns[0].at);
      var rest := PlayIsRun(Step(w1, own), p, turns[1..]);
      assert ([own] + rest)[1..] == rest;
      T.RunConcat(w, turns[0].others, [own] + rest);
      acts := turns[0].others + ([own] + rest);
    }
  }

  lemma PassStep(w: World, p: nat, reply: Reply, at: nat)
    requires p in w.recon
    ensures Step(w, ReconStep(p, reply, at)) == DoRecon(w, p, w.recon[p], reply, at)
  {}

  lemma FailStep(w: World, p: nat, at: nat)
    requires p in w.recon && !w.recon[p].Ended()
    ensures Step(w, ReconStep(p, Failed, at)) == Goto(w, p, Over)
  {}

  /** The world once the row is marked, or could not be. */
  function Marked(w: World, p: nat, o: nat, reply: Reply): World {
    match MarkStatus(w.local, o, LHeld)
    case Some(local) => Goto(w.(local := local), p, if reply.Lost? then Over else Closed)
    case None => Goto(w, p, Over)
  }

  lemma MarkStep(w: World, p: nat, o: nat, reply: Reply, at: nat)
    requires p in w.recon && w.recon[p] == MarkingHeld(o) && !reply.Failed?
    ensures
      Step(w, ReconStep(p, reply, at)) == Marked(w, p, o, reply)
  {}

  lemma RefetchStep(w: World, p: nat, o: nat, reversal: nat, reply: Reply, at: nat)
    requires p in w.recon && w.recon[p] == RefetchingHeld(o, reversal) && !reply.Failed?
    ensures Step(w, ReconStep(p, reply, at)) ==
      Goto(w, p, if o < |w.ledger.orders| then Holding(o, w.ledger.orders[o].version, reversal, true) else Over)
  {}

  class Reconciler {
    const p: nat
    var ledger: Ledger
    var att: B.World
    var local: map<nat, LocalRow>
    var orch: Orch
    var pending: map<nat, B.Args>
    var recon: map<nat, Recon>
    var turns: seq<Turn>

    function Now(): World reads this { World(ledger, att, local, orch, pending, recon) }

    ghost predicate Valid() reads this {
      Inv(Now()) && forall i :: 0 <= i < |turns| ==> Elsewhere(turns[i].others, p)
    }

    /** This pass stands here. */
    predicate At(r: Recon) reads this { p in recon && recon[p] == r }

    ghost function Goal(): (World, seq<Turn>) reads this { Play(Now(), p, turns) }

    constructor (p: nat, turns: seq<Turn>)
      requires forall i :: 0 <= i < |turns| ==> Elsewhere(turns[i].others, p)
      ensures Valid() && Now() == Init() && this.p == p && this.turns == turns
    {
      this.p := p;
      ledger, att, local, orch, pending, recon := Ledger([], [], false), B.INIT, map[], Idle, map[], map[];
      this.turns := turns;
      new;
      R.InitKeeps();
    }

    method Become(w: World)
      modifies this`ledger, this`att, this`local, this`orch, this`pending, this`recon
      ensures Now() == w
    {
      ledger, att, local, orch, pending, recon := w.ledger, w.att, w.local, w.orch, w.pending, w.recon;
    }

    /** An error ends the pass where it stands. */
    lemma FailIs(at: nat)
      requires Valid() && p in recon && !recon[p].Ended()
      ensures Step(Now(), ReconStep(p, Failed, at)) == Goto(Now(), p, Over) && Inv(Goto(Now(), p, Over))
    {
      FailStep(Now(), p, at);
      R.GotoKeeps(Now(), p, Over);
    }

    method Others(acts: seq<Action>)
      requires Inv(Now()) && Elsewhere(acts, p) && p in recon
      modifies this`ledger, this`att, this`local, this`orch, this`pending, this`recon
      ensures Inv(Now()) && Now() == Run(old(Now()), acts) && p in recon && recon[p] == old(recon)[p]
    {
      OthersLeave(Now(), acts, p);
      R.RunKeeps(Now(), acts);
      Become(Run(Now(), acts));
    }

    /** The others run; then the next turn is known. No turn left means that the process ends. */
    method Await() returns (turn: Option<Turn>)
      requires Valid() && p in recon && !recon[p].Ended()
      modifies this
      ensures Valid() && |turns| <= |old(turns)|
      ensures turn.None? ==> Goal() == old(Goal()) && At(Over)
      ensures turn.Some? ==>
        && p in recon && recon[p] == old(recon)[p] && |turns| < |old(turns)|
        && Play(Step(Now(), ReconStep(p, turn.value.reply, turn.value.at)), p, turns) == old(Goal())
    {
      if turns == [] {
        FailIs(0);
        recon := recon[p := Over];
        turn := None;
      } else {
        turn := Some(turns[0]);
        turns := turns[1..];
        Others(turn.value.others);
      }
    }

    /** The next request or statement is answered; an error ends the pass. */
    method Next() returns (turn: Option<Turn>)
      requires Valid() && p in recon && !recon[p].Ended()
      modifies this
      ensures Valid() && |turns| <= |old(turns)|
      ensures turn.None? ==> Goal() == old(Goal()) && At(Over)
      ensures turn.Some? ==>
        && p in recon && recon[p] == old(recon)[p] && |turns| < |old(turns)| && !turn.value.reply.Failed?
        && Play(Step(Now(), ReconStep(p, turn.value.reply, turn.value.at)), p, turns) == old(Goal())
    {
      turn := Await();
      if turn.Some? && turn.value.reply.Failed? {
        FailIs(turn.value.at);
        recon := recon[p := Over];
        turn := None;
      }
    }

    lemma StepIs(turn: Turn, w: World)
      requires Valid() && p in recon && w == DoRecon(Now(), p, recon[p], turn.reply, turn.at)
      ensures Step(Now(), ReconStep(p, turn.reply, turn.at)) == w && Inv(w)
    {
      PassStep(Now(), p, turn.reply, turn.at);
      R.StepKeeps(Now(), ReconStep(p, turn.reply, turn.at));
    }

    /** LatestForOrder: only a FAILED latest attempt has given up. */
    method Examine(o: nat)
      requires Valid() && At(Examining(o))
      modifies this
      ensures Valid() && Goal() == old(Goal()) && (At(Over) || At(FetchingFailed(o)))
    {
      var turn := Next();
      if turn.None? { return; }
      var latest := A.LatestForOrder(att.rows, o);
      var next := if latest.Some? && att.rows[latest.value].status.Failed? then FetchingFailed(o) else Over;
      StepIs(turn.value, Goto(Now(), p, next));
      recon := recon[p := next];
    }

    /** GetOrder: somebody else may have moved it on already. */
    method Fetch(o: nat)
      requires Valid() && At(FetchingFailed(o))
      modifies this
      ensures Valid() && Goal() == old(Goal())
        && p in recon && (recon[p].Over? || (recon[p].Resolving? && recon[p].o == o))
    {
      var turn := Next();
      if turn.None? { return; }
      var next := Over;
      if o < |ledger.orders| && ledger.orders[o].state.Dispatching? {
        next := Resolving(o, ledger.orders[o].version);
      }
      StepIs(turn.value, Goto(Now(), p, next));
      recon := recon[p := next];
    }

    /** GetEntryByIdempotencyKey. */
    method Resolve(o: nat, version: nat)
      requires Valid() && At(Resolving(o, version))
      modifies this
      ensures Valid() && Goal() == old(Goal())
      ensures p in recon
        && (recon[p].Over? || (recon[p].Reversing? && recon[p] == Reversing(o, version, recon[p].entry)))
    {
      var turn := Next();
      if turn.None? { return; }
      var entry := Find(ledger.journal, Conversion(o));
      var next := if entry.Some? then Reversing(o, version, entry.value) else Over;
      StepIs(turn.value, Goto(Now(), p, next));
      recon := recon[p := next];
    }

    /** This pass is about to hold the order, citing an entry that reverses its conversion. */
    ghost predicate Cites(o: nat) reads this {
      && p in recon && recon[p].Holding? && recon[p].reversal < |ledger.journal|
      && ledger.journal[recon[p].reversal].key == Reversal(Conversion(o))
    }

    /** PostReversal; an entry reversed before is a success. It goes on only while citing the entry
        that reverses the one it was asked to, and adds that entry at most. */
    method TryReverse(reply: Reply, o: nat, version: nat, entry: nat, at: nat)
      requires At(Reversing(o, version, entry))
      modifies this
      ensures turns == old(turns) && Now() == DoReverse(old(Now()), p, reply, o, version, entry, at)
      ensures p in recon
        && (recon[p].Over? || (recon[p].Holding? && recon[p] == Holding(o, version, recon[p].reversal, false)))
      ensures entry < |old(ledger.journal)| && old(ledger.journal)[entry].key == Conversion(o) && !recon[p].Ended() ==>
        Cites(o)
      ensures ledger.orders == old(ledger.orders) && old(ledger.journal) <= ledger.journal
        && |ledger.journal| <= |old(ledger.journal)| + 1
    {
      var next := Over;
      match Reverse(ledger.journal, entry, at) {
        case Reversed(journal) =>
          if !reply.Lost? {
            next := Holding(o, version, |ledger.journal|, false);
          }
          ledger := ledger.(journal := journal);
        case AlreadyReversed =>
          var of := if entry < |ledger.journal| then ledger.journal[entry].key else Conversion(o);
          var reversal := Find(ledger.journal, Reversal(of));
          if reversal.Some? && !reply.Lost? {
            next := Holding(o, version, reversal.value, false);
          }
        case Irreversible =>
      }
      recon := recon[p := next];
    }

    lemma EntryIs(o: nat, version: nat, entry: nat)
      requires Valid() && At(Reversing(o, version, entry))
      ensures entry < |ledger.journal| && ledger.journal[entry].key == Conversion(o)
    {
      assert ReconOk(Now(), recon[p]);
    }

    lemma ReverseIs(turn: Turn, o: nat, version: nat, entry: nat)
      requires Valid() && At(Reversing(o, version, entry)) && !turn.reply.Failed?
      ensures Step(Now(), ReconStep(p, turn.reply, turn.at)) ==
        DoReverse(Now(), p, turn.reply, o, version, entry, turn.at)
      ensures Inv(DoReverse(Now(), p, turn.reply, o, version, entry, turn.at))
    {
      StepIs(turn, DoReverse(Now(), p, turn.reply, o, version, entry, turn.at));
    }

    method PostReversal(o: nat, version: nat, entry: nat)
      requires Valid() && At(Reversing(o, version, entry))
      modifies this
      ensures Valid() && Goal() == old(Goal())
      ensures p in recon
        && (recon[p].Over? || (recon[p].Holding? && recon[p] == Holding(o, version, recon[p].reversal, false)))
      ensures !recon[p].Ended() ==> Cites(o)
    {
      var turn := Next();
      if turn.None? { return; }
      EntryIs(o, version, entry);
      ReverseIs(turn.value, o, version, entry);
      TryReverse(turn.value.reply, o, version, entry, turn.value.at);
    }

    /** The order is held in C1. */
    predicate IsHeld(o: nat) reads this { o < |ledger.orders| && ledger.orders[o].state.Held? }

    /** One request of the loop that follows: dispatching to held, citing the reversal. It goes on to
        the mark only with the order held, and asks again only if nothing happened. */
    method TryHold(reply: Reply, o: nat, version: nat, reversal: nat, retried: bool)
      requires At(Holding(o, version, reversal, retried))
      modifies this
      ensures turns == old(turns) && Now() == DoHold(old(Now()), p, reply, o, version, reversal, retried)
      ensures At(Over) || At(MarkingHeld(o)) || (!retried && At(RefetchingHeld(o, reversal)))
      ensures At(MarkingHeld(o)) ==> IsHeld(o)
      ensures At(RefetchingHeld(o, reversal)) ==> ledger == old(ledger)
    {
      var (verdict, after) := Transition(ledger, o, Held, version, Existing(reversal));
      ledger := after;
      if reply.Lost? {
        recon := recon[p := Over];
      } else if verdict.Done? {
        recon := recon[p := MarkingHeld(o)];
      } else if verdict.VersionConflict? && !retried {
        recon := recon[p := RefetchingHeld(o, reversal)];
      } else {
        recon := recon[p := Over];
      }
    }

    lemma RefetchIs(turn: Turn, o: nat, reversal: nat)
      requires Valid() && At(RefetchingHeld(o, reversal)) && !turn.reply.Failed?
      ensures
        var next := if o < |ledger.orders| then Holding(o, ledger.orders[o].version, reversal, true) else Over;
        Step(Now(), ReconStep(p, turn.reply, turn.at)) == Goto(Now(), p, next) && Inv(Goto(Now(), p, next))
    {
      RefetchStep(Now(), p, o, reversal, turn.reply, turn.at);
      R.StepKeeps(Now(), ReconStep(p, turn.reply, turn.at));
    }

    method RefetchHeld(o: nat, reversal: nat)
      requires Valid() && At(RefetchingHeld(o, reversal))
      modifies this
      ensures Valid() && Goal() == old(Goal()) && |turns| <= |old(turns)|
      ensures p in recon
        && (recon[p].Over? || (recon[p].Holding? && recon[p] == Holding(o, recon[p].version, reversal, true)))
    {
      var turn := Next();
      if turn.None? { return; }
      RefetchIs(turn.value, o, reversal);
      var next := if o < |ledger.orders| then Holding(o, ledger.orders[o].version, reversal, true) else Over;
      recon := recon[p := next];
    }

    /** The loop: one retry after a version conflict; a hold is not blocked by a halt. */
    method Hold(o: nat, version: nat, reversal: nat)
      requires Valid() && At(Holding(o, version, reversal, false))
      modifies this
      ensures Valid() && Goal() == old(Goal()) && (At(Over) || (At(MarkingHeld(o)) && IsHeld(o)))
    {
      while recon[p].Holding?
        invariant Valid() && Goal() == old(Goal()) && p in recon
        invariant recon[p].Holding? ==> recon[p] == Holding(o, recon[p].version, reversal, recon[p].retried)
        invariant recon[p].Holding? || At(Over) || (At(MarkingHeld(o)) && IsHeld(o))
        decreases |turns|, recon[p].Holding?
      {
        var v, retried := recon[p].version, recon[p].retried;
        var turn := Next();
        if turn.Some? {
          StepIs(turn.value, DoHold(Now(), p, turn.value.reply, o, v, reversal, retried));
          TryHold(turn.value.reply, o, v, reversal, retried);
          if recon[p].RefetchingHeld? {
            RefetchHeld(o, reversal);
          }
        }
      }
    }

    lemma ReversedIs(o: nat)
      requires Valid() && At(MarkingHeld(o))
      ensures Has(ledger.journal, Reversal(Conversion(o)))
    {
      assert ReconOk(Now(), recon[p]);
    }

    /** ReportDispatchFailure: true once the conversion is reversed and the order held. */
    method ReportDispatchFailure(o: nat, version: nat) returns (reported: bool)
      requires Valid() && At(Resolving(o, version))
      modifies this
      ensures Valid() && Goal() == old(Goal()) && At(if reported then MarkingHeld(o) else Over)
      ensures reported ==> IsHeld(o) && Has(ledger.journal, Reversal(Conversion(o)))
    {
      Resolve(o, version);
      if recon[p].Reversing? { PostReversal(o, version, recon[p].entry); }
      if recon[p].Holding? { Hold(o, version, recon[p].reversal); }
      reported := recon[p].MarkingHeld?;
      if reported { ReversedIs(o); }
    }

    /** markStatus: DISPATCHING to HELD; a repeat is a success. */
    method TryMark(o: nat, reply: Reply) returns (closed: bool)
      requires At(MarkingHeld(o))
      modifies this
      ensures turns == old(turns) && Now() == Marked(old(Now()), p, o, reply)
      ensures At(if closed then Closed else Over) && (closed ==> o in local && local[o].status.LHeld?)
    {
      closed := false;
      if o in local && local[o].status.LDispatching? {
        local := local[o := local[o].(status := LHeld)];
        closed := !reply.Lost?;
      } else if o in local {
        closed := local[o].status.LHeld? && !reply.Lost?;
      }
      recon := recon[p := if closed then Closed else Over];
    }

    lemma MarkIs(turn: Turn, o: nat)
      requires Valid() && At(MarkingHeld(o)) && !turn.reply.Failed?
      ensures Step(Now(), ReconStep(p, turn.reply, turn.at)) == Marked(Now(), p, o, turn.reply)
      ensures Inv(Marked(Now(), p, o, turn.reply))
    {
      MarkStep(Now(), p, o, turn.reply, turn.at);
      R.StepKeeps(Now(), ReconStep(p, turn.reply, turn.at));
    }

    /** Store.MarkHeld. */
    method MarkHeld(o: nat) returns (closed: bool)
      requires Valid() && At(MarkingHeld(o))
      modifies this
      ensures Valid() && Goal() == old(Goal()) && At(if closed then Closed else Over)
      ensures closed ==> o in local && local[o].status.LHeld?
    {
      closed := false;
      var turn := Next();
      if turn.None? { return; }
      MarkIs(turn.value, o);
      closed := TryMark(o, turn.value.reply);
    }

    /** What HELD in dispatch_state says of C1. */
    lemma HeldMeans(o: nat)
      requires Valid() && o in local && local[o].status.LHeld?
      ensures Has(ledger.journal, Reversal(Conversion(o)))
      ensures o < |ledger.orders| && (ledger.orders[o].state.Held? || ledger.orders[o].state.Refunded?)
    {
      assert ViewOk(ViewAt(Now(), o));
    }

    method Start(o: nat)
      requires Valid() && p !in recon && o in local
      modifies this
      ensures Valid() && Now() == Step(old(Now()), Reconcile(p, o)) && turns == old(turns) && At(Examining(o))
    {
      R.StepKeeps(Now(), Reconcile(p, o));
      recon := recon[p := Examining(o)];
    }

    /** One row of ListDispatching; closed counts towards the pass's result, and says that the row
        is marked, the conversion reversed and the order held, or refunded since. */
    method ReconcileOne(o: nat) returns (closed: bool)
      requires Valid() && p !in recon && o in local
      modifies this
      ensures Valid() && (Now(), turns) == Play(Step(old(Now()), Reconcile(p, o)), p, old(turns))
      ensures At(if closed then Closed else Over)
      ensures closed ==>
        && o in local && local[o].status.LHeld? && Has(ledger.journal, Reversal(Conversion(o)))
        && o < |ledger.orders| && (ledger.orders[o].state.Held? || ledger.orders[o].state.Refunded?)
    {
      Start(o);
      closed := false;
      Examine(o);
      if recon[p].FetchingFailed? { Fetch(o); }
      if recon[p].Resolving? {
        var reported := ReportDispatchFailure(o, recon[p].version);
        if reported {
          closed := MarkHeld(o);
          if closed { HeldMeans(o); }
        }
      }
    }
  }
}
