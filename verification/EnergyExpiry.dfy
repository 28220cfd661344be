/** When the energy buffer writes a row off (energybroker/internal/buffer/verify.go): in every run, only
    after an on-chain read of this very row that fell short of its units. */
module EnergyExpiry {
  import opened Common
  import opened EnergyBuffer

  /** Reconcile reads the row's delegation on chain, and there is less than the row says. */
  ghost predicate Short(w: World, act: Action, i: nat) {
    && act.Advance? && act.t in w.txs && w.txs[act.t].Querying? && act.choice == i && i in w.txs[act.t].todo
    && i < |w.rows| && act.actual.Some? && act.actual.value < w.rows[i].units
  }

  ghost predicate FellShort(w: World, acts: seq<Action>, i: nat)
    decreases |acts|
  {
    acts != [] && (Short(w, acts[0], i) || FellShort(Step(w, acts[0]), acts[1..], i))
  }

  /** This transaction is to write the row off. */
  predicate WritesOff(tx: Tx, i: nat) {
    (tx.Querying? && i in tx.expire) || (tx.Expiring? && i in tx.todo + tx.claimed)
  }

  ghost predicate Doomed(w: World, i: nat) {
    || (i < |w.rows| && w.rows[i].status.Expired?)
    || exists t :: t in w.txs && WritesOff(w.txs[t], i)
  }

  lemma AdvanceSpares(w: World, t: nat, choice: nat, actual: Option<nat>, i: nat)
    requires t in w.txs && !Doomed(w, i) && !Short(w, Advance(t, choice, actual), i)
    ensures !Doomed(AdvanceTx(w, t, w.txs[t], choice, actual), i)
  {
    assert !WritesOff(w.txs[t], i);
  }

  lemma StepSpares(w: World, act: Action, i: nat)
    requires !Doomed(w, i) && !Short(w, act, i)
    ensures !Doomed(Step(w, act), i)
  {
    if act.Advance? && act.t in w.txs { AdvanceSpares(w, act.t, act.choice, act.actual, i); }
  }

  lemma {:induction false} RunDooms(w: World, acts: seq<Action>, i: nat)
    requires Doomed(Run(w, acts), i) && !Doomed(w, i)
    ensures FellShort(w, acts, i)
    decreases |acts|
  {
    if acts != [] && !Short(w, acts[0], i) {
      StepSpares(w, acts[0], i);
      RunDooms(Step(w, acts[0]), acts[1..], i);
    }
  }

  /** In every run a row is EXPIRED only if a read of its delegation fell short; a read that fails, or
      one that finds at least its units, never writes it off. */
  lemma ExpiredOnlyIfShort(acts: seq<Action>, i: nat)
    requires i < |Run(INIT, acts).rows| && Run(INIT, acts).rows[i].status.Expired?
    ensures FellShort(INIT, acts, i)
  {
    RunDooms(INIT, acts, i);
  }
}
