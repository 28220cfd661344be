/** The choice of a payout slot (dispatcher/internal/slots/select.go): the least recently used ACTIVE
    slot under both caps. A slot's id is its position. */
module Slots {
  import opened Common

  datatype Slot = Slot(active: bool, txCount: int, lastDispatchAt: Option<nat>)

  datatype Caps = Caps(balanceCeiling: int, txCountCeiling: int)

  datatype Choice = Chosen(id: nat) | NoEligibleSlot | BalanceUnknown | NotRecorded

  /** How the closing UPDATE ends: done, not done, or done although the caller hears an error. */
  datatype Reply = Ok | Failed | Lost

  /** When each slot was last used. */
  function Times(slots: seq<Slot>): (r: seq<Option<nat>>)
    ensures |r| == |slots| && forall i :: 0 <= i < |r| ==> r[i] == slots[i].lastDispatchAt
  {
    seq(|slots|, i requires 0 <= i < |slots| => slots[i].lastDispatchAt)
  }

  /** The order of the sort: never used first, then the longest unused, ties by id. */
  predicate Before(last: seq<Option<nat>>, i: nat, j: nat)
    requires i < |last| && j < |last|
  {
    if last[i].None? then last[j].Some? || i < j
    else last[j].Some? && (last[i].value < last[j].value || (last[i].value == last[j].value && i < j))
  }

  ghost predicate IsFirst(last: seq<Option<nat>>, eligible: set<nat>, i: nat) {
    && i in eligible && i < |last|
    && forall j :: j in eligible && j != i ==> j < |last| && Before(last, i, j)
  }

  /** The slot the order singles out. */
  ghost function Choose(last: seq<Option<nat>>, eligible: set<nat>): (i: nat)
    requires eligible != {} && forall j :: j in eligible ==> j < |last|
    ensures IsFirst(last, eligible, i)
    decreases |eligible|
  {
    var i :| i in eligible;
    var rest := eligible - {i};
    if rest == {} then
      assert forall j :: j in eligible && j != i ==> j in rest;
      i
    else
      var k := Choose(last, rest);
      assert forall j :: j in eligible ==> j == i || j in rest;
      assert forall j :: j in rest ==> j < |last| && (j == k || Before(last, k, j));
      if Before(last, i, k) then i else k
  }

  /** The order leaves no choice. */
  lemma FirstIsUnique(last: seq<Option<nat>>, eligible: set<nat>, i: nat, j: nat)
    requires IsFirst(last, eligible, i) && IsFirst(last, eligible, j)
    ensures i == j
  {}

  function ActiveOf(slots: seq<Slot>): set<nat> { set i: nat | i < |slots| && slots[i].active }

  /** The ACTIVE slots under both caps, by the balances just read. */
  function EligibleOf(slots: seq<Slot>, balances: seq<Option<int>>, caps: Caps): set<nat>
    requires |balances| == |slots|
  {
    set i: nat | i < |slots| && slots[i].active && balances[i].Some?
                 && balances[i].value < caps.balanceCeiling && slots[i].txCount < caps.txCountCeiling
  }

  /** ACTIVE, with a balance below the balance ceiling and fewer transfers than the transfer ceiling. */
  predicate UnderBothCaps(slots: seq<Slot>, balances: seq<Option<int>>, caps: Caps, i: nat) {
    && i < |slots| && i < |balances| && slots[i].active
    && balances[i].Some? && balances[i].value < caps.balanceCeiling
    && slots[i].txCount < caps.txCountCeiling
  }

  /** Only the times differ. */
  ghost predicate SameButTimes(slots: seq<Slot>, slots': seq<Slot>) {
    |slots'| == |slots|
      && forall i :: 0 <= i < |slots| ==> slots'[i] == slots[i].(lastDispatchAt := slots'[i].lastDispatchAt)
  }

  class Store {
    var slots: seq<Slot>

    constructor (slots: seq<Slot>)
      ensures this.slots == slots
    {
      this.slots := slots;
    }

    function Active(): set<nat> reads this { ActiveOf(slots) }

    function Eligible(balances: seq<Option<int>>, caps: Caps): set<nat>
      requires |balances| == |slots|
      reads this
    {
      EligibleOf(slots, balances, caps)
    }

    /** Any balance that cannot be read fails the selection; otherwise the first eligible slot in
        the order is chosen, if there is one, and its time set; nothing else changes. A time that
        cannot be recorded fails the selection too, set or not. */
    method SelectForDispatch(balances: seq<Option<int>>, caps: Caps, now: nat, saved: Reply) returns (r: Choice)
      requires |balances| == |slots|
      modifies this
      ensures r.BalanceUnknown? <==> exists i :: i in old(Active()) && balances[i].None?
      ensures r.NoEligibleSlot? <==>
        (forall i :: i in old(Active()) ==> balances[i].Some?) && old(Eligible(balances, caps)) == {}
      ensures r.Chosen? ==>
        && IsFirst(old(Times(slots)), old(Eligible(balances, caps)), r.id)
        && slots == old(slots)[r.id := old(slots)[r.id].(lastDispatchAt := Some(now))]
      ensures r.NotRecorded? ==> !saved.Ok? && exists id: nat ::
        && IsFirst(old(Times(slots)), old(Eligible(balances, caps)), id)
        && slots == if saved.Lost? then old(slots)[id := old(slots)[id].(lastDispatchAt := Some(now))] else old(slots)
      ensures r.NoEligibleSlot? || r.BalanceUnknown? ==> slots == old(slots)
      ensures r.Chosen? ==>
        && r.id < |slots| && UnderBothCaps(old(slots), balances, caps, r.id)
        && forall j: nat :: UnderBothCaps(old(slots), balances, caps, j) && j != r.id ==>
             Before(old(Times(slots)), r.id, j)
      ensures r.NoEligibleSlot? ==> forall i: nat :: i < |slots| && slots[i].active ==>
        balances[i].Some? && (balances[i].value >= caps.balanceCeiling || slots[i].txCount >= caps.txCountCeiling)
      ensures r.Chosen? ==> saved.Ok? && r.id == Choose(old(Times(slots)), old(Eligible(balances, caps)))
      ensures r.Chosen? || r.NotRecorded? ==> old(Eligible(balances, caps)) != {}
      ensures
        if r.Chosen? || (r.NotRecorded? && saved.Lost?) then
          Times(slots) == old(Times(slots))[Choose(old(Times(slots)), old(Eligible(balances, caps))) := Some(now)]
        else slots == old(slots)
      ensures SameButTimes(old(slots), slots)
    {
      var eligible: seq<nat> := [];
      for i := 0 to |slots|
        invariant slots == old(slots)
        invariant forall k: nat :: k < i && slots[k].active ==> balances[k].Some?
        invariant forall k: nat :: k in eligible <==> k < i && k in Eligible(balances, caps)
      {
        if slots[i].active {
          if balances[i].None? {
            assert i in Active();
            return BalanceUnknown;
          }
          if balances[i].value < caps.balanceCeiling && slots[i].txCount < caps.txCountCeiling {
            eligible := eligible + [i];
          }
        }
      }
      if eligible == [] {
        assert forall k :: k in Eligible(balances, caps) ==> k in eligible;
        assert forall k: nat :: k < |slots| && slots[k].active ==> k in Active() && k !in Eligible(balances, caps);
        return NoEligibleSlot;
      }
      var id := First(eligible);
      assert forall k :: k in Eligible(balances, caps) ==> k in eligible;
      assert IsFirst(Times(slots), Eligible(balances, caps), id);
      FirstIsUnique(Times(slots), Eligible(balances, caps), id, Choose(Times(slots), Eligible(balances, caps)));
      if !saved.Failed? {
        slots := slots[id := slots[id].(lastDispatchAt := Some(now))];
      }
      r := if saved.Ok? then Chosen(id) else NotRecorded;
    }

    /** The head of the sorted list. */
    method First(eligible: seq<nat>) returns (id: nat)
      requires eligible != [] && forall k :: k in eligible ==> k < |slots|
      ensures id in eligible && forall j :: j in eligible && j != id ==> Before(Times(slots), id, j)
    {
      assert eligible[0] in eligible;
      id := eligible[0];
      for k := 1 to |eligible|
        invariant id in eligible
        invariant forall j :: 0 <= j < k && eligible[j] != id ==>
          eligible[j] in eligible && Before(Times(slots), id, eligible[j])
      {
        assert eligible[k] in eligible;
        if Before(Times(slots), eligible[k], id) {
          id := eligible[k];
        }
      }
    }
  }

  // ---------------------------------------------------------------- fairness

  /** One selection among others: who may be chosen, and at what time. */
  datatype Round = Round(eligible: set<nat>, now: nat)

  /** A later clock than any recorded. */
  ghost predicate Fresh(last: seq<Option<nat>>, now: nat) {
    forall i :: 0 <= i < |last| && last[i].Some? ==> last[i].value < now
  }

  /** A stretch of selections among a fixed set of ACTIVE slots, by a strictly increasing clock;
      who is eligible may change from one to the next. */
  ghost predicate Rounds(last: seq<Option<nat>>, active: set<nat>, rounds: seq<Round>)
    decreases |rounds|
  {
    rounds == [] ||
    (var r := rounds[0];
     && r.eligible != {} && r.eligible <= active && (forall j :: j in r.eligible ==> j < |last|) && Fresh(last, r.now)
     && Rounds(last[Choose(last, r.eligible) := Some(r.now)], active, rounds[1..]))
  }

  /** Which slots are chosen. */
  ghost function Choices(last: seq<Option<nat>>, active: set<nat>, rounds: seq<Round>): (c: seq<nat>)
    requires Rounds(last, active, rounds)
    ensures |c| == |rounds| && forall i :: 0 <= i < |c| ==> c[i] in active
    decreases |rounds|
  {
    if rounds == [] then []
    else
      var i := Choose(last, rounds[0].eligible);
      [i] + Choices(last[i := Some(rounds[0].now)], active, rounds[1..])
  }

  /** The ACTIVE slots that come before this one. */
  ghost function Ahead(last: seq<Option<nat>>, active: set<nat>, s: nat): set<nat>
    requires s < |last|
  {
    set j | j in active && j < |last| && Before(last, j, s)
  }

  /** A slot that stays eligible is chosen as soon as those ahead of it are used up, at the latest:
      every choice that is not this slot takes one of them, and puts it behind. */
  lemma {:induction false} ChosenInTurn(last: seq<Option<nat>>, active: set<nat>, rounds: seq<Round>, s: nat)
    requires Rounds(last, active, rounds) && s < |last|
    requires forall i :: 0 <= i < |rounds| ==> s in rounds[i].eligible
    requires |rounds| > |Ahead(last, active, s)|
    ensures s in Choices(last, active, rounds)
    decreases |rounds|
  {
    var i := Choose(last, rounds[0].eligible);
    if i != s {
      var last' := last[i := Some(rounds[0].now)];
      assert i in Ahead(last, active, s);
      assert Ahead(last', active, s) == Ahead(last, active, s) - {i};
      ChosenInTurn(last', active, rounds[1..], s);
      assert Choices(last, active, rounds)[1..] == Choices(last', active, rounds[1..]);
    }
  }

  /** So with n ACTIVE slots it is chosen within n consecutive selections, whatever happens to the
      others' eligibility. */
  lemma ChosenWithinN(last: seq<Option<nat>>, active: set<nat>, rounds: seq<Round>, s: nat)
    requires Rounds(last, active, rounds) && s < |last| && s in active
    requires forall i :: 0 <= i < |rounds| ==> s in rounds[i].eligible
    requires |rounds| >= |active|
    ensures s in Choices(last, active, rounds)
  {
    assert Ahead(last, active, s) <= active - {s};
    SubsetCard(Ahead(last, active, s), active - {s});
    ChosenInTurn(last, active, rounds, s);
  }

  /** If every ACTIVE slot stays eligible, any n consecutive selections choose each exactly once. */
  lemma EveryoneOnce(last: seq<Option<nat>>, active: set<nat>, rounds: seq<Round>)
    requires Rounds(last, active, rounds) && |rounds| == |active| && forall s :: s in active ==> s < |last|
    requires forall i :: 0 <= i < |rounds| ==> rounds[i].eligible == active
    ensures
      var c := Choices(last, active, rounds);
      && (forall s :: s in active <==> s in c)
      && (forall i, j :: 0 <= i < j < |c| ==> c[i] != c[j])
  {
    var c := Choices(last, active, rounds);
    forall s | s in active ensures s in c { ChosenWithinN(last, active, rounds, s); }
    Distinct(c, active);
  }

  /** As many entries as values: none twice. */
  lemma {:induction false} Distinct(c: seq<nat>, values: set<nat>)
    requires |c| == |values| && forall s :: s in values ==> s in c
    ensures forall i, j :: 0 <= i < j < |c| ==> c[i] != c[j]
    decreases |c|
  {
    if c != [] {
      var n := |c| - 1;
      assert c == c[..n] + [c[n]];
      if c[n] in c[..n] {
        assert forall s :: s in values ==> s in c[..n];
        Covered(c[..n], values);
        assert false;
      } else {
        if c[n] !in values {
          Covered(c[..n], values);
          assert false;
        }
        Distinct(c[..n], values - {c[n]});
        forall i, j | 0 <= i < j < |c| ensures c[i] != c[j] {
          if j < n { assert c[..n][i] != c[..n][j]; } else { assert c[i] == c[..n][i]; }
        }
      }
    }
  }

  lemma {:induction false} Covered(c: seq<nat>, values: set<nat>)
    requires forall s :: s in values ==> s in c
    ensures |values| <= |c|
    decreases |c|
  {
    if c == [] {
      assert values == {};
    } else {
      var n := |c| - 1;
      assert c == c[..n] + [c[n]];
      Covered(c[..n], values - {c[n]});
    }
  }

  // ---------------------------------------------------------------- the same of the method

  /** What one call of SelectForDispatch finds: the balances read, its clock, the end of its UPDATE. */
  datatype Request = Request(balances: seq<Option<int>>, caps: Caps, now: nat, saved: Reply)

  /** Every balance list is complete, and the clock is later than any recorded time and increases. */
  ghost predicate Requests(last: seq<Option<nat>>, requests: seq<Request>) {
    && (forall i :: 0 <= i < |requests| ==> |requests[i].balances| == |last| && Fresh(last, requests[i].now))
    && forall i, j :: 0 <= i < j < |requests| ==> requests[i].now < requests[j].now
  }

  /** The slot may be chosen in every one of them. */
  ghost predicate AlwaysEligible(slots: seq<Slot>, requests: seq<Request>, s: nat) {
    forall i :: 0 <= i < |requests| ==>
      |requests[i].balances| == |slots| && s in EligibleOf(slots, requests[i].balances, requests[i].caps)
  }

  lemma SameEligible(slots: seq<Slot>, slots': seq<Slot>)
    requires SameButTimes(slots, slots')
    ensures ActiveOf(slots') == ActiveOf(slots)
    ensures forall balances, caps | |balances| == |slots| ::
      EligibleOf(slots', balances, caps) == EligibleOf(slots, balances, caps)
  {}

  lemma LaterEligible(slots: seq<Slot>, slots': seq<Slot>, requests: seq<Request>, s: nat)
    requires SameButTimes(slots, slots') && requests != [] && AlwaysEligible(slots, requests, s)
    ensures s in EligibleOf(slots, requests[0].balances, requests[0].caps)
    ensures AlwaysEligible(slots', requests[1..], s)
  {
    SameEligible(slots, slots');
    forall i | 0 <= i < |requests| - 1
      ensures s in EligibleOf(slots', requests[1..][i].balances, requests[1..][i].caps)
    {
      assert requests[1..][i] == requests[i + 1];
    }
  }

  /** Any number of selections one after another, some of which fail. Those whose time is recorded,
      acknowledged or not, are a stretch of Rounds and take the slots Choices names; so a slot that stays
      eligible is taken once those ahead of it are used up, whatever happens to the others. */
  method SelectRepeatedly(store: Store, requests: seq<Request>)
    returns (chosen: seq<nat>, ghost rounds: seq<Round>, ghost taken: seq<nat>)
    requires Requests(Times(store.slots), requests)
    modifies store
    ensures SameButTimes(old(store.slots), store.slots)
    ensures Rounds(old(Times(store.slots)), old(store.Active()), rounds)
    ensures taken == Choices(old(Times(store.slots)), old(store.Active()), rounds)
    ensures |chosen| <= |taken| <= |requests| && forall s :: s in chosen ==> s in taken
    ensures (forall i :: 0 <= i < |requests| ==> requests[i].saved.Ok?) ==> chosen == taken
    ensures forall s: nat :: AlwaysEligible(old(store.slots), requests, s) && s < |old(store.slots)| ==>
      Standing(rounds, s) && (|taken| > |Ahead(old(Times(store.slots)), old(store.Active()), s)| ==> s in taken)
    decreases |requests|
  {
    chosen, rounds, taken := [], [], [];
    if requests == [] { return; }
    var q := requests[0];
    ghost var slots0, last0, active := store.slots, Times(store.slots), store.Active();
    ghost var eligible := store.Eligible(q.balances, q.caps);
    var r := store.SelectForDispatch(q.balances, q.caps, q.now, q.saved);
    SameEligible(slots0, store.slots);
    ghost var slots1 := store.slots;
    chosen, rounds, taken := SelectRepeatedly(store, requests[1..]);
    ghost var later := rounds;
    if r.Chosen? || (r.NotRecorded? && q.saved.Lost?) {
      ghost var i := Choose(last0, eligible);
      rounds := [Round(eligible, q.now)] + rounds;
      taken := [i] + taken;
    }
    if r.Chosen? { chosen := [r.id] + chosen; }
    forall s: nat | AlwaysEligible(slots0, requests, s) && s < |slots0| ensures Standing(rounds, s) {
      LaterEligible(slots0, slots1, requests, s);
      assert Standing(later, s);
    }
    AllInTurn(last0, active, rounds);
  }

  ghost predicate Standing(rounds: seq<Round>, s: nat) {
    forall i :: 0 <= i < |rounds| ==> s in rounds[i].eligible
  }

  lemma AllInTurn(last: seq<Option<nat>>, active: set<nat>, rounds: seq<Round>)
    requires Rounds(last, active, rounds)
    ensures forall s: nat :: s < |last| && Standing(rounds, s) && |rounds| > |Ahead(last, active, s)| ==>
      s in Choices(last, active, rounds)
  {
    forall s: nat | s < |last| && Standing(rounds, s) && |rounds| > |Ahead(last, active, s)|
      ensures s in Choices(last, active, rounds)
    {
      ChosenInTurn(last, active, rounds, s);
    }
  }
}
