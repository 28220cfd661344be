/** The watcher's agreement on the latest finalized block among providers that may lag, fail or lie
    (depositwatcher/internal/chain/finality.go), with the health record each round leaves
    (health.go). A provider is its position in the configuration. */
module FinalizedQuorum {
  import opened Common

  type Height = h: int | 0 <= h < 0x1_0000_0000_0000_0000
  type Hash = nat

  /** A provider's answer to eth_getBlockByNumber("finalized"). */
  datatype Report = Down | Finalized(height: Height, hash: Hash)

  /** uint64 addition wraps. */
  function Plus(h: Height, tolerance: Height): Height { (h + tolerance) % 0x1_0000_0000_0000_0000 }

  // ---------------------------------------------------------------- what a round means

  ghost predicate IsMax(reports: seq<Report>, max: Height) {
    && (forall i :: 0 <= i < |reports| && reports[i].Finalized? ==> reports[i].height <= max)
    && (exists i :: 0 <= i < |reports| && reports[i].Finalized? && reports[i].height == max)
  }

  /** Answered, and not excluded as too far behind the highest report. */
  ghost predicate Near(reports: seq<Report>, tolerance: Height, i: nat) {
    && i < |reports| && reports[i].Finalized?
    && exists max :: IsMax(reports, max) && Plus(reports[i].height, tolerance) >= max
  }

  /** The reference height: the lowest that is not excluded. */
  ghost predicate IsReference(reports: seq<Report>, tolerance: Height, ref: Height) {
    && (forall i: nat :: Near(reports, tolerance, i) ==> ref <= reports[i].height)
    && (exists i: nat :: Near(reports, tolerance, i) && reports[i].height == ref)
  }

  /** What each provider says of the reference height: the hash it reported, or the one it answers
      when asked for that very block; nothing if it is down, too far behind, or does not answer. */
  ghost predicate IsBallot(reports: seq<Report>, lookup: seq<Option<Hash>>, tolerance: Height, ref: Height,
                           ballot: seq<Option<Hash>>)
  {
    && |lookup| == |reports| == |ballot|
    && forall i: nat :: i < |reports| ==>
         ballot[i] == if !Near(reports, tolerance, i) then None
                      else if reports[i].height == ref then Some(reports[i].hash)
                      else lookup[i]
  }

  ghost function Voters(ballot: seq<Option<Hash>>, h: Hash): set<nat> {
    set i: nat | i < |ballot| && ballot[i] == Some(h)
  }

  datatype Outcome = Agreed(height: Height, hash: Hash) | Ambiguous | NoAgreement

  /** One hash has at least minAgreement votes and strictly more than any other. */
  ghost predicate Wins(ballot: seq<Option<Hash>>, minAgreement: nat, h: Hash) {
    |Voters(ballot, h)| >= minAgreement && forall g: Hash :: g != h ==> |Voters(ballot, g)| < |Voters(ballot, h)|
  }

  /** Two hashes share the highest number of votes, and it reaches minAgreement. */
  ghost predicate Ties(ballot: seq<Option<Hash>>, minAgreement: nat, g: Hash, h: Hash) {
    && g != h && |Voters(ballot, g)| == |Voters(ballot, h)| >= minAgreement
    && forall k: Hash :: |Voters(ballot, k)| <= |Voters(ballot, h)|
  }

  /** The outcome is determined by the ballot: a strict winner, a tie at the top, or nobody enough. */
  ghost predicate Decides(ballot: seq<Option<Hash>>, minAgreement: nat, r: Outcome) {
    match r
    case Agreed(_, hash) => Wins(ballot, minAgreement, hash)
    case Ambiguous => exists g: Hash, h: Hash :: Ties(ballot, minAgreement, g, h)
    case NoAgreement => forall h: Hash :: |Voters(ballot, h)| < minAgreement
  }

  // ---------------------------------------------------------------- health

  datatype Health = Health(consecutive: nat, rounds: nat, failures: nat) {
    function Succeeded(): Health { Health(0, rounds + 1, failures) }
    function Failed(): Health { Health(consecutive + 1, rounds + 1, failures + 1) }
    predicate Valid() { consecutive <= failures <= rounds }
  }

  datatype Mark = Success | Failure | Unmarked

  function Marked(h: Health, m: Mark): Health {
    match m
    case Success => h.Succeeded()
    case Failure => h.Failed()
    case Unmarked => h
  }

  ghost predicate Split(ballot: seq<Option<Hash>>) {
    exists i, j ::
      0 <= i < |ballot| && 0 <= j < |ballot| && ballot[i].Some? && ballot[j].Some? && ballot[i] != ballot[j]
  }

  /** No answer is a failure; among answers, only a genuine disagreement is held against anyone, and
      then against everyone who is not on the winning side. */
  ghost function Verdict(ballot: seq<Option<Hash>>, r: Outcome, i: nat): Mark
    requires i < |ballot|
  {
    if ballot[i].None? then Failure
    else if Split(ballot) then (if r.Agreed? && ballot[i] == Some(r.hash) then Success else Failure)
    else if r.Agreed? then Success
    else Unmarked
  }

  /** The streak of failures is over; none was added. */
  predicate Credited(before: Health, after: Health) {
    after.consecutive == 0 && after.failures == before.failures && after.rounds == before.rounds + 1
  }

  /** One more failure, in a row and in all. */
  predicate Charged(before: Health, after: Health) {
    && after.consecutive == before.consecutive + 1 && after.failures == before.failures + 1
    && after.rounds == before.rounds + 1
  }

  /** Two providers answered differently. */
  ghost predicate Disagree(ballot: seq<Option<Hash>>) {
    exists g: Hash, h: Hash :: g != h && Voters(ballot, g) != {} && Voters(ballot, h) != {}
  }

  /** What a round does to the record of a provider that answered: it is credited if it is behind the
      agreed hash, and otherwise charged if there is one, or if answers differ. */
  ghost predicate JudgedVoter(before: Health, after: Health, ballot: seq<Option<Hash>>, r: Outcome, i: nat)
    requires i < |ballot|
  {
    if r.Agreed? && ballot[i] == Some(r.hash) then Credited(before, after)
    else if r.Agreed? || Disagree(ballot) then Charged(before, after)
    else after == before
  }

  /** And to everybody's: who did not answer is charged in any case. */
  ghost predicate Judged(before: seq<Health>, after: seq<Health>, ballot: seq<Option<Hash>>, r: Outcome) {
    && |before| == |after| == |ballot|
    && forall i: nat :: i < |ballot| ==>
         if ballot[i].None? then Charged(before[i], after[i])
         else JudgedVoter(before[i], after[i], ballot, r, i)
  }

  lemma VerdictJudges(before: Health, ballot: seq<Option<Hash>>, r: Outcome, i: nat)
    requires i < |ballot| && (r.Agreed? ==> Voters(ballot, r.hash) != {})
    ensures
      var after := Marked(before, Verdict(ballot, r, i));
      if ballot[i].None? then Charged(before, after) else JudgedVoter(before, after, ballot, r, i)
  {
    SplitIsDisagreement(ballot);
    if r.Agreed? && ballot[i].Some? && ballot[i] != Some(r.hash) {
      var j :| j in Voters(ballot, r.hash);
      assert ballot[i] != ballot[j];
    }
  }

  lemma SplitIsDisagreement(ballot: seq<Option<Hash>>)
    ensures Split(ballot) <==> Disagree(ballot)
  {
    if Split(ballot) {
      var i, j :| 0 <= i < |ballot| && 0 <= j < |ballot| && ballot[i].Some?
        && ballot[j].Some? && ballot[i] != ballot[j];
      assert i in Voters(ballot, ballot[i].value) && j in Voters(ballot, ballot[j].value);
    }
    if Disagree(ballot) {
      var g: Hash, h: Hash :| g != h && Voters(ballot, g) != {} && Voters(ballot, h) != {};
      var i :| i in Voters(ballot, g);
      var j :| j in Voters(ballot, h);
      assert ballot[i] != ballot[j];
    }
  }

  // ---------------------------------------------------------------- the pool

  ghost predicate NoDup(s: seq<nat>) { forall i, j :: 0 <= i < j < |s| ==> s[i] != s[j] }

  /** The hashes seen and who reported each, as the map groups holds them. */
  ghost predicate GroupsOf(groups: map<Hash, seq<nat>>, ballot: seq<Option<Hash>>) {
    && (forall h: Hash :: h in groups ==> groups[h] != [] && NoDup(groups[h]))
    && (forall h: Hash, i: nat :: h in groups ==> (i in groups[h] <==> i in Voters(ballot, h)))
    && (forall i: nat :: i < |ballot| && ballot[i].Some? ==> ballot[i].value in groups)
  }

  /** The groups once the providers in done have been asked. */
  ghost predicate Grouped(groups: map<Hash, seq<nat>>, ballot: seq<Option<Hash>>, done: set<nat>) {
    && (forall h: Hash :: h in groups ==> groups[h] != [] && NoDup(groups[h]))
    && (forall h: Hash, i: nat :: h in groups && i in groups[h] ==> i in done && InGroup(ballot, i, h))
    && (forall i: nat :: i in done ==>
      i < |ballot| && (ballot[i].Some? ==> ballot[i].value in groups && i in groups[ballot[i].value]))
  }

  ghost predicate InGroup(ballot: seq<Option<Hash>>, i: nat, h: Hash) { i < |ballot| && ballot[i] == Some(h) }

  function Extended(groups: map<Hash, seq<nat>>, h: Hash, i: nat): map<Hash, seq<nat>> {
    groups[h := (if h in groups then groups[h] else []) + [i]]
  }

  lemma GroupedExtended(groups: map<Hash, seq<nat>>, ballot: seq<Option<Hash>>, done: set<nat>, h: Hash, i: nat)
    requires Grouped(groups, ballot, done) && i !in done && InGroup(ballot, i, h)
    ensures Grouped(Extended(groups, h, i), ballot, done + {i})
  {
    var groups' := Extended(groups, h, i);
    assert i in groups'[h];
    if h in groups { assert forall k: nat :: k in groups[h] ==> k in groups'[h] && k in done; }
  }

  lemma GroupedAll(groups: map<Hash, seq<nat>>, ballot: seq<Option<Hash>>, done: set<nat>)
    requires Grouped(groups, ballot, done)
    requires forall i: nat :: i < |ballot| && ballot[i].Some? ==> i in done
    ensures GroupsOf(groups, ballot)
  {
    forall h: Hash, i: nat | h in groups ensures i in groups[h] <==> i in Voters(ballot, h) {
      if i in groups[h] { assert InGroup(ballot, i, h); }
      if i in Voters(ballot, h) { assert i in done; }
    }
  }

  lemma {:induction false} NoDupCard(s: seq<nat>, members: set<nat>)
    requires NoDup(s) && forall i: nat :: i in s <==> i in members
    ensures |s| == |members|
    decreases |s|
  {
    if s == [] {
      assert members == {};
    } else {
      var n := |s| - 1;
      assert s == s[..n] + [s[n]];
      NoDupCard(s[..n], members - {s[n]});
    }
  }

  lemma GroupSizes(groups: map<Hash, seq<nat>>, ballot: seq<Option<Hash>>)
    requires GroupsOf(groups, ballot)
    ensures forall h: Hash :: |Voters(ballot, h)| == if h in groups then |groups[h]| else 0
  {
    forall h: Hash ensures |Voters(ballot, h)| == if h in groups then |groups[h]| else 0 {
      if h in groups {
        NoDupCard(groups[h], Voters(ballot, h));
      } else {
        assert Voters(ballot, h) == {};
      }
    }
  }

  /** The loop over the groups has seen them all. */
  lemma PickDecides(groups: map<Hash, seq<nat>>, ballot: seq<Option<Hash>>, minAgreement: nat, winner: Hash, count: nat,
                    ambiguous: bool)
    requires minAgreement > 0 && GroupsOf(groups, ballot)
    requires forall h: Hash :: h in groups && |groups[h]| >= minAgreement ==> |groups[h]| <= count
    requires count > 0 ==> winner in groups && count == |groups[winner]| >= minAgreement
    requires ambiguous ==> count > 0 && exists g: Hash :: g in groups && g != winner && |groups[g]| == count
    requires !ambiguous && count > 0 ==> forall g: Hash :: g in groups && g != winner ==> |groups[g]| < count
    ensures
      if ambiguous then exists g: Hash, h: Hash :: Ties(ballot, minAgreement, g, h)
      else if count == 0 then forall h: Hash :: |Voters(ballot, h)| < minAgreement
      else Wins(ballot, minAgreement, winner)
  {
    GroupSizes(groups, ballot);
    if ambiguous {
      var g :| g in groups && g != winner && |groups[g]| == count;
      assert Ties(ballot, minAgreement, g, winner);
    }
  }

  ghost predicate CloseTo(reports: seq<Report>, tolerance: Height, max: Height, i: nat) {
    i < |reports| && reports[i].Finalized? && Plus(reports[i].height, tolerance) >= max
  }

  lemma NearIsClose(reports: seq<Report>, tolerance: Height, max: Height, i: nat)
    requires IsMax(reports, max)
    ensures Near(reports, tolerance, i) <==> CloseTo(reports, tolerance, max, i)
  {}

  /** A provider is near exactly if it is at most the tolerance behind the highest report, unless its own
      height and the tolerance no longer fit together in a uint64. */
  lemma NearIff(reports: seq<Report>, tolerance: Height, max: Height, i: nat)
    requires IsMax(reports, max) && i < |reports| && reports[i].Finalized?
    ensures Near(reports, tolerance, i) <==>
      var behind := max - reports[i].height;
      if reports[i].height + tolerance < 0x1_0000_0000_0000_0000 then behind <= tolerance
      else behind + 0x1_0000_0000_0000_0000 <= tolerance
  {
    NearIsClose(reports, tolerance, max, i);
  }

  /** So the highest report itself is kept if and only if that does not happen to it. */
  lemma HighestIsNearIff(reports: seq<Report>, tolerance: Height, max: Height, i: nat)
    requires IsMax(reports, max) && i < |reports| && reports[i].Finalized? && reports[i].height == max
    ensures Near(reports, tolerance, i) <==> max + tolerance < 0x1_0000_0000_0000_0000
  {
    NearIff(reports, tolerance, max, i);
  }

  class Pool {
    const minAgreement: nat
    const tolerance: Height
    var health: seq<Health>

    ghost predicate Valid() reads this {
      1 <= minAgreement <= |health| && 2 <= |health| && forall i :: 0 <= i < |health| ==> health[i].Valid()
    }

    /** NewPool refuses fewer than two providers and an agreement they cannot reach. */
    constructor (providers: nat, minAgreement: nat, tolerance: Height)
      requires 2 <= providers && 1 <= minAgreement <= providers
      ensures Valid() && this.minAgreement == minAgreement && this.tolerance == tolerance
      ensures health == seq(providers, _ => Health(0, 0, 0))
    {
      this.minAgreement := minAgreement;
      this.tolerance := tolerance;
      health := seq(providers, _ => Health(0, 0, 0));
    }

    method RecordFailure(i: nat)
      requires i < |health|
      modifies this
      ensures health == old(health)[i := old(health)[i].Failed()]
    {
      health := health[i := health[i].Failed()];
    }

    method RecordSuccess(i: nat)
      requires i < |health|
      modifies this
      ensures health == old(health)[i := old(health)[i].Succeeded()]
    {
      health := health[i := health[i].Succeeded()];
    }

    /** Providers that did not answer fail the round. */
    method Successes(reports: seq<Report>) returns (successes: seq<nat>)
      requires |reports| == |health|
      modifies this
      ensures |health| == |reports| && NoDup(successes)
      ensures forall i: nat :: i in successes <==> i < |reports| && reports[i].Finalized?
      ensures forall i: nat :: i < |health| ==>
        health[i] == Marked(old(health)[i], if reports[i].Down? then Failure else Unmarked)
    {
      successes := [];
      for k := 0 to |reports|
        invariant |health| == |reports| && NoDup(successes)
        invariant forall i: nat :: i in successes <==> i < k && reports[i].Finalized?
        invariant forall i: nat :: i < |health| ==>
          health[i] == Marked(old(health)[i], if i < k && reports[i].Down? then Failure else Unmarked)
      {
        if reports[k].Down? {
          RecordFailure(k);
        } else {
          successes := successes + [k];
        }
      }
    }

    method HighestReport(reports: seq<Report>, successes: seq<nat>) returns (max: Height)
      requires successes != [] && forall i: nat :: i in successes <==> i < |reports| && reports[i].Finalized?
      ensures IsMax(reports, max)
    {
      assert forall j :: 0 <= j < |successes| ==> successes[j] in successes;
      max := reports[successes[0]].height;
      for k := 1 to |successes|
        invariant forall j :: 0 <= j < k ==> reports[successes[j]].height <= max
        invariant exists j :: 0 <= j < k && reports[successes[j]].height == max
      {
        if reports[successes[k]].height > max {
          max := reports[successes[k]].height;
        }
      }
      forall i | 0 <= i < |reports| && reports[i].Finalized? ensures reports[i].height <= max {
        assert i in successes;
      }
    }

    /** Providers too far behind fail the round and do not lower the reference height. */
    method InTolerance(reports: seq<Report>, successes: seq<nat>) returns (near: seq<nat>, ref: Height)
      requires |reports| == |health| && NoDup(successes) && successes != []
      requires forall i: nat :: i in successes <==> i < |reports| && reports[i].Finalized?
      modifies this
      ensures |health| == |reports| && NoDup(near)
      ensures forall i: nat :: i in near <==> Near(reports, tolerance, i)
      ensures near != [] ==> IsReference(reports, tolerance, ref)
      ensures forall i: nat :: i < |health| ==>
        health[i] == Marked(old(health)[i],
          if reports[i].Finalized? && !Near(reports, tolerance, i) then Failure else Unmarked)
    {
      var max := HighestReport(reports, successes);
      near, ref := [], max;
      ghost var done: set<nat> := {};
      for k := 0 to |successes|
        invariant |health| == |reports| && NoDup(near)
        invariant forall i: nat :: i in done <==> i in successes[..k]
        invariant forall i: nat :: i in near <==> i in done && CloseTo(reports, tolerance, max, i)
        invariant forall i: nat :: i in near ==> ref <= reports[i].height
        invariant near == [] ==> ref == max
        invariant near != [] ==> exists i: nat :: i in near && reports[i].height == ref
        invariant forall i: nat :: i < |health| ==>
          health[i] == Marked(old(health)[i],
            if i in done && !CloseTo(reports, tolerance, max, i) then Failure else Unmarked)
      {
        var i := successes[k];
        assert i in successes && i !in successes[..k];
        assert successes[..k + 1] == successes[..k] + [i];
        if Plus(reports[i].height, tolerance) < max {
          RecordFailure(i);
        } else {
          if reports[i].height < ref {
            ref := reports[i].height;
          }
          near := near + [i];
          assert near[|near| - 1] == i;
        }
        done := done + {i};
      }
      assert successes[..|successes|] == successes;
      forall i: nat ensures Near(reports, tolerance, i) <==> CloseTo(reports, tolerance, max, i) {
        NearIsClose(reports, tolerance, max, i);
      }
    }

    /** One more question to each provider above the reference height; no answer fails the round. */
    method Group(reports: seq<Report>, lookup: seq<Option<Hash>>, near: seq<nat>, ref: Height,
                 ghost ballot: seq<Option<Hash>>)
      returns (groups: map<Hash, seq<nat>>)
      requires |reports| == |health| && NoDup(near) && IsBallot(reports, lookup, tolerance, ref, ballot)
      requires forall i: nat :: i in near <==> Near(reports, tolerance, i)
      modifies this
      ensures |health| == |reports| && GroupsOf(groups, ballot)
      ensures forall i: nat :: i < |ballot| && ballot[i].Some? ==> i in near
      ensures forall i: nat :: i < |health| ==>
        health[i] == Marked(old(health)[i], if i in near && ballot[i].None? then Failure else Unmarked)
    {
      groups := map[];
      ghost var done: set<nat> := {};
      for k := 0 to |near|
        invariant |health| == |reports| && Grouped(groups, ballot, done)
        invariant forall i: nat :: i in done <==> i in near[..k]
        invariant forall i: nat :: i < |health| ==>
          health[i] == Marked(old(health)[i], if i in done && ballot[i].None? then Failure else Unmarked)
      {
        var i := near[k];
        assert i in near && i !in near[..k];
        assert near[..k + 1] == near[..k] + [i];
        assert Near(reports, tolerance, i);
        var answer := if reports[i].height == ref then Some(reports[i].hash) else lookup[i];
        match answer {
          case None =>
            RecordFailure(i);
          case Some(h) =>
            GroupedExtended(groups, ballot, done, h, i);
            groups := Extended(groups, h, i);
        }
        done := done + {i};
      }
      assert near[..|near|] == near;
      forall i: nat | i < |ballot| && ballot[i].Some? ensures i in done { assert Near(reports, tolerance, i); }
      GroupedAll(groups, ballot, done);
    }

    /** The largest group that reaches the threshold, and whether another one is as large, whatever
        order the map is walked in. */
    method PickWinner(groups: map<Hash, seq<nat>>, ref: Height, ghost ballot: seq<Option<Hash>>) returns (r: Outcome)
      requires minAgreement > 0 && GroupsOf(groups, ballot)
      ensures Decides(ballot, minAgreement, r) && (r.Agreed? ==> r.height == ref && r.hash in groups)
    {
      var winner: Hash, count: nat, ambiguous := 0, 0, false;
      var rest := groups.Keys;
      while rest != {}
        invariant rest <= groups.Keys
        invariant forall h: Hash :: h in groups.Keys - rest && |groups[h]| >= minAgreement ==> |groups[h]| <= count
        invariant count > 0 ==> winner in groups.Keys - rest && count == |groups[winner]| >= minAgreement
        invariant ambiguous ==>
          count > 0 && exists g: Hash :: g in groups.Keys - rest && g != winner && |groups[g]| == count
        invariant !ambiguous && count > 0 ==>
          forall g: Hash :: g in groups.Keys - rest && g != winner ==> |groups[g]| < count
        decreases |rest|
      {
        var h :| h in rest;
        rest := rest - {h};
        var size := |groups[h]|;
        if size >= minAgreement {
          if count == 0 {
            winner, count := h, size;
          } else if size == count {
            ambiguous := true;
          } else if size > count {
            winner, count, ambiguous := h, size, false;
          }
        }
      }
      r := if ambiguous then Ambiguous else if count == 0 then NoAgreement else Agreed(ref, winner);
      PickDecides(groups, ballot, minAgreement, winner, count, ambiguous);
    }

    /** Success or failure for every provider that voted, if there is anything to hold against or
        credit to it. */
    method MarkVoters(groups: map<Hash, seq<nat>>, r: Outcome, ghost ballot: seq<Option<Hash>>)
      requires |health| == |ballot| && GroupsOf(groups, ballot)
      requires r.Agreed? ==> r.hash in groups
      modifies this
      ensures |health| == |ballot|
      ensures forall i: nat :: i < |health| ==>
        health[i] == Marked(old(health)[i], if ballot[i].None? then Unmarked else Verdict(ballot, r, i))
      ensures forall i: nat :: i < |health| ==>
        if ballot[i].None? then health[i] == old(health)[i]
        else JudgedVoter(old(health)[i], health[i], ballot, r, i)
    {
      SplitIffTwoGroups(groups, ballot);
      forall i: nat | i < |health| && ballot[i].Some?
        ensures JudgedVoter(health[i], Marked(health[i], Verdict(ballot, r, i)), ballot, r, i)
      {
        if r.Agreed? { assert groups[r.hash][0] in Voters(ballot, r.hash); }
        VerdictJudges(health[i], ballot, r, i);
      }
      if |groups.Keys| > 1 || r.Agreed? {
        var rest := groups.Keys;
        while rest != {}
          invariant rest <= groups.Keys && |health| == |ballot|
          invariant forall i: nat :: i < |health| ==>
            health[i] == Marked(old(health)[i],
              if ballot[i].None? || ballot[i].value in rest then Unmarked else Verdict(ballot, r, i))
          decreases |rest|
        {
          var h :| h in rest;
          MarkGroup(h, groups[h], r, ballot);
          rest := rest - {h};
        }
      }
    }

    method MarkGroup(h: Hash, names: seq<nat>, r: Outcome, ghost ballot: seq<Option<Hash>>)
      requires |health| == |ballot| && NoDup(names)
      requires forall i: nat :: i in names <==> i in Voters(ballot, h)
      requires Split(ballot) || (r.Agreed? && r.hash == h)
      modifies this
      ensures |health| == |ballot|
      ensures forall i: nat :: i < |health| ==>
        health[i] == if i in names then Marked(old(health)[i], Verdict(ballot, r, i)) else old(health)[i]
    {
      for k := 0 to |names|
        invariant |health| == |ballot|
        invariant forall i: nat :: i in names[..k] ==> i in names
        invariant forall i: nat :: i < |health| ==>
          health[i] == if i in names[..k] then Marked(old(health)[i], Verdict(ballot, r, i)) else old(health)[i]
      {
        var i := names[k];
        assert i in names && i !in names[..k];
        assert names[..k + 1] == names[..k] + [i];
        if r.Agreed? && r.hash == h {
          RecordSuccess(i);
        } else {
          RecordFailure(i);
        }
      }
      assert names[..|names|] == names;
    }

    /** Who is talked to any further, and the height they are talked to about. */
    method Respondents(reports: seq<Report>) returns (near: seq<nat>, ref: Height)
      requires |reports| == |health|
      modifies this
      ensures |health| == |reports| && NoDup(near)
      ensures forall i: nat :: i in near <==> Near(reports, tolerance, i)
      ensures near != [] ==> IsReference(reports, tolerance, ref)
      ensures forall i: nat :: i < |health| ==>
        health[i] == Marked(old(health)[i], if i in near then Unmarked else Failure)
    {
      near, ref := [], 0;
      var successes := Successes(reports);
      if successes != [] {
        near, ref := InTolerance(reports, successes);
      } else {
        forall i: nat ensures !Near(reports, tolerance, i) {
          assert i in successes <==> i < |reports| && reports[i].Finalized?;
        }
      }
    }

    /** One round: agreement holds exactly when one hash at the reference height is backed by at
        least minAgreement providers and by strictly more than any other, whatever order maps are
        walked in. Every provider's record is marked at most once: credited behind the agreed hash, charged
        if it is silent or out of tolerance, or on the wrong side of a disagreement. */
    method LatestFinalized(reports: seq<Report>, lookup: seq<Option<Hash>>)
      returns (r: Outcome, ghost ref: Height, ghost ballot: seq<Option<Hash>>)
      requires Valid() && |reports| == |lookup| == |health|
      modifies this
      ensures Valid() && |health| == |reports|
      ensures IsBallot(reports, lookup, tolerance, ref, ballot)
      ensures (exists i: nat :: Near(reports, tolerance, i)) ==> IsReference(reports, tolerance, ref)
      ensures Decides(ballot, minAgreement, r) && (r.Agreed? ==> r.height == ref)
      ensures Judged(old(health), health, ballot, r)
      ensures forall i: nat :: i < |health| && (reports[i].Down? || !Near(reports, tolerance, i)) ==>
        Charged(old(health)[i], health[i])
    {
      ghost var h0 := health;
      var near, height := Respondents(reports);
      ref := height;
      ballot := BallotOf(reports, lookup, tolerance, height);
      ghost var h1 := health;
      var groups := Group(reports, lookup, near, height, ballot);
      ghost var h2 := health;
      r := PickWinner(groups, height, ballot);
      MarkVoters(groups, r, ballot);
      MarkedOnce(h0, h1, h2, health, near, ballot, r);
      if r.Agreed? { assert |Voters(ballot, r.hash)| >= minAgreement; }
      forall i: nat | i < |ballot|
        ensures
          if ballot[i].None? then Charged(h0[i], health[i])
          else JudgedVoter(h0[i], health[i], ballot, r, i)
      {
        VerdictJudges(h0[i], ballot, r, i);
      }
    }
  }

  ghost function BallotOf(reports: seq<Report>, lookup: seq<Option<Hash>>, tolerance: Height,
                          ref: Height): (ballot: seq<Option<Hash>>)
    requires |lookup| == |reports|
    ensures IsBallot(reports, lookup, tolerance, ref, ballot)
  {
    seq(|reports|, i requires 0 <= i < |reports| =>
      if !Near(reports, tolerance, i) then None
      else if reports[i].height == ref then Some(reports[i].hash)
      else lookup[i])
  }

  /** The three places that mark a provider never meet at the same one. */
  lemma MarkedOnce(h0: seq<Health>, h1: seq<Health>, h2: seq<Health>, h3: seq<Health>, near: seq<nat>,
                   ballot: seq<Option<Hash>>, r: Outcome)
    requires |h0| == |h1| == |h2| == |h3| == |ballot|
    requires forall i: nat :: i < |ballot| && ballot[i].Some? ==> i in near
    requires forall i: nat :: i < |h1| ==> h1[i] == Marked(h0[i], if i in near then Unmarked else Failure)
    requires forall i: nat :: i < |h2| ==>
      h2[i] == Marked(h1[i], if i in near && ballot[i].None? then Failure else Unmarked)
    requires forall i: nat :: i < |h3| ==>
      h3[i] == Marked(h2[i], if ballot[i].None? then Unmarked else Verdict(ballot, r, i))
    ensures forall i: nat :: i < |h3| ==> h3[i] == Marked(h0[i], Verdict(ballot, r, i))
    ensures forall i: nat :: i < |h3| && h0[i].Valid() ==> h3[i].Valid()
  {}

  lemma SplitIffTwoGroups(groups: map<Hash, seq<nat>>, ballot: seq<Option<Hash>>)
    requires GroupsOf(groups, ballot)
    ensures Split(ballot) <==> |groups.Keys| > 1
    ensures !Split(ballot) ==> forall g: Hash, h: Hash :: g in groups && h in groups ==> g == h
  {
    forall g: Hash, h: Hash | !Split(ballot) && g in groups && h in groups ensures g == h {
      assert groups[g][0] in Voters(ballot, g) && groups[h][0] in Voters(ballot, h);
    }
    if Split(ballot) {
      var i, j :| 0 <= i < |ballot| && 0 <= j < |ballot| && ballot[i].Some?
        && ballot[j].Some? && ballot[i] != ballot[j];
      assert {ballot[i].value, ballot[j].value} <= groups.Keys;
      SubsetCard({ballot[i].value, ballot[j].value}, groups.Keys);
    }
    if |groups.Keys| > 1 {
      var g :| g in groups.Keys;
      assert |groups.Keys - {g}| > 0;
      var h :| h in groups.Keys - {g};
      assert groups[g][0] in groups[g] && groups[h][0] in groups[h];
      assert groups[g][0] in Voters(ballot, g) && groups[h][0] in Voters(ballot, h);
    }
  }

  // ---------------------------------------------------------------- what agreement is worth

  /** An honest provider reports blocks of the one chain, and answers for them from it. */
  ghost predicate Honest(chain: nat -> Hash, reports: seq<Report>, lookup: seq<Option<Hash>>, ref: Height, i: nat)
    requires i < |reports| == |lookup|
  {
    && (reports[i].Finalized? ==> reports[i].hash == chain(reports[i].height))
    && (reports[i].Finalized? && ref < reports[i].height && lookup[i].Some? ==> lookup[i].value == chain(ref))
  }

  /** With fewer than minAgreement liars, an agreed block is on the honest providers' chain, and one
      of them has already finalized it. */
  lemma AgreedIsHonest(chain: nat -> Hash, reports: seq<Report>, lookup: seq<Option<Hash>>, tolerance: Height,
                       ref: Height, ballot: seq<Option<Hash>>, minAgreement: nat, liars: set<nat>, hash: Hash)
    returns (i: nat)
    requires IsBallot(reports, lookup, tolerance, ref, ballot) && IsReference(reports, tolerance, ref)
    requires Wins(ballot, minAgreement, hash) && |liars| < minAgreement
    requires forall k: nat :: k < |reports| && k !in liars ==> Honest(chain, reports, lookup, ref, k)
    ensures i < |reports| && i !in liars && reports[i].Finalized? && ref <= reports[i].height && hash == chain(ref)
  {
    if Voters(ballot, hash) <= liars {
      SubsetCard(Voters(ballot, hash), liars);
      assert false;
    }
    i :| i in Voters(ballot, hash) && i !in liars;
    assert Near(reports, tolerance, i);
  }

  /** So any two successes, of whatever rounds, name blocks of one chain. */
  lemma SuccessesLieOnOneChain(chain: nat -> Hash, tolerance: Height, minAgreement: nat,
                               reports1: seq<Report>, lookup1: seq<Option<Hash>>, ref1: Height,
                               ballot1: seq<Option<Hash>>, liars1: set<nat>, hash1: Hash,
                               reports2: seq<Report>, lookup2: seq<Option<Hash>>, ref2: Height,
                               ballot2: seq<Option<Hash>>, liars2: set<nat>, hash2: Hash)
    requires IsBallot(reports1, lookup1, tolerance, ref1, ballot1) && IsReference(reports1, tolerance, ref1)
    requires IsBallot(reports2, lookup2, tolerance, ref2, ballot2) && IsReference(reports2, tolerance, ref2)
    requires Wins(ballot1, minAgreement, hash1) && Wins(ballot2, minAgreement, hash2)
    requires |liars1| < minAgreement && |liars2| < minAgreement
    requires forall k: nat :: k < |reports1| && k !in liars1 ==> Honest(chain, reports1, lookup1, ref1, k)
    requires forall k: nat :: k < |reports2| && k !in liars2 ==> Honest(chain, reports2, lookup2, ref2, k)
    ensures hash1 == chain(ref1) && hash2 == chain(ref2)
    ensures ref1 == ref2 ==> hash1 == hash2
  {
    var i := AgreedIsHonest(chain, reports1, lookup1, tolerance, ref1, ballot1, minAgreement, liars1, hash1);
    var j := AgreedIsHonest(chain, reports2, lookup2, tolerance, ref2, ballot2, minAgreement, liars2, hash2);
  }

  /** Exactly minAgreement liars are already enough to make a false block agreed. */
  lemma BoundIsTight(chain: nat -> Hash, minAgreement: nat, tolerance: Height, height: Height)
    returns (reports: seq<Report>, lookup: seq<Option<Hash>>, ballot: seq<Option<Hash>>, hash: Hash)
    requires minAgreement > 0 && height + tolerance < 0x1_0000_0000_0000_0000
    ensures |reports| == minAgreement && IsBallot(reports, lookup, tolerance, height, ballot)
      && IsReference(reports, tolerance, height)
    ensures Decides(ballot, minAgreement, Agreed(height, hash)) && hash != chain(height)
  {
    hash := chain(height) + 1;
    reports := seq(minAgreement, _ => Finalized(height, hash));
    lookup := seq(minAgreement, _ => None);
    ballot := seq(minAgreement, _ => Some(hash));
    assert reports[0].Finalized? && IsMax(reports, height);
    forall i: nat ensures Near(reports, tolerance, i) <==> i < minAgreement {}
    assert Near(reports, tolerance, 0);
    InitialSegment(minAgreement, Voters(ballot, hash));
    forall g | g != hash ensures |Voters(ballot, g)| < minAgreement { assert Voters(ballot, g) == {}; }
  }

  lemma {:induction false} InitialSegment(n: nat, s: set<nat>)
    requires forall i: nat :: i in s <==> i < n
    ensures |s| == n
  {
    if n == 0 {
      assert s == {};
    } else {
      InitialSegment(n - 1, s - {n - 1});
    }
  }

  ghost function NearSet(reports: seq<Report>, tolerance: Height): set<nat> {
    set i: nat | i < |reports| && Near(reports, tolerance, i)
  }

  /** When nobody near the top lies or falls silent, the round agrees on the honest block exactly
      when at least minAgreement providers are near the highest report: lagging or missing ones only
      count by their absence, and a single report far ahead of everybody else's blocks the round. */
  lemma HonestRoundAgrees(chain: nat -> Hash, reports: seq<Report>, lookup: seq<Option<Hash>>, tolerance: Height,
                          ref: Height, ballot: seq<Option<Hash>>, minAgreement: nat, r: Outcome)
    requires minAgreement > 0 && IsBallot(reports, lookup, tolerance, ref, ballot)
    requires forall i: nat :: Near(reports, tolerance, i) ==>
      ref <= reports[i].height && Honest(chain, reports, lookup, ref, i)
        && (ref < reports[i].height ==> lookup[i].Some?)
    requires Decides(ballot, minAgreement, r) && (r.Agreed? ==> r.height == ref)
    ensures if |NearSet(reports, tolerance)| >= minAgreement then r == Agreed(ref, chain(ref)) else r == NoAgreement
  {
    forall i: nat | i < |ballot| ensures ballot[i] == if Near(reports, tolerance, i) then Some(chain(ref)) else None {}
    assert Voters(ballot, chain(ref)) == NearSet(reports, tolerance);
    forall h | h != chain(ref) ensures |Voters(ballot, h)| == 0 { assert Voters(ballot, h) == {}; }
  }

  // ---------------------------------------------------------------- agreed heights may fall

  /** A round over these answers, for the reference height it settles on. */
  ghost predicate Round(reports: seq<Report>, lookup: seq<Option<Hash>>, tolerance: Height, minAgreement: nat,
                        ballot: seq<Option<Hash>>, r: Outcome)
  {
    r.Agreed? && IsBallot(reports, lookup, tolerance, r.height, ballot) && IsReference(reports, tolerance, r.height)
      && Decides(ballot, minAgreement, r)
  }

  /** Nobody's own finalized height goes back. */
  ghost predicate NeverBack(before: seq<Report>, after: seq<Report>) {
    && |before| == |after|
    && forall i :: 0 <= i < |before| && before[i].Finalized? && after[i].Finalized? ==>
      before[i].height <= after[i].height
  }

  /** No answer, or too far behind the highest one. */
  ghost predicate LeftOut(reports: seq<Report>, tolerance: Height, i: nat) {
    i < |reports| && (reports[i].Down? || exists max :: IsMax(reports, max) && Plus(reports[i].height, tolerance) < max)
  }

  lemma NearOrLeftOut(reports: seq<Report>, tolerance: Height, ref: Height, i: nat)
    requires IsReference(reports, tolerance, ref) && i < |reports|
    ensures Near(reports, tolerance, i) <==> !LeftOut(reports, tolerance, i)
  {
    var k: nat :| Near(reports, tolerance, k);
    var max :| IsMax(reports, max);
    if reports[i].Finalized? { NearIsClose(reports, tolerance, max, i); }
  }

  /** Of two rounds that agree, both on the honest chain, the later names a lower block if and only
      if a provider that was left out of the earlier round is back, near the top, and below it. */
  lemma AgreedHeightFallsIff(chain: nat -> Hash, tolerance: Height, minAgreement: nat,
                             reports1: seq<Report>, lookup1: seq<Option<Hash>>, ballot1: seq<Option<Hash>>, r1: Outcome,
                             liars1: set<nat>,
                             reports2: seq<Report>, lookup2: seq<Option<Hash>>, ballot2: seq<Option<Hash>>, r2: Outcome,
                             liars2: set<nat>)
    requires Round(reports1, lookup1, tolerance, minAgreement, ballot1, r1)
      && Round(reports2, lookup2, tolerance, minAgreement, ballot2, r2)
    requires NeverBack(reports1, reports2) && |liars1| < minAgreement && |liars2| < minAgreement
    requires forall k: nat :: k < |reports1| && k !in liars1 ==> Honest(chain, reports1, lookup1, r1.height, k)
    requires forall k: nat :: k < |reports2| && k !in liars2 ==> Honest(chain, reports2, lookup2, r2.height, k)
    ensures r1 == Agreed(r1.height, chain(r1.height)) && r2 == Agreed(r2.height, chain(r2.height))
    ensures r2.height < r1.height <==>
      exists i: nat :: LeftOut(reports1, tolerance, i) && Near(reports2, tolerance, i) && reports2[i].height < r1.height
  {
    SuccessesLieOnOneChain(chain, tolerance, minAgreement, reports1, lookup1, r1.height, ballot1, liars1, r1.hash,
                           reports2, lookup2, r2.height, ballot2, liars2, r2.hash);
    if r2.height < r1.height {
      var i: nat :| Near(reports2, tolerance, i) && reports2[i].height == r2.height;
      NearOrLeftOut(reports1, tolerance, r1.height, i);
      assert LeftOut(reports1, tolerance, i);
    }
  }

  /** And it happens: two providers at 10 agree on block 10 while a third is down; it comes back at
      7, within the tolerance, and the next round agrees on block 7. Nobody lies or goes back. */
  lemma AgreedHeightFalls(chain: nat -> Hash)
    ensures
      var first := [Finalized(10, chain(10)), Finalized(10, chain(10)), Down];
      var second := [Finalized(10, chain(10)), Finalized(10, chain(10)), Finalized(7, chain(7))];
      var silent := [None, None, None];
      var asked := [Some(chain(7)), Some(chain(7)), None];
      && NeverBack(first, second)
      && (forall i: nat :: i < 3 ==> Honest(chain, first, silent, 10, i) && Honest(chain, second, asked, 7, i))
      && Round(first, silent, 5, 2, [Some(chain(10)), Some(chain(10)), None], Agreed(10, chain(10)))
      && Round(second, asked, 5, 2, [Some(chain(7)), Some(chain(7)), Some(chain(7))], Agreed(7, chain(7)))
  {
    FirstRound(chain);
    SecondRound(chain);
  }

  lemma FirstRound(chain: nat -> Hash)
    ensures Round([Finalized(10, chain(10)), Finalized(10, chain(10)), Down], [None, None, None], 5, 2,
                  [Some(chain(10)), Some(chain(10)), None], Agreed(10, chain(10)))
  {
    var first := [Finalized(10, chain(10)), Finalized(10, chain(10)), Down];
    assert first[0].height == 10 && IsMax(first, 10);
    assert Near(first, 5, 0) && Near(first, 5, 1);
    OneCandidate([Some(chain(10)), Some(chain(10)), None], chain(10), {0, 1});
  }

  lemma SecondRound(chain: nat -> Hash)
    ensures Round([Finalized(10, chain(10)), Finalized(10, chain(10)), Finalized(7, chain(7))],
                  [Some(chain(7)), Some(chain(7)), None], 5, 2,
                  [Some(chain(7)), Some(chain(7)), Some(chain(7))], Agreed(7, chain(7)))
  {
    var second := [Finalized(10, chain(10)), Finalized(10, chain(10)), Finalized(7, chain(7))];
    assert second[0].height == 10 && IsMax(second, 10);
    assert Near(second, 5, 0) && Near(second, 5, 1) && Near(second, 5, 2);
    OneCandidate([Some(chain(7)), Some(chain(7)), Some(chain(7))], chain(7), {0, 1, 2});
  }

  lemma OneCandidate(ballot: seq<Option<Hash>>, h: Hash, voters: set<nat>)
    requires forall i: nat :: i < |ballot| ==> ballot[i] == if i in voters then Some(h) else None
    requires |voters| >= 2 && forall i :: i in voters ==> i < |ballot|
    ensures Wins(ballot, 2, h)
  {
    assert Voters(ballot, h) == voters;
    forall g | g != h ensures |Voters(ballot, g)| == 0 { assert Voters(ballot, g) == {}; }
  }
}
