/** What the watcher's history is worth when one of the two log providers is honest about the blocks
    it is asked to read again (depositwatcher/internal/finality/finality.go): those are at or below
    an agreed height, so an honest provider answers for them from the one finalized chain. */
module DepositTruth {
  import opened Common
  import opened DepositHistory
  import L = LogAgreement
  import T = FinalityTracker

  /** The logs of each finalized block. */
  type Chain = nat -> set<L.Content>

  ghost predicate OnChain(chain: Chain, k: Key, height: nat) { exists c :: c in chain(height) && T.KeyOf(c) == k }

  /** Whatever block it answers for, it reports exactly its logs. */
  ghost predicate Honest(chain: Chain, answers: T.Answers) {
    forall height, c :: height in answers ==> (c in L.Contents(answers[height]) <==> c in chain(height))
  }

  ghost predicate OneHonest(chain: Chain, schedule: seq<T.Turn>) {
    forall t :: t in schedule ==> Honest(chain, t.primary) || Honest(chain, t.secondary)
  }

  /** The history of a tracker whose log providers are never both liars. */
  ghost predicate Trusted(chain: Chain, h: History, agreedOn: set<nat>, observed: set<T.Observation>,
                          schedule: seq<T.Turn>)
  {
    Legal(h) && T.Grounded(h, agreedOn, observed, schedule) && OneHonest(chain, schedule)
  }

  lemma HonestKeys(chain: Chain, answers: T.Answers, height: nat, k: Key)
    requires Honest(chain, answers) && height in answers
    ensures k in T.KeysOf(answers[height]) <==> OnChain(chain, k, height)
  {
    var logs := answers[height];
    if k in T.KeysOf(logs) {
      var i :| 0 <= i < |logs| && T.KeyOf(logs[i].content) == k;
      assert L.Contents(logs)[i] in L.Contents(logs);
    }
    if OnChain(chain, k, height) {
      var c :| c in chain(height) && T.KeyOf(c) == k;
      var i :| 0 <= i < |logs| && L.Contents(logs)[i] == c;
      assert T.KeyOf(logs[i].content) == k;
    }
  }

  lemma BothReportTruth(chain: Chain, t: T.Turn, height: nat, present: set<Key>, k: Key)
    requires T.BothReport(t, height, present) && (Honest(chain, t.primary) || Honest(chain, t.secondary))
    ensures k in present <==> OnChain(chain, k, height)
  {
    if Honest(chain, t.primary) { HonestKeys(chain, t.primary, height, k); }
    else { HonestKeys(chain, t.secondary, height, k); }
  }

  /** A read tells the truth about every log, present or not. */
  lemma ReadIsTrue(chain: Chain, h: History, agreedOn: set<nat>, observed: set<T.Observation>, schedule: seq<T.Turn>,
                   height: nat, present: set<Key>, k: Key)
    requires T.Grounded(h, agreedOn, observed, schedule) && OneHonest(chain, schedule) && LogsRead(height, present) in h
    ensures k in present <==> OnChain(chain, k, height)
  {
    var i :| 0 <= i < |h| && h[i] == LogsRead(height, present);
    assert T.GroundedEvent(h[i], agreedOn, observed, schedule);
    var t :| t in schedule && T.Behind(t, h[i]);
    BothReportTruth(chain, t, height, present, k);
  }

  lemma TrustedUpTo(chain: Chain, h: History, agreedOn: set<nat>, observed: set<T.Observation>, schedule: seq<T.Turn>,
                    i: nat)
    requires Trusted(chain, h, agreedOn, observed, schedule) && i <= |h|
    ensures Trusted(chain, h[..i], agreedOn, observed, schedule)
    ensures i < |h| ==> Allowed(h[..i], h[i]) && h[..i + 1] == h[..i] + [h[i]]
  {
    LegalUpTo(h, i);
  }

  // ---------------------------------------------------------------- nothing true is given up

  lemma {:induction false} FinalIsOnChain(chain: Chain, h: History, agreedOn: set<nat>, observed: set<T.Observation>,
                                          schedule: seq<T.Turn>, k: Key)
    requires Trusted(chain, h, agreedOn, observed, schedule) && StageOf(h, k).Final?
    ensures OnChain(chain, k, HeightOf(h, k))
    decreases |h|
  {
    var n := |h| - 1;
    var rest, e := h[..n], h[n];
    TrustedUpTo(chain, h, agreedOn, observed, schedule, n);
    Appended(rest, e, k);
    assert h == rest + [e];
    if StageOf(rest, k).Final? {
      FinalIsOnChain(chain, rest, agreedOn, observed, schedule, k);
    } else {
      ReadIsTrue(chain, rest, agreedOn, observed, schedule, e.height, e.present, k);
    }
  }

  /** C1 is told only of logs that are on the chain, a candidate is dropped in silence only if its log
      is not, and no deposit C1 was told of is ever reversed. */
  lemma EventsAreTrue(chain: Chain, h: History, agreedOn: set<nat>, observed: set<T.Observation>,
                      schedule: seq<T.Turn>, i: nat)
    requires Trusted(chain, h, agreedOn, observed, schedule) && i < |h|
    ensures h[i].Reported? ==> OnChain(chain, h[i].key, h[i].height)
    ensures h[i].Missing? ==> !OnChain(chain, h[i].key, HeightOf(h[..i], h[i].key))
    ensures !h[i].Reorged?
  {
    var before, e := h[..i], h[i];
    TrustedUpTo(chain, h, agreedOn, observed, schedule, i);
    match e
    case Reported(k, height, _, present, _) =>
      ReadIsTrue(chain, before, agreedOn, observed, schedule, height, present, k);
    case Missing(k, present) =>
      ReadIsTrue(chain, before, agreedOn, observed, schedule, HeightOf(before, k), present, k);
    case Reorged(k, present, _) =>
      FinalIsOnChain(chain, before, agreedOn, observed, schedule, k);
      ReadIsTrue(chain, before, agreedOn, observed, schedule, HeightOf(before, k), present, k);
    case _ =>
  }

  /** What is final stays final. */
  lemma {:induction false} StaysFinal(chain: Chain, h: History, agreedOn: set<nat>, observed: set<T.Observation>,
                                      schedule: seq<T.Turn>, i: nat, k: Key)
    requires Trusted(chain, h, agreedOn, observed, schedule) && i <= |h| && StageOf(h[..i], k).Final?
    ensures StageOf(h, k).Final?
    decreases |h| - i
  {
    if i == |h| {
      assert h[..i] == h;
    } else {
      EventsAreTrue(chain, h, agreedOn, observed, schedule, i);
      TrustedUpTo(chain, h, agreedOn, observed, schedule, i);
      Appended(h[..i], h[i], k);
      StaysFinal(chain, h, agreedOn, observed, schedule, i + 1, k);
    }
  }

  // ---------------------------------------------------------------- everything true is reported

  /** The first event that ends a pending candidate's turn finds it as it was. */
  lemma {:induction false} FirstEnding(h: History, from: nat, to: nat, c: T.Candidate) returns (i: nat)
    requires Legal(h) && from <= to <= |h| && T.Settled(h[..from], h[..to], c)
    requires StageOf(h[..from], c.key).Pending? && HeightOf(h[..from], c.key) == c.height
    ensures from <= i < to && T.Ending(c)(h[i])
    ensures StageOf(h[..i], c.key).Pending? && HeightOf(h[..i], c.key) == c.height
    decreases |h| - from
  {
    var j :| from <= j < to && T.Ending(c)(h[..to][j]);
    i := from;
    if !T.Ending(c)(h[from]) {
      LegalUpTo(h, from);
      Appended(h[..from], h[from], c.key);
      assert h[..to][j] == h[j];
      assert T.Settled(h[..from + 1], h[..to], c);
      i := FirstEnding(h, from + 1, to, c);
    }
  }

  /** Up to this height the providers answer alike, and C1 accepts every deposit. */
  ghost predicate Reliable(schedule: seq<T.Turn>, height: nat) {
    forall t :: t in schedule ==> t.final.Accepted? && forall n: nat :: n <= height ==> T.Alike(t, n)
  }

  lemma NoFailure(h: History, agreedOn: set<nat>, observed: set<T.Observation>, schedule: seq<T.Turn>, height: nat,
                  i: nat)
    requires T.Grounded(h, agreedOn, observed, schedule) && Reliable(schedule, height) && i < |h|
    ensures h[i].LogsFailed? ==> h[i].height > height
    ensures h[i].Reported? ==> h[i].result.Accepted?
  {
    assert T.GroundedEvent(h[i], agreedOn, observed, schedule);
    if h[i].LogsFailed? || h[i].Reported? { var t :| t in schedule && T.Behind(t, h[i]); }
  }

  /** So where nothing fails, a candidate whose turn came is final if its log is on the chain, and
      was dropped if it is not. */
  lemma TurnDecides(chain: Chain, h: History, agreedOn: set<nat>, observed: set<T.Observation>, schedule: seq<T.Turn>,
                    from: nat, to: nat, c: T.Candidate) returns (i: nat)
    requires Trusted(chain, h, agreedOn, observed, schedule) && Reliable(schedule, c.height)
    requires from <= to <= |h| && T.Settled(h[..from], h[..to], c)
    requires StageOf(h[..from], c.key).Pending? && HeightOf(h[..from], c.key) == c.height
    ensures from <= i < to && About(h[i], c.key)
    ensures
      if OnChain(chain, c.key, c.height) then h[i].Reported? && h[i].result.Accepted? && StageOf(h, c.key).Final?
      else h[i].Missing?
  {
    i := FirstEnding(h, from, to, c);
    var before, e := h[..i], h[i];
    TrustedUpTo(chain, h, agreedOn, observed, schedule, i);
    NoFailure(h, agreedOn, observed, schedule, c.height, i);
    EventsAreTrue(chain, h, agreedOn, observed, schedule, i);
    if e.Recorded? {
      var j :| 0 <= j < i && Orphans(before[j], c.key);
      NoFailure(h, agreedOn, observed, schedule, c.height, j);
    }
    if e.Reported? {
      Appended(before, e, c.key);
      StaysFinal(chain, h, agreedOn, observed, schedule, i + 1, c.key);
    }
  }
}
