/** The watcher from end to end (depositwatcher/internal/candidates/loop.go, candidates.go;
    depositwatcher/internal/finality/finality.go): every tick scans the blocks ingested since, hands
    what it finds to the tracker, asks the pool for a finalized height and lets the tracker act on it.
    What C1 is told to be final was reported by two providers, at a height the pool agreed on; with
    one honest log provider it is on the chain, and what is on the chain is told. */
module FinalDeposits {
  import opened Common
  import opened DepositHistory
  import opened DepositTruth
  import L = LogAgreement
  import Q = FinalizedQuorum
  import T = FinalityTracker

  /** What the providers answer in one tick's LatestFinalized. */
  datatype Round = Round(reports: seq<Q.Report>, lookup: seq<Option<Q.Hash>>)

  /** What ProcessLog makes of a log: no transfer to an address of ours that is still in use, a call
      that failed, or an observation. */
  datatype Verdict = Filtered | Failing | Observed(classification: Classification)

  /** One ScanRange: the two providers' answers for the range, and what becomes of each log. */
  datatype Scan = Scan(primary: Option<seq<L.Log>>, secondary: Option<seq<L.Log>>, verdicts: map<Key, Verdict>)

  /** One tick: whether the cursors can be read (or first set) and the new one saved, the scan if there is anything
      to scan, and the round. */
  datatype Tick = Tick(read: bool, scan: Option<Scan>, saved: bool, round: Round)

  // ---------------------------------------------------------------- agreed heights

  /** The round agrees on this height. */
  ghost predicate AgreesOn(round: Round, tolerance: Q.Height, minAgreement: nat, n: nat) {
    exists ballot, r :: Q.Round(round.reports, round.lookup, tolerance, minAgreement, ballot, r) && r.height == n
  }

  ghost predicate SomeRound(ticks: seq<Tick>, tolerance: Q.Height, minAgreement: nat, n: nat) {
    exists tick :: tick in ticks && AgreesOn(tick.round, tolerance, minAgreement, n)
  }

  ghost predicate FromRounds(heights: set<nat>, ticks: seq<Tick>, tolerance: Q.Height, minAgreement: nat) {
    forall n :: n in heights ==> SomeRound(ticks, tolerance, minAgreement, n)
  }

  /** A round agrees on one height or on none. */
  lemma AgreedIsRound(round: Round, tolerance: Q.Height, minAgreement: nat, ref: Q.Height, ballot: seq<Option<Q.Hash>>,
                      r: Q.Outcome, n: nat)
    requires minAgreement > 0 && Q.IsBallot(round.reports, round.lookup, tolerance, ref, ballot)
    requires (exists i: nat :: Q.Near(round.reports, tolerance, i)) ==> Q.IsReference(round.reports, tolerance, ref)
    requires Q.Decides(ballot, minAgreement, r) && (r.Agreed? ==> r.height == ref)
    ensures AgreesOn(round, tolerance, minAgreement, n) <==> r.Agreed? && r.height == n
  {
    if r.Agreed? {
      var voters := Q.Voters(ballot, r.hash);
      assert voters != {};
      var i :| i in voters;
      assert Q.Near(round.reports, tolerance, i);
      assert Q.Round(round.reports, round.lookup, tolerance, minAgreement, ballot, r);
    }
    if AgreesOn(round, tolerance, minAgreement, n) {
      var ballot', r' :| Q.Round(round.reports, round.lookup, tolerance, minAgreement, ballot', r') && r'.height == n;
      SameBallot(round, tolerance, ref, ballot, r'.height, ballot');
      WinnerDecides(ballot, minAgreement, r, r'.hash);
    }
  }

  lemma SameBallot(round: Round, tolerance: Q.Height, ref: Q.Height, ballot: seq<Option<Q.Hash>>, ref': Q.Height,
                   ballot': seq<Option<Q.Hash>>)
    requires Q.IsBallot(round.reports, round.lookup, tolerance, ref, ballot)
    requires (exists i: nat :: Q.Near(round.reports, tolerance, i)) ==> Q.IsReference(round.reports, tolerance, ref)
    requires Q.IsBallot(round.reports, round.lookup, tolerance, ref', ballot')
    requires Q.IsReference(round.reports, tolerance, ref')
    ensures ref == ref' && ballot == ballot'
  {
    var i: nat :| Q.Near(round.reports, tolerance, i) && round.reports[i].height == ref';
  }

  lemma WinnerDecides(ballot: seq<Option<Q.Hash>>, minAgreement: nat, r: Q.Outcome, hash: Q.Hash)
    requires Q.Decides(ballot, minAgreement, r) && Q.Wins(ballot, minAgreement, hash)
    ensures r.Agreed?
  {}

  // ---------------------------------------------------------------- what C1 is told

  /** Nobody but the liars says anything of a block that is not on the one chain. */
  ghost predicate HonestBut(chain: nat -> Q.Hash, round: Round, liars: set<nat>) {
    |round.lookup| == |round.reports| &&
    forall k: nat, ref: Q.Height :: k < |round.reports| && k !in liars ==>
      Q.Honest(chain, round.reports, round.lookup, ref, k)
  }

  /** An honest provider has finalized a block at least this high. */
  ghost predicate FinalizedBy(round: Round, liars: set<nat>, height: nat) {
    exists k: nat ::
      k < |round.reports| && k !in liars && round.reports[k].Finalized? && height <= round.reports[k].height
  }

  lemma AgreedIsFinalized(chain: nat -> Q.Hash, round: Round, liars: set<nat>, tolerance: Q.Height, minAgreement: nat,
                          n: nat)
    requires AgreesOn(round, tolerance, minAgreement, n) && HonestBut(chain, round, liars) && |liars| < minAgreement
    ensures FinalizedBy(round, liars, n)
  {
    var ballot, r :| Q.Round(round.reports, round.lookup, tolerance, minAgreement, ballot, r) && r.height == n;
    var k := Q.AgreedIsHonest(chain, round.reports, round.lookup, tolerance, r.height, ballot, minAgreement, liars,
      r.hash);
  }

  /** Both providers reported this log when they were asked for this height. */
  ghost predicate ReportedTwice(h: History, schedule: seq<T.Turn>, key: Key, height: nat) {
    exists t, present ::
      t in schedule && T.BothReport(t, height, present) && key in present && LogsRead(height, present) in h
  }

  /** Every OnFinal call is for a log that two providers reported in a read of its height made before,
      at or below a height some round agreed on. */
  ghost predicate OnFinalOk(h: History, schedule: seq<T.Turn>, ticks: seq<Tick>, tolerance: Q.Height,
                            minAgreement: nat, i: nat)
    requires i < |h|
  {
    h[i].Reported? ==>
      && ReportedTwice(h[..i], schedule, h[i].key, h[i].height)
      && h[i].height <= h[i].agreed && SomeRound(ticks, tolerance, minAgreement, h[i].agreed)
  }

  lemma OnFinalIsGrounded(h: History, agreedOn: set<nat>, observed: set<T.Observation>, schedule: seq<T.Turn>,
                          ticks: seq<Tick>, tolerance: Q.Height, minAgreement: nat, i: nat)
    requires Legal(h) && T.Grounded(h, agreedOn, observed, schedule) && i < |h|
    requires FromRounds(agreedOn, ticks, tolerance, minAgreement)
    ensures OnFinalOk(h, schedule, ticks, tolerance, minAgreement, i)
  {
    if h[i].Reported? {
      LegalUpTo(h, i);
      assert T.GroundedEvent(h[i], agreedOn, observed, schedule);
      var j :| 0 <= j < i && h[..i][j] == LogsRead(h[i].height, h[i].present);
      assert T.GroundedEvent(h[j], agreedOn, observed, schedule);
      var t :| t in schedule && T.Behind(t, h[j]);
    }
  }

  /** And with fewer than minAgreement liars in each round an honest provider has finalized that height;
      with one of the two log providers honest the log is on the chain there. */
  lemma OnFinalIsFinal(h: History, schedule: seq<T.Turn>, ticks: seq<Tick>, chain: nat -> Q.Hash, logs: Chain,
                       liars: Round -> set<nat>, tolerance: Q.Height, minAgreement: nat, i: nat)
    requires i < |h| && h[i].Reported? && OnFinalOk(h, schedule, ticks, tolerance, minAgreement, i)
    requires forall tick :: tick in ticks ==>
      HonestBut(chain, tick.round, liars(tick.round)) && |liars(tick.round)| < minAgreement
    requires OneHonest(logs, schedule)
    ensures exists tick :: tick in ticks && FinalizedBy(tick.round, liars(tick.round), h[i].height)
    ensures OnChain(logs, h[i].key, h[i].height)
  {
    var tick :| tick in ticks && AgreesOn(tick.round, tolerance, minAgreement, h[i].agreed);
    var round := tick.round;
    AgreedIsFinalized(chain, round, liars(round), tolerance, minAgreement, h[i].agreed);
    var k: nat :| k < |round.reports| && k !in liars(round)
      && round.reports[k].Finalized? && h[i].agreed <= round.reports[k].height;
    assert FinalizedBy(round, liars(round), h[i].height);
    var t, present :| t in schedule && T.BothReport(t, h[i].height, present) && h[i].key in present;
    BothReportTruth(logs, t, h[i].height, present, h[i].key);
  }

  // ---------------------------------------------------------------- the scan

  /** Both providers answered, alike, with no two different logs at one position, and no call for any
      of the logs failed. */
  ghost predicate ScanGoes(scan: Scan) {
    && scan.primary.Some? && scan.secondary.Some? && L.NoClash(L.Contents(scan.primary.value))
    && multiset(L.Contents(scan.primary.value)) == multiset(L.Contents(scan.secondary.value))
    && forall c :: c in L.Contents(scan.primary.value) ==>
      T.KeyOf(c) in scan.verdicts && !scan.verdicts[T.KeyOf(c)].Failing?
  }

  /** A log that both providers reported in this scan, as it was classified. */
  ghost predicate FromScan(scan: Scan, o: T.Observation) {
    && scan.primary.Some? && scan.secondary.Some?
    && multiset(L.Contents(scan.primary.value)) == multiset(L.Contents(scan.secondary.value))
    && o.key in scan.verdicts && scan.verdicts[o.key] == Observed(o.classification)
    && exists c :: c in L.Contents(scan.primary.value) && o == T.Observation(T.KeyOf(c), c.block, o.classification)
  }

  ghost predicate FromTicks(observed: set<T.Observation>, ticks: seq<Tick>) {
    forall o :: o in observed ==> exists tick :: tick in ticks && tick.scan.Some? && FromScan(tick.scan.value, o)
  }

  ghost predicate Tracked(tracker: T.Tracker, key: Key)
    reads tracker
  {
    key in tracker.pending || key in tracker.finalized
  }

  ghost predicate Counts(scan: Scan, key: Key) {
    key in scan.verdicts && scan.verdicts[key].Observed? && !scan.verdicts[key].classification.ZeroValue?
  }

  /** Every deposit found by the scan is tracked. */
  ghost predicate ScanTracked(h: History, scan: Scan) {
    && scan.primary.Some?
    && forall c :: c in L.Contents(scan.primary.value) && Counts(scan, T.KeyOf(c)) ==>
      !StageOf(h, T.KeyOf(c)).Untracked?
  }

  /** ScanRange: all or, after a failure, some of the logs both providers report are observed. */
  method ScanRange(tracker: T.Tracker, scan: Scan) returns (ok: bool)
    requires tracker.Valid()
    modifies tracker`pending, tracker`history, tracker`turns, tracker`observed
    ensures tracker.Valid() && Extends(old(tracker.history), tracker.history)
    ensures ScanGoes(scan) ==> ok
    ensures ok ==> ScanTracked(tracker.history, scan)
    ensures forall o :: o in tracker.observed ==> o in old(tracker.observed) || FromScan(scan, o)
  {
    var turn := tracker.Call();
    var logs := L.LogsAt(scan.primary, scan.secondary);
    if logs.None? { return false; }
    ghost var contents := L.Contents(logs.value);
    for i := 0 to |logs.value|
      invariant tracker.Valid() && Extends(old(tracker.history), tracker.history)
      invariant forall j :: 0 <= j < i && Counts(scan, T.KeyOf(contents[j])) ==> Tracked(tracker, T.KeyOf(contents[j]))
      invariant forall o :: o in tracker.observed ==> o in old(tracker.observed) || FromScan(scan, o)
    {
      SameMembers(logs.value, scan.primary.value, contents[i]);
      ok := ProcessLog(tracker, scan, logs.value[i].content);
      if !ok { return; }
    }
    AllTracked(tracker, scan, logs.value);
    ok := true;
  }

  lemma AllTracked(tracker: T.Tracker, scan: Scan, logs: seq<L.Log>)
    requires tracker.Valid() && scan.primary.Some?
    requires multiset(L.Contents(scan.primary.value)) == multiset(L.Contents(logs))
    requires forall c :: c in L.Contents(logs) && Counts(scan, T.KeyOf(c)) ==> Tracked(tracker, T.KeyOf(c))
    ensures ScanTracked(tracker.history, scan)
  {
    forall c | c in L.Contents(scan.primary.value) && Counts(scan, T.KeyOf(c))
      ensures !StageOf(tracker.history, T.KeyOf(c)).Untracked?
    {
      SameMembers(scan.primary.value, logs, c);
      assert Tracked(tracker, T.KeyOf(c));
    }
  }

  lemma SameMembers(a: seq<L.Log>, b: seq<L.Log>, c: L.Content)
    requires multiset(L.Contents(a)) == multiset(L.Contents(b)) && c in L.Contents(a)
    ensures c in L.Contents(b)
  {
    assert c in multiset(L.Contents(b));
  }

  /** ProcessLog: filtered, or observed if no call fails. */
  method ProcessLog(tracker: T.Tracker, scan: Scan, c: L.Content) returns (ok: bool)
    requires tracker.Valid() && scan.primary.Some? && scan.secondary.Some? && c in L.Contents(scan.primary.value)
    requires multiset(L.Contents(scan.primary.value)) == multiset(L.Contents(scan.secondary.value))
    modifies tracker`pending, tracker`history, tracker`turns, tracker`observed
    ensures tracker.Valid() && Extends(old(tracker.history), tracker.history)
    ensures T.KeptBut(old(tracker.pending), tracker.pending, {})
    ensures ok <==> T.KeyOf(c) in scan.verdicts && !scan.verdicts[T.KeyOf(c)].Failing?
    ensures ok && Counts(scan, T.KeyOf(c)) ==> Tracked(tracker, T.KeyOf(c))
    ensures forall o :: o in tracker.observed ==> o in old(tracker.observed) || FromScan(scan, o)
  {
    var turn := tracker.Call();
    var verdict := if T.KeyOf(c) in scan.verdicts then scan.verdicts[T.KeyOf(c)] else Failing;
    if verdict.Observed? {
      tracker.OnLogObserved(T.Observation(T.KeyOf(c), c.block, verdict.classification));
    }
    ok := !verdict.Failing?;
  }

  // ---------------------------------------------------------------- the ticks

  /** A finality check that went ahead: the stretch of history it made, and its height. */
  datatype Check = Check(from: nat, to: nat, agreed: nat)

  /** Every candidate that was pending at or below the height ended its turn, or met a failure. */
  ghost predicate CheckDone(h: History, c: Check) {
    && c.from <= c.to <= |h|
    && forall k :: StageOf(h[..c.from], k).Pending? && HeightOf(h[..c.from], k) <= c.agreed ==>
      T.Settled(h[..c.from], h[..c.to], T.Candidate(k, HeightOf(h[..c.from], k)))
  }

  /** Nothing before the finality check fails, and its round agrees. */
  ghost predicate Goes(tick: Tick, tolerance: Q.Height, minAgreement: nat) {
    && tick.read && (tick.scan.Some? ==> ScanGoes(tick.scan.value) && tick.saved)
    && exists n: nat :: AgreesOn(tick.round, tolerance, minAgreement, n)
  }

  /** What a tick did: its check, if it got that far, on top of its scan. */
  ghost predicate TickDone(h: History, tick: Tick, check: Option<Check>, tolerance: Q.Height, minAgreement: nat) {
    && (Goes(tick, tolerance, minAgreement) ==> check.Some?)
    && (check.Some? ==>
      && AgreesOn(tick.round, tolerance, minAgreement, check.value.agreed) && CheckDone(h, check.value)
      && (tick.scan.Some? ==> ScanTracked(h[..check.value.from], tick.scan.value)))
  }

  lemma DoneStays(h: History, h': History, tick: Tick, check: Option<Check>, tolerance: Q.Height, minAgreement: nat)
    requires TickDone(h, tick, check, tolerance, minAgreement) && Extends(h, h')
    ensures TickDone(h', tick, check, tolerance, minAgreement)
  {
    if check.Some? {
      assert h'[..check.value.from] == h[..check.value.from] && h'[..check.value.to] == h[..check.value.to];
    }
  }

  /** The height this round agrees on, if it does. */
  method AskPool(pool: Q.Pool, round: Round) returns (agreed: Option<nat>)
    requires pool.Valid() && |round.reports| == |round.lookup| == |pool.health|
    modifies pool
    ensures pool.Valid() && |pool.health| == |round.reports|
    ensures forall n: nat :: AgreesOn(round, pool.tolerance, pool.minAgreement, n) <==> agreed == Some(n)
  {
    var r, ref, ballot := pool.LatestFinalized(round.reports, round.lookup);
    agreed := if r.Agreed? then Some(r.height) else None;
    forall n: nat ensures AgreesOn(round, pool.tolerance, pool.minAgreement, n) <==> agreed == Some(n) {
      AgreedIsRound(round, pool.tolerance, pool.minAgreement, ref, ballot, r, n);
    }
  }

  /** The finality check of a tick: no agreement, nothing is done. */
  method CheckFinality(pool: Q.Pool, tracker: T.Tracker, round: Round) returns (ghost check: Option<Check>)
    requires pool.Valid() && tracker.Valid() && |round.reports| == |round.lookup| == |pool.health|
    modifies pool, tracker
    ensures pool.Valid() && tracker.Valid() && |pool.health| == |round.reports|
    ensures Extends(old(tracker.history), tracker.history) && tracker.observed == old(tracker.observed)
    ensures check.None? ==> tracker.history == old(tracker.history) && tracker.agreedOn == old(tracker.agreedOn)
    ensures check.None? ==> forall n: nat :: !AgreesOn(round, pool.tolerance, pool.minAgreement, n)
    ensures check.Some? ==>
      && AgreesOn(round, pool.tolerance, pool.minAgreement, check.value.agreed)
      && tracker.agreedOn == old(tracker.agreedOn) + {check.value.agreed}
      && check.value.from == |old(tracker.history)| && CheckDone(tracker.history, check.value)
  {
    ghost var p0, h0 := tracker.pending, tracker.history;
    var agreed := AskPool(pool, round);
    var ok := tracker.CheckFinality(agreed);
    check := None;
    if ok {
      check := Some(Check(|h0|, |tracker.history|, agreed.value));
      assert tracker.history[..|h0|] == h0 && tracker.history[..|tracker.history|] == tracker.history;
      forall k | StageOf(h0, k).Pending? && HeightOf(h0, k) <= agreed.value
        ensures T.Settled(h0, tracker.history, T.Candidate(k, HeightOf(h0, k)))
      {
        assert p0[k] == T.Candidate(k, HeightOf(h0, k));
      }
    }
  }

  /** runTick: the cursors, the scan, the cursor again, the finality check; a failure ends the tick. */
  method RunTick(pool: Q.Pool, tracker: T.Tracker, tick: Tick) returns (ghost check: Option<Check>)
    requires pool.Valid() && tracker.Valid() && |tick.round.reports| == |tick.round.lookup| == |pool.health|
    modifies pool, tracker
    ensures pool.Valid() && tracker.Valid() && |pool.health| == |old(pool.health)|
    ensures Extends(old(tracker.history), tracker.history)
    ensures TickDone(tracker.history, tick, check, pool.tolerance, pool.minAgreement)
    ensures forall n :: n in tracker.agreedOn ==>
      n in old(tracker.agreedOn) || AgreesOn(tick.round, pool.tolerance, pool.minAgreement, n)
    ensures forall o :: o in tracker.observed ==>
      o in old(tracker.observed) || (tick.scan.Some? && FromScan(tick.scan.value, o))
  {
    if !tick.read { return None; }
    if tick.scan.Some? {
      var ok := ScanRange(tracker, tick.scan.value);
      if !ok || !tick.saved { return None; }
    }
    ghost var h := tracker.history;
    check := CheckFinality(pool, tracker, tick.round);
    if check.Some? { assert tracker.history[..check.value.from] == h; }
  }

  /** RunLoop: tick after tick, whatever the providers answer. Every candidate it found itself is a log
      two providers reported, every OnFinal call it makes, whatever C1 makes of it, is in order, and
      every tick that gets to its finality check has done it. */
  method RunLoop(pool: Q.Pool, tracker: T.Tracker, ticks: seq<Tick>) returns (ghost checks: seq<Option<Check>>)
    requires pool.Valid() && tracker.Valid() && tracker.agreedOn == {} && tracker.observed == {}
    requires forall i :: 0 <= i < |ticks| ==> |ticks[i].round.reports| == |ticks[i].round.lookup| == |pool.health|
    modifies pool, tracker
    ensures pool.Valid() && tracker.Valid()
    ensures FromTicks(tracker.observed, ticks)
    ensures forall i :: 0 <= i < |tracker.history| ==>
      OnFinalOk(tracker.history, tracker.schedule, ticks, pool.tolerance, pool.minAgreement, i)
    ensures |checks| == |ticks|
    ensures forall i :: 0 <= i < |ticks| ==>
      TickDone(tracker.history, ticks[i], checks[i], pool.tolerance, pool.minAgreement)
  {
    checks := [];
    for i := 0 to |ticks|
      invariant pool.Valid() && tracker.Valid() && |pool.health| == |old(pool.health)| && |checks| == i
      invariant FromRounds(tracker.agreedOn, ticks, pool.tolerance, pool.minAgreement)
      invariant FromTicks(tracker.observed, ticks)
      invariant forall j :: 0 <= j < i ==>
        TickDone(tracker.history, ticks[j], checks[j], pool.tolerance, pool.minAgreement)
    {
      ghost var h := tracker.history;
      assert ticks[i] in ticks;
      ghost var check := RunTick(pool, tracker, ticks[i]);
      forall j | 0 <= j < i ensures TickDone(tracker.history, ticks[j], checks[j], pool.tolerance, pool.minAgreement) {
        DoneStays(h, tracker.history, ticks[j], checks[j], pool.tolerance, pool.minAgreement);
      }
      checks := checks + [check];
    }
    forall i | 0 <= i < |tracker.history|
      ensures OnFinalOk(tracker.history, tracker.schedule, ticks, pool.tolerance, pool.minAgreement, i)
    {
      OnFinalIsGrounded(tracker.history, tracker.agreedOn, tracker.observed, tracker.schedule, ticks,
                        pool.tolerance, pool.minAgreement, i);
    }
  }

  // ---------------------------------------------------------------- what is on the chain is told

  predicate Tells(e: Event, k: Key) { e.Reported? && e.key == k && e.result.Accepted? }

  /** An OnFinal call for this deposit was accepted. */
  ghost predicate Told(h: History, k: Key) { exists i :: 0 <= i < |h| && Tells(h[i], k) }

  /** A check that went ahead where nothing failed and one log provider was honest has decided every
      candidate at or below its height: final, for good, if its log is on the chain, and otherwise
      dropped without a call to C1. */
  lemma CheckDecides(h: History, agreedOn: set<nat>, observed: set<T.Observation>, schedule: seq<T.Turn>, logs: Chain,
                     c: Check, k: Key)
    requires Trusted(logs, h, agreedOn, observed, schedule) && CheckDone(h, c) && Reliable(schedule, c.agreed)
    requires !StageOf(h[..c.from], k).Untracked? && HeightOf(h[..c.from], k) <= c.agreed
    ensures
      if OnChain(logs, k, HeightOf(h[..c.from], k)) then
        StageOf(h, k).Final? && Told(h[..c.to], k)
      else exists i :: c.from <= i < c.to && h[i].Missing? && h[i].key == k
  {
    TrustedUpTo(logs, h, agreedOn, observed, schedule, c.from);
    if StageOf(h[..c.from], k).Final? {
      FinalIsOnChain(logs, h[..c.from], agreedOn, observed, schedule, k);
      StaysFinal(logs, h, agreedOn, observed, schedule, c.from, k);
      var i := AcceptedBefore(h[..c.from], k);
      assert h[..c.to][i] == h[..c.from][i];
    } else {
      var i := TurnDecides(logs, h, agreedOn, observed, schedule, c.from, c.to,
                           T.Candidate(k, HeightOf(h[..c.from], k)));
      assert h[..c.to][i] == h[i];
    }
  }

  lemma {:induction false} AcceptedBefore(h: History, k: Key) returns (i: nat)
    requires Legal(h) && StageOf(h, k).Final?
    ensures i < |h| && Tells(h[i], k)
  {
    i := |h| - 1;
    if !Tells(h[i], k) {
      i := AcceptedBefore(h[..i], k);
    }
  }

  // ---------------------------------------------------------------- a run from the start

  /** Three providers have finalized the same block. */
  function Unanimous(height: Q.Height, hash: Q.Hash): Round {
    Round([Q.Finalized(height, hash), Q.Finalized(height, hash), Q.Finalized(height, hash)], [None, None, None])
  }

  lemma UnanimousAgrees(height: Q.Height, hash: Q.Hash)
    requires height + 5 < 0x1_0000_0000_0000_0000
    ensures AgreesOn(Unanimous(height, hash), 5, 2, height)
  {
    var round, ballot := Unanimous(height, hash), [Some(hash), Some(hash), Some(hash)];
    assert round.reports[0].height == height && Q.IsMax(round.reports, height);
    assert Q.Near(round.reports, 5, 0) && Q.Near(round.reports, 5, 1) && Q.Near(round.reports, 5, 2);
    Q.OneCandidate(ballot, hash, {0, 1, 2});
    assert Q.Round(round.reports, round.lookup, 5, 2, ballot, Q.Agreed(height, hash));
  }

  /** A provider that has seen one log, and nothing in the blocks before. */
  function Answering(c: L.Content): T.Answers { map height: nat | height <= c.block :: LogsIn(c, height) }

  function LogsIn(c: L.Content, height: nat): seq<L.Log> {
    if height == c.block then [L.Log(c, 0, false)] else []
  }

  function Serving(c: L.Content): T.Turn { T.Turn([], Answering(c), Answering(c), Accepted, true) }

  lemma ServingIsReliable(c: L.Content, logs: Chain)
    requires forall height :: logs(height) == if height == c.block then {c} else {}
    ensures OneHonest(logs, [Serving(c)]) && Reliable([Serving(c)], c.block)
  {
    var answers := Answering(c);
    forall height | height in answers
      ensures L.Contents(answers[height]) == if height == c.block then [c] else []
    {}
    forall n: nat | n <= c.block ensures T.Alike(Serving(c), n) {}
  }

  /** The tick that scans the block of this log when it is finalized. */
  function Finding(c: L.Content, classification: Classification): Tick
    requires c.block + 5 < 0x1_0000_0000_0000_0000
  {
    var logs := Some([L.Log(c, 0, false)]);
    Tick(true, Some(Scan(logs, logs, map[T.KeyOf(c) := Observed(classification)])), true, Unanimous(c.block, 7))
  }

  lemma FindingGoes(c: L.Content, classification: Classification)
    requires c.block + 5 < 0x1_0000_0000_0000_0000
    ensures Goes(Finding(c, classification), 5, 2)
  {
    UnanimousAgrees(c.block, 7);
    assert L.Contents([L.Log(c, 0, false)]) == [c];
  }

  /** A tracked candidate stands at a height it was detected at. */
  lemma {:induction false} DetectedAt(h: History, k: Key) returns (i: nat)
    requires Legal(h) && !StageOf(h, k).Untracked?
    ensures i < |h| && h[i].Detected? && h[i].key == k && h[i].height == HeightOf(h, k)
  {
    i := |h| - 1;
    if !(h[i].Detected? && h[i].key == k) {
      i := DetectedAt(h[..i], k);
    }
  }

  /** From a new pool and a new tracker: one tick finds a deposit, any deposit, in a finalized block,
      and ends with C1 told. */
  method FirstDeposit(c: L.Content, classification: Classification) returns (tracker: T.Tracker)
    requires c.block + 5 < 0x1_0000_0000_0000_0000 && !classification.ZeroValue?
    ensures tracker.Valid() && T.KeyOf(c) in tracker.finalized
    ensures Told(tracker.history, T.KeyOf(c))
  {
    var pool := new Q.Pool(3, 2, 5);
    tracker := new T.Tracker([], Serving(c));
    var ticks := [Finding(c, classification)];
    ghost var checks := RunLoop(pool, tracker, ticks);
    FindingGoes(c, classification);
    assert TickDone(tracker.history, ticks[0], checks[0], 5, 2);
    ghost var check := checks[0].value;
    FoundIsTold(c, classification, tracker.history, tracker.agreedOn, tracker.observed, check);
  }

  lemma FoundIsTold(c: L.Content, classification: Classification, h: History, agreedOn: set<nat>,
                    observed: set<T.Observation>, check: Check)
    requires c.block + 5 < 0x1_0000_0000_0000_0000 && !classification.ZeroValue?
    requires Legal(h) && T.Grounded(h, agreedOn, observed, [Serving(c)])
    requires FromTicks(observed, [Finding(c, classification)])
    requires TickDone(h, Finding(c, classification), Some(check), 5, 2)
    ensures StageOf(h, T.KeyOf(c)).Final?
    ensures Told(h, T.KeyOf(c))
  {
    var k, logs := T.KeyOf(c), (height: nat) => if height == c.block then {c} else {};
    var before := h[..check.from];
    UnanimousAgrees(c.block, 7);
    assert check.agreed == c.block by { OneHeight(Unanimous(c.block, 7), 5, 2, check.agreed, c.block); }
    assert L.Contents([L.Log(c, 0, false)]) == [c] && c in [c];
    ServingIsReliable(c, logs);
    LegalUpTo(h, check.from);
    FoundAtItsHeight(c, classification, before, agreedOn, observed);
    assert c in logs(c.block) && OnChain(logs, k, c.block);
    CheckDecides(h, agreedOn, observed, [Serving(c)], logs, check, k);
    assert forall i :: 0 <= i < check.to ==> h[..check.to][i] == h[i];
  }

  lemma FoundAtItsHeight(c: L.Content, classification: Classification, h: History, agreedOn: set<nat>,
                         observed: set<T.Observation>)
    requires c.block + 5 < 0x1_0000_0000_0000_0000
    requires Legal(h) && T.Grounded(h, agreedOn, observed, [Serving(c)])
    requires FromTicks(observed, [Finding(c, classification)]) && !StageOf(h, T.KeyOf(c)).Untracked?
    ensures HeightOf(h, T.KeyOf(c)) == c.block
  {
    var i := DetectedAt(h, T.KeyOf(c));
    assert T.GroundedEvent(h[i], agreedOn, observed, [Serving(c)]);
    assert !T.HasTurn([Serving(c)], h[i]);
    var o := T.Observation(h[i].key, h[i].height, h[i].classification);
    var tick :| tick in [Finding(c, classification)] && FromScan(tick.scan.value, o);
    assert L.Contents([L.Log(c, 0, false)]) == [c];
  }

  lemma OneHeight(round: Round, tolerance: Q.Height, minAgreement: nat, m: nat, n: nat)
    requires AgreesOn(round, tolerance, minAgreement, m) && AgreesOn(round, tolerance, minAgreement, n)
    ensures m == n
  {
    var ballot, r :| Q.Round(round.reports, round.lookup, tolerance, minAgreement, ballot, r) && r.height == m;
    var ballot', r' :| Q.Round(round.reports, round.lookup, tolerance, minAgreement, ballot', r') && r'.height == n;
    SameBallot(round, tolerance, r.height, ballot, r'.height, ballot');
  }
}
