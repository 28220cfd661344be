/** The deposit watcher's Tracker (depositwatcher/internal/finality/finality.go): two maps changed
    by OnLogObserved at any time and by ticks of CheckFinality one after another. Every call out of
    the process may take a while: before it returns, any observations may be delivered. */
module FinalityTracker {
  import opened Common
  import opened DepositHistory
  import L = LogAgreement

  datatype Observation = Observation(key: Key, height: nat, classification: Classification)

  datatype Candidate = Candidate(key: Key, height: nat)

  /** What a provider answers when it is asked for the logs of a block; nothing where it fails. */
  type Answers = map<nat, seq<L.Log>>

  /** One call out of the process: what arrives before it returns, and its answer, whichever call
      it is: the two providers' logs, C1's answer to OnFinal, or plain success. */
  datatype Turn = Turn(
    arrivals: seq<Observation>,
    primary: Answers,
    secondary: Answers,
    final: FinalResult,
    ok: bool)

  function KeyOf(c: L.Content): Key { Key(c.txHash, c.index) }

  function KeysOf(logs: seq<L.Log>): set<Key> { set i | 0 <= i < |logs| :: KeyOf(logs[i].content) }

  /** Both providers answered for this block, with the same logs, and these are their keys. */
  ghost predicate BothReport(t: Turn, height: nat, present: set<Key>) {
    && height in t.primary && height in t.secondary
    && multiset(L.Contents(t.primary[height])) == multiset(L.Contents(t.secondary[height]))
    && KeysOf(t.primary[height]) == present && KeysOf(t.secondary[height]) == present
  }

  /** Both answered alike, with no two different logs at one position. */
  ghost predicate Alike(t: Turn, height: nat) {
    && height in t.primary && height in t.secondary && L.NoClash(L.Contents(t.primary[height]))
    && multiset(L.Contents(t.primary[height])) == multiset(L.Contents(t.secondary[height]))
  }

  lemma SameKeys(a: seq<L.Log>, b: seq<L.Log>)
    requires multiset(L.Contents(a)) == multiset(L.Contents(b))
    ensures KeysOf(a) == KeysOf(b)
  {
    KeysFrom(a, b);
    KeysFrom(b, a);
  }

  lemma KeysFrom(a: seq<L.Log>, b: seq<L.Log>)
    requires multiset(L.Contents(a)) == multiset(L.Contents(b))
    ensures KeysOf(a) <= KeysOf(b)
  {
    forall i | 0 <= i < |a| ensures KeyOf(a[i].content) in KeysOf(b) {
      assert L.Contents(a)[i] in multiset(L.Contents(b));
      var j :| 0 <= j < |b| && L.Contents(b)[j] == L.Contents(a)[i];
      assert KeyOf(b[j].content) == KeyOf(a[i].content);
    }
  }

  /** This turn may have been behind the event: a read is what both providers answered, a failed one
      is that they did not answer alike, C1's result is its own, and a detection arrived in it. */
  ghost predicate Behind(t: Turn, e: Event) {
    match e
    case Detected(key, height, classification) => Observation(key, height, classification) in t.arrivals
    case LogsRead(height, present) => BothReport(t, height, present)
    case LogsFailed(height) => !Alike(t, height)
    case Reported(_, _, _, _, result) => t.final == result
    case _ => true
  }

  ghost predicate Arrives(schedule: seq<Turn>, o: Observation) { exists t :: t in schedule && o in t.arrivals }

  ghost predicate HasTurn(schedule: seq<Turn>, e: Event) { exists t :: t in schedule && Behind(t, e) }

  /** Some turn is behind every event but the detections between two calls, and what was reported to
      C1 was at an agreed height. */
  ghost predicate GroundedEvent(e: Event, agreedOn: set<nat>, observed: set<Observation>, schedule: seq<Turn>) {
    && (HasTurn(schedule, e) || (e.Detected? && Observation(e.key, e.height, e.classification) in observed))
    && (e.Reported? ==> e.agreed in agreedOn)
  }

  ghost predicate Grounded(h: History, agreedOn: set<nat>, observed: set<Observation>, schedule: seq<Turn>) {
    forall i :: 0 <= i < |h| ==> GroundedEvent(h[i], agreedOn, observed, schedule)
  }

  lemma GroundedMore(h: History, agreedOn: set<nat>, observed: set<Observation>, schedule: seq<Turn>, e: Event)
    requires Grounded(h, agreedOn, observed, schedule) && GroundedEvent(e, agreedOn, observed, schedule)
    ensures Grounded(h + [e], agreedOn, observed, schedule)
  {}

  lemma DetectionGrounded(o: Observation, agreedOn: set<nat>, observed: set<Observation>, schedule: seq<Turn>)
    requires o in observed || Arrives(schedule, o)
    ensures GroundedEvent(Detected(o.key, o.height, o.classification), agreedOn, observed, schedule)
  {
    var e := Detected(o.key, o.height, o.classification);
    assert Observation(e.key, e.height, e.classification) == o;
    if o !in observed {
      var t :| t in schedule && o in t.arrivals;
      assert Behind(t, e);
    }
  }

  /** The maps are what the history says, so no key is ever in both. */
  ghost predicate Consistent(pending: map<Key, Candidate>, finalized: map<Key, Candidate>, h: History) {
    && Legal(h)
    && (forall k :: k in pending <==> StageOf(h, k).Pending?)
    && (forall k :: k in finalized <==> StageOf(h, k).Final?)
    && (forall k :: k in pending ==> pending[k] == Candidate(k, HeightOf(h, k)))
    && (forall k :: k in finalized ==> finalized[k] == Candidate(k, HeightOf(h, k)))
  }

  lemma AppendedAll(h: History, e: Event)
    ensures forall k :: StageOf(h + [e], k) == if About(e, k) then Next(StageOf(h, k), e) else StageOf(h, k)
    ensures forall k :: HeightOf(h + [e], k) == if e.Detected? && e.key == k then e.height else HeightOf(h, k)
    ensures Legal(h + [e]) <==> Legal(h) && Allowed(h, e)
  {
    forall k
      ensures StageOf(h + [e], k) == if About(e, k) then Next(StageOf(h, k), e) else StageOf(h, k)
      ensures HeightOf(h + [e], k) == if e.Detected? && e.key == k then e.height else HeightOf(h, k)
    {
      Appended(h, e, k);
    }
    assert (h + [e])[..|h|] == h;
  }

  lemma Detects(pending: map<Key, Candidate>, finalized: map<Key, Candidate>, h: History, c: Candidate,
                cl: Classification)
    requires Consistent(pending, finalized, h) && c.key !in pending && c.key !in finalized && !cl.ZeroValue?
    ensures Consistent(pending[c.key := c], finalized, h + [Detected(c.key, c.height, cl)])
  {
    AppendedAll(h, Detected(c.key, c.height, cl));
  }

  lemma Leaving(pending: map<Key, Candidate>, finalized: map<Key, Candidate>, h: History, e: Event, k: Key)
    requires Consistent(pending, finalized, h) && Allowed(h, e) && About(e, k) && k in pending
    requires Next(Pending, e).Untracked?
    ensures Consistent(pending - {k}, finalized, h + [e])
  {
    AppendedAll(h, e);
  }

  lemma Finalizes(pending: map<Key, Candidate>, finalized: map<Key, Candidate>, h: History, e: Event, c: Candidate)
    requires Consistent(pending, finalized, h) && Allowed(h, e) && About(e, c.key)
      && c.key in pending && pending[c.key] == c
    requires Next(Pending, e).Final?
    ensures Consistent(pending - {c.key}, finalized[c.key := c], h + [e])
  {
    AppendedAll(h, e);
  }

  /** C1's answer: final, refused for good, or still pending. */
  lemma Reports(pending: map<Key, Candidate>, finalized: map<Key, Candidate>, h: History, e: Event, c: Candidate)
    requires Consistent(pending, finalized, h) && c.key in pending && pending[c.key] == c
    requires e.Reported? && e.key == c.key && e.height == c.height <= e.agreed
    requires c.key in e.present && LogsRead(c.height, e.present) in h
    ensures
      match e.result
      case Accepted => Consistent(pending - {c.key}, finalized[c.key := c], h + [e])
      case Permanent => Consistent(pending - {c.key}, finalized, h + [e])
      case _ => Consistent(pending, finalized, h + [e])
  {
    match e.result
    case Accepted => Finalizes(pending, finalized, h, e, c);
    case Permanent => Leaving(pending, finalized, h, e, c.key);
    case _ => Stays(pending, finalized, h, e);
  }

  lemma Forgets(pending: map<Key, Candidate>, finalized: map<Key, Candidate>, h: History, k: Key, present: set<Key>)
    requires Consistent(pending, finalized, h) && k in finalized && k !in present
    requires LogsRead(finalized[k].height, present) in h
    ensures Consistent(pending, finalized - {k}, h + [Reorged(k, present, true)])
  {
    AppendedAll(h, Reorged(k, present, true));
  }

  /** An event that changes no candidate's stage. */
  lemma Stays(pending: map<Key, Candidate>, finalized: map<Key, Candidate>, h: History, e: Event)
    requires Consistent(pending, finalized, h) && Allowed(h, e)
    requires !IsRead(e) ==> Next(StageOf(h, e.key), e) == StageOf(h, e.key)
    ensures Consistent(pending, finalized, h + [e])
  {
    AppendedAll(h, e);
  }

  /** The history goes on, and only a detection brings a candidate into pending. */
  ghost predicate Follows(pending: map<Key, Candidate>, h: History, pending': map<Key, Candidate>, h': History) {
    && Extends(h, h')
    && (Quiet(h, h') ==> forall k :: k in pending' ==> k in pending && pending'[k] == pending[k])
  }

  lemma FollowsTransitive(p0: map<Key, Candidate>, h0: History, p1: map<Key, Candidate>, h1: History,
                          p2: map<Key, Candidate>, h2: History)
    requires Follows(p0, h0, p1, h1) && Follows(p1, h1, p2, h2)
    ensures Follows(p0, h0, p2, h2)
  {
    assert forall i :: 0 <= i < |h1| ==> h2[i] == h1[i];
  }

  lemma FollowsEvent(p: map<Key, Candidate>, h: History, e: Event, p': map<Key, Candidate>)
    requires e.Detected? || forall k :: k in p' ==> k in p && p'[k] == p[k]
    ensures Follows(p, h, p', h + [e])
  {
    assert (h + [e])[|h|] == e;
  }

  lemma FollowsItself(p: map<Key, Candidate>, h: History)
    ensures Follows(p, h, p, h)
  {}

  /** The candidate's turn ended, or it met a failure that is tried again. */
  function Ending(c: Candidate): Event -> bool {
    (e: Event) => (About(e, c.key) && (Leaves(e) || ToRetry(e))) || (e.LogsFailed? && e.height == c.height)
  }

  ghost predicate Settled(h: History, h': History, c: Candidate) { Happened(h, h', Ending(c)) }

  ghost predicate AllSettled(h: History, h': History, ready: map<Key, Candidate>, keys: set<Key>)
    requires keys <= ready.Keys
  {
    forall k :: k in keys ==> Settled(h, h', ready[k])
  }

  /** What one more event that ends the candidate's turn adds to a stretch. */
  lemma EndsNow(p0: map<Key, Candidate>, h0: History, p: map<Key, Candidate>, h: History, e: Event,
                p': map<Key, Candidate>, c: Candidate)
    requires Follows(p0, h0, p, h) && Ending(c)(e) && forall k :: k in p' ==> k in p && p'[k] == p[k]
    ensures Follows(p0, h0, p', h + [e]) && Settled(h0, h + [e], c)
  {
    FollowsEvent(p, h, e, p');
    FollowsTransitive(p0, h0, p, h, p', h + [e]);
    HappenedNow(h, e, Ending(c));
    HappenedBetween(h0, h, h + [e], h + [e], Ending(c));
  }

  /** A finalized candidate was found again, or reported as reorganised, or could not be read. */
  function Rechecking(c: Candidate): Event -> bool {
    (e: Event) =>
         || (e.LogsFailed? && e.height == c.height)
         || (e.LogsRead? && e.height == c.height && c.key in e.present)
         || (e.Reorged? && e.key == c.key)
  }

  ghost predicate Rechecked(h: History, h': History, c: Candidate) { Happened(h, h', Rechecking(c)) }

  ghost predicate AllRechecked(h: History, h': History, known: map<Key, Candidate>, keys: set<Key>)
    requires keys <= known.Keys
  {
    forall k :: k in keys ==> Rechecked(h, h', known[k])
  }

  /** The candidates of one height. */
  function At(candidates: map<Key, Candidate>, height: nat): set<Key> {
    set k | k in candidates && candidates[k].height == height
  }

  /** Nothing tracked was lost or changed, except these. */
  ghost predicate KeptBut(before: map<Key, Candidate>, after: map<Key, Candidate>, gone: set<Key>) {
    forall k :: k in before && k !in gone ==> k in after && after[k] == before[k]
  }

  lemma ReadStays(h: History, h': History, height: nat, present: set<Key>)
    requires Extends(h, h') && LogsRead(height, present) in h
    ensures LogsRead(height, present) in h'
  {}

  lemma KeptTransitive(m0: map<Key, Candidate>, m1: map<Key, Candidate>, m2: map<Key, Candidate>, gone: set<Key>,
                       more: set<Key>)
    requires KeptBut(m0, m1, gone) && KeptBut(m1, m2, more)
    ensures KeptBut(m0, m2, gone + more)
  {}

  /** These candidates of one height are among the tracked. */
  ghost predicate Waiting(tracked: map<Key, Candidate>, ready: map<Key, Candidate>, keys: set<Key>, height: nat) {
    && keys <= ready.Keys
    && forall k :: k in keys ==>
      k in tracked && tracked[k] == ready[k] && ready[k].key == k && ready[k].height == height
  }

  /** In a stretch these candidates' turns ended or met a failure, and no others were touched. */
  ghost predicate Processed(p0: map<Key, Candidate>, f0: map<Key, Candidate>, h0: History, p: map<Key, Candidate>,
                            f: map<Key, Candidate>, h: History, ready: map<Key, Candidate>, keys: set<Key>)
  {
    && keys <= ready.Keys && Follows(p0, h0, p, h) && KeptBut(p0, p, keys) && KeptBut(f0, f, {})
    && AllSettled(h0, h, ready, keys)
  }

  lemma ProcessedMore(p0: map<Key, Candidate>, f0: map<Key, Candidate>, h0: History, p: map<Key, Candidate>,
                      f: map<Key, Candidate>, h: History, p': map<Key, Candidate>, f': map<Key, Candidate>,
                      h': History, ready: map<Key, Candidate>, done: set<Key>, more: set<Key>)
    requires Processed(p0, f0, h0, p, f, h, ready, done) && Processed(p, f, h, p', f', h', ready, more)
    ensures Processed(p0, f0, h0, p', f', h', ready, done + more)
    ensures forall keys, height :: Waiting(p, ready, keys, height) ==> Waiting(p', ready, keys - more, height)
  {
    KeptTransitive(p0, p, p', done, more);
    KeptTransitive(f0, f, f', {}, {});
    FollowsTransitive(p0, h0, p, h, p', h');
    forall k | k in done + more ensures Settled(h0, h', ready[k]) {
      if k in done { HappenedBetween(h0, h0, h, h', Ending(ready[k])); }
      else { HappenedBetween(h0, h, h', h', Ending(ready[k])); }
    }
  }

  /** In a stretch these final deposits were found again, reported or not readable; no others and no
      pending candidates were touched. */
  ghost predicate Reread(p0: map<Key, Candidate>, f0: map<Key, Candidate>, h0: History, p: map<Key, Candidate>,
                         f: map<Key, Candidate>, h: History, known: map<Key, Candidate>, keys: set<Key>)
  {
    && keys <= known.Keys && Follows(p0, h0, p, h) && KeptBut(p0, p, {}) && KeptBut(f0, f, keys)
    && AllRechecked(h0, h, known, keys)
  }

  lemma RereadMore(p0: map<Key, Candidate>, f0: map<Key, Candidate>, h0: History, p: map<Key, Candidate>,
                   f: map<Key, Candidate>, h: History, p': map<Key, Candidate>, f': map<Key, Candidate>, h': History,
                   known: map<Key, Candidate>, done: set<Key>, more: set<Key>, todo: set<Key>, height: nat)
    requires Waiting(f, known, todo, height)
    requires Reread(p0, f0, h0, p, f, h, known, done) && Reread(p, f, h, p', f', h', known, more)
    ensures Reread(p0, f0, h0, p', f', h', known, done + more)
    ensures Waiting(f', known, todo - more, height)
  {
    KeptTransitive(p0, p, p', {}, {});
    KeptTransitive(f0, f, f', done, more);
    FollowsTransitive(p0, h0, p, h, p', h');
    forall k | k in done + more ensures Rechecked(h0, h', known[k]) {
      if k in done { HappenedBetween(h0, h0, h, h', Rechecking(known[k])); }
      else { HappenedBetween(h0, h, h', h', Rechecking(known[k])); }
    }
  }

  /** The candidates of these heights are all pending still; the rest are done. */
  ghost predicate Left(pending: map<Key, Candidate>, ready: map<Key, Candidate>, heights: set<nat>, done: set<Key>) {
    && done <= ready.Keys && (forall k :: k in ready ==> (k in done <==> ready[k].height !in heights))
    && forall height :: height in heights ==> Waiting(pending, ready, At(ready, height), height)
  }

  lemma LessLeft(p: map<Key, Candidate>, p': map<Key, Candidate>, ready: map<Key, Candidate>, heights: set<nat>,
                 height: nat, done: set<Key>)
    requires Left(p, ready, heights, done) && height in heights && KeptBut(p, p', At(ready, height))
    ensures Left(p', ready, heights - {height}, done + At(ready, height))
  {}

  lemma AllLeft(pending: map<Key, Candidate>, ready: map<Key, Candidate>, heights: set<nat>)
    requires heights == set k | k in ready :: ready[k].height
    requires forall k :: k in ready ==> ready[k].key == k && k in pending && pending[k] == ready[k]
    ensures Left(pending, ready, heights, {})
  {}

  class Tracker {
    var pending: map<Key, Candidate>
    var finalized: map<Key, Candidate>
    var turns: seq<Turn>
    ghost var history: History
    const rest: Turn                      // every turn once those are used up
    ghost const schedule: seq<Turn>       // all the turns there are
    ghost var agreedOn: set<nat>          // the heights LatestFinalized agreed on
    ghost var observed: set<Observation>  // what was observed between two calls

    ghost predicate Valid() reads this {
      && Consistent(pending, finalized, history) && Grounded(history, agreedOn, observed, schedule)
      && rest in schedule && forall t :: t in turns ==> t in schedule
    }

    constructor (turns: seq<Turn>, rest: Turn)
      ensures Valid() && pending == finalized == map[] && history == [] && agreedOn == {} && observed == {}
      ensures this.turns == turns && schedule == turns + [rest]
    {
      pending, finalized, history, agreedOn, observed := map[], map[], [], {}, {};
      this.turns, this.rest, schedule := turns, rest, turns + [rest];
    }

    /** PendingCount and FinalizedCount: with the candidates that met their end they make up every
        detection there ever was. */
    lemma CountsAddUp()
      requires Valid()
      ensures Count(history, DETECTED) ==
        |pending| + |finalized| + Count(history, DROPPED) + Count(history, REFUSED)
          + Count(history, RECORDED) + Count(history, REVERSED)
    {
      forall k ensures k in Tracked(history) <==> k in pending || k in finalized { TrackedIsStage(history, k); }
      assert Tracked(history) == pending.Keys + finalized.Keys;
      FatesAddUp(history);
    }

    /** Idempotent on the key; a zero-value transfer is never tracked. */
    method OnLogObserved(log: Observation)
      requires Valid()
      modifies this`pending, this`history, this`observed
      ensures Valid() && observed == old(observed) + {log}
      ensures
        if log.key in old(pending) || log.key in finalized || log.classification.ZeroValue? then
          pending == old(pending) && history == old(history)
        else
          (pending == old(pending)[log.key := Candidate(log.key, log.height)]
           && history == old(history) + [Detected(log.key, log.height, log.classification)])
    {
      observed := observed + {log};
      Track(log);
    }

    method Track(log: Observation)
      requires Valid() && (log in observed || Arrives(schedule, log))
      modifies this`pending, this`history
      ensures Valid()
      ensures
        if log.key in old(pending) || log.key in finalized || log.classification.ZeroValue? then
          pending == old(pending) && history == old(history)
        else
          (pending == old(pending)[log.key := Candidate(log.key, log.height)]
           && history == old(history) + [Detected(log.key, log.height, log.classification)])
    {
      if log.key in finalized || log.key in pending || log.classification.ZeroValue? { return; }
      var c := Candidate(log.key, log.height);
      DetectionGrounded(log, agreedOn, observed, schedule);
      GroundedMore(history, agreedOn, observed, schedule, Detected(log.key, log.height, log.classification));
      Detects(pending, finalized, history, c, log.classification);
      pending := pending[log.key := c];
      history := history + [Detected(log.key, log.height, log.classification)];
    }

    /** A call out of the process. */
    method Call() returns (turn: Turn)
      requires Valid()
      modifies this`pending, this`history, this`turns
      ensures Valid() && KeptBut(old(pending), pending, {})
      ensures Follows(old(pending), old(history), pending, history)
      ensures turn in schedule
    {
      turn := rest;
      if |turns| > 0 {
        turn := turns[0];
        turns := turns[1..];
      }
      for i := 0 to |turn.arrivals|
        invariant Valid() && KeptBut(old(pending), pending, {})
        invariant Follows(old(pending), old(history), pending, history)
      {
        ghost var p, h := pending, history;
        Track(turn.arrivals[i]);
        if history != h {
          FollowsEvent(p, h, Detected(turn.arrivals[i].key, turn.arrivals[i].height, turn.arrivals[i].classification),
            pending);
          FollowsTransitive(old(pending), old(history), p, h, pending, history);
        }
      }
    }

    /** LogsAt for one block, as a set of keys. */
    method ReadLogs(turn: Turn, height: nat) returns (present: Option<set<Key>>)
      ensures if present.Some? then BothReport(turn, height, present.value) else !Alike(turn, height)
    {
      var primary := if height in turn.primary then Some(turn.primary[height]) else None;
      var secondary := if height in turn.secondary then Some(turn.secondary[height]) else None;
      var logs := L.LogsAt(primary, secondary);
      if logs.None? { return None; }
      SameKeys(logs.value, turn.primary[height]);
      SameKeys(logs.value, turn.secondary[height]);
      present := Some(KeysOf(logs.value));
    }

    /** The log is gone before finality: dropped in silence. */
    method Drop(c: Candidate, ghost present: set<Key>)
      requires Valid() && c.key in pending && pending[c.key] == c
      requires c.key !in present && LogsRead(c.height, present) in history
      modifies this`pending, this`history
      ensures Valid() && KeptBut(old(pending), pending, {c.key})
      ensures Follows(old(pending), old(history), pending, history) && Settled(old(history), history, c)
    {
      ghost var e := Missing(c.key, present);
      assert Behind(rest, e);
      Leaving(pending, finalized, history, e, c.key);
      FollowsEvent(pending, history, e, pending - {c.key});
      HappenedNow(history, e, Ending(c));
      pending := pending - {c.key};
      history := history + [e];
    }

    /** OnFinal, and what its answer means for the candidate. */
    method Finalize(c: Candidate, agreed: nat, present: set<Key>)
      requires Valid() && c.key in pending && pending[c.key] == c && c.height <= agreed && c.key in present
      requires agreed in agreedOn && LogsRead(c.height, present) in history
      modifies this`pending, this`finalized, this`history, this`turns
      ensures Valid() && KeptBut(old(pending), pending, {c.key}) && KeptBut(old(finalized), finalized, {})
      ensures Follows(old(pending), old(history), pending, history) && Settled(old(history), history, c)
    {
      var orphaned := Report(c, agreed, present);
      if orphaned {
        ghost var p, h := pending, history;
        RecordOrphan(c);
        FollowsTransitive(old(pending), old(history), p, h, pending, history);
        HappenedBetween(old(history), h, history, history, Ending(c));
      }
    }

    method Report(c: Candidate, agreed: nat, present: set<Key>) returns (orphaned: bool)
      requires Valid() && c.key in pending && pending[c.key] == c && c.height <= agreed && c.key in present
      requires agreed in agreedOn && LogsRead(c.height, present) in history
      modifies this`pending, this`finalized, this`history, this`turns
      ensures Valid() && KeptBut(old(pending), pending, {c.key}) && KeptBut(old(finalized), finalized, {})
      ensures Follows(old(pending), old(history), pending, history)
      ensures
        if orphaned then c.key in pending && pending[c.key] == c && WasOrphaned(history, c.key)
        else Settled(old(history), history, c)
    {
      var turn := Call();
      ghost var p, h := pending, history;
      ghost var e := Reported(c.key, c.height, agreed, present, turn.final);
      assert Behind(turn, e);
      Reports(pending, finalized, history, e, c);
      match turn.final {
        case Accepted =>
          finalized := finalized[c.key := c];
          pending := pending - {c.key};
        case Permanent =>
          pending := pending - {c.key};
        case Orphaned | Retry =>
      }
      orphaned := turn.final.Orphaned?;
      history := h + [e];
      if orphaned {
        assert Orphans(history[|h|], c.key);
        FollowsEvent(p, h, e, pending);
        FollowsTransitive(old(pending), old(history), p, h, pending, history);
      } else {
        EndsNow(old(pending), old(history), p, h, e, pending, c);
      }
    }

    /** HandleUnreportable: tracked until the orphaned deposit is recorded. */
    method RecordOrphan(c: Candidate)
      requires Valid() && c.key in pending && pending[c.key] == c && WasOrphaned(history, c.key)
      modifies this`pending, this`history, this`turns
      ensures Valid() && KeptBut(old(pending), pending, {c.key})
      ensures Follows(old(pending), old(history), pending, history) && Settled(old(history), history, c)
    {
      var turn := Call();
      ghost var p, h := pending, history;
      ghost var e := Recorded(c.key, turn.ok);
      assert Behind(turn, e);
      if turn.ok {
        Leaving(pending, finalized, history, e, c.key);
        pending := pending - {c.key};
      } else {
        Stays(pending, finalized, history, e);
      }
      EndsNow(old(pending), old(history), p, h, e, pending, c);
      history := h + [e];
    }

    /** A read of one height that failed: its candidates stay. */
    method Unverified(height: nat, ghost turn: Turn)
      requires Valid() && turn in schedule && !Alike(turn, height)
      modifies this`history
      ensures Valid() && Follows(pending, old(history), pending, history)
      ensures history == old(history) + [LogsFailed(height)]
    {
      ghost var e := LogsFailed(height);
      assert Behind(turn, e);
      Stays(pending, finalized, history, e);
      FollowsEvent(pending, history, e, pending);
      history := history + [e];
    }

    /** A read of one height two providers agree on. */
    method Verified(height: nat, ghost present: set<Key>, ghost turn: Turn)
      requires Valid() && turn in schedule && BothReport(turn, height, present)
      modifies this`history
      ensures Valid() && Follows(pending, old(history), pending, history)
      ensures history == old(history) + [LogsRead(height, present)]
    {
      ghost var e := LogsRead(height, present);
      assert Behind(turn, e);
      Stays(pending, finalized, history, e);
      FollowsEvent(pending, history, e, pending);
      history := history + [e];
    }

    /** The candidates of one height, against a fresh read of that height. */
    method VerifyHeight(ready: map<Key, Candidate>, height: nat, agreed: nat)
      requires Valid() && height <= agreed && agreed in agreedOn
      requires Waiting(pending, ready, At(ready, height), height)
      modifies this`pending, this`finalized, this`history, this`turns
      ensures Valid()
      ensures Processed(old(pending), old(finalized), old(history), pending, finalized, history,
                        ready, At(ready, height))
    {
      var turn := Call();
      ghost var p, h := pending, history;
      var logs := ReadLogs(turn, height);
      match logs {
        case None =>
          Unverified(height, turn);
          forall k | k in At(ready, height) ensures Settled(h, history, ready[k]) {
            HappenedNow(h, LogsFailed(height), Ending(ready[k]));
          }
        case Some(present) =>
          Verified(height, present, turn);
          FollowsTransitive(old(pending), old(history), p, h, pending, history);
          p, h := pending, history;
          CheckCandidates(ready, At(ready, height), height, agreed, present);
      }
      FollowsTransitive(old(pending), old(history), p, h, pending, history);
      forall k | k in At(ready, height) ensures Settled(old(history), history, ready[k]) {
        HappenedBetween(old(history), h, history, history, Ending(ready[k]));
      }
    }

    /** Each candidate of a height is dropped or finalized, whatever the order. */
    method CheckCandidates(ready: map<Key, Candidate>, keys: set<Key>, height: nat, agreed: nat, present: set<Key>)
      requires Valid() && height <= agreed && agreed in agreedOn && LogsRead(height, present) in history
      requires Waiting(pending, ready, keys, height)
      modifies this`pending, this`finalized, this`history, this`turns
      ensures Valid() && Processed(old(pending), old(finalized), old(history), pending, finalized, history, ready, keys)
    {
      var todo := keys;
      ghost var p0, f0, h0, done := pending, finalized, history, {};
      while todo != {}
        invariant Valid() && todo <= keys && done == keys - todo && LogsRead(height, present) in history
        invariant Processed(p0, f0, h0, pending, finalized, history, ready, done)
        invariant Waiting(pending, ready, todo, height)
        decreases todo
      {
        var k :| k in todo;
        ghost var p, f, h := pending, finalized, history;
        CheckOne(ready[k], agreed, present);
        ProcessedMore(p0, f0, h0, p, f, h, pending, finalized, history, ready, done, {k});
        ReadStays(h, history, height, present);
        todo := todo - {k};
        done := done + {k};
      }
    }

    method CheckOne(c: Candidate, agreed: nat, present: set<Key>)
      requires Valid() && c.key in pending && pending[c.key] == c && c.height <= agreed
      requires agreed in agreedOn && LogsRead(c.height, present) in history
      modifies this`pending, this`finalized, this`history, this`turns
      ensures Valid() && KeptBut(old(pending), pending, {c.key}) && KeptBut(old(finalized), finalized, {})
      ensures Follows(old(pending), old(history), pending, history) && Settled(old(history), history, c)
    {
      if c.key !in present {
        Drop(c, present);
      } else {
        Finalize(c, agreed, present);
      }
    }

    /** readyCandidates. */
    function Ready(agreed: nat): map<Key, Candidate> reads this {
      map k | k in pending && pending[k].height <= agreed :: pending[k]
    }

    /** Every candidate at or below the agreed height is taken up, height by height. */
    method Promote(agreed: nat)
      requires Valid() && agreed in agreedOn
      modifies this`pending, this`finalized, this`history, this`turns
      ensures Valid()
      ensures Processed(old(pending), old(finalized), old(history), pending, finalized, history,
                        old(pending), old(Ready(agreed)).Keys)
    {
      var ready := Ready(agreed);
      var heights := set k | k in ready :: ready[k].height;
      ghost var p0, f0, h0, done := pending, finalized, history, {};
      AllLeft(pending, ready, heights);
      while heights != {}
        invariant Valid() && forall height :: height in heights ==> height <= agreed
        invariant Left(pending, ready, heights, done)
        invariant Processed(p0, f0, h0, pending, finalized, history, ready, done)
        decreases heights
      {
        var height :| height in heights;
        ghost var p, f, h := pending, finalized, history;
        VerifyHeight(ready, height, agreed);
        ProcessedMore(p0, f0, h0, p, f, h, pending, finalized, history, ready, done, At(ready, height));
        LessLeft(p, pending, ready, heights, height, done);
        heights := heights - {height};
        done := done + At(ready, height);
      }
      assert done == ready.Keys;
    }

    /** handlePostFinalReorg: remembered until C1 has taken the report. */
    method HandlePostFinalReorg(c: Candidate, ghost present: set<Key>)
      requires Valid() && c.key in finalized && finalized[c.key] == c
      requires c.key !in present && LogsRead(c.height, present) in history
      modifies this`pending, this`finalized, this`history, this`turns
      ensures Valid() && KeptBut(old(pending), pending, {}) && KeptBut(old(finalized), finalized, {c.key})
      ensures Follows(old(pending), old(history), pending, history) && Rechecked(old(history), history, c)
    {
      var turn := Call();
      ghost var p, h := pending, history;
      ghost var e := Reorged(c.key, present, turn.ok);
      assert Behind(turn, e);
      if turn.ok {
        Forgets(pending, finalized, history, c.key, present);
        finalized := finalized - {c.key};
      } else {
        Stays(pending, finalized, history, e);
      }
      HappenedNow(h, e, Rechecking(c));
      HappenedBetween(old(history), h, h + [e], h + [e], Rechecking(c));
      FollowsEvent(p, h, e, pending);
      FollowsTransitive(old(pending), old(history), p, h, pending, h + [e]);
      history := h + [e];
    }

    /** The finalized candidates of one height, against a fresh read of that height. */
    method RecheckHeight(known: map<Key, Candidate>, height: nat)
      requires Valid() && forall k :: k in known ==> known[k].key == k
      requires forall k :: k in At(known, height) ==> k in finalized && finalized[k] == known[k]
      modifies this`pending, this`finalized, this`history, this`turns
      ensures Valid() && KeptBut(old(pending), pending, {}) && KeptBut(old(finalized), finalized, At(known, height))
      ensures Follows(old(pending), old(history), pending, history)
      ensures forall k :: k in At(known, height) ==> Rechecked(old(history), history, known[k])
    {
      var turn := Call();
      ghost var p, h := pending, history;
      var logs := ReadLogs(turn, height);
      match logs {
        case None =>
          Unverified(height, turn);
          forall k | k in At(known, height) ensures Rechecked(h, history, known[k]) {
            HappenedNow(h, LogsFailed(height), Rechecking(known[k]));
          }
        case Some(present) =>
          Verified(height, present, turn);
          FollowsTransitive(old(pending), old(history), p, h, pending, history);
          FoundAgain(h, known, height, present);
          ghost var h1 := history;
          p := pending;
          ReportMissing(known, height, At(known, height) - present, present);
          forall k | k in At(known, height) ensures Rechecked(h, history, known[k]) {
            if k in present { HappenedBetween(h, h, h1, history, Rechecking(known[k])); }
            else { HappenedBetween(h, h1, history, history, Rechecking(known[k])); }
          }
          FollowsTransitive(old(pending), old(history), p, h1, pending, history);
      }
      if logs.None? { FollowsTransitive(old(pending), old(history), p, h, pending, history); }
      forall k | k in At(known, height) ensures Rechecked(old(history), history, known[k]) {
        HappenedBetween(old(history), h, history, history, Rechecking(known[k]));
      }
    }

    method ReportMissing(known: map<Key, Candidate>, ghost height: nat, missing: set<Key>, ghost present: set<Key>)
      requires Valid() && LogsRead(height, present) in history && forall k :: k in missing ==> k !in present
      requires Waiting(finalized, known, missing, height)
      modifies this`pending, this`finalized, this`history, this`turns
      ensures Valid()
      ensures Reread(old(pending), old(finalized), old(history), pending, finalized, history, known, missing)
    {
      var todo := missing;
      ghost var p0, f0, h0 := pending, finalized, history;
      while todo != {}
        invariant Valid() && todo <= missing && LogsRead(height, present) in history
        invariant Reread(p0, f0, h0, pending, finalized, history, known, missing - todo)
        invariant Waiting(finalized, known, todo, height)
        decreases todo
      {
        var k :| k in todo;
        ghost var p, f, h := pending, finalized, history;
        ReportOne(known, k, present);
        RereadMore(p0, f0, h0, p, f, h, pending, finalized, history, known, missing - todo, {k}, todo, height);
        ReadStays(h, history, height, present);
        assert missing - (todo - {k}) == missing - todo + {k};
        todo := todo - {k};
      }
    }

    method ReportOne(known: map<Key, Candidate>, k: Key, ghost present: set<Key>)
      requires Valid() && k in known && k in finalized && finalized[k] == known[k] && known[k].key == k
      requires k !in present && LogsRead(known[k].height, present) in history
      modifies this`pending, this`finalized, this`history, this`turns
      ensures Valid()
      ensures Reread(old(pending), old(finalized), old(history), pending, finalized, history, known, {k})
    {
      HandlePostFinalReorg(known[k], present);
    }

    lemma FoundAgain(h: History, known: map<Key, Candidate>, height: nat, present: set<Key>)
      requires forall k :: k in known ==> known[k].key == k
      ensures forall k :: k in At(known, height) && k in present ==>
        Rechecked(h, h + [LogsRead(height, present)], known[k])
    {
      forall k | k in At(known, height) && k in present
        ensures Rechecked(h, h + [LogsRead(height, present)], known[k])
      {
        HappenedNow(h, LogsRead(height, present), Rechecking(known[k]));
      }
    }

    /** checkPostFinalReorgs: every finalized candidate, height by height. */
    method CheckPostFinalReorgs()
      requires Valid()
      modifies this`pending, this`finalized, this`history, this`turns
      ensures Valid() && KeptBut(old(pending), pending, {})
      ensures Follows(old(pending), old(history), pending, history)
      ensures forall k :: k in old(finalized) ==> Rechecked(old(history), history, old(finalized)[k])
    {
      var known := finalized;
      var heights := set k | k in known :: known[k].height;
      FollowsItself(pending, history);
      ghost var done: set<Key> := {};
      while heights != {}
        invariant Valid() && KeptBut(old(pending), pending, {}) && KeptBut(known, finalized, done)
        invariant done <= known.Keys && forall k :: k in known ==> (k in done <==> known[k].height !in heights)
        invariant Follows(old(pending), old(history), pending, history)
        invariant forall k :: k in done ==> Rechecked(old(history), history, known[k])
        decreases |heights|
      {
        var height :| height in heights;
        ghost var p, h := pending, history;
        RecheckHeight(known, height);
        heights := heights - {height};
        FollowsTransitive(old(pending), old(history), p, h, pending, history);
        forall k | k in done + At(known, height) ensures Rechecked(old(history), history, known[k]) {
          if k in done { HappenedBetween(old(history), old(history), h, history, Rechecking(known[k])); }
          else { HappenedBetween(old(history), h, history, history, Rechecking(known[k])); }
        }
        done := done + At(known, height);
      }
    }

    /** One tick. Without agreement nothing happens. With it, every candidate that was pending at or
        below the agreed height leaves pending in this tick or meets a failure that the next tick
        retries, and every deposit that was final is found again, reported, or could not be read. */
    method CheckFinality(agreed: Option<nat>) returns (ok: bool)
      requires Valid()
      modifies this`pending, this`finalized, this`history, this`turns, this`agreedOn
      ensures Valid() && (ok <==> agreed.Some?)
      ensures !ok ==> pending == old(pending) && finalized == old(finalized) && history == old(history)
      ensures agreedOn == old(agreedOn) + if agreed.Some? then {agreed.value} else {}
      ensures Follows(old(pending), old(history), pending, history)
      ensures ok ==> AllSettled(old(history), history, old(pending), old(Ready(agreed.value)).Keys)
      ensures ok && Quiet(old(history), history) && !Happened(old(history), history, ToRetry) ==>
        forall k :: k in pending ==> pending[k].height > agreed.value
      ensures ok ==> forall k :: k in old(finalized) ==> Rechecked(old(history), history, old(finalized)[k])
    {
      ok := agreed.Some?;
      FollowsItself(pending, history);
      if !ok { return; }
      agreedOn := agreedOn + {agreed.value};
      ghost var p0, h0, f0 := pending, history, finalized;
      Promote(agreed.value);
      ghost var p, h := pending, history;
      CheckPostFinalReorgs();
      FollowsTransitive(p0, h0, p, h, pending, history);
      AllLater(h0, h, history, p0, old(Ready(agreed.value)).Keys, f0);
      NothingReadyLeft(p0, h0, pending, finalized, history, agreed.value);
    }

    lemma AllLater(h0: History, h: History, h': History, p0: map<Key, Candidate>, ready: set<Key>,
                   f0: map<Key, Candidate>)
      requires Extends(h0, h) && Extends(h, h') && ready <= p0.Keys
      requires AllSettled(h0, h, p0, ready)
      requires forall k :: k in f0 ==> Rechecked(h, h', f0[k])
      ensures AllSettled(h0, h', p0, ready)
      ensures forall k :: k in f0 ==> Rechecked(h0, h', f0[k])
    {
      forall k | k in ready ensures Settled(h0, h', p0[k]) {
        HappenedBetween(h0, h0, h, h', Ending(p0[k]));
      }
      forall k | k in f0 ensures Rechecked(h0, h', f0[k]) {
        HappenedBetween(h0, h, h', h', Rechecking(f0[k]));
      }
    }

    /** Settled without anything to retry or any new detection: gone from pending. */
    lemma NothingReadyLeft(p0: map<Key, Candidate>, h0: History, p: map<Key, Candidate>, f: map<Key, Candidate>,
                           h: History, agreed: nat)
      requires Follows(p0, h0, p, h) && Consistent(p, f, h)
      requires forall k :: k in p0 && p0[k].height <= agreed ==> p0[k].key == k && Settled(h0, h, p0[k])
      ensures Quiet(h0, h) && !Happened(h0, h, ToRetry) ==> forall k :: k in p ==> p[k].height > agreed
    {
      if Quiet(h0, h) && !Happened(h0, h, ToRetry) {
        forall k | k in p ensures p[k].height > agreed {
          if p0[k].height <= agreed {
            var i :| |h0| <= i < |h| && Ending(p0[k])(h[i]);
            assert !ToRetry(h[i]);
            var left := (e: Event) => About(e, k) && Leaves(e);
            assert left(h[i]) && Happened(h0, h, left);
            LeftStaysOut(h0, h, k);
          }
        }
      }
    }
  }
}
