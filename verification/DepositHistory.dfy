/** What may happen to a deposit candidate of the watcher
    (depositwatcher/internal/finality/finality.go): the history of its outside effects, and what a
    legal history implies. */
module DepositHistory {
  import opened Common

  /** (tx_hash, log_index): one log, for good. */
  datatype Key = Key(txHash: nat, logIndex: nat)

  datatype Classification = Exact | Overpay | Underpay | Dust | ZeroValue

  /** What OnFinal makes of a candidate. */
  datatype FinalResult = Accepted | Retry | Permanent | Orphaned

  datatype Event =
    | Detected(key: Key, height: nat, classification: Classification)
    | LogsFailed(height: nat)
    | LogsRead(height: nat, present: set<Key>)
    | Missing(key: Key, present: set<Key>)
    | Reported(key: Key, height: nat, agreed: nat, present: set<Key>, result: FinalResult)
    | Recorded(key: Key, ok: bool)
    | Reorged(key: Key, present: set<Key>, ok: bool)

  type History = seq<Event>

  datatype Stage = Untracked | Pending | Final

  predicate IsRead(e: Event) { e.LogsFailed? || e.LogsRead? }

  predicate About(e: Event, k: Key) { !IsRead(e) && e.key == k }

  /** The stage an event of its own key moves a candidate to. */
  function Next(stage: Stage, e: Event): Stage {
    match e
    case Detected(_, _, _) => Pending
    case Missing(_, _) => Untracked
    case Reported(_, _, _, _, result) =>
      (match result case Accepted => Final case Permanent => Untracked case _ => stage)
    case Recorded(_, ok) => if ok then Untracked else stage
    case Reorged(_, _, ok) => if ok then Untracked else stage
    case _ => stage
  }

  function StageOf(h: History, k: Key): Stage {
    if h == [] then Untracked
    else
      var e := h[|h| - 1];
      var before := StageOf(h[..|h| - 1], k);
      if About(e, k) then Next(before, e) else before
  }

  /** The height a candidate was last detected at. */
  function HeightOf(h: History, k: Key): nat {
    if h == [] then 0
    else if h[|h| - 1].Detected? && h[|h| - 1].key == k then h[|h| - 1].height
    else HeightOf(h[..|h| - 1], k)
  }

  /** Each event finds its candidate in the right stage: a candidate is detected once while it is
      tracked and never at zero value; it is reported only with the height it was detected at, at or
      below the agreed height, with its log seen again in a read of that height; given up before
      finality only when a read of that height lacks its log, or recorded after C1 answered that its
      order is closed; and reported as reorganised only after finality and only when a read of its
      height lacks its log. */
  ghost predicate Allowed(h: History, e: Event) {
    match e
    case Detected(k, _, c) => StageOf(h, k).Untracked? && !c.ZeroValue?
    case Missing(k, present) =>
      StageOf(h, k).Pending? && k !in present && LogsRead(HeightOf(h, k), present) in h
    case Reported(k, height, agreed, present, _) =>
      StageOf(h, k).Pending? && height == HeightOf(h, k) <= agreed && k in present && LogsRead(height, present) in h
    case Recorded(k, _) => StageOf(h, k).Pending? && WasOrphaned(h, k)
    case Reorged(k, present, _) => StageOf(h, k).Final? && k !in present && LogsRead(HeightOf(h, k), present) in h
    case _ => true
  }

  predicate Orphans(e: Event, k: Key) { e.Reported? && e.key == k && e.result.Orphaned? }

  ghost predicate WasOrphaned(h: History, k: Key) { exists i :: 0 <= i < |h| && Orphans(h[i], k) }

  ghost predicate Legal(h: History) {
    h == [] || (Legal(h[..|h| - 1]) && Allowed(h[..|h| - 1], h[|h| - 1]))
  }

  lemma {:induction false} LegalUpTo(h: History, i: nat)
    requires Legal(h) && i <= |h|
    ensures Legal(h[..i])
    ensures i < |h| ==> Allowed(h[..i], h[i]) && h[..i + 1] == h[..i] + [h[i]]
    decreases |h|
  {
    if i == |h| {
      assert h[..i] == h;
    } else if i < |h| - 1 {
      LegalUpTo(h[..|h| - 1], i);
      assert h[..|h| - 1][..i] == h[..i] && h[..|h| - 1][..i + 1] == h[..i + 1];
    }
  }

  lemma Appended(h: History, e: Event, k: Key)
    ensures StageOf(h + [e], k) == if About(e, k) then Next(StageOf(h, k), e) else StageOf(h, k)
    ensures HeightOf(h + [e], k) == if e.Detected? && e.key == k then e.height else HeightOf(h, k)
    ensures Legal(h + [e]) <==> Legal(h) && Allowed(h, e)
  {
    assert (h + [e])[..|h|] == h;
  }

  // ---------------------------------------------------------------- finality and its reversal

  /** The calls C1 saw succeed for one deposit: true for OnFinal, false for ReportReorg. */
  function Effects(h: History, k: Key): seq<bool> {
    if h == [] then []
    else
      var e := h[|h| - 1];
      Effects(h[..|h| - 1], k) +
      if About(e, k) && e.Reported? && e.result.Accepted? then [true]
      else if About(e, k) && e.Reorged? && e.ok then [false]
      else []
  }

  /** For every deposit, OnFinal and ReportReorg succeed in strict alternation, OnFinal first, and
      the last one tells whether the deposit now counts as final. */
  lemma {:induction false} FinalAndReorgAlternate(h: History, k: Key)
    requires Legal(h)
    ensures
      var effects := Effects(h, k);
      && (forall i :: 0 <= i < |effects| ==> (effects[i] <==> i % 2 == 0))
      && (StageOf(h, k).Final? <==> |effects| % 2 == 1)
  {
    if h != [] {
      FinalAndReorgAlternate(h[..|h| - 1], k);
    }
  }

  // ---------------------------------------------------------------- every candidate has one fate

  ghost function Tracked(h: History): set<Key> {
    if h == [] then {}
    else
      var e := h[|h| - 1];
      var before := Tracked(h[..|h| - 1]);
      if IsRead(e) then before
      else if Next(StageOf(h[..|h| - 1], e.key), e).Untracked? then before - {e.key}
      else before + {e.key}
  }

  lemma {:induction false} TrackedIsStage(h: History, k: Key)
    requires Legal(h)
    ensures k in Tracked(h) <==> !StageOf(h, k).Untracked?
  {
    if h != [] { TrackedIsStage(h[..|h| - 1], k); }
  }

  /** The ways a candidate stops being tracked. */
  predicate Ends(e: Event) {
    || e.Missing?
    || (e.Reported? && e.result.Permanent?)
    || (e.Recorded? && e.ok)
    || (e.Reorged? && e.ok)
  }

  function Count(h: History, p: Event -> bool): nat {
    if h == [] then 0 else Count(h[..|h| - 1], p) + if p(h[|h| - 1]) then 1 else 0
  }

  const DETECTED := (e: Event) => e.Detected?
  const DROPPED := (e: Event) => e.Missing?
  const REFUSED := (e: Event) => e.Reported? && e.result.Permanent?
  const RECORDED := (e: Event) => e.Recorded? && e.ok
  const REVERSED := (e: Event) => e.Reorged? && e.ok

  /** Detections are exactly accounted for: still tracked, dropped before finality, refused for
      good, recorded as orphaned, or reversed after finality. */
  lemma {:induction false} FatesAddUp(h: History)
    requires Legal(h)
    ensures Count(h, DETECTED) ==
      |Tracked(h)| + Count(h, DROPPED) + Count(h, REFUSED) + Count(h, RECORDED) + Count(h, REVERSED)
  {
    if h != [] {
      var rest, e := h[..|h| - 1], h[|h| - 1];
      FatesAddUp(rest);
      if !IsRead(e) {
        TrackedIsStage(rest, e.key);
        var stage := Next(StageOf(rest, e.key), e);
        if stage.Untracked? {
          assert Ends(e) && |Tracked(h)| == |Tracked(rest)| - 1;
        } else if e.Detected? {
          assert |Tracked(h)| == |Tracked(rest)| + 1;
        } else {
          assert Tracked(h) == Tracked(rest);
        }
      }
    }
  }

  // ---------------------------------------------------------------- what a stretch of history did

  /** Something here is to be tried again. */
  predicate ToRetry(e: Event) { e.LogsFailed? || (e.Reported? && e.result.Retry?) || (e.Recorded? && !e.ok) }

  /** The candidate of this event leaves the pending stage. */
  predicate Leaves(e: Event) { Ends(e) || (e.Reported? && e.result.Accepted?) }

  /** The later history goes on from the earlier one. */
  ghost predicate Extends(h: History, h': History) { h <= h' }

  /** Such an event was added. */
  ghost predicate Happened(h: History, h': History, p: Event -> bool) {
    Extends(h, h') && exists i :: |h| <= i < |h'| && p(h'[i])
  }

  lemma HappenedBetween(h0: History, h1: History, h2: History, h3: History, p: Event -> bool)
    requires Extends(h0, h1) && Happened(h1, h2, p) && Extends(h2, h3)
    ensures Happened(h0, h3, p)
  {
    var i :| |h1| <= i < |h2| && p(h2[i]);
    assert h3[i] == h2[i];
  }

  lemma HappenedNow(h: History, e: Event, p: Event -> bool)
    requires p(e)
    ensures Happened(h, h + [e], p)
  {
    assert (h + [e])[|h|] == e;
  }

  /** No detection was added. */
  ghost predicate Quiet(h: History, h': History) {
    Extends(h, h') && forall i :: |h| <= i < |h'| ==> !h'[i].Detected?
  }

  /** What left in a stretch without detections has not come back. */
  lemma {:induction false} LeftStaysOut(h: History, h': History, k: Key)
    requires Quiet(h, h') && (Happened(h, h', e => About(e, k) && Leaves(e)) || !StageOf(h, k).Pending?)
    ensures !StageOf(h', k).Pending?
    decreases |h'|
  {
    if |h'| == |h| {
      assert h' == h;
    } else {
      var rest, e := h'[..|h'| - 1], h'[|h'| - 1];
      assert Extends(h, rest) && h' == rest + [e];
      if !(About(e, k) && Leaves(e)) {
        assert forall i :: |h| <= i < |rest| ==> rest[i] == h'[i];
        LeftStaysOut(h, rest, k);
      }
    }
  }
}
