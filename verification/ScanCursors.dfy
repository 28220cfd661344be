/** The watcher's two cursors and its window of seen blocks: the ingestion loop
    (depositwatcher/internal/chain/ingestion.go, cursor.go) beside the candidate loop
    (depositwatcher/internal/candidates/loop.go). Every statement may fail, every process die and be
    started again; while the candidate loop waits for an answer, ingestion may commit any blocks. */
module ScanCursors {
  import opened Common

  type Hash = nat

  datatype Block = Block(hash: Hash, parent: Hash)

  datatype Range = Range(from: nat, to: nat)

  const MAX_BLOCKS_PER_TICK: nat := 10

  /** How a statement ends: done, not done, or done although its caller hears an error. */
  datatype Reply = Ok | Failed | Lost

  /** A header that could be fetched, and how the transaction that stores it ends. */
  datatype Fetch = NoHeader | Header(block: Block, commit: Reply)

  /** What ingestion commits before a statement of the candidate loop answers, and how it ends. */
  datatype Turn = Turn(blocks: seq<Block>, reply: Reply)

  /** The turns of one tick. */
  datatype Tick = Tick(read: Turn, readCandidate: Turn, init: Turn, scan: Turn, save: Turn)

  // ---------------------------------------------------------------- what the cursors promise

  /** These ranges cover from..to, each block once, in order, at most ten blocks a piece. */
  predicate Tiles(ranges: seq<Range>, from: nat, to: nat) {
    if ranges == [] then from == to
    else
      var last := ranges[|ranges| - 1];
      && last.to == to && from < last.from <= last.to < last.from + MAX_BLOCKS_PER_TICK
      && Tiles(ranges[..|ranges| - 1], from, last.from - 1)
  }

  /** In a tiling every block after from and up to to is in exactly one range, and no other is. */
  lemma {:induction false} TilesExactly(ranges: seq<Range>, from: nat, to: nat, b: nat)
    requires Tiles(ranges, from, to)
    ensures from <= to
    ensures from < b <= to <==> exists i :: 0 <= i < |ranges| && ranges[i].from <= b <= ranges[i].to
    ensures forall i, j :: 0 <= i < j < |ranges| ==> ranges[i].to < ranges[j].from
    ensures forall i :: 0 <= i < |ranges| ==> ranges[i].to <= to
  {
    if ranges != [] {
      var n := |ranges| - 1;
      TilesExactly(ranges[..n], from, ranges[n].from - 1, b);
      assert forall i :: 0 <= i < n ==> ranges[..n][i] == ranges[i];
      if from < b < ranges[n].from {
        var i :| 0 <= i < n && ranges[..n][i].from <= b <= ranges[..n][i].to;
        assert ranges[i].from <= b <= ranges[i].to;
      }
      if ranges[n].from <= b <= to { assert ranges[n].from <= b <= ranges[n].to; }
    }
  }

  /** The heights seen_blocks keeps once height was committed: the last window of them, never below
      the first block ever ingested. */
  predicate InWindow(window: nat, height: nat, h: nat) { 0 < h <= height < h + window }

  /** seen_blocks holds exactly the window, and the adjacent stored pairs that disagree are exactly
      the ones that were logged. */
  ghost predicate BlocksOk(window: nat, last: nat, seen: map<nat, Block>, flagged: set<nat>) {
    && (forall h :: h in seen <==> InWindow(window, last, h))
    && (forall h :: h in seen && h > 1 && h - 1 in seen ==> (h in flagged <==> seen[h].parent != seen[h - 1].hash))
    && (forall h :: h in flagged ==> h <= last)
  }

  /** The candidate cursor is not past ingestion, and everything from its start was scanned. */
  ghost predicate CursorOk(candidate: Option<nat>, last: nat, start: nat, advanced: seq<Range>, scanned: seq<Range>) {
    && (candidate.Some? ==> candidate.value <= last && Tiles(advanced, start, candidate.value))
    && (candidate.None? ==> advanced == [])
    && (forall i :: 0 <= i < |advanced| ==> advanced[i] in scanned)
  }

  lemma Advances(candidate: nat, last: nat, start: nat, advanced: seq<Range>, scanned: seq<Range>, r: Range)
    requires CursorOk(Some(candidate), last, start, advanced, scanned)
    requires r.from == candidate + 1 && r.from <= r.to <= last && r.to <= candidate + MAX_BLOCKS_PER_TICK
    ensures CursorOk(Some(r.to), last, start, advanced + [r], scanned + [r])
  {
    assert (advanced + [r])[..|advanced|] == advanced;
    TilesExactly(advanced, start, candidate, 0);
    assert r in scanned + [r];
  }

  class Watcher {
    const window: nat
    var lastScanned: nat
    var lastCandidate: Option<nat>
    var seen: map<nat, Block>
    ghost var flagged: set<nat>       // heights whose parent mismatch was logged
    ghost var scanned: seq<Range>     // ScanRange calls that succeeded
    ghost var start: nat              // where the candidate cursor was first set
    ghost var advanced: seq<Range>    // the ranges the candidate cursor moved over

    ghost predicate Valid() reads this {
      window > 0 && BlocksOk(window, lastScanned, seen, flagged)
        && CursorOk(lastCandidate, lastScanned, start, advanced, scanned)
    }

    constructor (window: nat)
      requires window > 0
      ensures Valid() && lastScanned == 0 && lastCandidate.None? && this.window == window
    {
      this.window := window;
      lastScanned, lastCandidate, seen := 0, None, map[];
      flagged, scanned, start, advanced := {}, [], 0, [];
    }

    // ---------------------------------------------------------- ingestion

    /** detectParentMismatch: nothing stored below is no mismatch. */
    predicate ParentMismatch(height: nat, parent: Hash)
      requires height > 0
      reads this
    {
      height - 1 in seen && seen[height - 1].hash != parent
    }

    /** processOneBlock's transaction: flag, store, advance, prune, all together. */
    method ProcessOneBlock(height: nat, block: Block)
      requires Valid() && height == lastScanned + 1
      modifies this`seen, this`lastScanned, this`flagged
      ensures Valid() && lastScanned == height && height in seen && seen[height] == block
      ensures forall h :: h in seen && h != height ==> h in old(seen) && seen[h] == old(seen)[h]
      ensures flagged == old(flagged) + if old(ParentMismatch(height, block.parent)) then {height} else {}
    {
      if ParentMismatch(height, block.parent) {
        flagged := flagged + {height};
      }
      seen := seen[height := block];
      lastScanned := height;
      if height >= window {
        var threshold := height - window + 1;
        seen := map h | h in seen && h >= threshold :: seen[h];
      }
    }

    /** runIngestionTick: up to max blocks past the cursor, stopping at the first header that cannot
        be fetched or the first commit that is not acknowledged. */
    method RunIngestionTick(tip: nat, headers: seq<Fetch>, max: nat) returns (ok: bool)
      requires Valid() && (tip <= lastScanned || tip - lastScanned <= |headers|)
      modifies this`seen, this`lastScanned, this`flagged
      ensures Valid() && old(lastScanned) <= lastScanned
      ensures ok ==> lastScanned == (if tip <= old(lastScanned) then old(lastScanned)
                                     else if tip - old(lastScanned) > max then old(lastScanned) + max else tip)
      ensures forall h: nat :: old(lastScanned) < h && h in seen ==>
        h - old(lastScanned) - 1 < |headers| && Stored(headers[h - old(lastScanned) - 1], seen[h])
      ensures !ok ==> lastScanned <= tip
      ensures !ok ==> StoppedAt(headers, lastScanned - old(lastScanned))
    {
      var last := lastScanned;
      if tip <= last { return true; }
      var to := if tip - last > max then last + max else tip;
      for height := last + 1 to to + 1
        invariant Valid() && lastScanned == height - 1
        invariant forall h: nat :: last < h && h in seen ==>
          h - last - 1 < |headers| && Stored(headers[h - last - 1], seen[h])
      {
        var header := headers[height - last - 1];
        if NotStored(header) { return false; }
        ProcessOneBlock(height, header.block);
        if header.commit.Lost? { return false; }
      }
      ok := true;
    }

    // ---------------------------------------------------------- candidates

    /** Ingestion goes on while the candidate loop waits. */
    method Meanwhile(blocks: seq<Block>)
      requires Valid()
      modifies this`seen, this`lastScanned, this`flagged
      ensures Valid() && lastScanned == old(lastScanned) + |blocks|
    {
      for i := 0 to |blocks|
        invariant Valid() && lastScanned == old(lastScanned) + i
      {
        ProcessOneBlock(lastScanned + 1, blocks[i]);
      }
    }

    /** runTick, without the finality check that ends it: read both cursors, scan at most ten blocks,
        move the candidate cursor. Whenever it stops, the cursor has moved at most over the range
        that was scanned, and never past ingestion. */
    method RunTick(tick: Tick) returns (ok: bool)
      requires Valid()
      modifies this
      ensures Valid() && old(lastScanned) <= lastScanned
      ensures old(lastCandidate).Some? ==> lastCandidate.Some? && start == old(start) && old(advanced) <= advanced
      ensures var next := Some(NextCandidate(old(lastCandidate), old(lastScanned) + |tick.read.blocks|));
        if ok then lastCandidate == next else lastCandidate == old(lastCandidate) || lastCandidate == next
      ensures ok && old(lastCandidate).None? ==>
        && lastCandidate == Some(old(lastScanned) + |tick.read.blocks|)
        && start == lastCandidate.value && scanned == old(scanned)
      ensures ok && old(lastCandidate).Some? ==>
        var behind := old(lastScanned) + |tick.read.blocks| - old(lastCandidate).value;
        && lastCandidate.value == old(lastCandidate).value + (if behind <= 10 then behind else 10)
        && (behind > 0 ==> scanned == old(scanned) + [Range(old(lastCandidate).value + 1, lastCandidate.value)])
    {
      ok := false;
      Meanwhile(tick.read.blocks);
      if !tick.read.reply.Ok? { return; }
      var ingested := lastScanned;
      Meanwhile(tick.readCandidate.blocks);
      if !tick.readCandidate.reply.Ok? { return; }
      var last := ingested;
      if lastCandidate.Some? {
        last := lastCandidate.value;
      } else {
        Meanwhile(tick.init.blocks);
        if tick.init.reply.Failed? { return; }
        start := ingested;
        lastCandidate := Some(ingested);
        if tick.init.reply.Lost? { return; }
      }
      ok := ScanAndAdvance(last, ingested, tick.scan, tick.save);
    }

    /** ScanRange over at most ten blocks, then the cursor's UPDATE. */
    method ScanAndAdvance(last: nat, ingested: nat, scan: Turn, save: Turn) returns (ok: bool)
      requires Valid() && lastCandidate == Some(last) && ingested <= lastScanned
      modifies this
      ensures Valid() && old(lastScanned) <= lastScanned && start == old(start) && old(advanced) <= advanced
      ensures lastCandidate == Some(NextCandidate(Some(last), ingested)) || (!ok && lastCandidate == Some(last))
      ensures ok ==>
        if ingested > last then scanned == old(scanned) + [Range(last + 1, lastCandidate.value)]
        else scanned == old(scanned)
    {
      ok := true;
      if ingested > last {
        ok := false;
        var to := if ingested - last > MAX_BLOCKS_PER_TICK then last + MAX_BLOCKS_PER_TICK else ingested;
        Meanwhile(scan.blocks);
        if !scan.reply.Ok? { return; }
        ghost var scannedBefore := scanned;
        scanned := scanned + [Range(last + 1, to)];
        Meanwhile(save.blocks);
        if save.reply.Failed? { return; }
        Advances(last, lastScanned, start, advanced, scannedBefore, Range(last + 1, to));
        advanced := advanced + [Range(last + 1, to)];
        lastCandidate := Some(to);
        ok := save.reply.Ok?;
      }
    }

    /** RunLoop, for any number of ticks with any failures, ingestion going on: every tick that goes
        well takes ten blocks off the backlog found at the start or ends it, and none takes more. So
        when they all go well a backlog of b blocks is gone after ceil(b / 10) ticks, and not before. */
    method RunTicks(ticks: seq<Tick>) returns (good: nat)
      requires Valid() && lastCandidate.Some?
      modifies this
      ensures Valid() && lastCandidate.Some? && start == old(start) && old(advanced) <= advanced && good <= |ticks|
      ensures lastCandidate.value >= old(lastScanned)
        || lastCandidate.value >= old(lastCandidate.value) + MAX_BLOCKS_PER_TICK * good
      ensures lastCandidate.value <= old(lastCandidate.value) + MAX_BLOCKS_PER_TICK * |ticks|
      ensures good == |ticks| ==>
        (lastCandidate.value >= old(lastScanned) <==> |ticks| >= (old(lastScanned) - old(lastCandidate.value) + 9) / 10)
    {
      good := 0;
      for i := 0 to |ticks|
        invariant Valid() && lastCandidate.Some? && start == old(start) && old(advanced) <= advanced && good <= i
        invariant old(lastScanned) <= lastScanned
        invariant lastCandidate.value >= old(lastScanned)
          || lastCandidate.value >= old(lastCandidate.value) + MAX_BLOCKS_PER_TICK * good
        invariant lastCandidate.value <= old(lastCandidate.value) + MAX_BLOCKS_PER_TICK * i
      {
        var ok := RunTick(ticks[i]);
        if ok { good := good + 1; }
      }
    }
  }

  /** After i blocks: the next cannot be had or stored, or the last one was stored without a word. */
  predicate StoppedAt(headers: seq<Fetch>, i: nat) {
    (i < |headers| && NotStored(headers[i]))
      || (0 < i <= |headers| && headers[i - 1].Header? && headers[i - 1].commit.Lost?)
  }

  predicate NotStored(f: Fetch) { f.NoHeader? || f.commit.Failed? }

  predicate Stored(f: Fetch, block: Block) { f.Header? && !f.commit.Failed? && f.block == block }

  /** Where a tick that goes well leaves the candidate cursor, given what it read of ingestion. */
  function NextCandidate(candidate: Option<nat>, ingested: nat): nat {
    match candidate
    case None => ingested
    case Some(c) =>
      if ingested <= c then c else if ingested - c > MAX_BLOCKS_PER_TICK then c + MAX_BLOCKS_PER_TICK else ingested
  }
}
