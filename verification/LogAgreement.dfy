/** The comparison of two providers' logs (depositwatcher/internal/chain/logs.go): sort both in
    place, then compare position by position, leaving out what a provider only adds of its own. */
module LogAgreement {
  import opened Common

  datatype Content = Content(address: nat, topics: seq<nat>, data: Bytes, block: nat, txHash: nat, txIndex: nat,
    index: nat)

  /** A log, with the two fields logEqual leaves out. */
  datatype Log = Log(content: Content, blockHash: nat, removed: bool)

  predicate SamePosition(a: Content, b: Content) { a.block == b.block && a.txIndex == b.txIndex && a.index == b.index }

  /** The order of sortLogs. */
  predicate Less(a: Content, b: Content) {
    if a.block != b.block then a.block < b.block
    else if a.txIndex != b.txIndex then a.txIndex < b.txIndex
    else a.index < b.index
  }

  function Contents(logs: seq<Log>): (cs: seq<Content>)
    ensures |cs| == |logs| && forall i :: 0 <= i < |cs| ==> cs[i] == logs[i].content
  {
    seq(|logs|, i requires 0 <= i < |logs| => logs[i].content)
  }

  /** Two logs at one position are one log: a provider may repeat a log, but not a position. */
  ghost predicate NoClash(cs: seq<Content>) {
    forall x, y :: x in multiset(cs) && y in multiset(cs) && SamePosition(x, y) ==> x == y
  }

  ghost predicate Sorted(cs: seq<Content>) {
    forall i, j :: 0 <= i < j < |cs| ==> !Less(cs[j], cs[i])
  }

  ghost predicate SortedCopy(cs: seq<Content>, of: seq<Content>) { multiset(cs) == multiset(of) && Sorted(cs) }

  // ---------------------------------------------------------------- rearranging

  lemma Swapped(s: seq<Content>, i: nat, j: nat)
    requires i < |s| && j < |s|
    ensures multiset(s[i := s[j]][j := s[i]]) == multiset(s)
  {}

  lemma HeadAndTail(s: seq<Content>)
    requires s != []
    ensures multiset(s) == multiset{s[0]} + multiset(s[1..])
  {
    assert s == [s[0]] + s[1..];
  }

  lemma HeadIsLeast(cs: seq<Content>, c: Content)
    requires Sorted(cs) && c in multiset(cs)
    ensures !Less(c, cs[0])
  {
    var i :| 0 <= i < |cs| && cs[i] == c;
  }

  lemma HeadsAgree(a: seq<Content>, b: seq<Content>)
    requires multiset(a) == multiset(b) && Sorted(a) && Sorted(b) && NoClash(a) && a != [] && b != []
    ensures a[0] == b[0]
  {
    assert a[0] in multiset(a) && b[0] in multiset(b);
    HeadIsLeast(a, b[0]);
    HeadIsLeast(b, a[0]);
    assert SamePosition(a[0], b[0]);
  }

  lemma TailKeeps(cs: seq<Content>)
    requires cs != [] && Sorted(cs) && NoClash(cs)
    ensures Sorted(cs[1..]) && NoClash(cs[1..])
  {
    HeadAndTail(cs);
  }

  lemma TailsAgree(a: seq<Content>, b: seq<Content>)
    requires a != [] && b != [] && a[0] == b[0] && multiset(a) == multiset(b)
    ensures multiset(a[1..]) == multiset(b[1..])
  {
    HeadAndTail(a);
    HeadAndTail(b);
    assert multiset(a[1..]) == multiset(a) - multiset{a[0]};
    assert multiset(b[1..]) == multiset(b) - multiset{b[0]};
  }

  /** There is only one way to sort logs that do not clash. */
  lemma {:induction false} SortedUnique(a: seq<Content>, b: seq<Content>)
    requires multiset(a) == multiset(b) && Sorted(a) && Sorted(b) && NoClash(a)
    ensures a == b
    decreases |a|
  {
    assert |a| == |multiset(a)| == |multiset(b)| == |b|;
    if a != [] {
      HeadsAgree(a, b);
      TailsAgree(a, b);
      TailKeeps(a);
      TailKeeps(b);
      SortedUnique(a[1..], b[1..]);
      assert a == [a[0]] + a[1..] && b == [b[0]] + b[1..];
    }
  }

  lemma {:induction false} Insert(cs: seq<Content>, c: Content) returns (r: seq<Content>)
    requires Sorted(cs)
    ensures Sorted(r) && multiset(r) == multiset(cs) + multiset{c}
  {
    if cs == [] || !Less(cs[0], c) {
      r := [c] + cs;
    } else {
      HeadAndTail(cs);
      var rest := Insert(cs[1..], c);
      r := [cs[0]] + rest;
      forall k | 0 <= k < |rest| ensures !Less(rest[k], cs[0]) {
        assert rest[k] in multiset(rest);
        assert rest[k] == c || rest[k] in cs[1..];
      }
    }
  }

  lemma {:induction false} SortedCopyExists(cs: seq<Content>) returns (sorted: seq<Content>)
    ensures SortedCopy(sorted, cs)
  {
    if cs == [] {
      sorted := [];
    } else {
      HeadAndTail(cs);
      var rest := SortedCopyExists(cs[1..]);
      sorted := Insert(rest, cs[0]);
    }
  }

  /** Two logs at one position may change places without disturbing the order. */
  lemma TiesMaySwap(cs: seq<Content>, i: nat, j: nat)
    requires Sorted(cs) && i < |cs| && j < |cs| && SamePosition(cs[i], cs[j])
    ensures SortedCopy(cs[i := cs[j]][j := cs[i]], cs)
  {
    Swapped(cs, i, j);
    var swapped := cs[i := cs[j]][j := cs[i]];
    assert forall k :: 0 <= k < |cs| ==> SamePosition(swapped[k], cs[k]);
  }

  /** When sorting settles the comparison: every sorted copy of these logs is the same, whatever the
      sort, if and only if no two different ones share a position. */
  lemma EverySortAgreesIff(a: seq<Content>, b: seq<Content>)
    requires multiset(a) == multiset(b)
    ensures (forall s, t :: SortedCopy(s, a) && SortedCopy(t, b) ==> s == t) <==> NoClash(a)
  {
    if NoClash(a) {
      forall s, t | SortedCopy(s, a) && SortedCopy(t, b) ensures s == t { SortedUnique(s, t); }
    } else {
      var s, t := ClashSortsTwoWays(a);
      assert SortedCopy(t, b);
    }
  }

  lemma ClashSortsTwoWays(a: seq<Content>) returns (s: seq<Content>, t: seq<Content>)
    requires !NoClash(a)
    ensures SortedCopy(s, a) && SortedCopy(t, a) && s != t
  {
    var x, y :| x in multiset(a) && y in multiset(a) && SamePosition(x, y) && x != y;
    s := SortedCopyExists(a);
    assert x in multiset(s) && y in multiset(s);
    var i :| 0 <= i < |s| && s[i] == x;
    var j :| 0 <= j < |s| && s[j] == y;
    TiesMaySwap(s, i, j);
    t := s[i := s[j]][j := s[i]];
    assert t[i] == y != s[i];
  }

  // ---------------------------------------------------------------- the comparison

  /** The first i are in place: none of the rest comes before any of them. */
  ghost predicate SortedUpTo(cs: seq<Content>, i: nat) {
    forall j, k :: 0 <= j < i && j < k < |cs| ==> !Less(cs[k], cs[j])
  }

  lemma OneMoreInPlace(cs: seq<Content>, i: nat, least: nat)
    requires i <= least < |cs| && SortedUpTo(cs, i) && forall k :: i <= k < |cs| ==> !Less(cs[k], cs[least])
    ensures SortedUpTo(cs[i := cs[least]][least := cs[i]], i + 1)
  {}

  method Least(logs: array<Log>, i: nat) returns (least: nat)
    requires i < logs.Length
    ensures i <= least < logs.Length && forall k :: i <= k < logs.Length ==> !Less(logs[k].content, logs[least].content)
  {
    least := i;
    for k := i + 1 to logs.Length
      invariant i <= least < k
      invariant forall j :: i <= j < k ==> !Less(logs[j].content, logs[least].content)
    {
      if Less(logs[k].content, logs[least].content) {
        least := k;
      }
    }
  }

  /** sortLogs: any sort will do; here the least of the rest is swapped forward. */
  method SortLogs(logs: array<Log>)
    modifies logs
    ensures multiset(Contents(logs[..])) == multiset(Contents(old(logs[..]))) && Sorted(Contents(logs[..]))
  {
    for i := 0 to logs.Length
      invariant multiset(Contents(logs[..])) == multiset(Contents(old(logs[..])))
      invariant SortedUpTo(Contents(logs[..]), i)
    {
      var least := Least(logs, i);
      ghost var cs := Contents(logs[..]);
      logs[i], logs[least] := logs[least], logs[i];
      Swapped(cs, i, least);
      OneMoreInPlace(cs, i, least);
      assert Contents(logs[..]) == cs[i := cs[least]][least := cs[i]];
    }
  }

  method SameContents(a: array<Log>, b: array<Log>) returns (same: bool)
    requires a.Length == b.Length
    ensures same <==> Contents(a[..]) == Contents(b[..])
  {
    for i := 0 to a.Length
      invariant forall k :: 0 <= k < i ==> a[k].content == b[k].content
    {
      if a[i].content != b[i].content {
        assert Contents(a[..])[i] != Contents(b[..])[i];
        return false;
      }
    }
    same := true;
  }

  /** logsEqual: what it accepts are always the same logs in some order, and unless a provider
      reports two different logs at one position it accepts exactly those. */
  method LogsEqual(a: array<Log>, b: array<Log>) returns (equal: bool)
    requires a != b
    modifies a, b
    ensures equal ==> multiset(Contents(old(a[..]))) == multiset(Contents(old(b[..])))
    ensures NoClash(Contents(old(a[..]))) ==>
      (equal <==> multiset(Contents(old(a[..]))) == multiset(Contents(old(b[..]))))
    ensures equal <==> Contents(a[..]) == Contents(b[..])
    ensures a.Length == b.Length ==>
      SortedCopy(Contents(a[..]), Contents(old(a[..]))) && SortedCopy(Contents(b[..]), Contents(old(b[..])))
  {
    ghost var a0, b0 := a[..], b[..];
    if a.Length != b.Length {
      assert |multiset(Contents(a0))| != |multiset(Contents(b0))|;
      assert |Contents(a0)| != |Contents(b0)|;
      return false;
    }
    SortLogs(a);
    SortLogs(b);
    equal := SameContents(a, b);
    Compared(Contents(a0), Contents(b0), Contents(a[..]), Contents(b[..]));
  }

  lemma Compared(a0: seq<Content>, b0: seq<Content>, a: seq<Content>, b: seq<Content>)
    requires SortedCopy(a, a0) && SortedCopy(b, b0)
    ensures a == b ==> multiset(a0) == multiset(b0)
    ensures NoClash(a0) && multiset(a0) == multiset(b0) ==> a == b
  {
    if NoClash(a0) && multiset(a0) == multiset(b0) { EverySortAgreesIff(a0, b0); }
  }

  /** LogsAt: both providers' answers, or nothing if one fails or they differ. */
  method LogsAt(primary: Option<seq<Log>>, secondary: Option<seq<Log>>) returns (logs: Option<seq<Log>>)
    ensures logs.Some? ==>
      && primary.Some? && secondary.Some?
      && multiset(Contents(primary.value)) == multiset(Contents(secondary.value)) == multiset(Contents(logs.value))
    ensures primary.Some? && secondary.Some? && NoClash(Contents(primary.value)) ==>
      (logs.Some? <==> multiset(Contents(primary.value)) == multiset(Contents(secondary.value)))
  {
    if primary.None? || secondary.None? { return None; }
    var a := new Log[|primary.value|](i requires 0 <= i < |primary.value| => primary.value[i]);
    var b := new Log[|secondary.value|](i requires 0 <= i < |secondary.value| => secondary.value[i]);
    assert a[..] == primary.value && b[..] == secondary.value;
    var equal := LogsEqual(a, b);
    logs := if equal then Some(a[..]) else None;
  }
}
