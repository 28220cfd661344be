/** Reserve as the program writes it (energybroker/internal/buffer/reserve.go), run with nobody
    beside it: what it claims, and when it fails. */
module EnergyReserve {
  import opened Common
  import opened EnergyBuffer

  /** The rows a request may use. */
  function Matching(rows: seq<Row>, r: Request): set<nat> {
    set i: nat | i < |rows| && Matches(rows[i], r)
  }

  /** No row outside would have expired before one inside: soonest to expire is used first. */
  ghost predicate EarliestFirst(rows: seq<Row>, claimed: set<nat>, r: Request) {
    && claimed <= Matching(rows, r)
    && forall i, j :: i in claimed && j in Matching(rows, r) - claimed ==> rows[i].expiresAt <= rows[j].expiresAt
  }

  /** Without the row claimed last, the one that expires last, the claim would fall short. */
  ghost predicate Shortest(rows: seq<Row>, claimed: set<nat>, last: nat, want: nat) {
    && last in claimed && last < |rows|
    && (forall i :: i in claimed ==> i < |rows| && rows[i].expiresAt <= rows[last].expiresAt)
    && UnitsOf(rows, claimed - {last}) < want
  }

  class Buffer {
    var rows: seq<Row>
    var allocations: map<nat, Allocation>
    var nextId: nat

    constructor (rows: seq<Row>)
      ensures this.rows == rows && allocations == map[] && nextId == 0
    {
      this.rows, allocations, nextId := rows, map[], 0;
    }

    /** SELECT ... ORDER BY expires_at LIMIT 1 over the rows not claimed yet. */
    method EarliestUnclaimed(r: Request, claimed: set<nat>) returns (best: Option<nat>)
      ensures best.None? ==> Matching(rows, r) <= claimed
      ensures best.Some? ==>
        && best.value in Matching(rows, r) - claimed
        && forall j :: j in Matching(rows, r) - claimed ==> rows[best.value].expiresAt <= rows[j].expiresAt
    {
      best := None;
      for k := 0 to |rows|
        invariant best.None? ==> forall j: nat :: j < k && Matches(rows[j], r) ==> j in claimed
        invariant best.Some? ==>
          && best.value < k && Matches(rows[best.value], r) && best.value !in claimed
          && forall j: nat :: j < k && Matches(rows[j], r) && j !in claimed ==>
            rows[best.value].expiresAt <= rows[j].expiresAt
      {
        if Matches(rows[k], r) && k !in claimed && (best.None? || rows[k].expiresAt < rows[best.value].expiresAt) {
          best := Some(k);
        }
      }
    }

    /** Reserve's loop: row by row until the request is covered or nothing is left. */
    method Claim(r: Request) returns (claimed: set<nat>, total: nat, ghost last: nat)
      requires r.want > 0
      ensures total == UnitsOf(rows, claimed) && EarliestFirst(rows, claimed, r)
      ensures if total >= r.want then Shortest(rows, claimed, last, r.want) else claimed == Matching(rows, r)
    {
      claimed, total, last := {}, 0, 0;
      UnitsOfNone(rows);
      while total < r.want
        invariant total == UnitsOf(rows, claimed) && EarliestFirst(rows, claimed, r)
        invariant total >= r.want ==> Shortest(rows, claimed, last, r.want)
        invariant claimed != {} ==>
          last in claimed && forall i :: i in claimed ==> rows[i].expiresAt <= rows[last].expiresAt
        decreases Matching(rows, r) - claimed
      {
        var next := EarliestUnclaimed(r, claimed);
        if next.None? { break; }
        var i := next.value;
        UnitsOfMore(rows, claimed, i);
        assert (claimed + {i}) - {i} == claimed;
        assert i in Matching(rows, r) && i !in claimed;
        claimed, total, last := claimed + {i}, total + rows[i].units, i;
      }
    }

    /** It succeeds exactly when the matching rows together cover the request. Then it marks a
        shortest run of earliest-expiring rows and records their exact sum; otherwise nothing
        changes. */
    method Reserve(order: nat, slot: string, want: int, now: nat) returns (result: Result)
      modifies this
      ensures want <= 0 || slot == "" ==> result == Refused
      ensures want > 0 && slot != "" ==>
        if UnitsOf(old(rows), Matching(old(rows), Request(order, slot, want, now))) < want then result == Exhausted
        else result.Granted? && result.allocation == old(nextId)
      ensures !result.Granted? ==> rows == old(rows) && allocations == old(allocations) && nextId == old(nextId)
      ensures result.Granted? ==>
        && rows == Mark(old(rows), result.rows, result.allocation)
        && allocations ==
          old(allocations)[result.allocation := Allocation(result.units, Request(order, slot, want, now))]
        && nextId == old(nextId) + 1
        && result.units == UnitsOf(old(rows), result.rows) >= want
        && EarliestFirst(old(rows), result.rows, Request(order, slot, want, now))
        && exists last :: Shortest(old(rows), result.rows, last, want)
    {
      if want <= 0 || slot == "" { return Refused; }
      var r := Request(order, slot, want, now);
      var claimed, total, last := Claim(r);
      UnitsOfSubset(rows, claimed, Matching(rows, r));
      if total < want { return Exhausted; }
      var id := nextId;
      nextId := nextId + 1;
      allocations := allocations[id := Allocation(total, r)];
      rows := Mark(rows, claimed, id);
      result := Granted(id, total, claimed);
    }

    /** Reconcile: of the rows AVAILABLE or RESERVED that expire by the horizon, exactly those whose
        delegation was read, and fell short of their units, are written off. Nothing else changes. */
    method Reconcile(horizon: nat, delegated: map<nat, nat>)
      modifies this
      ensures allocations == old(allocations) && nextId == old(nextId) && |rows| == |old(rows)|
      ensures forall i: nat :: i < |rows| ==>
        var row := old(rows)[i];
        rows[i] ==
          if (row.status.Available? || row.status.Reserved?) && row.expiresAt <= horizon
             && i in delegated && delegated[i] < row.units
          then row.(status := Expired) else row
    {
      var near := NearingExpiry(rows, horizon);
      var todo, expire := near, {};
      while todo != {}
        invariant todo <= near && expire <= near
        invariant rows == old(rows) && allocations == old(allocations) && nextId == old(nextId)
        invariant forall i :: i in expire <==> i in near - todo && i in delegated && delegated[i] < rows[i].units
        decreases todo
      {
        var i :| i in todo;
        todo := todo - {i};
        if i in delegated && delegated[i] < rows[i].units {
          expire := expire + {i};
        }
      }
      rows := Expire(rows, expire);
    }
  }

  lemma {:induction false} UnitsOfSubset(rows: seq<Row>, ids: set<nat>, more: set<nat>)
    requires ids <= more
    ensures UnitsOf(rows, ids) <= UnitsOf(rows, more)
  {
    if rows != [] { UnitsOfSubset(rows[..|rows| - 1], ids, more); }
  }
}
