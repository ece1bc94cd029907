/** The projection outbox: leasing pending rows to a dispatcher and settling them
    under the attempt number that the lease handed out. */
module Outbox {
  import opened Records
  import opened Wrappers

  datatype Leased = Leased(id: nat, key: DedupeKey, payload: Projection, attempt: nat)

  /** A dispatching row whose lease ran out is pending again. */
  function Reclaim(row: OutboxRow, cutoff: Time): OutboxRow {
    if row.status == Dispatching && row.attemptedAt.Some? && row.attemptedAt.value <= cutoff then
      row.(status := Pending)
    else row
  }

  function ReclaimAll(rows: seq<OutboxRow>, cutoff: Time): (r: seq<OutboxRow>)
    ensures |r| == |rows|
    ensures forall i | 0 <= i < |rows| :: r[i] == Reclaim(rows[i], cutoff)
  {
    if rows == [] then [] else [Reclaim(rows[0], cutoff)] + ReclaimAll(rows[1..], cutoff)
  }

  function Grant(row: OutboxRow, now: Time): OutboxRow {
    row.(status := Dispatching, attempts := row.attempts + 1, attemptedAt := Some(now))
  }

  /** The first `limit` pending rows, in row order, become dispatching. */
  function GrantAll(rows: seq<OutboxRow>, limit: nat, now: Time): (r: seq<OutboxRow>)
    ensures |r| == |rows|
  {
    if rows == [] || limit == 0 then rows
    else if rows[0].status == Pending then [Grant(rows[0], now)] + GrantAll(rows[1..], limit - 1, now)
    else [rows[0]] + GrantAll(rows[1..], limit, now)
  }

  lemma {:induction false} GrantsPending(rows: seq<OutboxRow>, limit: nat, now: Time, i: nat)
    requires i < |rows|
    ensures var r := GrantAll(rows, limit, now)[i];
      r == rows[i] || (rows[i].status == Pending && r == Grant(rows[i], now))
  {
    if limit != 0 && i > 0 {
      GrantsPending(rows[1..], if rows[0].status == Pending then limit - 1 else limit, now, i - 1);
    }
  }

  function GrantedItems(rows: seq<OutboxRow>, first: nat, limit: nat): seq<Leased> {
    if rows == [] || limit == 0 then []
    else if rows[0].status == Pending then
      [Leased(first, rows[0].key, rows[0].payload, rows[0].attempts + 1)]
      + GrantedItems(rows[1..], first + 1, limit - 1)
    else GrantedItems(rows[1..], first + 1, limit)
  }

  function LeaseRows(rows: seq<OutboxRow>, now: Time, limit: int, lease: int): (seq<OutboxRow>, seq<Leased>) {
    if limit <= 0 || lease <= 0 then (rows, [])
    else
      var ready := ReclaimAll(rows, now - lease);
      (GrantAll(ready, limit, now), GrantedItems(ready, 0, limit))
  }

  predicate Holds(rows: seq<OutboxRow>, id: nat, attempt: nat) {
    id < |rows| && rows[id].status == Dispatching && rows[id].attempts == attempt
  }

  function MarkSentRows(rows: seq<OutboxRow>, id: nat, attempt: nat, at: Time): seq<OutboxRow> {
    if Holds(rows, id, attempt) then rows[id := rows[id].(status := Sent, sentAt := Some(at), needsAttention := false)]
    else rows
  }

  function MarkPendingRows(rows: seq<OutboxRow>, id: nat, attempt: nat, at: Time, attention: bool): seq<OutboxRow> {
    if Holds(rows, id, attempt) then
      rows[id := rows[id].(status := Pending, attemptedAt := Some(at), needsAttention := attention)]
    else rows
  }

  datatype Settlement =
    | Lease(now: Time, limit: int, lease: int)
    | MarkSent(id: nat, attempt: nat, at: Time)
    | MarkPending(id: nat, attempt: nat, at: Time, attention: bool)

  function Settle(rows: seq<OutboxRow>, s: Settlement): seq<OutboxRow> {
    match s
    case Lease(now, limit, lease) => LeaseRows(rows, now, limit, lease).0
    case MarkSent(id, attempt, at) => MarkSentRows(rows, id, attempt, at)
    case MarkPending(id, attempt, at, attention) => MarkPendingRows(rows, id, attempt, at, attention)
  }

  /** Keys and payloads never change, attempts never fall, and a sent row is final. */
  ghost predicate Settled(before: seq<OutboxRow>, after: seq<OutboxRow>) {
    && |before| <= |after|
    && forall i | 0 <= i < |before| ::
         && after[i].key == before[i].key && after[i].payload == before[i].payload
         && after[i].attempts >= before[i].attempts
         && (before[i].status == Sent ==> after[i] == before[i])
  }

  lemma SettleSettles(rows: seq<OutboxRow>, s: Settlement)
    ensures Settled(rows, Settle(rows, s)) && |Settle(rows, s)| == |rows|
  {
    if s.Lease? && s.limit > 0 && s.lease > 0 {
      var ready := ReclaimAll(rows, s.now - s.lease);
      var after := GrantAll(ready, s.limit, s.now);
      forall i | 0 <= i < |rows|
        ensures after[i].key == rows[i].key && after[i].payload == rows[i].payload
        ensures after[i].attempts >= rows[i].attempts && (rows[i].status == Sent ==> after[i] == rows[i])
      {
        assert ready[i] == Reclaim(rows[i], s.now - s.lease);
        GrantsPending(ready, s.limit, s.now, i);
      }
    }
  }

  lemma SettledKeys(before: seq<OutboxRow>, after: seq<OutboxRow>)
    requires Settled(before, after) && |before| == |after|
    ensures OutboxKeys(after) == OutboxKeys(before)
  {
    forall k | k in OutboxKeys(before) ensures k in OutboxKeys(after) {
      var i :| 0 <= i < |before| && before[i].key == k;
      assert after[i] in after;
    }
    forall k | k in OutboxKeys(after) ensures k in OutboxKeys(before) {
      var i :| 0 <= i < |after| && after[i].key == k;
      assert before[i] in before;
    }
  }

  /** A granted item names a row that is now dispatching under its attempt number. */
  predicate ItemOf(rows: seq<OutboxRow>, after: seq<OutboxRow>, first: nat, item: Leased) {
    && first <= item.id < first + |rows|
    && Holds(after, item.id - first, item.attempt)
    && item.key == rows[item.id - first].key && item.payload == rows[item.id - first].payload
  }

  lemma {:induction false} GrantedHold(rows: seq<OutboxRow>, first: nat, limit: nat, now: Time)
    ensures forall item | item in GrantedItems(rows, first, limit) ::
      ItemOf(rows, GrantAll(rows, limit, now), first, item)
  {
    if rows != [] && limit != 0 {
      var granted := rows[0].status == Pending;
      var rest := if granted then limit - 1 else limit;
      GrantedHold(rows[1..], first + 1, rest, now);
      forall item | item in GrantedItems(rows, first, limit)
        ensures ItemOf(rows, GrantAll(rows, limit, now), first, item)
      {
        if item in GrantedItems(rows[1..], first + 1, rest) {
          assert ItemOf(rows[1..], GrantAll(rows[1..], rest, now), first + 1, item);
        }
      }
    }
  }

  /** No row is granted twice, and at most `limit` rows are granted. */
  lemma {:induction false} GrantedOnce(rows: seq<OutboxRow>, first: nat, limit: nat)
    ensures var items := GrantedItems(rows, first, limit);
      && |items| <= limit
      && (forall j | 0 <= j < |items| :: items[j].id >= first)
      && (forall j, k | 0 <= j < k < |items| :: items[j].id < items[k].id)
  {
    if rows != [] && limit != 0 {
      GrantedOnce(rows[1..], first + 1, if rows[0].status == Pending then limit - 1 else limit);
    }
  }

  function PendingBefore(rows: seq<OutboxRow>, i: nat): nat
    requires i <= |rows|
  {
    if i == 0 then 0 else PendingBefore(rows, i - 1) + (if rows[i - 1].status == Pending then 1 else 0)
  }

  lemma {:induction false} PendingShift(rows: seq<OutboxRow>, i: nat)
    requires 0 < i <= |rows|
    ensures PendingBefore(rows, i) == (if rows[0].status == Pending then 1 else 0) + PendingBefore(rows[1..], i - 1)
  {
    if i > 1 { PendingShift(rows, i - 1); }
  }

  /** A pending row is granted exactly when fewer than `limit` pending rows precede it. */
  lemma {:induction false} GrantIff(rows: seq<OutboxRow>, first: nat, limit: nat, now: Time, i: nat)
    requires i < |rows|
    ensures var granted := rows[i].status == Pending && PendingBefore(rows, i) < limit;
      && GrantAll(rows, limit, now)[i] == (if granted then Grant(rows[i], now) else rows[i])
      && (granted <==>
            Leased(first + i, rows[i].key, rows[i].payload, rows[i].attempts + 1) in GrantedItems(rows, first, limit))
      && (!granted ==> forall item | item in GrantedItems(rows, first, limit) :: item.id != first + i)
  {
    GrantedOnce(rows, first, limit);
    if limit > 0 {
      var rest := if rows[0].status == Pending then limit - 1 else limit;
      GrantedOnce(rows[1..], first + 1, rest);
      if i > 0 {
        PendingShift(rows, i);
        GrantIff(rows[1..], first + 1, rest, now, i - 1);
      }
    }
  }

  /** Waiting to be delivered: pending, or dispatching under a lease that has run out. */
  predicate Available(row: OutboxRow, now: Time, lease: int) {
    || row.status == Pending
    || (row.status == Dispatching && row.attemptedAt.Some? && row.attemptedAt.value + lease <= now)
  }

  function AvailableBefore(rows: seq<OutboxRow>, i: nat, now: Time, lease: int): nat
    requires i <= |rows|
  {
    if i == 0 then 0
    else AvailableBefore(rows, i - 1, now, lease) + (if Available(rows[i - 1], now, lease) then 1 else 0)
  }

  lemma {:induction false} AvailableIsReady(rows: seq<OutboxRow>, i: nat, now: Time, lease: int)
    requires i <= |rows|
    ensures PendingBefore(ReclaimAll(rows, now - lease), i) == AvailableBefore(rows, i, now, lease)
  {
    if i > 0 { AvailableIsReady(rows, i - 1, now, lease); }
  }

  /** A lease hands out the first `limit` available rows under their next attempt number,
      a row whose earlier lease ran out among them, and touches no other row except to
      put it back to pending. */
  lemma LeaseGrantsIff(rows: seq<OutboxRow>, now: Time, limit: nat, lease: nat, i: nat)
    requires limit > 0 && lease > 0 && i < |rows|
    ensures var (more, items) := LeaseRows(rows, now, limit, lease); var row := rows[i];
      var granted := Available(row, now, lease) && AvailableBefore(rows, i, now, lease) < limit;
      && |more| == |rows|
      && more[i] == (if granted then row.(status := Dispatching, attempts := row.attempts + 1, attemptedAt := Some(now))
                     else if Available(row, now, lease) then row.(status := Pending) else row)
      && (granted <==> Leased(i, row.key, row.payload, row.attempts + 1) in items)
      && (!granted ==> forall item | item in items :: item.id != i)
  {
    AvailableIsReady(rows, i, now, lease);
    GrantIff(ReclaimAll(rows, now - lease), 0, limit, now, i);
  }

  predicate Grants(row: OutboxRow, left: nat) {
    left > 0 && row.status == Pending
  }

  lemma GrantStep(rows: seq<OutboxRow>, i: nat, left: nat, now: Time)
    requires i < |rows|
    ensures var grants := Grants(rows[i], left); var rest := if grants then left - 1 else left;
      && GrantAll(rows[i..], left, now) ==
         [if grants then Grant(rows[i], now) else rows[i]] + GrantAll(rows[i + 1..], rest, now)
      && GrantedItems(rows[i..], i, left) ==
         (if grants then [Leased(i, rows[i].key, rows[i].payload, rows[i].attempts + 1)] else [])
         + GrantedItems(rows[i + 1..], i + 1, rest)
  {
    assert rows[i..][0] == rows[i] && rows[i..][1..] == rows[i + 1..];
    assert rows[i..] == [rows[i]] + rows[i + 1..];
  }

  /** What is granted so far, followed by what is still to be granted, is the whole. */
  ghost predicate Granting(ready: seq<OutboxRow>, limit: nat, now: Time, i: nat, left: nat,
                           rows: seq<OutboxRow>, items: seq<Leased>)
  {
    && i <= |ready|
    && rows + GrantAll(ready[i..], left, now) == GrantAll(ready, limit, now)
    && items + GrantedItems(ready[i..], i, left) == GrantedItems(ready, 0, limit)
  }

  lemma Regroup<T>(done: seq<T>, step: seq<T>, rest: seq<T>)
    ensures done + (step + rest) == (done + step) + rest
  {
  }

  lemma GrantingStep(ready: seq<OutboxRow>, limit: nat, now: Time, i: nat, left: nat, rows: seq<OutboxRow>,
                     items: seq<Leased>)
    requires Granting(ready, limit, now, i, left, rows, items) && i < |ready|
    ensures var grants := Grants(ready[i], left);
      Granting(ready, limit, now, i + 1, if grants then left - 1 else left,
               rows + [if grants then Grant(ready[i], now) else ready[i]],
               items + if grants then [Leased(i, ready[i].key, ready[i].payload, ready[i].attempts + 1)] else [])
  {
    var grants := Grants(ready[i], left);
    var rest := if grants then left - 1 else left;
    GrantStep(ready, i, left, now);
    Regroup(rows, [if grants then Grant(ready[i], now) else ready[i]], GrantAll(ready[i + 1..], rest, now));
    Regroup(items, if grants then [Leased(i, ready[i].key, ready[i].payload, ready[i].attempts + 1)] else [],
            GrantedItems(ready[i + 1..], i + 1, rest));
  }

  /** The loop over the selected ids. */
  method GrantRows(ready: seq<OutboxRow>, limit: nat, now: Time) returns (rows: seq<OutboxRow>, items: seq<Leased>)
    ensures rows == GrantAll(ready, limit, now) && items == GrantedItems(ready, 0, limit)
  {
    rows, items := [], [];
    var i, left: nat := 0, limit;
    assert ready[0..] == ready;
    while i < |ready|
      invariant Granting(ready, limit, now, i, left, rows, items)
    {
      GrantingStep(ready, limit, now, i, left, rows, items);
      var row, item, spent := GrantOne(ready[i], i, left, now);
      rows, items, left, i := rows + [row], items + item, left - spent, i + 1;
    }
    assert ready[i..] == [];
  }

  method GrantOne(row: OutboxRow, id: nat, left: nat, now: Time)
    returns (granted: OutboxRow, item: seq<Leased>, spent: nat)
    ensures spent == if Grants(row, left) then 1 else 0
    ensures granted == if Grants(row, left) then Grant(row, now) else row
    ensures item == if Grants(row, left) then [Leased(id, row.key, row.payload, row.attempts + 1)] else []
  {
    granted, item, spent := row, [], 0;
    if Grants(row, left) {
      granted, item, spent := Grant(row, now), [Leased(id, row.key, row.payload, row.attempts + 1)], 1;
    }
  }
}
