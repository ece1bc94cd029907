/** What a delivery achieves: on a tracker that answers, a row in reach of the scan ends
    sent with its comment on its issue, and every failure is recorded on the row. */
module DispatcherDelivery {
  import opened Dispatcher
  import opened DispatcherRetries
  import opened DispatcherTheorems
  import opened Outbox
  import opened Records
  import opened WorkplanRuns
  import opened Wrappers

  // ------------------------------------------------------------- one delivery

  /** The scan can read the whole issue. */
  predicate InScan(comments: seq<Comment>, pages: nat) {
    pages > 0 && |comments| <= PAGE * pages
  }

  /** The comments of `issue`, and only those, are now `after`. */
  ghost predicate OnlyIssueBecomes(before: map<string, seq<Comment>>, after: map<string, seq<Comment>>, issue: string,
                                   comments: seq<Comment>) {
    CommentsOn(after, issue) == comments && forall s | s != issue :: CommentsOn(after, s) == CommentsOn(before, s)
  }

  /** Row `id`, and only that row, has been settled. */
  ghost predicate OnlyRowBecomes(before: seq<OutboxRow>, after: seq<OutboxRow>, id: nat, row: OutboxRow) {
    id < |before| && after == before[id := row]
  }

  /** A row sent at `now`; whatever failed before is forgotten. */
  function SentRow(row: OutboxRow, now: Time): OutboxRow {
    row.(status := Sent, sentAt := Some(now), needsAttention := false)
  }

  function ReturnedRow(row: OutboxRow, now: Time, attention: bool): OutboxRow {
    row.(status := RowStatus.Pending, attemptedAt := Some(now), needsAttention := attention)
  }

  /** A tracker that accepts ends up with the row's comment, once, and the row is sent. */
  lemma AcceptedDelivery(w: World, pages: nat, now: Time)
    requires w.queue != [] && Holds(w.db.outbox, w.queue[0].id, w.queue[0].attempt)
    requires Target(w.queue[0].key, w.queue[0].payload).Some?
    requires InScan(CommentsOn(w.comments, Target(w.queue[0].key, w.queue[0].payload).value.0), pages)
    ensures var v := Happen(w, Handles(Finishes(Accepts), pages, now));
      var id, (issue, m) := w.queue[0].id, Target(w.queue[0].key, w.queue[0].payload).value;
      var before := CommentsOn(w.comments, issue);
      && OnlyIssueBecomes(w.comments, v.comments, issue,
                          if Marks(before, m) then before else before + [Comment(Some(m))])
      && OnlyRowBecomes(w.db.outbox, v.db.outbox, id, SentRow(w.db.outbox[id], now))
      && v.db == w.db.(outbox := v.db.outbox) && v.queue == w.queue[1..]
  {
  }

  /** A comment that the tracker took without a word is there, and the row returns. */
  lemma UnheardDelivery(w: World, link: Link, pages: nat, now: Time)
    requires w.queue != [] && Holds(w.db.outbox, w.queue[0].id, w.queue[0].attempt) && link.Unacknowledged?
    requires var target := Target(w.queue[0].key, w.queue[0].payload);
      && target.Some? && InScan(CommentsOn(w.comments, target.value.0), pages)
      && !Marks(CommentsOn(w.comments, target.value.0), target.value.1)
    ensures var v := Happen(w, Handles(Finishes(link), pages, now));
      var id, (issue, m) := w.queue[0].id, Target(w.queue[0].key, w.queue[0].payload).value;
      && OnlyIssueBecomes(w.comments, v.comments, issue, CommentsOn(w.comments, issue) + [Comment(Some(m))])
      && OnlyRowBecomes(w.db.outbox, v.db.outbox, id, ReturnedRow(w.db.outbox[id], now, link.attention))
  {
  }

  /** The tracker refuses to be read, or to be written where the scan found nothing. */
  predicate Refused(comments: seq<Comment>, m: Marker, pages: nat, link: Link) {
    link.RefusesScan? || (link.RefusesPost? && InScan(comments, pages) && !Marks(comments, m))
  }

  /** A tracker that refuses keeps its comments and the row returns, with the tracker's
      own word on whether it needs attention. */
  lemma RefusedDelivery(w: World, link: Link, pages: nat, now: Time)
    requires w.queue != [] && Holds(w.db.outbox, w.queue[0].id, w.queue[0].attempt)
    requires var target := Target(w.queue[0].key, w.queue[0].payload);
      target.Some? && Refused(CommentsOn(w.comments, target.value.0), target.value.1, pages, link)
    ensures var v := Happen(w, Handles(Finishes(link), pages, now)); var id := w.queue[0].id;
      && (forall s :: CommentsOn(v.comments, s) == CommentsOn(w.comments, s))
      && OnlyRowBecomes(w.db.outbox, v.db.outbox, id, ReturnedRow(w.db.outbox[id], now, link.attention))
  {
    var target := Target(w.queue[0].key, w.queue[0].payload);
    TailMarks(CommentsOn(w.comments, target.value.0), target.value.1, PAGE * pages);
  }

  /** A row that must not leave, or an issue beyond the scan, needs attention. */
  lemma BlockedDelivery(w: World, link: Link, pages: nat, now: Time)
    requires w.queue != [] && Holds(w.db.outbox, w.queue[0].id, w.queue[0].attempt)
    requires var target := Target(w.queue[0].key, w.queue[0].payload);
      target.None? || (!link.RefusesScan? && var comments := CommentsOn(w.comments, target.value.0);
                       !InScan(comments, pages) && !Marks(Tail(comments, PAGE * pages), target.value.1))
    ensures var v := Happen(w, Handles(Finishes(link), pages, now)); var id := w.queue[0].id;
      && (forall s :: CommentsOn(v.comments, s) == CommentsOn(w.comments, s))
      && OnlyRowBecomes(w.db.outbox, v.db.outbox, id, ReturnedRow(w.db.outbox[id], now, true))
  {
  }

  /** Receipts of public cards by public actors are what the dispatcher agrees to project,
      each to its card's issue under its own key; repairs go to their subject's issue. */
  lemma ProjectedIff(row: OutboxRow)
    requires Faithful(row)
    ensures RowTarget(row).Some? <==>
      match row.payload
      case Activity(subject, _, _, at, actor, _) => PublicId(subject) && PublicId(actor) && at >= 0
      case BackendActivity(_, _, _, _) => false
      case RepairDocument(_, _) => true
    ensures RowTarget(row).Some? ==>
      && !row.payload.BackendActivity? && RowTarget(row).value.0 == row.payload.subject
      && RowTarget(row).value.1.key == row.key && (RowTarget(row).value.1.KeyMarker? <==> row.payload.Activity?)
  {
  }

  /** From the beginning: whatever happened before, delivering the next leased row to a
      tracker that accepts puts exactly one comment with its marker on its issue, unless
      it is there already, and sends the row. */
  lemma NextRowIsDelivered(hs: seq<Happening>, pages: nat, now: Time)
    requires var w := History(BEGINNING, hs);
      && w.queue != [] && Target(w.queue[0].key, w.queue[0].payload).Some?
      && InScan(CommentsOn(w.comments, Target(w.queue[0].key, w.queue[0].payload).value.0), pages)
    ensures var w := History(BEGINNING, hs); var v := Happen(w, Handles(Finishes(Accepts), pages, now));
      var id, (issue, m) := w.queue[0].id, Target(w.queue[0].key, w.queue[0].payload).value;
      var before := CommentsOn(w.comments, issue);
      && OnlyIssueBecomes(w.comments, v.comments, issue,
                          if Marks(before, m) then before else before + [Comment(Some(m))])
      && id < |w.db.outbox| && OnlyRowBecomes(w.db.outbox, v.db.outbox, id, SentRow(w.db.outbox[id], now))
  {
    FlightKeeps(BEGINNING, hs);
    AcceptedDelivery(History(BEGINNING, hs), pages, now);
  }

  // ---------------------------------------------------------- a whole dispatch

  /** The `j`-th leased row has a target whose issue the scan can still read when its
      turn comes. */
  predicate Deliverable(comments: map<string, seq<Comment>>, item: Leased, j: nat, pages: nat) {
    var target := Target(item.key, item.payload);
    target.Some? && pages > 0 && |CommentsOn(comments, target.value.0)| + j <= PAGE * pages
  }

  predicate AllDeliverable(comments: map<string, seq<Comment>>, queue: seq<Leased>, pages: nat) {
    forall j | 0 <= j < |queue| :: Deliverable(comments, queue[j], j, pages)
  }

  /** The row of an item is sent and its issue shows its marker. */
  predicate DeliveredIn(w: World, item: Leased) {
    var target := Target(item.key, item.payload);
    && item.id < |w.db.outbox| && w.db.outbox[item.id].status == Sent
    && target.Some? && Marks(CommentsOn(w.comments, target.value.0), target.value.1)
  }

  /** Handing the queue over to a tracker that accepts everything. */
  function Accepted(n: nat, pages: nat, now: Time): seq<Happening> {
    if n == 0 then [] else [Handles(Finishes(Accepts), pages, now)] + Accepted(n - 1, pages, now)
  }

  lemma OneMoreComment(w: World, pages: nat, now: Time)
    requires w.queue != [] && InFlight(w.db.outbox, w.queue) && AllDeliverable(w.comments, w.queue, pages)
    ensures var v := Happen(w, Handles(Finishes(Accepts), pages, now));
      && v.queue == w.queue[1..] && InFlight(v.db.outbox, v.queue) && AllDeliverable(v.comments, v.queue, pages)
      && DeliveredIn(v, w.queue[0])
  {
    var v := Happen(w, Handles(Finishes(Accepts), pages, now));
    assert Deliverable(w.comments, w.queue[0], 0, pages);
    AcceptedDelivery(w, pages, now);
    FlightGoesOn(w, Handles(Finishes(Accepts), pages, now));
    var (issue, m) := Target(w.queue[0].key, w.queue[0].payload).value;
    PostedMarks(CommentsOn(w.comments, issue), m, m);
    forall j | 0 <= j < |v.queue| ensures Deliverable(v.comments, v.queue[j], j, pages) {
      assert Deliverable(w.comments, w.queue[j + 1], j + 1, pages);
    }
  }

  lemma DeliveredStays(w: World, hs: seq<Happening>, item: Leased)
    requires DeliveredIn(w, item)
    ensures DeliveredIn(History(w, hs), item)
  {
    var (issue, m) := Target(item.key, item.payload).value;
    SentForEver(w, hs);
    HistoryOnlyAdds(w, hs, issue);
    var before, after := CommentsOn(w.comments, issue), CommentsOn(History(w, hs).comments, issue);
    var i :| 0 <= i < |before| && before[i].marker == Some(m);
    assert after[i] == before[i];
  }

  /** If the tracker accepts everything and no issue outgrows the scan, every leased row is
      sent and shown on its issue, and nothing is left in the queue. */
  lemma {:induction false} AllRowsDelivered(w: World, pages: nat, now: Time)
    requires InFlight(w.db.outbox, w.queue) && AllDeliverable(w.comments, w.queue, pages)
    ensures var v := History(w, Accepted(|w.queue|, pages, now));
      v.queue == [] && forall j | 0 <= j < |w.queue| :: DeliveredIn(v, w.queue[j])
    decreases |w.queue|
  {
    if w.queue != [] {
      var n := |w.queue| - 1;
      var next := Happen(w, Handles(Finishes(Accepts), pages, now));
      OneMoreComment(w, pages, now);
      assert Accepted(n + 1, pages, now)[1..] == Accepted(n, pages, now);
      AllRowsDelivered(next, pages, now);
      DeliveredStays(next, Accepted(n, pages, now), w.queue[0]);
      var v := History(w, Accepted(n + 1, pages, now));
      assert v == History(next, Accepted(n, pages, now));
      forall j | 0 <= j < |w.queue| ensures DeliveredIn(v, w.queue[j]) {
        if j > 0 { assert w.queue[j] == next.queue[j - 1]; }
      }
    }
  }

  /** The whole dispatch after any history: what it leases is delivered. */
  lemma DispatchDelivers(hs: seq<Happening>, now: Time, limit: int, lease: int, pages: nat)
    requires var w := Happen(History(BEGINNING, hs), Begins(now, limit, lease));
      AllDeliverable(w.comments, w.queue, pages)
    ensures var w := Happen(History(BEGINNING, hs), Begins(now, limit, lease));
      var v := History(w, Accepted(|w.queue|, pages, now));
      v.queue == [] && forall j | 0 <= j < |w.queue| :: DeliveredIn(v, w.queue[j])
  {
    FlightKeeps(BEGINNING, hs);
    FlightGoesOn(History(BEGINNING, hs), Begins(now, limit, lease));
    AllRowsDelivered(Happen(History(BEGINNING, hs), Begins(now, limit, lease)), pages, now);
  }
}
