/** What becomes of a comment whose acknowledgement was lost. */
module DispatcherRetries {
  import opened Dispatcher
  import opened DispatcherTheorems
  import opened Outbox
  import opened Records
  import opened WorkplanRuns
  import opened Wrappers

  // ----------------------------------------------------------- rows in flight

  /** Every queued item holds its row under the attempt it was leased with, and no row
      is queued twice. */
  ghost predicate InFlight(rows: seq<OutboxRow>, queue: seq<Leased>) {
    && (forall j | 0 <= j < |queue| :: Holds(rows, queue[j].id, queue[j].attempt))
    && (forall j, k | 0 <= j < k < |queue| :: queue[j].id != queue[k].id)
  }

  lemma LeaseFlies(rows: seq<OutboxRow>, now: Time, limit: int, lease: int)
    ensures InFlight(LeaseRows(rows, now, limit, lease).0, LeaseRows(rows, now, limit, lease).1)
  {
    if limit > 0 && lease > 0 {
      var ready := ReclaimAll(rows, now - lease);
      var items := GrantedItems(ready, 0, limit);
      GrantedHold(ready, 0, limit, now);
      GrantedOnce(ready, 0, limit);
      forall j | 0 <= j < |items| ensures Holds(GrantAll(ready, limit, now), items[j].id, items[j].attempt) {
        assert items[j] in items;
      }
    }
  }

  lemma AppendedFlies(rows: seq<OutboxRow>, more: seq<OutboxRow>, queue: seq<Leased>)
    requires InFlight(rows, queue) && rows <= more
    ensures InFlight(more, queue)
  {
    forall i | 0 <= i < |rows| ensures more[i] == rows[i] { assert more[..|rows|] == rows; }
  }

  /** Settling the first item leaves the others their rows. */
  lemma SettledFlies(rows: seq<OutboxRow>, queue: seq<Leased>, outcome: Outcome, now: Time)
    requires InFlight(rows, queue) && queue != []
    ensures InFlight(Settle(rows, SettleItem(queue[0], outcome, now)), queue[1..])
  {
    var rest := queue[1..];
    forall j | 0 <= j < |rest|
      ensures Holds(Settle(rows, SettleItem(queue[0], outcome, now)), rest[j].id, rest[j].attempt)
    {
      assert rest[j] == queue[j + 1] && Holds(rows, queue[j + 1].id, queue[j + 1].attempt);
    }
  }

  lemma FlightGoesOn(w: World, h: Happening)
    requires InFlight(w.db.outbox, w.queue)
    ensures InFlight(Happen(w, h).db.outbox, Happen(w, h).queue)
  {
    match h
    case Commits(tx) =>
      if Canonical(tx) {
        CommitsAppend(w.db, tx);
        AppendedFlies(w.db.outbox, Exec(w.db, tx).outbox, w.queue);
      }
    case Documents(subject, revision, observed, document, at) =>
      var key := RepairKey(subject, revision, observed);
      AppendedFlies(w.db.outbox, Enqueue(w.db.outbox, key, RepairDocument(subject, document), at), w.queue);
    case Remarks(issue) =>
    case Begins(now, limit, lease) => if w.queue == [] { LeaseFlies(w.db.outbox, now, limit, lease); }
    case Handles(fate, pages, now) =>
      if w.queue != [] && fate.Finishes? {
        SettledFlies(w.db.outbox, w.queue, ProjectItem(w.comments, w.queue[0], pages, fate.link).1, now);
      }
  }

  lemma {:induction false} FlightKeeps(w: World, hs: seq<Happening>)
    requires InFlight(w.db.outbox, w.queue)
    ensures InFlight(History(w, hs).db.outbox, History(w, hs).queue)
    decreases |hs|
  {
    if hs != [] {
      FlightGoesOn(w, hs[0]);
      FlightKeeps(Happen(w, hs[0]), hs[1..]);
    }
  }

  // ------------------------------------------------------- comments only grow

  lemma ItemOnlyAdds(comments: map<string, seq<Comment>>, item: Leased, pages: nat, link: Link, issue: string)
    ensures CommentsOn(comments, issue) <= CommentsOn(ProjectItem(comments, item, pages, link).0, issue)
  {
  }

  lemma HappenOnlyAdds(w: World, h: Happening, issue: string)
    ensures CommentsOn(w.comments, issue) <= CommentsOn(Happen(w, h).comments, issue)
  {
    if h.Handles? && w.queue != [] && !h.fate.DiesBefore? {
      ItemOnlyAdds(w.comments, w.queue[0], h.pages, h.fate.link, issue);
    }
  }

  /** No comment is ever changed or removed. */
  lemma {:induction false} HistoryOnlyAdds(w: World, hs: seq<Happening>, issue: string)
    ensures CommentsOn(w.comments, issue) <= CommentsOn(History(w, hs).comments, issue)
    decreases |hs|
  {
    if hs != [] {
      HappenOnlyAdds(w, hs[0], issue);
      HistoryOnlyAdds(Happen(w, hs[0]), hs[1..], issue);
    }
  }

  /** A marker that fewer than `n` comments follow is among the newest `n`. */
  lemma StillInReach(before: seq<Comment>, m: Marker, after: seq<Comment>, n: nat)
    requires Posted(before, m) <= after && |after| < |before| + 1 + n
    ensures Marks(Tail(after, n), m)
  {
    var at := |before|;
    assert after[at] == Posted(before, m)[at];
    if |after| <= n { assert Tail(after, n)[at] == after[at]; }
    else { assert Tail(after, n)[at - (|after| - n)] == after[at]; }
  }

  // ------------------------------------------------------------ the lost reply

  /** The tracker has the comment, but the dispatcher died or never heard of it. */
  predicate Unheard(fate: Fate) {
    fate.DiesAfter? || (fate.Finishes? && fate.link.Unacknowledged?)
  }

  /** The first queued item is posted to its issue and its reply is lost. */
  predicate LosesReply(w: World, fate: Fate, pages: nat, now: Time) {
    && Unheard(fate) && w.queue != []
    && var target := Target(w.queue[0].key, w.queue[0].payload);
       && target.Some?
       && CommentsOn(HandleNext(w, fate, pages, now).comments, target.value.0)
          == Posted(CommentsOn(w.comments, target.value.0), target.value.1)
  }

  /** A post whose reply was lost is never repeated. Whatever happens in between, when
      the row is leased again and reached, and the issue has meanwhile gained fewer
      comments than the scan reads, the dispatcher finds the comment, posts nothing, and
      the row is sent. */
  lemma LostReplyIsRecovered(past: seq<Happening>, fate: Fate, few: nat, at: Time,
                             hs: seq<Happening>, link: Link, pages: nat, now: Time)
    requires LosesReply(History(BEGINNING, past), fate, few, at) && !link.RefusesScan?
    requires var w := History(BEGINNING, past); var posted := HandleNext(w, fate, few, at);
      var u := History(posted, hs);
      && u.queue != [] && u.queue[0].id == w.queue[0].id
      && var issue := Target(w.queue[0].key, w.queue[0].payload).value.0;
         |CommentsOn(u.comments, issue)| < |CommentsOn(posted.comments, issue)| + PAGE * pages
    ensures var w := History(BEGINNING, past); var u := History(HandleNext(w, fate, few, at), hs);
      var v := HandleNext(u, Finishes(link), pages, now);
      && v.comments == u.comments
      && w.queue[0].id < |v.db.outbox| && v.db.outbox[w.queue[0].id].status == Sent
  {
    var w := History(BEGINNING, past);
    AnyHistory(past);
    FlightKeeps(BEGINNING, past);
    AfterLoss(w, fate, few, at);
    var target := Target(w.queue[0].key, w.queue[0].payload).value;
    FoundLater(HandleNext(w, fate, few, at), w.queue[0], CommentsOn(w.comments, target.0), hs, link, pages, now);
  }

  lemma AfterLoss(w: World, fate: Fate, few: nat, at: Time)
    requires WorldOk(w) && InFlight(w.db.outbox, w.queue) && LosesReply(w, fate, few, at)
    ensures var posted := HandleNext(w, fate, few, at);
      && WorldOk(posted) && InFlight(posted.db.outbox, posted.queue)
      && ItemNames(posted.db.outbox, w.queue[0])
  {
    HandleKeeps(w, fate, few, at);
    assert ItemNames(w.db.outbox, w.queue[0]);
    if fate.Finishes? {
      var outcome := ProjectItem(w.comments, w.queue[0], few, fate.link).1;
      SettledFlies(w.db.outbox, w.queue, outcome, at);
      SettleSettles(w.db.outbox, SettleItem(w.queue[0], outcome, at));
    }
  }

  lemma FoundLater(posted: World, item: Leased, before: seq<Comment>, hs: seq<Happening>, link: Link, pages: nat,
                   now: Time)
    requires WorldOk(posted) && InFlight(posted.db.outbox, posted.queue) && !link.RefusesScan?
    requires ItemNames(posted.db.outbox, item) && Target(item.key, item.payload).Some?
    requires var (issue, m) := Target(item.key, item.payload).value;
      && CommentsOn(posted.comments, issue) == Posted(before, m)
      && |CommentsOn(History(posted, hs).comments, issue)| < |before| + 1 + PAGE * pages
    requires History(posted, hs).queue != [] && History(posted, hs).queue[0].id == item.id
    ensures var u := History(posted, hs); var v := HandleNext(u, Finishes(link), pages, now);
      v.comments == u.comments && item.id < |v.db.outbox| && v.db.outbox[item.id].status == Sent
  {
    var (issue, m) := Target(item.key, item.payload).value;
    var u := History(posted, hs);
    HistoryKeeps(posted, hs);
    FlightKeeps(posted, hs);
    SentForEver(posted, hs);
    HistoryOnlyAdds(posted, hs, issue);
    StillInReach(before, m, CommentsOn(u.comments, issue), PAGE * pages);
    assert ItemNames(u.db.outbox, u.queue[0]);
    assert Holds(u.db.outbox, u.queue[0].id, u.queue[0].attempt);
    FoundIsSent(u, issue, m, link, pages, now);
  }

  lemma FoundIsSent(w: World, issue: string, m: Marker, link: Link, pages: nat, now: Time)
    requires w.queue != [] && !link.RefusesScan? && Holds(w.db.outbox, w.queue[0].id, w.queue[0].attempt)
    requires Target(w.queue[0].key, w.queue[0].payload) == Some((issue, m))
    requires Marks(Tail(CommentsOn(w.comments, issue), PAGE * pages), m)
    ensures var v := HandleNext(w, Finishes(link), pages, now); var id := w.queue[0].id;
      v.comments == w.comments && id < |v.db.outbox| && v.db.outbox[id].status == Sent
  {
    assert issue in w.comments;
  }
}
