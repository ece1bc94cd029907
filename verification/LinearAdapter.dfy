/** The dispatcher itself: lease rows, project each, settle each under its attempt. */
module LinearAdapter {
  import opened Dispatcher
  import opened DispatcherDelivery
  import opened DispatcherRetries
  import opened Gateway
  import opened Outbox
  import opened Records
  import opened WorkplanInvariant
  import opened WorkplanRuns
  import opened Wrappers

  datatype DispatchReport = DispatchReport(sent: nat, pending: nat, attention: nat)

  /** The happenings of one dispatch, from its `i`-th leased row on. */
  function HandleSteps(fates: nat -> Fate, i: nat, n: nat, pages: nat, now: Time): seq<Happening>
    requires i <= n
    decreases n - i
  {
    if i == n then [] else [Handles(fates(i), pages, now)] + HandleSteps(fates, i + 1, n, pages, now)
  }

  lemma StepHistory(w: World, fates: nat -> Fate, i: nat, n: nat, pages: nat, now: Time)
    requires i < n
    ensures History(w, HandleSteps(fates, i, n, pages, now)) ==
      History(HandleNext(w, fates(i), pages, now), HandleSteps(fates, i + 1, n, pages, now))
  {
    var steps := HandleSteps(fates, i, n, pages, now);
    assert steps[1..] == HandleSteps(fates, i + 1, n, pages, now);
  }

  lemma {:induction false} IdleHistory(w: World, fates: nat -> Fate, i: nat, n: nat, pages: nat, now: Time)
    requires i <= n && w.queue == []
    ensures History(w, HandleSteps(fates, i, n, pages, now)) == w
    decreases n - i
  {
    if i < n {
      StepHistory(w, fates, i, n, pages, now);
      IdleHistory(w, fates, i + 1, n, pages, now);
    }
  }

  // ----------------------------------------------------------------- the report

  /** How many of the items' rows are sent, and how many wait for somebody's attention. */
  function SentCount(rows: seq<OutboxRow>, items: seq<Leased>): nat {
    if items == [] then 0
    else SentCount(rows, items[..|items| - 1]) + (if RowSent(rows, items[|items| - 1].id) then 1 else 0)
  }

  function AttentionCount(rows: seq<OutboxRow>, items: seq<Leased>): nat {
    if items == [] then 0
    else AttentionCount(rows, items[..|items| - 1]) + (if RowWaits(rows, items[|items| - 1].id) then 1 else 0)
  }

  predicate RowSent(rows: seq<OutboxRow>, id: nat) {
    id < |rows| && rows[id].status.Sent?
  }

  predicate RowWaits(rows: seq<OutboxRow>, id: nat) {
    id < |rows| && rows[id].status.Pending? && rows[id].needsAttention
  }

  /** Settling another row changes no count. */
  lemma {:induction false} CountsApart(rows: seq<OutboxRow>, more: seq<OutboxRow>, items: seq<Leased>)
    requires |rows| == |more|
    requires forall j | 0 <= j < |items| && items[j].id < |rows| :: more[items[j].id] == rows[items[j].id]
    ensures SentCount(more, items) == SentCount(rows, items)
      && AttentionCount(more, items) == AttentionCount(rows, items)
  {
    if items != [] { CountsApart(rows, more, items[..|items| - 1]); }
  }

  lemma CountNext(rows: seq<OutboxRow>, items: seq<Leased>, i: nat)
    requires i < |items|
    ensures SentCount(rows, items[..i + 1]) ==
            SentCount(rows, items[..i]) + (if RowSent(rows, items[i].id) then 1 else 0)
    ensures AttentionCount(rows, items[..i + 1]) ==
            AttentionCount(rows, items[..i]) + (if RowWaits(rows, items[i].id) then 1 else 0)
  {
    assert items[..i + 1][..i] == items[..i];
  }

  lemma {:induction false} AllSent(rows: seq<OutboxRow>, items: seq<Leased>)
    requires forall j | 0 <= j < |items| :: RowSent(rows, items[j].id)
    ensures SentCount(rows, items) == |items|
  {
    if items != [] { AllSent(rows, items[..|items| - 1]); }
  }

  lemma {:induction false} AllSentNoneWaits(rows: seq<OutboxRow>, items: seq<Leased>)
    requires SentCount(rows, items) == |items|
    ensures AttentionCount(rows, items) == 0
  {
    SentAtMost(rows, items);
    if items != [] {
      SentAtMost(rows, items[..|items| - 1]);
      AllSentNoneWaits(rows, items[..|items| - 1]);
    }
  }

  lemma {:induction false} SentAtMost(rows: seq<OutboxRow>, items: seq<Leased>)
    ensures SentCount(rows, items) <= |items|
  {
    if items != [] { SentAtMost(rows, items[..|items| - 1]); }
  }

  /** The report after one more item has been settled. */
  lemma SettledCounts(rows: seq<OutboxRow>, items: seq<Leased>, i: nat, outcome: Outcome, now: Time)
    requires i < |items| && Holds(rows, items[i].id, items[i].attempt)
    requires forall j, k | 0 <= j < k < |items| :: items[j].id != items[k].id
    ensures var more := Settle(rows, SettleItem(items[i], outcome, now));
      && SentCount(more, items[..i + 1]) == SentCount(rows, items[..i]) + (if outcome.Delivered? then 1 else 0)
      && AttentionCount(more, items[..i + 1]) ==
         AttentionCount(rows, items[..i]) + (if outcome.Undelivered? && outcome.attention then 1 else 0)
  {
    var more := Settle(rows, SettleItem(items[i], outcome, now));
    CountsApart(rows, more, items[..i]);
    CountNext(more, items, i);
  }

  /** Every row goes to a tracker that accepts. */
  predicate AllAccept(fates: nat -> Fate, n: nat) {
    forall i | 0 <= i < n :: fates(i) == Finishes(Accepts)
  }

  /** The dispatcher survives its first `n` rows. */
  predicate AllFinish(fates: nat -> Fate, n: nat) {
    n == 0 || (AllFinish(fates, n - 1) && fates(n - 1).Finishes?)
  }

  lemma {:induction false} FinishPrefix(fates: nat -> Fate, i: nat, n: nat)
    requires i <= n
    ensures AllFinish(fates, n) ==> AllFinish(fates, i)
  {
    if i < n { FinishPrefix(fates, i, n - 1); }
  }

  lemma {:induction false} AcceptedFinish(fates: nat -> Fate, n: nat)
    requires AllAccept(fates, n)
    ensures AllFinish(fates, n)
  {
    if n > 0 { AcceptedFinish(fates, n - 1); }
  }

  lemma {:induction false} AcceptedSteps(fates: nat -> Fate, i: nat, n: nat, pages: nat, now: Time)
    requires i <= n && AllAccept(fates, n)
    ensures HandleSteps(fates, i, n, pages, now) == Accepted(n - i, pages, now)
    decreases n - i
  {
    if i < n { AcceptedSteps(fates, i + 1, n, pages, now); }
  }

  /** A dispatch to such a tracker, with every issue in reach, sends all it leased. */
  lemma AcceptedDispatch(first: World, fates: nat -> Fate, pages: nat, now: Time, last: World)
    requires InFlight(first.db.outbox, first.queue) && AllDeliverable(first.comments, first.queue, pages)
    requires AllAccept(fates, |first.queue|)
    requires last == History(first, HandleSteps(fates, 0, |first.queue|, pages, now))
    ensures SentCount(last.db.outbox, first.queue) == |first.queue| && AttentionCount(last.db.outbox, first.queue) == 0
    ensures forall j | 0 <= j < |first.queue| :: DeliveredIn(last, first.queue[j])
  {
    AcceptedSteps(fates, 0, |first.queue|, pages, now);
    AllRowsDelivered(first, pages, now);
    forall j | 0 <= j < |first.queue| ensures RowSent(last.db.outbox, first.queue[j].id) {
      assert DeliveredIn(last, first.queue[j]);
    }
    AllSent(last.db.outbox, first.queue);
    AllSentNoneWaits(last.db.outbox, first.queue);
  }

  /** Handling the rest of the queue from `w` ends where the whole dispatch ends. */
  ghost predicate OnTrack(first: World, w: World, fates: nat -> Fate, i: nat, n: nat, pages: nat, now: Time) {
    i <= n && History(first, HandleSteps(fates, 0, n, pages, now)) == History(w, HandleSteps(fates, i, n, pages, now))
  }

  lemma StaysOnTrack(first: World, w: World, fates: nat -> Fate, i: nat, n: nat, pages: nat, now: Time)
    requires i < n && OnTrack(first, w, fates, i, n, pages, now)
    ensures OnTrack(first, HandleNext(w, fates(i), pages, now), fates, i + 1, n, pages, now)
  {
    StepHistory(w, fates, i, n, pages, now);
  }

  lemma TrackEnds(first: World, w: World, fates: nat -> Fate, i: nat, n: nat, pages: nat, now: Time)
    requires w.queue == [] && OnTrack(first, w, fates, i, n, pages, now)
    ensures History(first, HandleSteps(fates, 0, n, pages, now)) == w
  {
    IdleHistory(w, fates, i, n, pages, now);
  }

  /** The report tells what has become of the first `i` rows. */
  ghost predicate Tells(report: DispatchReport, rows: seq<OutboxRow>, items: seq<Leased>, i: nat) {
    && i <= |items| && report.sent == SentCount(rows, items[..i]) && report.sent + report.pending == i
    && report.attention == AttentionCount(rows, items[..i])
  }

  function Reporting(report: DispatchReport, outcome: Outcome): DispatchReport {
    match outcome
    case Delivered => report.(sent := report.sent + 1)
    case Undelivered(attention) =>
      report.(pending := report.pending + 1, attention := report.attention + if attention then 1 else 0)
  }

  lemma TellsNext(report: DispatchReport, rows: seq<OutboxRow>, items: seq<Leased>, i: nat, outcome: Outcome, now: Time)
    requires i < |items| && Tells(report, rows, items, i) && InFlight(rows, items[i..])
    requires forall j, k | 0 <= j < k < |items| :: items[j].id != items[k].id
    ensures var more := Settle(rows, SettleItem(items[i], outcome, now));
      Tells(Reporting(report, outcome), more, items, i + 1) && InFlight(more, items[i + 1..])
  {
    assert items[i..][0] == items[i] && items[i..][1..] == items[i + 1..];
    SettledFlies(rows, items[i..], outcome, now);
    SettledCounts(rows, items, i, outcome, now);
  }

  /** The state of the dispatch before row `i`. */
  ghost predicate Handling(first: World, w: World, report: DispatchReport, fates: nat -> Fate, i: nat, pages: nat,
                           now: Time) {
    && i <= |first.queue| && w.queue == first.queue[i..]
    && InFlight(first.db.outbox, first.queue) && InFlight(w.db.outbox, w.queue)
    && Tells(report, w.db.outbox, first.queue, i)
    && OnTrack(first, w, fates, i, |first.queue|, pages, now) && AllFinish(fates, i)
  }

  lemma HandlingNext(first: World, w: World, v: World, report: DispatchReport, fates: nat -> Fate, i: nat, pages: nat,
                     now: Time, outcome: Outcome)
    requires Handling(first, w, report, fates, i, pages, now) && i < |first.queue| && fates(i).Finishes?
    requires v == HandleNext(w, fates(i), pages, now)
    requires v.db.outbox == Settle(w.db.outbox, SettleItem(w.queue[0], outcome, now)) && v.queue == w.queue[1..]
    ensures Handling(first, v, Reporting(report, outcome), fates, i + 1, pages, now)
  {
    StaysOnTrack(first, w, fates, i, |first.queue|, pages, now);
    TellsNext(report, w.db.outbox, first.queue, i, outcome, now);
    assert v.queue == first.queue[i + 1..];
  }

  lemma HandlingHead(first: World, w: World, report: DispatchReport, fates: nat -> Fate, i: nat, pages: nat, now: Time)
    requires Handling(first, w, report, fates, i, pages, now) && i < |first.queue|
    ensures w.queue != [] && w.queue[0] == first.queue[i]
  {
  }

  lemma HandlingStarts(first: World, fates: nat -> Fate, pages: nat, now: Time)
    requires InFlight(first.db.outbox, first.queue)
    ensures Handling(first, first, DispatchReport(0, 0, 0), fates, 0, pages, now)
  {
    assert first.queue[0..] == first.queue && first.queue[..0] == [];
  }

  /** The dispatch is over: its steps are done, and it reports unless it died. */
  ghost predicate Ended(first: World, w: World, report: DispatchReport, crashed: bool, fates: nat -> Fate, pages: nat,
                        now: Time) {
    && w == History(first, HandleSteps(fates, 0, |first.queue|, pages, now))
    && crashed == !AllFinish(fates, |first.queue|)
    && (!crashed ==> Reported(report, first.comments, w, first.queue, fates, pages))
  }

  lemma HandlingEnds(first: World, w: World, report: DispatchReport, fates: nat -> Fate, pages: nat, now: Time)
    requires Handling(first, w, report, fates, |first.queue|, pages, now)
    ensures w.queue == [] && Ended(first, w, report, false, fates, pages, now)
  {
    TrackEnds(first, w, fates, |first.queue|, |first.queue|, pages, now);
    EndReported(report, first, w, fates, pages, now);
  }

  lemma HandlingDies(first: World, w: World, report: DispatchReport, fates: nat -> Fate, i: nat, pages: nat, now: Time)
    requires Handling(first, w, report, fates, i, pages, now) && i < |first.queue|
    requires HandleNext(w, fates(i), pages, now).queue == [] && !fates(i).Finishes?
    ensures Ended(first, HandleNext(w, fates(i), pages, now), report, true, fates, pages, now)
  {
    FinishPrefix(fates, i + 1, |first.queue|);
    StaysOnTrack(first, w, fates, i, |first.queue|, pages, now);
    TrackEnds(first, HandleNext(w, fates(i), pages, now), fates, i + 1, |first.queue|, pages, now);
  }

  /** What a dispatch that did not die reports and leaves. */
  ghost predicate Reported(report: DispatchReport, before: map<string, seq<Comment>>, w: World, items: seq<Leased>,
                           fates: nat -> Fate, pages: nat)
  {
    && Tells(report, w.db.outbox, items, |items|)
    && (AllAccept(fates, |items|) && AllDeliverable(before, items, pages) ==>
          report == DispatchReport(|items|, 0, 0) && forall j | 0 <= j < |items| :: DeliveredIn(w, items[j]))
  }

  lemma EndReported(report: DispatchReport, first: World, w: World, fates: nat -> Fate, pages: nat, now: Time)
    requires InFlight(first.db.outbox, first.queue) && Tells(report, w.db.outbox, first.queue, |first.queue|)
    requires w == History(first, HandleSteps(fates, 0, |first.queue|, pages, now))
    ensures Reported(report, first.comments, w, first.queue, fates, pages)
  {
    assert first.queue[..|first.queue|] == first.queue;
    if AllAccept(fates, |first.queue|) && AllDeliverable(first.comments, first.queue, pages) {
      AcceptedDispatch(first, fates, pages, now, w);
    }
  }

  lemma Handled(w: World, fate: Fate, pages: nat, now: Time, comments: map<string, seq<Comment>>, outcome: Outcome)
    requires w.queue != [] && !fate.DiesBefore?
    requires (comments, outcome) == ProjectItem(w.comments, w.queue[0], pages, fate.link)
    ensures HandleNext(w, fate, pages, now) ==
            if fate.DiesAfter? then World(w.db, comments, [])
            else World(WithSettled(w.db, SettleItem(w.queue[0], outcome, now)), comments, w.queue[1..])
  {
  }

  /** Settling rows keeps the store invariant. */
  lemma {:induction false} HandlesKeepInv(w: World, fates: nat -> Fate, i: nat, n: nat, pages: nat, now: Time)
    requires i <= n && Inv(w.db)
    ensures Inv(History(w, HandleSteps(fates, i, n, pages, now)).db)
    decreases n - i
  {
    if i < n {
      var v := HandleNext(w, fates(i), pages, now);
      if w.queue != [] && fates(i).Finishes? {
        var outcome := ProjectItem(w.comments, w.queue[0], pages, fates(i).link).1;
        SettleKeeps(w.db, SettleItem(w.queue[0], outcome, now));
      }
      StepHistory(w, fates, i, n, pages, now);
      HandlesKeepInv(v, fates, i + 1, n, pages, now);
    }
  }

  class LinearProjectionAdapter {
    const store: WorkplanGateway
    const maxPages: nat
    var comments: map<string, seq<Comment>>

    constructor (store: WorkplanGateway, maxPages: nat)
      ensures this.store == store && this.maxPages == maxPages && comments == map[]
    {
      this.store, this.maxPages, comments := store, maxPages, map[];
    }

    /** Validate, scan, and post only when the scan is conclusive. */
    method ProjectLeased(item: Leased, link: Link) returns (outcome: Outcome)
      modifies this
      ensures (comments, outcome) == ProjectItem(old(comments), item, maxPages, link)
    {
      var target := Target(item.key, item.payload);
      if target.None? {
        return Undelivered(true);
      }
      var (issue, m) := target.value;
      var known := CommentsOn(comments, issue);
      if link.RefusesScan? {
        outcome := Undelivered(link.attention);
      } else {
        var scan := HasCommentMarker(known, m, maxPages);
        if scan.Found? {
          outcome := Delivered;
        } else if scan.TooLong? {
          outcome := Undelivered(true);
        } else if link.RefusesPost? {
          outcome := Undelivered(link.attention);
        } else {
          known := known + [Comment(Some(m))];
          outcome := if link.Unacknowledged? then Undelivered(link.attention) else Delivered;
        }
      }
      comments := comments[issue := known];
    }

    /** The next leased row: delivered and settled, unless the process dies around it. */
    method HandleRow(item: Leased, fate: Fate, now: Time, ghost w: World)
      returns (outcome: Outcome, alive: bool, ghost v: World)
      requires w.db == store.db && w.comments == comments && w.queue != [] && w.queue[0] == item
      modifies this, store
      ensures v.db == store.db && v.comments == comments && alive == fate.Finishes?
      ensures v == HandleNext(w, fate, maxPages, now) && v.queue == if alive then w.queue[1..] else []
      ensures alive ==> v.db.outbox == Settle(w.db.outbox, SettleItem(item, outcome, now))
    {
      outcome, alive, v := Undelivered(true), false, w.(queue := []);
      if fate.DiesBefore? {
        return;
      }
      outcome := ProjectLeased(item, fate.link);
      Handled(w, fate, maxPages, now, comments, outcome);
      v := World(store.db, comments, []);
      if fate.DiesAfter? {
        return;
      }
      alive := true;
      if outcome.Delivered? {
        var changed := store.SetSent(item.id, item.attempt, now);
      } else {
        var changed := store.SetPending(item.id, item.attempt, now, outcome.attention);
      }
      v := World(store.db, comments, w.queue[1..]);
    }

    /** Leases rows, delivers and settles one after the other, and reports what became of
        them. A tracker that accepts everything in reach leaves every leased row sent. */
    method Dispatch(now: Time, limit: int, lease: int, fates: nat -> Fate)
      returns (report: DispatchReport, crashed: bool, ghost items: seq<Leased>)
      requires store.Valid()
      modifies this, store
      ensures store.Valid()
      ensures items == LeaseRows(old(store.db).outbox, now, limit, lease).1
      ensures World(store.db, comments, []) ==
              History(Happen(World(old(store.db), old(comments), []), Begins(now, limit, lease)),
                      HandleSteps(fates, 0, |items|, maxPages, now))
      ensures crashed == !AllFinish(fates, |items|)
      ensures !crashed ==> Reported(report, old(comments), World(store.db, comments, []), items, fates, maxPages)
      ensures AllAccept(fates, |items|) ==> !crashed
    {
      report, crashed := DispatchReport(0, 0, 0), false;
      LeaseFlies(store.db.outbox, now, limit, lease);
      var leased, error := store.ClaimOutbox(now, limit, lease);
      items := leased;
      ghost var first := World(store.db, comments, leased);
      HandlesKeepInv(first, fates, 0, |leased|, maxPages, now);
      report, crashed := HandleAll(leased, now, fates);
      if AllAccept(fates, |leased|) { AcceptedFinish(fates, |leased|); }
    }

    method HandleAll(items: seq<Leased>, now: Time, fates: nat -> Fate) returns (report: DispatchReport, crashed: bool)
      requires InFlight(store.db.outbox, items)
      modifies this, store
      ensures Ended(World(old(store.db), old(comments), items), World(store.db, comments, []), report, crashed, fates,
                    maxPages, now)
    {
      report, crashed := DispatchReport(0, 0, 0), false;
      ghost var first, w := World(store.db, comments, items), World(store.db, comments, items);
      HandlingStarts(first, fates, maxPages, now);
      var i := 0;
      while i < |items|
        invariant i <= |items| && w.db == store.db && w.comments == comments
        invariant Handling(first, w, report, fates, i, maxPages, now)
      {
        var alive;
        report, alive, w := HandleNextRow(items[i], report, fates, i, now, first, w);
        if !alive {
          return report, true;
        }
        i := i + 1;
      }
      HandlingEnds(first, w, report, fates, maxPages, now);
    }

    /** One row of a dispatch, and its place in the report. */
    method HandleNextRow(item: Leased, report: DispatchReport, fates: nat -> Fate, i: nat, now: Time,
                         ghost first: World, ghost w: World)
      returns (next: DispatchReport, alive: bool, ghost v: World)
      requires i < |first.queue| && item == first.queue[i] && w.db == store.db && w.comments == comments
      requires Handling(first, w, report, fates, i, maxPages, now)
      modifies this, store
      ensures v.db == store.db && v.comments == comments
      ensures alive ==> Handling(first, v, next, fates, i + 1, maxPages, now)
      ensures !alive ==> v.queue == [] && Ended(first, v, next, true, fates, maxPages, now)
    {
      HandlingHead(first, w, report, fates, i, maxPages, now);
      var outcome;
      outcome, alive, v := HandleRow(item, fates(i), now, w);
      if alive {
        HandlingNext(first, w, v, report, fates, i, maxPages, now, outcome);
        next := Reporting(report, outcome);
      } else {
        HandlingDies(first, w, report, fates, i, maxPages, now);
        next := report;
      }
    }
  }
}
