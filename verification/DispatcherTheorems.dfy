/** Effectively-once projection over every history of dispatches, crashes, lost
    acknowledgements, other comments and gateway transactions. */
module DispatcherTheorems {
  import opened Dispatcher
  import opened Markers
  import opened Outbox
  import opened Records
  import opened Workplan
  import opened WorkplanInvariant
  import opened WorkplanRuns
  import opened WorkplanTheorems
  import opened Wrappers

  // ------------------------------------------------------------ outbox rows

  /** A receipt's row carries that receipt's own public activity, and a repair's key
      names the repair's own subject. */
  predicate Faithful(row: OutboxRow) {
    match row.key
    case ReceiptKey(h) =>
      && row.payload.Activity? && row.payload.receiptHash == h && h.ReceiptDigest?
      && row.payload.subject == h.body.card && row.payload.event == h.body.event
      && row.payload.revision == h.body.revisionTo && row.payload.actor == h.body.actor
    case BackendKey(h) => row.payload.BackendActivity? && row.payload.receiptHash == h
    case NamedKey(name) => row.payload.RepairDocument? && Names(name, row.payload.subject)
  }

  ghost predicate AllFaithful(rows: seq<OutboxRow>) {
    forall i | 0 <= i < |rows| :: Faithful(rows[i])
  }

  /** Rows are appended, pending and faithful. */
  ghost predicate Appends(rows: seq<OutboxRow>, more: seq<OutboxRow>) {
    && rows <= more
    && forall i | |rows| <= i < |more| :: more[i].status == Pending && Faithful(more[i])
  }

  lemma ApplyAppends(t: Tables, c: CardId, d: Delta, now: Time)
    ensures Appends(t.outbox, Apply(t, c, d, now).outbox)
  {
  }

  lemma CommitAppends(t: Tables, c: CardId, change: Change, now: Time)
    ensures Appends(t.outbox, Commit(t, c, change, now).outbox)
  {
    if change.Update? { ApplyAppends(t, c, change.delta, now); }
  }

  lemma NotifiedAppends(t: Tables, c: CardId, delivery: string, now: Time)
    ensures Appends(t.outbox, Notified(t, c, delivery, now).outbox)
  {
    CommitAppends(t, c, NoticeChange(t, c, Notice(delivery), WEBHOOK_ACTOR), now);
  }

  lemma DeliverAppends(t: Tables, delivery: string, row: Delivery, subject: Option<CardId>, protectedChange: bool,
                       now: Time)
    ensures Appends(t.outbox, DeliverNotice(t, delivery, row, subject, protectedChange, now).outbox)
  {
    if subject.Some? { NotifiedAppends(t.(inbox := t.inbox[delivery := row]), subject.value, delivery, now); }
  }

  lemma CommitsAppend(t: Tables, tx: Transaction)
    requires Canonical(tx)
    ensures Appends(t.outbox, Exec(t, tx).outbox)
  {
    match tx
    case OnCard(c, command, actor, now) => CommitAppends(t, c, ChangeOf(t, c, command, actor, now), now);
    case Deliver(delivery, row, subject, protectedChange, now) =>
      DeliverAppends(t, delivery, row, subject, protectedChange, now);
    case SwitchBackend(_, backend, snapshot, actor, now) => SwitchAppends(t, backend, snapshot, actor, now);
  }

  lemma SwitchAppends(t: Tables, backend: string, snapshot: string, actor: Actor, now: Time)
    ensures Appends(t.outbox, Switched(t, backend, snapshot, actor, now).outbox)
  {
  }

  lemma LeaseNeverSends(rows: seq<OutboxRow>, now: Time, limit: int, lease: int, i: nat)
    requires i < |rows|
    ensures |LeaseRows(rows, now, limit, lease).0| == |rows|
    ensures LeaseRows(rows, now, limit, lease).0[i].status == Sent ==> rows[i].status == Sent
  {
    if limit > 0 && lease > 0 {
      GrantsPending(ReclaimAll(rows, now - lease), limit, now, i);
    }
  }

  // ---------------------------------------------------------------- invariant

  function RowTarget(row: OutboxRow): Option<(string, Marker)> {
    Target(row.key, row.payload)
  }

  /** Every leased item still names its row. */
  ghost predicate QueueOk(rows: seq<OutboxRow>, queue: seq<Leased>) {
    forall j | 0 <= j < |queue| :: ItemNames(rows, queue[j])
  }

  predicate ItemNames(rows: seq<OutboxRow>, item: Leased) {
    item.id < |rows| && rows[item.id].key == item.key && rows[item.id].payload == item.payload
  }

  ghost predicate Aims(rows: seq<OutboxRow>, issue: string, m: Marker) {
    exists i | 0 <= i < |rows| :: RowTarget(rows[i]) == Some((issue, m))
  }

  /** Marked comments belong to a row that aims there. */
  ghost predicate Owned(rows: seq<OutboxRow>, comments: map<string, seq<Comment>>) {
    forall issue, m | issue in comments && Marks(comments[issue], m) :: Aims(rows, issue, m)
  }

  ghost predicate MarkedOnce(comments: seq<Comment>) {
    forall i, j | 0 <= i < j < |comments| && comments[i].marker.Some? :: comments[i].marker != comments[j].marker
  }

  ghost predicate AllMarkedOnce(comments: map<string, seq<Comment>>) {
    forall issue | issue in comments :: MarkedOnce(comments[issue])
  }

  ghost predicate SentIsPosted(rows: seq<OutboxRow>, comments: map<string, seq<Comment>>) {
    forall i | 0 <= i < |rows| && rows[i].status == Sent :: RowPosted(rows[i], comments)
  }

  predicate RowPosted(row: OutboxRow, comments: map<string, seq<Comment>>) {
    var target := RowTarget(row);
    target.Some? && Marks(CommentsOn(comments, target.value.0), target.value.1)
  }

  ghost predicate WorldOk(w: World) {
    && Inv(w.db) && AllFaithful(w.db.outbox)
    && QueueOk(w.db.outbox, w.queue)
    && Owned(w.db.outbox, w.comments) && AllMarkedOnce(w.comments)
    && SentIsPosted(w.db.outbox, w.comments)
  }

  /** Same rows, possibly more of them: ownership and queue carry over. */
  ghost predicate Carries(rows: seq<OutboxRow>, more: seq<OutboxRow>) {
    && |rows| <= |more|
    && forall i | 0 <= i < |rows| :: more[i].key == rows[i].key && more[i].payload == rows[i].payload
  }

  lemma CarriedParts(rows: seq<OutboxRow>, more: seq<OutboxRow>, queue: seq<Leased>,
                     comments: map<string, seq<Comment>>)
    requires Carries(rows, more) && QueueOk(rows, queue) && Owned(rows, comments)
    ensures QueueOk(more, queue) && Owned(more, comments)
  {
    forall issue, m | issue in comments && Marks(comments[issue], m) ensures Aims(more, issue, m) {
      var i :| 0 <= i < |rows| && RowTarget(rows[i]) == Some((issue, m));
      assert RowTarget(more[i]) == Some((issue, m));
    }
    forall j | 0 <= j < |queue| ensures ItemNames(more, queue[j]) {
      assert ItemNames(rows, queue[j]);
    }
  }

  /** A transaction that only appends pending rows. */
  lemma AppendKeeps(w: World, db: Tables)
    requires WorldOk(w) && Inv(db) && Appends(w.db.outbox, db.outbox)
    ensures WorldOk(w.(db := db))
  {
    var rows, more := w.db.outbox, db.outbox;
    forall i | 0 <= i < |rows| ensures more[i] == rows[i] { assert more[..|rows|] == rows; }
    CarriedParts(rows, more, w.queue, w.comments);
    forall i | 0 <= i < |more| && more[i].status == Sent ensures RowPosted(more[i], w.comments) {
      assert RowPosted(rows[i], w.comments);
    }
  }

  lemma LeaseKeeps(w: World, now: Time, limit: int, lease: int)
    requires WorldOk(w) && w.queue == []
    ensures WorldOk(Happen(w, Begins(now, limit, lease)))
  {
    var rows := w.db.outbox;
    var (more, items) := LeaseRows(rows, now, limit, lease);
    SettleKeeps(w.db, Lease(now, limit, lease));
    SettleSettles(rows, Lease(now, limit, lease));
    CarriedParts(rows, more, [], w.comments);
    forall i | 0 <= i < |more|
      ensures Faithful(more[i]) && (more[i].status == Sent ==> RowPosted(more[i], w.comments))
    {
      assert Faithful(rows[i]);
      LeaseNeverSends(rows, now, limit, lease, i);
    }
    LeaseNames(rows, now, limit, lease);
  }

  lemma LeaseNames(rows: seq<OutboxRow>, now: Time, limit: int, lease: int)
    ensures QueueOk(LeaseRows(rows, now, limit, lease).0, LeaseRows(rows, now, limit, lease).1)
  {
    var (more, items) := LeaseRows(rows, now, limit, lease);
    if limit > 0 && lease > 0 {
      var ready := ReclaimAll(rows, now - lease);
      GrantedHold(ready, 0, limit, now);
      forall j | 0 <= j < |items| ensures ItemNames(more, items[j]) {
        assert ItemOf(ready, more, 0, items[j]);
        GrantsPending(ready, limit, now, items[j].id);
      }
    }
  }

  // ------------------------------------------------------------ one delivery

  /** A delivery leaves the comments alone or adds the marker that they lacked. */
  lemma ProjectPosts(comments: seq<Comment>, m: Marker, pages: nat, link: Link)
    ensures var (after, outcome) := Project(comments, m, pages, link);
      && (after == comments || (after == Posted(comments, m) && !Marks(comments, m)))
      && (outcome.Delivered? ==> Marks(comments, m) || after == Posted(comments, m))
  {
    TailMarks(comments, m, PAGE * pages);
  }

  lemma PostedMarks(comments: seq<Comment>, m: Marker, k: Marker)
    ensures Marks(Posted(comments, m), k) <==> k == m || Marks(comments, k)
  {
    NoMarkIn(comments, [Comment(Some(m))], k);
    assert [Comment(Some(m))][0] == Comment(Some(m));
  }

  lemma PostedOnce(comments: seq<Comment>, m: Marker)
    requires MarkedOnce(comments) && !Marks(comments, m)
    ensures MarkedOnce(Posted(comments, m))
  {
  }

  lemma PostOnce(comments: seq<Comment>, m: Marker, pages: nat, link: Link)
    requires MarkedOnce(comments)
    ensures var (after, outcome) := Project(comments, m, pages, link);
      && MarkedOnce(after)
      && (outcome.Delivered? ==> Marks(after, m))
      && (forall k | Marks(after, k) :: k == m || Marks(comments, k))
      && (forall k | Marks(comments, k) :: Marks(after, k))
      && (Marks(comments, m) ==> after == comments)
  {
    ProjectPosts(comments, m, pages, link);
    forall k ensures Marks(Posted(comments, m), k) <==> k == m || Marks(comments, k) {
      PostedMarks(comments, m, k);
    }
    if !Marks(comments, m) { PostedOnce(comments, m); }
  }

  lemma TailMarks(comments: seq<Comment>, m: Marker, n: nat)
    ensures Marks(Tail(comments, n), m) ==> Marks(comments, m)
    ensures |comments| <= n ==> Tail(comments, n) == comments
  {
    if |comments| > n && Marks(Tail(comments, n), m) {
      assert comments == comments[..|comments| - n] + Tail(comments, n);
      NoMarkIn(comments[..|comments| - n], Tail(comments, n), m);
    }
  }

  /** After a delivery attempt, comments are still owned and marked once, nothing that
      was posted disappears, and a delivered item is posted. */
  lemma ItemKeeps(rows: seq<OutboxRow>, comments: map<string, seq<Comment>>, item: Leased, pages: nat, link: Link)
    requires Owned(rows, comments) && AllMarkedOnce(comments) && SentIsPosted(rows, comments) && ItemNames(rows, item)
    ensures var (after, outcome) := ProjectItem(comments, item, pages, link);
      && Owned(rows, after) && AllMarkedOnce(after) && SentIsPosted(rows, after)
      && (outcome.Delivered? ==> RowPosted(rows[item.id], after))
  {
    var target := Target(item.key, item.payload);
    if target.Some? {
      var (issue, m) := target.value;
      var before := CommentsOn(comments, issue);
      assert MarkedOnce(before);
      PostOnce(before, m, pages, link);
      var (after, outcome) := ProjectItem(comments, item, pages, link);
      assert RowTarget(rows[item.id]) == target;
      forall s, k | s in after && Marks(after[s], k) ensures Aims(rows, s, k) {
        if s == issue && k == m { assert Aims(rows, s, k); }
        else if s == issue { assert Marks(before, k) && issue in comments; }
      }
      forall i | 0 <= i < |rows| && rows[i].status == Sent ensures RowPosted(rows[i], after) {
        assert RowPosted(rows[i], comments);
      }
    }
  }

  lemma HandleKeeps(w: World, fate: Fate, pages: nat, now: Time)
    requires WorldOk(w)
    ensures WorldOk(HandleNext(w, fate, pages, now))
  {
    if w.queue != [] && !fate.DiesBefore? {
      var item, rows := w.queue[0], w.db.outbox;
      assert ItemNames(rows, item);
      ItemKeeps(rows, w.comments, item, pages, fate.link);
      if fate.Finishes? {
        var (after, outcome) := ProjectItem(w.comments, item, pages, fate.link);
        SettledKeeps(w, item, after, outcome, now);
      }
    }
  }

  lemma SettledKeeps(w: World, item: Leased, after: map<string, seq<Comment>>, outcome: Outcome, now: Time)
    requires WorldOk(w) && w.queue != [] && ItemNames(w.db.outbox, item)
    requires Owned(w.db.outbox, after) && AllMarkedOnce(after) && SentIsPosted(w.db.outbox, after)
    requires outcome.Delivered? ==> RowPosted(w.db.outbox[item.id], after)
    ensures WorldOk(World(WithSettled(w.db, SettleItem(item, outcome, now)), after, w.queue[1..]))
  {
    var s := SettleItem(item, outcome, now);
    var rows, more := w.db.outbox, Settle(w.db.outbox, s);
    SettleKeeps(w.db, s);
    SettleSettles(rows, s);
    forall j | 0 <= j < |w.queue[1..]| ensures ItemNames(rows, w.queue[1..][j]) {
      assert w.queue[1..][j] == w.queue[j + 1];
    }
    CarriedParts(rows, more, w.queue[1..], after);
    forall i | 0 <= i < |more| ensures Faithful(more[i]) && (more[i].status == Sent ==> RowPosted(more[i], after)) {
      assert Faithful(rows[i]);
      assert rows[i].status == Sent ==> RowPosted(rows[i], after);
    }
  }

  lemma RemarkKeeps(w: World, issue: string)
    requires WorldOk(w)
    ensures WorldOk(Happen(w, Remarks(issue)))
  {
    var before, note := CommentsOn(w.comments, issue), [Comment(None)];
    var after := w.comments[issue := before + note];
    forall k ensures Marks(before + note, k) <==> Marks(before, k) {
      NoMarkIn(before, note, k);
    }
    forall s, m | s in after && Marks(after[s], m) ensures Aims(w.db.outbox, s, m) {
      assert s in w.comments && Marks(w.comments[s], m);
    }
    forall i | 0 <= i < |w.db.outbox| && w.db.outbox[i].status == Sent ensures RowPosted(w.db.outbox[i], after) {
      assert RowPosted(w.db.outbox[i], w.comments);
    }
  }

  lemma {:induction false} DigitsPlain(n: nat)
    ensures Plain(Digits(n)) && Colons(Digits(n)) == 0
  {
    var last := DIGITS[n % 10];
    assert last != ':' && last != '<' && last != '>';
    assert [last][..0] == "" && Colons([last]) == 0;
    if n >= 10 {
      DigitsPlain(n / 10);
      ColonsAppend(Digits(n / 10), [last]);
    }
  }

  lemma DecimalPlain(n: int)
    ensures Plain(Decimal(n)) && Colons(Decimal(n)) == 0
  {
    DigitsPlain(if n < 0 then -n else n);
    assert "-"[..0] == "" && Colons("-") == 0;
    if n < 0 { ColonsAppend("-", Digits(-n)); }
  }

  lemma {:induction false} HexPlain(s: string)
    requires HexDigits(s)
    ensures Plain(s) && Colons(s) == 0
  {
    if s != "" { HexPlain(s[..|s| - 1]); }
  }

  lemma RepairNamesSubject(subject: string, revision: int, observed: string)
    requires HexDigits(observed)
    ensures Names(RepairKey(subject, revision, observed).name, subject)
  {
    var name, rest := RepairKey(subject, revision, observed).name, Decimal(revision) + ":" + observed;
    DecimalPlain(revision);
    HexPlain(observed);
    assert ":"[..0] == "" && Colons(":") == 1;
    ColonsAppend(Decimal(revision), ":");
    ColonsAppend(Decimal(revision) + ":", observed);
    assert name == subject + ":" + rest && name[|subject| + 1..] == rest;
  }

  lemma HappenKeeps(w: World, h: Happening)
    requires WorldOk(w)
    ensures WorldOk(Happen(w, h))
  {
    match h
    case Commits(tx) =>
      if Canonical(tx) {
        ExecKeeps(w.db, tx);
        CommitsAppend(w.db, tx);
        AppendKeeps(w, Exec(w.db, tx));
      }
    case Documents(subject, revision, observed, document, at) =>
      if ShortVersion(observed) {
        var key := RepairKey(subject, revision, observed);
        RepairNamesSubject(subject, revision, observed);
        EnqueueKeeps(w.db, key, RepairDocument(subject, document), at);
        AppendKeeps(w, Enqueued(w.db, key, RepairDocument(subject, document), at));
      }
    case Remarks(issue) => RemarkKeeps(w, issue);
    case Begins(now, limit, lease) => if w.queue == [] { LeaseKeeps(w, now, limit, lease); }
    case Handles(fate, pages, now) => HandleKeeps(w, fate, pages, now);
  }

  lemma {:induction false} HistoryKeeps(w: World, hs: seq<Happening>)
    requires WorldOk(w)
    ensures WorldOk(History(w, hs))
    decreases |hs|
  {
    if hs != [] {
      HappenKeeps(w, hs[0]);
      HistoryKeeps(Happen(w, hs[0]), hs[1..]);
    }
  }

  lemma AnyHistory(hs: seq<Happening>)
    ensures WorldOk(History(BEGINNING, hs))
  {
    EmptyInv();
    HistoryKeeps(BEGINNING, hs);
  }

  // ---------------------------------------------------------------- theorems

  /** No two comments of the whole tracker carry the same marker, whatever crashed. */
  lemma MarkersAreUnique(hs: seq<Happening>, s: string, i: nat, z: string, j: nat)
    requires var w := History(BEGINNING, hs); i < |CommentsOn(w.comments, s)| && j < |CommentsOn(w.comments, z)|
    requires var w := History(BEGINNING, hs);
      && CommentsOn(w.comments, s)[i].marker.Some?
      && CommentsOn(w.comments, z)[j].marker == CommentsOn(w.comments, s)[i].marker
    ensures s == z && i == j
  {
    AnyHistory(hs);
    var w := History(BEGINNING, hs);
    OneComment(w.db.outbox, w.comments, s, i, z, j);
  }

  lemma OneComment(rows: seq<OutboxRow>, comments: map<string, seq<Comment>>, s: string, i: nat, z: string, j: nat)
    requires UniqueKeys(rows) && Owned(rows, comments) && AllMarkedOnce(comments)
    requires s in comments && z in comments && i < |comments[s]| && j < |comments[z]|
    requires comments[s][i].marker.Some? && comments[z][j].marker == comments[s][i].marker
    ensures s == z && i == j
  {
    var m := comments[s][i].marker.value;
    assert Marks(comments[s], m) && Marks(comments[z], m);
    assert Aims(rows, s, m) && Aims(rows, z, m);
    var a :| 0 <= a < |rows| && RowTarget(rows[a]) == Some((s, m));
    var b :| 0 <= b < |rows| && RowTarget(rows[b]) == Some((z, m));
    assert rows[a].key == rows[b].key && a == b;
    assert MarkedOnce(comments[s]);
  }

  /** Row `id` is the only one of the receipt and carries its activity. If it is sent,
      the card's issue shows its marker; no other issue ever does, and none twice. */
  ghost predicate ProjectedOnce(rows: seq<OutboxRow>, comments: map<string, seq<Comment>>, r: Receipt, id: nat) {
    var key := ReceiptKey(r.hash);
    && id < |rows| && rows[id].key == key
    && rows[id].payload.Activity? && rows[id].payload.subject == r.body.card
    && rows[id].payload.revision == r.body.revisionTo && rows[id].payload.event == r.body.event
    && (forall k | 0 <= k < |rows| && rows[k].key == key :: k == id)
    && (rows[id].status == Sent ==> Marks(CommentsOn(comments, r.body.card), KeyMarker(key)))
    && (forall s | s in comments && Marks(comments[s], KeyMarker(key)) :: s == r.body.card)
    && MarkedOnce(CommentsOn(comments, r.body.card))
  }

  /** A receipt is projected at most once, only to its own card's issue and with its own
      revision, and it has been projected when its row is sent. */
  lemma ReceiptProjectedOnce(hs: seq<Happening>, c: CardId, n: nat) returns (id: nat)
    requires n < |Log(History(BEGINNING, hs).db, c)|
    ensures var w := History(BEGINNING, hs); var r := Log(w.db, c)[n];
      r.body.card == c && r.body.revisionTo == n + 1 && ProjectedOnce(w.db.outbox, w.comments, r, id)
  {
    AnyHistory(hs);
    id := ReceiptOf(History(BEGINNING, hs), c, n);
  }

  lemma ReceiptOf(w: World, c: CardId, n: nat) returns (id: nat)
    requires WorldOk(w) && n < |Log(w.db, c)|
    ensures var r := Log(w.db, c)[n];
      r.body.card == c && r.body.revisionTo == n + 1 && ProjectedOnce(w.db.outbox, w.comments, r, id)
  {
    ReceiptAt(w.db, c, n);
    id := ReceiptRow(w.db.outbox, w.comments, Log(w.db, c)[n]);
  }

  lemma ReceiptRow(rows: seq<OutboxRow>, comments: map<string, seq<Comment>>, r: Receipt) returns (id: nat)
    requires UniqueKeys(rows) && AllFaithful(rows) && Owned(rows, comments)
    requires AllMarkedOnce(comments) && SentIsPosted(rows, comments)
    requires r.hash == ReceiptDigest(r.body) && ReceiptKey(r.hash) in OutboxKeys(rows)
    ensures ProjectedOnce(rows, comments, r, id)
  {
    id := RowOfKey(rows, ReceiptKey(r.hash));
    OnlyIssue(rows, comments, id, r.body.card);
    assert rows[id].status == Sent ==> RowPosted(rows[id], comments);
    assert r.body.card in comments ==> MarkedOnce(comments[r.body.card]);
  }

  lemma RowOfKey(rows: seq<OutboxRow>, key: DedupeKey) returns (id: nat)
    requires UniqueKeys(rows) && AllFaithful(rows) && key in OutboxKeys(rows)
    ensures id < |rows| && rows[id].key == key && Faithful(rows[id])
    ensures forall k | 0 <= k < |rows| && rows[k].key == key :: k == id
  {
    id :| 0 <= id < |rows| && rows[id].key == key;
  }

  lemma OnlyIssue(rows: seq<OutboxRow>, comments: map<string, seq<Comment>>, id: nat, c: CardId)
    requires UniqueKeys(rows) && Owned(rows, comments)
    requires id < |rows| && rows[id].payload.Activity? && rows[id].payload.subject == c
    ensures forall s | s in comments && Marks(comments[s], KeyMarker(rows[id].key)) :: s == c
  {
    var m := KeyMarker(rows[id].key);
    forall s | s in comments && Marks(comments[s], m) ensures s == c {
      assert Aims(rows, s, m);
      var a :| 0 <= a < |rows| && RowTarget(rows[a]) == Some((s, m));
      assert a == id;
    }
  }

  /** A backend switch is announced in the outbox but never leaves it, and neither does
      an activity whose card or actor is not a public identifier. */
  lemma UnsafeNeverSent(hs: seq<Happening>, id: nat)
    requires id < |History(BEGINNING, hs).db.outbox|
    requires RowTarget(History(BEGINNING, hs).db.outbox[id]).None?
    ensures History(BEGINNING, hs).db.outbox[id].status != Sent
  {
    AnyHistory(hs);
  }

  lemma HappenSettles(w: World, h: Happening)
    ensures Settled(w.db.outbox, Happen(w, h).db.outbox)
  {
    match h
    case Commits(tx) =>
      if Canonical(tx) {
        CommitsAppend(w.db, tx);
        AppendSettles(w.db.outbox, Exec(w.db, tx).outbox);
      }
    case Documents(_, _, _, _, _) =>
    case Remarks(issue) =>
    case Begins(now, limit, lease) => SettleSettles(w.db.outbox, Lease(now, limit, lease));
    case Handles(fate, pages, now) =>
      if w.queue != [] && fate.Finishes? {
        SettleSettles(w.db.outbox, SettleItem(w.queue[0], ProjectItem(w.comments, w.queue[0], pages, fate.link).1,
                                              now));
      }
  }

  lemma AppendSettles(rows: seq<OutboxRow>, more: seq<OutboxRow>)
    requires rows <= more
    ensures Settled(rows, more)
  {
    forall i | 0 <= i < |rows| ensures more[i] == rows[i] { assert more[..|rows|] == rows; }
  }

  /** Over any history a row keeps its place, key and payload, its attempt number never
      falls, and once sent it never changes again. */
  lemma {:induction false} SentForEver(w: World, hs: seq<Happening>)
    ensures Settled(w.db.outbox, History(w, hs).db.outbox)
    decreases |hs|
  {
    if hs != [] {
      HappenSettles(w, hs[0]);
      SentForEver(Happen(w, hs[0]), hs[1..]);
    }
  }

  /** A dispatcher that was leased an earlier attempt of a row can never settle it. */
  lemma SupersededChangesNothing(w: World, hs: seq<Happening>, id: nat, attempt: nat, at: Time, attention: bool)
    requires id < |w.db.outbox| && attempt < w.db.outbox[id].attempts
    ensures var rows := History(w, hs).db.outbox;
      Settle(rows, MarkSent(id, attempt, at)) == rows == Settle(rows, MarkPending(id, attempt, at, attention))
  {
    SentForEver(w, hs);
  }

  // ------------------------------------------------------ the scan's bound

  predicate ScansAtMost(h: Happening, pages: nat) {
    h.Handles? ==> h.pages <= pages
  }

  /** An unsent row whose issue has outgrown the scan without showing its marker there. */
  ghost predicate Outgrown(w: World, id: nat, pages: nat) {
    && id < |w.db.outbox| && w.db.outbox[id].status != Sent
    && RowTarget(w.db.outbox[id]).Some?
    && var (issue, m) := RowTarget(w.db.outbox[id]).value;
       var comments := CommentsOn(w.comments, issue);
       |comments| > PAGE * pages && !Marks(Tail(comments, PAGE * pages), m)
  }

  lemma StillOutgrown(comments: seq<Comment>, more: seq<Comment>, m: Marker, pages: nat)
    requires |comments| > PAGE * pages && !Marks(Tail(comments, PAGE * pages), m) && !Marks(more, m)
    ensures |comments + more| > PAGE * pages && !Marks(Tail(comments + more, PAGE * pages), m)
  {
    var n, all := PAGE * pages, comments + more;
    forall i | 0 <= i < n ensures Tail(all, n)[i].marker != Some(m) {
      var at := |all| - n + i;
      assert Tail(all, n)[i] == all[at];
      if at < |comments| { assert Tail(comments, n)[at - (|comments| - n)] == all[at]; }
      else { assert more[at - |comments|] == all[at]; }
    }
  }

  /** No scan within the bound reports the marker, or its absence. */
  lemma OutgrownScan(comments: seq<Comment>, m: Marker, few: nat, pages: nat, link: Link)
    requires few <= pages && |comments| > PAGE * pages && !Marks(Tail(comments, PAGE * pages), m)
    ensures Project(comments, m, few, link).0 == comments && Project(comments, m, few, link).1.Undelivered?
  {
    if Marks(Tail(comments, PAGE * few), m) { MarkInTail(comments, m, few, pages); }
  }

  lemma OutgrownHappens(w: World, h: Happening, id: nat, pages: nat)
    requires WorldOk(w) && Outgrown(w, id, pages) && ScansAtMost(h, pages)
    ensures Outgrown(Happen(w, h), id, pages)
  {
    HappenSettles(w, h);
    var (issue, m) := RowTarget(w.db.outbox[id]).value;
    match h
    case Commits(tx) =>
      if Canonical(tx) {
        CommitsAppend(w.db, tx);
        assert Exec(w.db, tx).outbox[..|w.db.outbox|] == w.db.outbox;
      }
    case Documents(_, _, _, _, _) =>
    case Remarks(s) => StillOutgrown(CommentsOn(w.comments, issue), [Comment(None)], m, pages);
    case Begins(now, limit, lease) => if w.queue == [] { LeaseNeverSends(w.db.outbox, now, limit, lease, id); }
    case Handles(fate, few, now) =>
      if w.queue != [] && !fate.DiesBefore? {
        assert ItemNames(w.db.outbox, w.queue[0]);
        OutgrownItem(w, fate, few, now, id, pages);
      }
  }

  lemma OutgrownItem(w: World, fate: Fate, few: nat, now: Time, id: nat, pages: nat)
    requires UniqueKeys(w.db.outbox) && Outgrown(w, id, pages) && few <= pages
    requires w.queue != [] && ItemNames(w.db.outbox, w.queue[0]) && !fate.DiesBefore?
    ensures Outgrown(HandleNext(w, fate, few, now), id, pages)
  {
    if w.queue[0].id == id {
      OutgrownOwn(w, fate, few, now, id, pages);
    } else {
      OutgrownOther(w, fate, few, now, id, pages);
    }
  }

  lemma OutgrownOwn(w: World, fate: Fate, few: nat, now: Time, id: nat, pages: nat)
    requires Outgrown(w, id, pages) && few <= pages
    requires w.queue != [] && ItemNames(w.db.outbox, w.queue[0]) && w.queue[0].id == id && !fate.DiesBefore?
    ensures Outgrown(HandleNext(w, fate, few, now), id, pages)
  {
    var (issue, m) := RowTarget(w.db.outbox[id]).value;
    var item := w.queue[0];
    OutgrownScan(CommentsOn(w.comments, issue), m, few, pages, fate.link);
    var (after, outcome) := ProjectItem(w.comments, item, few, fate.link);
    assert CommentsOn(after, issue) == CommentsOn(w.comments, issue) && outcome.Undelivered?;
    SettledRow(w.db.outbox, SettleItem(item, outcome, now), id);
  }

  lemma OutgrownOther(w: World, fate: Fate, few: nat, now: Time, id: nat, pages: nat)
    requires UniqueKeys(w.db.outbox) && Outgrown(w, id, pages) && few <= pages
    requires w.queue != [] && ItemNames(w.db.outbox, w.queue[0]) && w.queue[0].id != id && !fate.DiesBefore?
    ensures Outgrown(HandleNext(w, fate, few, now), id, pages)
  {
    var (issue, m) := RowTarget(w.db.outbox[id]).value;
    var item := w.queue[0];
    assert w.db.outbox[item.id].key != w.db.outbox[id].key;
    OtherItem(w.comments, item, few, fate.link, issue, m, pages);
    SettledRow(w.db.outbox, SettleItem(item, ProjectItem(w.comments, item, few, fate.link).1, now), id);
  }

  /** Only a row that is marked as sent becomes sent. */
  lemma SettledRow(rows: seq<OutboxRow>, s: Settlement, id: nat)
    requires id < |rows| && !s.Lease?
    ensures |Settle(rows, s)| == |rows|
    ensures Settle(rows, s)[id].key == rows[id].key && Settle(rows, s)[id].payload == rows[id].payload
    ensures rows[id].status != Sent && (s.MarkPending? || s.id != id) ==> Settle(rows, s)[id].status != Sent
  {
  }

  /** Another row's delivery cannot bring the marker into reach. */
  lemma OtherItem(comments: map<string, seq<Comment>>, item: Leased, few: nat, link: Link, issue: string, m: Marker,
                  pages: nat)
    requires item.key != m.key
    requires var c := CommentsOn(comments, issue); |c| > PAGE * pages && !Marks(Tail(c, PAGE * pages), m)
    ensures var c := CommentsOn(ProjectItem(comments, item, few, link).0, issue);
      |c| > PAGE * pages && !Marks(Tail(c, PAGE * pages), m)
  {
    var target := Target(item.key, item.payload);
    if target.Some? && target.value.0 == issue {
      var k := target.value.1;
      assert [Comment(Some(k))][0] == Comment(Some(k));
      StillOutgrown(CommentsOn(comments, issue), [Comment(Some(k))], m, pages);
    }
  }

  /** The scan bound is a real limit: once an issue has more comments than every later
      scan may read, and the row's marker is not among the newest of them, no history
      ever sends that row. */
  lemma {:induction false} OutgrownNeverSent(w: World, hs: seq<Happening>, id: nat, pages: nat)
    requires WorldOk(w) && Outgrown(w, id, pages)
    requires forall i | 0 <= i < |hs| :: ScansAtMost(hs[i], pages)
    ensures Outgrown(History(w, hs), id, pages)
    decreases |hs|
  {
    if hs != [] {
      HappenKeeps(w, hs[0]);
      OutgrownHappens(w, hs[0], id, pages);
      OutgrownNeverSent(Happen(w, hs[0]), hs[1..], id, pages);
    }
  }
}
