/** Projecting outbox rows to issue comments: at-least-once delivery of rows, made
    effectively once by the marker that each comment carries. The tracker's answers and
    the dispatcher's crashes are inputs. */
module Dispatcher {
  import opened Outbox
  import opened Records
  import opened Workplan
  import opened WorkplanRuns
  import opened Wrappers

  /** A repair posts its revision comment under a key derived from the row's. */
  datatype Marker = KeyMarker(key: DedupeKey) | RevisionMarker(key: DedupeKey)

  datatype Comment = Comment(marker: Option<Marker>)

  predicate IdChar(c: char) {
    '0' <= c <= '9' || 'A' <= c <= 'Z' || 'a' <= c <= 'z'
  }

  predicate PublicId(s: string) {
    1 <= |s| <= 255 && IdChar(s[0]) && forall i | 1 <= i < |s| :: IdChar(s[i]) || s[i] in "._:-"
  }

  /** Issue and marker of a row that the dispatcher agrees to project. A backend switch
      carries fields outside the public ones, so it is always refused. */
  function Target(key: DedupeKey, payload: Projection): Option<(string, Marker)> {
    match payload
    case Activity(subject, _, _, occurredAt, actor, _) =>
      if PublicId(subject) && occurredAt >= 0 && PublicId(actor) then Some((subject, KeyMarker(key))) else None
    case BackendActivity(_, _, _, _) => None
    case RepairDocument(subject, _) => Some((subject, RevisionMarker(key)))
  }

  // ------------------------------------------------------------------ scan

  const PAGE := 50

  datatype Scan = Found | Absent | TooLong

  predicate Marks(comments: seq<Comment>, m: Marker) {
    exists i | 0 <= i < |comments| :: comments[i].marker == Some(m)
  }

  function Tail<T>(s: seq<T>, n: nat): seq<T> {
    if |s| <= n then s else s[|s| - n..]
  }

  /** What the bounded scan can see: the newest `PAGE * pages` comments. */
  function ScanOf(comments: seq<Comment>, m: Marker, pages: nat): Scan {
    if Marks(Tail(comments, PAGE * pages), m) then Found
    else if pages > 0 && |comments| <= PAGE * pages then Absent
    else TooLong
  }

  /** Newest page first, each page ending where the previous one started. */
  method HasCommentMarker(comments: seq<Comment>, m: Marker, pages: nat) returns (scan: Scan)
    ensures scan == ScanOf(comments, m, pages)
  {
    var before, page := |comments|, 0;
    while page < pages
      invariant 0 <= page <= pages && 0 <= before <= |comments|
      invariant comments[before..] == Tail(comments, PAGE * page)
      invariant !Marks(comments[before..], m)
      invariant page > 0 ==> before > 0
    {
      var from := if before <= PAGE then 0 else before - PAGE;
      ghost var seen := comments[from..];
      assert seen == comments[from..before] + comments[before..];
      NoMarkIn(comments[from..before], comments[before..], m);
      assert seen == Tail(comments, PAGE * (page + 1));
      if Marks(comments[from..before], m) {
        MarkInTail(comments, m, page + 1, pages);
        return Found;
      }
      if from == 0 {
        return Absent;
      }
      page, before := page + 1, from;
    }
    scan := TooLong;
  }

  lemma NoMarkIn(older: seq<Comment>, newer: seq<Comment>, m: Marker)
    ensures Marks(older + newer, m) <==> Marks(older, m) || Marks(newer, m)
  {
    if i :| 0 <= i < |older| && older[i].marker == Some(m) { assert (older + newer)[i] == older[i]; }
    if i :| 0 <= i < |newer| && newer[i].marker == Some(m) { assert (older + newer)[|older| + i] == newer[i]; }
  }

  lemma MarkInTail(comments: seq<Comment>, m: Marker, few: nat, pages: nat)
    requires few <= pages && Marks(Tail(comments, PAGE * few), m)
    ensures Marks(Tail(comments, PAGE * pages), m)
  {
    var small, large := Tail(comments, PAGE * few), Tail(comments, PAGE * pages);
    assert large == large[..|large| - |small|] + small;
    NoMarkIn(large[..|large| - |small|], small, m);
  }

  // ------------------------------------------------------------ one delivery

  /** How the tracker answers while one row is delivered. */
  datatype Link =
    | Accepts
    | Unacknowledged(attention: bool)
    | RefusesPost(attention: bool)
    | RefusesScan(attention: bool)

  datatype Outcome = Delivered | Undelivered(attention: bool)

  function Posted(comments: seq<Comment>, m: Marker): seq<Comment> {
    comments + [Comment(Some(m))]
  }

  /** Look for the marker, and post only when the whole history lacks it. */
  function Project(comments: seq<Comment>, m: Marker, pages: nat, link: Link): (seq<Comment>, Outcome) {
    if link.RefusesScan? then (comments, Undelivered(link.attention))
    else
      match ScanOf(comments, m, pages)
      case Found => (comments, Delivered)
      case TooLong => (comments, Undelivered(true))
      case Absent =>
        match link
        case Accepts => (Posted(comments, m), Delivered)
        case Unacknowledged(attention) => (Posted(comments, m), Undelivered(attention))
        case RefusesPost(attention) => (comments, Undelivered(attention))
        case RefusesScan(attention) => (comments, Undelivered(attention))
  }

  datatype Fate = Finishes(link: Link) | DiesBefore | DiesAfter(link: Link)

  datatype World = World(db: Tables, comments: map<string, seq<Comment>>, queue: seq<Leased>)

  function CommentsOn(comments: map<string, seq<Comment>>, issue: string): seq<Comment> {
    if issue in comments then comments[issue] else []
  }

  function ProjectItem(comments: map<string, seq<Comment>>, item: Leased, pages: nat, link: Link)
    : (map<string, seq<Comment>>, Outcome)
  {
    var target := Target(item.key, item.payload);
    if target.None? then (comments, Undelivered(true))
    else
      var (issue, m) := target.value;
      var (after, outcome) := Project(CommentsOn(comments, issue), m, pages, link);
      (comments[issue := after], outcome)
  }

  function SettleItem(item: Leased, outcome: Outcome, now: Time): Settlement {
    match outcome
    case Delivered => MarkSent(item.id, item.attempt, now)
    case Undelivered(attention) => MarkPending(item.id, item.attempt, now, attention)
  }

  /** The dispatcher's next row, or its death around that row's post. */
  function HandleNext(w: World, fate: Fate, pages: nat, now: Time): World {
    if w.queue == [] then w
    else
      match fate
      case DiesBefore => w.(queue := [])
      case DiesAfter(link) => w.(queue := [], comments := ProjectItem(w.comments, w.queue[0], pages, link).0)
      case Finishes(link) =>
        var (comments, outcome) := ProjectItem(w.comments, w.queue[0], pages, link);
        World(WithSettled(w.db, SettleItem(w.queue[0], outcome, now)), comments, w.queue[1..])
  }

  function Digits(n: nat): string {
    if n < 10 then [DIGITS[n]] else Digits(n / 10) + [DIGITS[n % 10]]
  }

  const DIGITS := "0123456789"

  function Decimal(n: int): string {
    if n < 0 then "-" + Digits(-n) else Digits(n)
  }

  /** How the reconciler shortens the version of the issue that it observed. */
  predicate ShortVersion(s: string) {
    |s| == 16 && HexDigits(s)
  }

  /** A repair's dedupe key, without its `repair:`, is built from its own subject. */
  function RepairKey(subject: string, revision: int, observed: string): DedupeKey {
    NamedKey(subject + ":" + Decimal(revision) + ":" + observed)
  }

  datatype Happening =
    | Commits(tx: Transaction)
    | Documents(subject: string, revision: int, observed: string, document: string, at: Time)
    | Remarks(issue: string)
    | Begins(now: Time, limit: int, lease: int)
    | Handles(fate: Fate, pages: nat, now: Time)

  /** Transactions that leave the outbox to the gateway's own statements. */
  predicate Canonical(tx: Transaction) {
    tx.OnCard? || tx.Deliver? || tx.SwitchBackend?
  }

  /** Dispatches do not overlap: one begins only when no row is in flight. Everything
      else interleaves with its rows freely. */
  function Happen(w: World, h: Happening): World {
    match h
    case Commits(tx) => if Canonical(tx) then w.(db := Exec(w.db, tx)) else w
    case Documents(subject, revision, observed, document, at) =>
      if !ShortVersion(observed) then w
      else w.(db := Enqueued(w.db, RepairKey(subject, revision, observed), RepairDocument(subject, document), at))
    case Remarks(issue) => w.(comments := w.comments[issue := CommentsOn(w.comments, issue) + [Comment(None)]])
    case Begins(now, limit, lease) =>
      if w.queue != [] then w
      else World(WithSettled(w.db, Lease(now, limit, lease)), w.comments,
                 LeaseRows(w.db.outbox, now, limit, lease).1)
    case Handles(fate, pages, now) => HandleNext(w, fate, pages, now)
  }

  function History(w: World, hs: seq<Happening>): World
    decreases |hs|
  {
    if hs == [] then w else History(Happen(w, hs[0]), hs[1..])
  }

  const BEGINNING := World(EMPTY, map[], [])
}
