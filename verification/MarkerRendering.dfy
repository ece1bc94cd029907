/** The comments of `Dispatcher` as the texts that the tracker stores: looking for a
    row's marker in the text is looking for the abstract marker. */
module MarkerRendering {
  import opened Dispatcher
  import opened DispatcherTheorems
  import opened Markers
  import opened Outbox
  import opened Records
  import opened Wrappers

  /** Digests are written as plain text, different ones differently. */
  ghost predicate HashText(hash: Digest -> string) {
    && (forall h :: Plain(hash(h)))
    && (forall h, k | hash(h) == hash(k) :: h == k)
  }

  /** The unique text of a dedupe key. */
  function KeyText(hash: Digest -> string, key: DedupeKey): string {
    match key
    case ReceiptKey(h) => "receipt:" + hash(h)
    case BackendKey(h) => "backend:" + hash(h)
    case NamedKey(name) => "repair:" + name
  }

  function MarkerKey(hash: Digest -> string, m: Marker): string {
    match m
    case KeyMarker(key) => KeyText(hash, key)
    case RevisionMarker(key) => KeyText(hash, key) + ":revision"
  }

  /** The markers that rows can have: receipts post under their own key, repairs under
      the derived one. */
  predicate RowMarker(m: Marker) {
    (m.KeyMarker? && m.key.ReceiptKey?) || (m.RevisionMarker? && m.key.NamedKey?)
  }

  lemma PlainText(a: string, b: string)
    ensures Plain(a + b) <==> Plain(a) && Plain(b)
  {
    if Plain(a + b) {
      assert forall i | 0 <= i < |a| :: a[i] == (a + b)[i];
      assert forall i | 0 <= i < |b| :: b[i] == (a + b)[|a| + i];
    }
  }

  lemma SameEnds(a: string, x: string, y: string, b: string)
    requires a + x + b == a + y + b
    ensures x == y
  {
    assert x == (a + x + b)[|a|..|a| + |x|] && y == (a + y + b)[|a|..|a| + |y|];
  }

  /** Different rows' markers have different keys. */
  lemma MarkerKeyInjective(hash: Digest -> string, m: Marker, k: Marker)
    requires HashText(hash) && RowMarker(m) && RowMarker(k) && MarkerKey(hash, m) == MarkerKey(hash, k)
    ensures m == k
  {
    assert MarkerKey(hash, m)[2] == (if m.KeyMarker? then 'c' else 'p');
    assert MarkerKey(hash, k)[2] == (if k.KeyMarker? then 'c' else 'p');
    if m.KeyMarker? {
      assert MarkerKey(hash, m) == "receipt:" + hash(m.key.hash) + "";
      assert MarkerKey(hash, k) == "receipt:" + hash(k.key.hash) + "";
      SameEnds("receipt:", hash(m.key.hash), hash(k.key.hash), "");
    } else {
      SameEnds("repair:", m.key.name, k.key.name, ":revision");
    }
  }

  /** A comment's text: a projected one names its action, revision and marker; anybody
      else's does not quote a marker. */
  ghost predicate Renders(hash: Digest -> string, text: string, comment: Comment) {
    match comment.marker
    case Some(m) => WrittenFor(hash, text, m)
    case None => forall key :: !Contains(text, MarkerText(key))
  }

  ghost predicate WrittenFor(hash: Digest -> string, text: string, m: Marker) {
    exists action, revision ::
      Plain(action) && Plain(revision) && text == Body(action, revision, MarkerKey(hash, m))
  }

  ghost predicate Thread(hash: Digest -> string, texts: seq<string>, comments: seq<Comment>) {
    |texts| == |comments| && forall i | 0 <= i < |comments| :: Renders(hash, texts[i], comments[i])
  }

  // -------------------------------------------------- the markers of one issue

  /** The markers that a row aimed at the issue can have: receipts are projected to public
      ids only, and repairs to the subject that their key names. */
  predicate PostedOn(m: Marker, issue: string) {
    if m.KeyMarker? then m.key.ReceiptKey? && PublicId(issue) else m.key.NamedKey? && Names(m.key.name, issue)
  }

  lemma AimedAt(row: OutboxRow, issue: string, m: Marker)
    requires Faithful(row) && RowTarget(row) == Some((issue, m))
    ensures PostedOn(m, issue)
  {
  }

  lemma PublicIsPlain(s: string)
    requires PublicId(s)
    ensures Plain(s)
  {
  }

  /** On a public issue every row's marker key is plain. */
  lemma PlainMarkerKey(hash: Digest -> string, m: Marker, issue: string)
    requires HashText(hash) && PostedOn(m, issue) && (m.RevisionMarker? ==> PublicId(issue))
    ensures Plain(MarkerKey(hash, m))
  {
    assert Plain("receipt:") && Plain("repair:") && Plain(":") && Plain(":revision");
    if m.KeyMarker? {
      PlainText("receipt:", hash(m.key.hash));
    } else {
      var name := m.key.name;
      PublicIsPlain(issue);
      assert name == issue + ":" + name[|issue| + 1..];
      PlainText(issue, ":");
      PlainText(issue + ":", name[|issue| + 1..]);
      PlainText("repair:", name);
      PlainText("repair:" + name, ":revision");
    }
  }

  /** Two repairs of one subject, however that subject looks. */
  lemma RepairShowsRepair(hash: Digest -> string, k: Marker, m: Marker, issue: string)
    requires PostedOn(k, issue) && PostedOn(m, issue) && k.RevisionMarker? && m.RevisionMarker?
    ensures Contains(MarkerText(MarkerKey(hash, k)), MarkerText(MarkerKey(hash, m))) <==> k == m
  {
    var prefix := "repair:" + issue + ":";
    var t, u := RepairTail(k, issue), RepairTail(m, issue);
    RepairKeyText(hash, k, issue);
    RepairKeyText(hash, m, issue);
    MarkerAfterPrefix(prefix, t, u);
    if t == u {
      var x, y := k.key.name[|issue| + 1..], m.key.name[|issue| + 1..];
      assert "" + x + ":revision" == t && "" + y + ":revision" == u;
      SameEnds("", x, y, ":revision");
      assert k.key.name == issue + ":" + x && m.key.name == issue + ":" + y;
    }
  }

  function RepairTail(m: Marker, issue: string): string
    requires PostedOn(m, issue) && m.RevisionMarker?
  {
    m.key.name[|issue| + 1..] + ":revision"
  }

  lemma RepairKeyText(hash: Digest -> string, m: Marker, issue: string)
    requires PostedOn(m, issue) && m.RevisionMarker?
    ensures MarkerKey(hash, m) == "repair:" + issue + ":" + RepairTail(m, issue)
    ensures Plain(RepairTail(m, issue)) && Colons(RepairTail(m, issue)) == 1 + Colons(":revision")
  {
    var rest := m.key.name[|issue| + 1..];
    assert m.key.name == issue + ":" + rest;
    PlainText(rest, ":revision");
    assert Plain(":revision");
    ColonsAppend(rest, ":revision");
  }

  /** A comment on an issue shows a marker of that issue's rows in its text if and only if
      it carries it. */
  lemma TextShowsMarker(hash: Digest -> string, issue: string, text: string, comment: Comment, m: Marker)
    requires HashText(hash) && PostedOn(m, issue) && Renders(hash, text, comment)
    requires comment.marker.Some? ==> PostedOn(comment.marker.value, issue)
    ensures Contains(text, MarkerText(MarkerKey(hash, m))) <==> comment.marker == Some(m)
  {
    if comment.marker.Some? {
      var k := comment.marker.value;
      var action, revision :| Plain(action) && Plain(revision) && text == Body(action, revision, MarkerKey(hash, k));
      MarkerNamesKey(action, revision, MarkerKey(hash, k), MarkerKey(hash, m));
      if k.RevisionMarker? && m.RevisionMarker? {
        RepairShowsRepair(hash, k, m, issue);
      } else {
        PlainMarkerKey(hash, k, issue);
        if MarkerKey(hash, m) == MarkerKey(hash, k) { MarkerKeyInjective(hash, m, k); }
      }
    }
  }

  // ------------------------------------------------------------------ the scan

  /** `marker in body` for some body. */
  ghost predicate SomeShows(texts: seq<string>, part: string) {
    exists i | 0 <= i < |texts| :: Contains(texts[i], part)
  }

  /** The bounded scan over the stored texts. */
  ghost function TextScanOf(texts: seq<string>, part: string, pages: nat): Scan {
    if SomeShows(Tail(texts, PAGE * pages), part) then Found
    else if pages > 0 && |texts| <= PAGE * pages then Absent
    else TooLong
  }

  /** Every marker on the tracker belongs to its issue. */
  lemma TrackerMarkers(w: World, issue: string, i: nat)
    requires WorldOk(w) && i < |CommentsOn(w.comments, issue)| && CommentsOn(w.comments, issue)[i].marker.Some?
    ensures PostedOn(CommentsOn(w.comments, issue)[i].marker.value, issue)
  {
    OwnedMarkers(w.db.outbox, w.comments, issue, i);
  }

  lemma OwnedMarkers(rows: seq<OutboxRow>, comments: map<string, seq<Comment>>, issue: string, i: nat)
    requires AllFaithful(rows) && Owned(rows, comments) && i < |CommentsOn(comments, issue)|
    requires CommentsOn(comments, issue)[i].marker.Some?
    ensures PostedOn(CommentsOn(comments, issue)[i].marker.value, issue)
  {
    var m := CommentsOn(comments, issue)[i].marker.value;
    assert Marks(comments[issue], m);
    assert Aims(rows, issue, m);
    var a :| 0 <= a < |rows| && RowTarget(rows[a]) == Some((issue, m));
    AimedAt(rows[a], issue, m);
  }

  ghost predicate ShowsExactly(texts: seq<string>, comments: seq<Comment>, part: string, m: Marker) {
    && |texts| == |comments|
    && forall i | 0 <= i < |texts| :: Contains(texts[i], part) <==> comments[i].marker == Some(m)
  }

  lemma SameScan(texts: seq<string>, comments: seq<Comment>, part: string, m: Marker, pages: nat)
    requires ShowsExactly(texts, comments, part, m)
    ensures TextScanOf(texts, part, pages) == ScanOf(comments, m, pages)
  {
    SameTail(texts, comments, part, m, PAGE * pages);
    SameFound(Tail(texts, PAGE * pages), Tail(comments, PAGE * pages), part, m);
  }

  lemma SameTail(texts: seq<string>, comments: seq<Comment>, part: string, m: Marker, n: nat)
    requires ShowsExactly(texts, comments, part, m)
    ensures ShowsExactly(Tail(texts, n), Tail(comments, n), part, m)
  {
    var newest, marked := Tail(texts, n), Tail(comments, n);
    var skipped := |texts| - |newest|;
    forall i | 0 <= i < |newest| ensures Contains(newest[i], part) <==> marked[i].marker == Some(m) {
      assert newest[i] == texts[skipped + i] && marked[i] == comments[skipped + i];
    }
  }

  lemma SameFound(texts: seq<string>, comments: seq<Comment>, part: string, m: Marker)
    requires ShowsExactly(texts, comments, part, m)
    ensures SomeShows(texts, part) <==> Marks(comments, m)
  {
  }

  /** Whatever happened, the scan that any row makes over the texts of its issue is the
      abstract scan: comment by comment, the text shows the row's marker if and only if
      the comment was written for that row. */
  lemma TrackerScan(hs: seq<Happening>, id: nat, hash: Digest -> string, texts: seq<string>, pages: nat)
    requires HashText(hash) && id < |History(BEGINNING, hs).db.outbox|
    requires RowTarget(History(BEGINNING, hs).db.outbox[id]).Some?
    requires var w := History(BEGINNING, hs);
      Thread(hash, texts, CommentsOn(w.comments, RowTarget(w.db.outbox[id]).value.0))
    ensures var w := History(BEGINNING, hs); var (issue, m) := RowTarget(w.db.outbox[id]).value;
      var comments, part := CommentsOn(w.comments, issue), MarkerText(MarkerKey(hash, m));
      ShowsExactly(texts, comments, part, m) && TextScanOf(texts, part, pages) == ScanOf(comments, m, pages)
  {
    AnyHistory(hs);
    RowScan(History(BEGINNING, hs), id, hash, texts, pages);
  }

  lemma RowScan(w: World, id: nat, hash: Digest -> string, texts: seq<string>, pages: nat)
    requires WorldOk(w) && HashText(hash) && id < |w.db.outbox| && RowTarget(w.db.outbox[id]).Some?
    requires Thread(hash, texts, CommentsOn(w.comments, RowTarget(w.db.outbox[id]).value.0))
    ensures var (issue, m) := RowTarget(w.db.outbox[id]).value;
      var comments, part := CommentsOn(w.comments, issue), MarkerText(MarkerKey(hash, m));
      ShowsExactly(texts, comments, part, m) && TextScanOf(texts, part, pages) == ScanOf(comments, m, pages)
  {
    var (issue, m) := RowTarget(w.db.outbox[id]).value;
    var comments, part := CommentsOn(w.comments, issue), MarkerText(MarkerKey(hash, m));
    AimedAt(w.db.outbox[id], issue, m);
    forall i | 0 <= i < |texts| ensures Contains(texts[i], part) <==> comments[i].marker == Some(m) {
      if comments[i].marker.Some? { TrackerMarkers(w, issue, i); }
      TextShowsMarker(hash, issue, texts[i], comments[i], m);
    }
    SameScan(texts, comments, part, m, pages);
  }
}
