/** The idempotency marker that a projected comment carries, as text. */
module Markers {
  const MARKER_OPEN := "<!-- meta-harness-idempotency:"
  const MARKER_CLOSE := " -->"
  const REVISION_OPEN := "<!-- meta-harness-revision:"

  /** Neither angle bracket occurs: true of `receipt:` and `backend:` keys and of what
      follows the subject in a repair's key. */
  predicate Plain(s: string) {
    forall i | 0 <= i < |s| :: s[i] != '<' && s[i] != '>'
  }

  function MarkerText(key: string): string {
    MARKER_OPEN + key + MARKER_CLOSE
  }

  function Head(action: string, revision: string): string {
    "Meta-Harness `" + action + "` at canonical revision " + revision + ".\n\n"
  }

  function Body(action: string, revision: string, key: string): string {
    Head(action, revision) + (REVISION_OPEN + revision + MARKER_CLOSE + "\n") + MarkerText(key)
  }

  lemma PlainHead(action: string, revision: string)
    requires Plain(action) && Plain(revision)
    ensures Plain(Head(action, revision))
  {
    assert Plain("Meta-Harness `") && Plain("` at canonical revision ") && Plain(".\n\n");
  }

  ghost predicate Contains(text: string, part: string) {
    exists i :: OccursAt(text, part, i)
  }

  predicate OccursAt(text: string, part: string, i: int) {
    0 <= i <= |text| - |part| && text[i..i + |part|] == part
  }

  /** A marker occurs in text that has no `<` nowhere. */
  lemma StartsAtBracket(text: string, key: string, i: int)
    requires OccursAt(text, MarkerText(key), i)
    ensures text[i] == '<' && i + 18 < |text| && text[i + 18] == 'i'
  {
    var marker := MarkerText(key);
    var slice := text[i..i + |marker|];
    assert marker[0] == '<' && marker[18] == 'i';
    assert slice[0] == text[i] && slice[18] == text[i + 18];
  }

  /** A marker that begins a plain key's marker is that marker. */
  lemma MarkerPrefix(key: string, other: string)
    requires Plain(other) && |key| <= |other| && MarkerText(other)[..|MarkerText(key)|] == MarkerText(key)
    ensures key == other
  {
    var a, b := MarkerText(key), MarkerText(other);
    var end := |MARKER_OPEN| + |key| + 3;
    assert a[end] == '>' && b[end] == a[end];
    BracketEndsMarker(other, end);
    assert a[|MARKER_OPEN|..|MARKER_OPEN| + |key|] == key && b[|MARKER_OPEN|..|MARKER_OPEN| + |other|] == other;
  }

  lemma KeyInside(open: string, key: string, close: string)
    ensures forall i | |open| <= i < |open| + |key| :: (open + key + close)[i] == key[i - |open|]
  {
  }

  lemma BracketEndsMarker(key: string, end: int)
    requires Plain(key) && |MARKER_OPEN| <= end < |MarkerText(key)| && MarkerText(key)[end] == '>'
    ensures end == |MarkerText(key)| - 1
  {
    KeyInside(MARKER_OPEN, key, MARKER_CLOSE);
  }

  /** A body shows a marker exactly where its own marker shows it. For a plain key, that
      is when it was written for the sought key. */
  lemma MarkerNamesKey(action: string, revision: string, key: string, sought: string)
    requires Plain(action) && Plain(revision)
    ensures Contains(Body(action, revision, key), MarkerText(sought)) <==> Contains(MarkerText(key), MarkerText(sought))
    ensures Plain(key) ==> (Contains(MarkerText(key), MarkerText(sought)) <==> sought == key)
  {
    var head := Head(action, revision);
    PlainHead(action, revision);
    var front := head + (REVISION_OPEN + revision + MARKER_CLOSE + "\n");
    var text, marker := Body(action, revision, key), MarkerText(key);
    assert text == front + marker;
    if i :| OccursAt(text, MarkerText(sought), i) {
      OccurrenceInMarker(head, revision, key, sought, i);
    }
    if i :| OccursAt(marker, MarkerText(sought), i) {
      OccursBehind(front, marker, MarkerText(sought), i);
      if Plain(key) { OnlyOwnMarker(key, sought, i); }
    }
    assert OccursAt(marker, marker, 0);
  }

  lemma OccursBehind(front: string, text: string, part: string, i: int)
    requires OccursAt(text, part, i)
    ensures Contains(front + text, part)
  {
    assert (front + text)[|front| + i..|front| + i + |part|] == text[i..i + |part|];
    assert OccursAt(front + text, part, |front| + i);
  }

  lemma OnlyOwnMarker(key: string, sought: string, i: int)
    requires Plain(key) && OccursAt(MarkerText(key), MarkerText(sought), i)
    ensures sought == key
  {
    StartsAtBracket(MarkerText(key), sought, i);
    BracketOpensMarker(key, i);
    MarkerPrefix(sought, key);
  }

  lemma OccurrenceInMarker(head: string, revision: string, key: string, sought: string, i: int)
    requires Plain(head) && Plain(revision)
    requires OccursAt(head + (REVISION_OPEN + revision + MARKER_CLOSE + "\n") + MarkerText(key), MarkerText(sought), i)
    ensures Contains(MarkerText(key), MarkerText(sought))
  {
    var front := head + (REVISION_OPEN + revision + MARKER_CLOSE + "\n");
    var text, n := front + MarkerText(key), |MarkerText(sought)|;
    StartsAtBracket(text, sought, i);
    BracketsInBody(head, REVISION_OPEN + revision + MARKER_CLOSE + "\n", revision, key, i);
    assert MarkerText(key)[i - |front|..i - |front| + n] == text[i..i + n];
    assert OccursAt(MarkerText(key), MarkerText(sought), i - |front|);
  }

  /** No `<` before the marker has an `i` as its nineteenth character. */
  lemma BracketsInBody(head: string, middle: string, revision: string, key: string, i: int)
    requires Plain(head) && Plain(revision) && middle == REVISION_OPEN + revision + MARKER_CLOSE + "\n"
    requires var text := head + middle + MarkerText(key);
      0 <= i && i + 18 < |text| && text[i] == '<' && text[i + 18] == 'i'
    ensures i >= |head| + |middle|
  {
    var text := head + middle + MarkerText(key);
    assert forall j | 0 <= j < |head| :: text[j] == head[j];
    assert forall j | 0 <= j < |middle| :: text[|head| + j] == middle[j];
    assert text[|head| + 18] == middle[18] == 'r';
    if |head| <= i < |head| + |middle| {
      assert text[|head| + (i - |head|)] == middle[i - |head|];
      BracketOpensRevision(revision, i - |head|);
    }
  }

  lemma BracketOpensRevision(revision: string, i: nat)
    requires Plain(revision)
    requires var middle := REVISION_OPEN + revision + MARKER_CLOSE + "\n"; i < |middle| && middle[i] == '<'
    ensures i == 0
  {
    KeyInside(REVISION_OPEN, revision, MARKER_CLOSE + "\n");
    assert REVISION_OPEN + revision + MARKER_CLOSE + "\n" == REVISION_OPEN + revision + (MARKER_CLOSE + "\n");
  }

  lemma BracketOpensMarker(key: string, i: nat)
    requires Plain(key) && i < |MarkerText(key)| && MarkerText(key)[i] == '<'
    ensures i == 0
  {
    KeyInside(MARKER_OPEN, key, MARKER_CLOSE);
  }

  // ------------------------------------------------- repairs of one subject

  function Colons(s: string): nat {
    if s == "" then 0 else Colons(s[..|s| - 1]) + (if s[|s| - 1] == ':' then 1 else 0)
  }

  lemma {:induction false} ColonsAppend(a: string, b: string)
    ensures Colons(a + b) == Colons(a) + Colons(b)
    decreases |b|
  {
    if b == "" {
      assert a + b == a;
    } else {
      ColonsAppend(a, b[..|b| - 1]);
      assert (a + b)[..|a + b| - 1] == a + b[..|b| - 1];
    }
  }

  /** A repair's key names its subject, followed by a revision and an observed version. */
  predicate Names(name: string, subject: string) {
    subject + ":" <= name && Versioned(name[|subject| + 1..])
  }

  predicate Versioned(rest: string) {
    Plain(rest) && Colons(rest) == 1
  }

  lemma ColonInside(t: string, u: string, i: nat)
    requires |t| == |u| + i && t[i..] == u && i > 0 && t[i - 1] == ':'
    ensures Colons(t) > Colons(u)
  {
    assert t == t[..i - 1] + [':'] + u;
    assert [':'][..0] == "" && Colons([':']) == 1;
    ColonsAppend(t[..i - 1], [':']);
    ColonsAppend(t[..i - 1] + [':'], u);
  }

  /** Behind a common start, however it looks, only the same ending shows the marker. */
  lemma MarkerAfterPrefix(p: string, t: string, u: string)
    requires p != "" && p[|p| - 1] == ':' && Plain(t) && Colons(t) == Colons(u)
    ensures Contains(MarkerText(p + t), MarkerText(p + u)) <==> t == u
  {
    if i :| OccursAt(MarkerText(p + t), MarkerText(p + u), i) {
      OccurrenceAtEnd(p, t, u, i);
    }
    if t == u { assert OccursAt(MarkerText(p + t), MarkerText(p + u), 0); }
  }

  lemma OccurrenceAtEnd(p: string, t: string, u: string, i: int)
    requires p != "" && p[|p| - 1] == ':' && Plain(t) && Colons(t) == Colons(u)
    requires OccursAt(MarkerText(p + t), MarkerText(p + u), i)
    ensures t == u
  {
    EndsWith(p, t, u, i);
    assert t[0..] == t;
    if i > 0 { ColonInside(t, u, i); }
  }

  /** An occurrence reaches to the end, so the one ending is an ending of the other, with the
      end of the start before it. */
  lemma EndsWith(p: string, t: string, u: string, i: int)
    requires p != "" && Plain(t) && OccursAt(MarkerText(p + t), MarkerText(p + u), i)
    ensures |t| == |u| + i && t[i..] == u && (i > 0 ==> t[i - 1] == p[|p| - 1])
  {
    var text, part, from := MarkerText(p + t), MarkerText(p + u), |MARKER_OPEN| + |p|;
    InMarker(p, t);
    InMarker(p, u);
    ReachesEnd(p, t, u, i);
    AtOffset(text, part, i, from - 1);
    SameEnd(text, part, from, t, u, i);
  }

  lemma ReachesEnd(p: string, t: string, u: string, i: int)
    requires p != "" && Plain(t) && OccursAt(MarkerText(p + t), MarkerText(p + u), i)
    ensures i + |MarkerText(p + u)| == |MarkerText(p + t)|
  {
    var text, part := MarkerText(p + t), MarkerText(p + u);
    AtOffset(text, part, i, |part| - 1);
    LastBracket(p, t, i + |part| - 1);
  }

  lemma AtOffset(text: string, part: string, i: int, k: nat)
    requires OccursAt(text, part, i) && k < |part|
    ensures text[i + k] == part[k]
  {
    assert text[i..i + |part|][k] == text[i + k];
  }

  lemma SameEnd(text: string, part: string, from: nat, t: string, u: string, i: nat)
    requires |t| == |u| + i && from + |u| <= |part| && from + |t| <= |text| && i + |part| <= |text|
    requires OccursAt(text, part, i)
    requires forall k | 0 <= k < |t| :: text[from + k] == t[k]
    requires forall k | 0 <= k < |u| :: part[from + k] == u[k]
    ensures t[i..] == u
  {
    forall k | 0 <= k < |u| ensures t[i..][k] == u[k] {
      AtOffset(text, part, i, from + k);
      assert text[from + (i + k)] == t[i + k];
    }
  }

  /** Where the parts of a key are in its marker. */
  lemma InMarker(p: string, t: string)
    requires p != ""
    ensures var text, from := MarkerText(p + t), |MARKER_OPEN| + |p|;
      && |text| == from + |t| + |MARKER_CLOSE| && text[from - 1] == p[|p| - 1] && text[|text| - 1] == '>'
      && forall k | 0 <= k < |t| :: text[from + k] == t[k]
  {
    var front, text := MARKER_OPEN + p, MarkerText(p + t);
    assert text == front + (t + MARKER_CLOSE);
    forall k | 0 <= k < |t| ensures text[|front| + k] == t[k] {
      assert text[|front| + k] == (t + MARKER_CLOSE)[k];
    }
  }

  lemma LastBracket(p: string, t: string, e: int)
    requires Plain(t) && |MARKER_OPEN| + |p| <= e < |MarkerText(p + t)| && MarkerText(p + t)[e] == '>'
    ensures e == |MarkerText(p + t)| - 1
  {
    var from := |MARKER_OPEN| + |p|;
    assert MarkerText(p + t) == MARKER_OPEN + p + (t + MARKER_CLOSE);
    assert MarkerText(p + t)[e] == (t + MARKER_CLOSE)[e - from];
  }
}
