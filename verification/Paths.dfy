/** Repository-relative owned paths: what `normalize_path` accepts, and what the
    string test `_overlaps` means for the files that two paths own. */
module Paths {

  /** Code points that Python's `str.strip` removes. */
  predicate IsSpace(c: char) {
    || '\t' <= c <= '\r' || '\U{1c}' <= c <= ' ' || c == '\U{85}' || c == '\U{a0}' || c == '\U{1680}'
    || '\U{2000}' <= c <= '\U{200a}' || c == '\U{2028}' || c == '\U{2029}' || c == '\U{202f}'
    || c == '\U{205f}' || c == '\U{3000}'
  }

  function StripLeft(s: string): (r: string)
    ensures r == "" || !IsSpace(r[0])
  {
    if s != "" && IsSpace(s[0]) then StripLeft(s[1..]) else s
  }

  function StripRight(s: string): (r: string)
    ensures r == "" || (s != "" && !IsSpace(r[|r| - 1]) && r[0] == s[0])
  {
    if s != "" && IsSpace(s[|s| - 1]) then StripRight(s[..|s| - 1]) else s
  }

  function Strip(s: string): string {
    StripRight(StripLeft(s))
  }

  /** `str.split("/")`. */
  function Segments(s: string): (r: seq<string>)
    ensures |r| >= 1
  {
    if s == "" then [""]
    else
      PushChar(s[0], Segments(s[1..]))
  }

  function PushChar(c: char, rest: seq<string>): (r: seq<string>)
    requires |rest| >= 1
    ensures |r| >= 1
  {
    if c == '/' then [""] + rest else [[c] + rest[0]] + rest[1..]
  }

  /** `"/".join(parts)`. */
  function Join(parts: seq<string>): string
    requires |parts| >= 1
  {
    if |parts| == 1 then parts[0] else parts[0] + "/" + Join(parts[1..])
  }

  lemma {:induction false} SegmentsAppend(a: string, b: string)
    ensures Segments(a + "/" + b) == Segments(a) + Segments(b)
  {
    SegmentsAppendTail(a, "/" + b);
    assert ("/" + b)[1..] == b;
    assert a + "/" + b == a + ("/" + b);
  }

  lemma {:induction false} SegmentsAppendTail(a: string, tail: string)
    requires tail != "" && tail[0] == '/'
    ensures Segments(a + tail) == Segments(a) + Segments(tail[1..])
  {
    if a == "" {
      assert a + tail == tail;
    } else {
      var whole := a + tail;
      assert whole[1..] == a[1..] + tail;
      SegmentsAppendTail(a[1..], tail);
      PushCharAppend(a[0], Segments(a[1..]), Segments(tail[1..]));
    }
  }

  lemma PushCharAppend(c: char, rest: seq<string>, more: seq<string>)
    requires |rest| >= 1
    ensures PushChar(c, rest + more) == PushChar(c, rest) + more
  {
  }

  lemma {:induction false} JoinSegments(s: string)
    ensures Join(Segments(s)) == s
  {
    if s != "" {
      JoinSegments(s[1..]);
      var rest := Segments(s[1..]);
      if s[0] == '/' {
        assert ([""] + rest)[1..] == rest;
        assert s == "/" + s[1..];
      } else {
        assert Segments(s)[1..] == rest[1..];
        assert s == [s[0]] + s[1..];
      }
    }
  }

  lemma {:induction false} JoinAppend(a: seq<string>, b: seq<string>)
    requires |a| >= 1 && |b| >= 1
    ensures Join(a + b) == Join(a) + "/" + Join(b)
  {
    if |a| == 1 {
      assert (a + b)[1..] == b;
    } else {
      JoinAppend(a[1..], b);
      assert (a + b)[1..] == a[1..] + b;
    }
  }

  /** The string test of the gateway. */
  predicate Overlaps(left: string, right: string) {
    left == right || right + "/" <= left || left + "/" <= right
  }

  /** A file (or directory) lies under an owned path when the owned path's
      segments are the first segments of its own. */
  predicate Under(file: string, owned: string) {
    Segments(owned) <= Segments(file)
  }

  lemma UnderIsPrefix(file: string, owned: string)
    ensures Under(file, owned) <==> file == owned || owned + "/" <= file
  {
    if owned + "/" <= file {
      var tail := file[|owned| + 1..];
      assert file == owned + "/" + tail;
      SegmentsAppend(owned, tail);
    }
    if Under(file, owned) {
      var tail := Segments(file)[|Segments(owned)|..];
      assert Segments(file) == Segments(owned) + tail;
      JoinSegments(file);
      JoinSegments(owned);
      if tail == [] {
        assert Segments(file) == Segments(owned);
      } else {
        JoinAppend(Segments(owned), tail);
        assert file == owned + "/" + Join(tail);
      }
    }
  }

  /** The string test holds exactly when some file lies under both paths. */
  lemma OverlapsIffSharedFile(left: string, right: string)
    ensures Overlaps(left, right) <==> exists file :: Under(file, left) && Under(file, right)
  {
    UnderIsPrefix(left, right);
    UnderIsPrefix(right, left);
    if Overlaps(left, right) {
      if Under(left, right) {
        assert Under(left, left);
      } else {
        assert Under(right, right);
      }
    }
    if file :| Under(file, left) && Under(file, right) {
      assert Under(left, right) || Under(right, left);
    }
  }

  datatype PathResult = Accepted(path: string) | Rejected(reason: PathError)

  datatype PathError =
    | EmptyPath | Backslash | NotRelative | DotSegment | EscapesRoot | NotNormalized

  predicate DotOrEmpty(segment: string) {
    segment == "" || segment == "." || segment == ".."
  }

  /** The component fold of `posixpath.normpath` for a path without leading slash. */
  function Collapse(segments: seq<string>, kept: seq<string>): seq<string> {
    if segments == [] then kept
    else
      var head := segments[0];
      Collapse(segments[1..],
        if head == "" || head == "." then kept
        else if head != ".." || kept == [] || kept[|kept| - 1] == ".." then kept + [head]
        else kept[..|kept| - 1])
  }

  function NormPath(s: string): string {
    var kept := Collapse(Segments(s), []);
    if kept == [] then "." else Join(kept)
  }

  function NormalizePath(value: string): PathResult {
    var candidate := Strip(value);
    if candidate == "" then Rejected(EmptyPath)
    else if '\\' in candidate then Rejected(Backslash)
    else if candidate[0] == '/' || (|candidate| >= 2 && candidate[1] == ':') then Rejected(NotRelative)
    else if exists i | 0 <= i < |Segments(candidate)| :: DotOrEmpty(Segments(candidate)[i]) then Rejected(DotSegment)
    else
      var normalized := NormPath(candidate);
      if DotOrEmpty(normalized) || "../" <= normalized then Rejected(EscapesRoot)
      else if exists i | 0 <= i < |Segments(normalized)| ::
                Segments(normalized)[i] == ".." then Rejected(NotNormalized)
      else Accepted(normalized)
  }

  predicate CleanSegments(segments: seq<string>) {
    forall i | 0 <= i < |segments| :: !DotOrEmpty(segments[i])
  }

  /** A path that owns something: relative, POSIX, no empty or dot segment, no
      surrounding white space. */
  predicate Canonical(p: string) {
    && Strip(p) == p
    && '\\' !in p
    && !(|p| >= 2 && p[1] == ':')
    && CleanSegments(Segments(p))
  }

  lemma {:induction false} CollapseClean(segments: seq<string>, kept: seq<string>)
    requires CleanSegments(segments)
    ensures Collapse(segments, kept) == kept + segments
  {
    if segments != [] {
      CollapseClean(segments[1..], kept + [segments[0]]);
      assert kept + [segments[0]] + segments[1..] == kept + segments;
    }
  }

  lemma StripIdempotent(s: string)
    ensures Strip(Strip(s)) == Strip(s)
  {
    var r := Strip(s);
    if r != "" {
      assert r[0] == StripLeft(s)[0];
    }
  }

  lemma NormPathClean(s: string)
    requires CleanSegments(Segments(s))
    ensures NormPath(s) == s
  {
    CollapseClean(Segments(s), []);
    assert [] + Segments(s) == Segments(s);
    JoinSegments(s);
  }

  lemma {:induction false} SegmentsOfOne(s: string)
    requires '/' !in s
    ensures Segments(s) == [s]
  {
    if s != "" {
      SegmentsOfOne(s[1..]);
      assert [s[0]] + s[1..] == s;
    }
  }

  lemma FirstSegment(head: string, s: string)
    requires '/' !in head && head + "/" <= s
    ensures Segments(s)[0] == head
  {
    SegmentsOfOne(head);
    SegmentsAppend(head, s[|head| + 1..]);
    assert s == head + "/" + s[|head| + 1..];
  }

  lemma CleanIsNotDots(s: string)
    requires CleanSegments(Segments(s))
    ensures !DotOrEmpty(s) && !("../" <= s)
  {
    assert !DotOrEmpty(Segments(s)[0]);
    SegmentsOfOne(".");
    SegmentsOfOne("..");
    if "../" <= s {
      FirstSegment("..", s);
    }
  }

  /** Exactly the values whose stripped form is canonical are accepted, they are
      accepted as that stripped form, and accepting is idempotent: the checks made
      after `normpath` never fire. */
  lemma NormalizeAcceptsCanonical(value: string)
    ensures NormalizePath(value).Accepted? <==> Canonical(Strip(value))
    ensures NormalizePath(value).Accepted? ==>
              && NormalizePath(value).path == Strip(value)
              && NormalizePath(Strip(value)) == NormalizePath(value)
    ensures NormalizePath(value).Rejected? ==> NormalizePath(value).reason !in {EscapesRoot, NotNormalized}
  {
    StripIdempotent(value);
    var c := Strip(value);
    if c != "" {
      assert c[0] == '/' ==> DotOrEmpty(Segments(c)[0]);
      if CleanSegments(Segments(c)) {
        NormPathClean(c);
        CleanIsNotDots(c);
      }
    }
  }
}
