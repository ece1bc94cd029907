/** Changed-path boundaries: sets of relative prefixes; the empty set restricts nothing. */
module Boundaries {
  import opened Paths

  /** `replace("\\", "/")`. */
  function Slashed(s: string): string {
    if s == "" then "" else [if s[0] == '\\' then '/' else s[0]] + Slashed(s[1..])
  }

  /** `rstrip("/")`. */
  function Trimmed(s: string): string {
    if s != "" && s[|s| - 1] == '/' then Trimmed(s[..|s| - 1]) else s
  }

  function Normal(prefix: string): string {
    Trimmed(Slashed(prefix))
  }

  predicate ValidPrefix(prefix: string) {
    prefix != "" && !("/" <= Slashed(prefix)) && ".." !in Segments(Slashed(prefix))
  }

  predicate AtOrBelow(path: string, top: string) {
    path == top || top + "/" <= path
  }

  predicate Within(path: string, boundary: set<string>) {
    exists p | p in boundary :: AtOrBelow(Slashed(path), Normal(p))
  }

  predicate Contained(child: string, boundary: set<string>) {
    exists p | p in boundary :: AtOrBelow(Normal(child), Normal(p))
  }

  /** The test that a child's boundary must pass against its parent's. */
  predicate Narrower(child: set<string>, parent: set<string>) {
    parent != {} ==> child != {} && forall c | c in child :: Contained(c, parent)
  }

  predicate AllInside(paths: set<string>, boundary: set<string>) {
    boundary == {} || forall p | p in paths :: Within(p, boundary)
  }

  lemma BelowTransitive(path: string, middle: string, top: string)
    requires AtOrBelow(path, middle) && AtOrBelow(middle, top)
    ensures AtOrBelow(path, top)
  {
    if path != middle && middle != top {
      assert top + "/" <= middle && middle <= path;
      assert path[..|middle|][..|top| + 1] == path[..|top| + 1];
    }
  }

  /** The string test on prefixes means what it should for files: whatever lies inside a
      narrower boundary lies inside the wider one. */
  lemma NarrowerInside(path: string, child: set<string>, parent: set<string>)
    requires Narrower(child, parent) && parent != {} && Within(path, child)
    ensures Within(path, parent)
  {
    var c :| c in child && AtOrBelow(Slashed(path), Normal(c));
    assert Contained(c, parent);
    var p :| p in parent && AtOrBelow(Normal(c), Normal(p));
    BelowTransitive(Slashed(path), Normal(c), Normal(p));
  }

  lemma NarrowerTransitive(child: set<string>, middle: set<string>, parent: set<string>)
    requires Narrower(child, middle) && Narrower(middle, parent)
    ensures Narrower(child, parent)
  {
    if parent != {} {
      forall c | c in child ensures Contained(c, parent) {
        assert Contained(c, middle);
        var m :| m in middle && AtOrBelow(Normal(c), Normal(m));
        assert Contained(m, parent);
        var p :| p in parent && AtOrBelow(Normal(m), Normal(p));
        BelowTransitive(Normal(c), Normal(m), Normal(p));
      }
    }
  }

  lemma NarrowerReflexive(boundary: set<string>)
    ensures Narrower(boundary, boundary)
  {
    forall c | c in boundary ensures Contained(c, boundary) {
      assert AtOrBelow(Normal(c), Normal(c));
    }
  }
}
