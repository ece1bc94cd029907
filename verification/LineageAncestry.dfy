/** What every replayed registry satisfies, whatever log it came from: exact ancestry,
    narrowing boundaries, unambiguous branches and worktrees. */
module LineageAncestry {
  import opened Boundaries
  import opened Lineages
  import opened Wrappers

  // ----------------------------------------------------------------- ancestry

  /** `n` exact parent steps lead from one commit to the other, and every commit that is
      left changed only paths inside the boundary. */
  predicate Chain(git: Git, from: Commit, to: Commit, n: nat, boundary: set<string>)
    decreases n
  {
    if n == 0 then from == to
    else
      && from in git && git[from].parent.Some? && AllInside(git[from].changed, boundary)
      && Chain(git, git[from].parent.value, to, n - 1, boundary)
  }

  ghost predicate Reaches(git: Git, from: Commit, to: Commit, boundary: set<string>) {
    exists n: nat :: Chain(git, from, to, n, boundary)
  }

  ghost predicate Grown(git: Git, more: Git) {
    forall c | c in git :: c in more && more[c] == git[c]
  }

  lemma {:induction false} ChainGrows(git: Git, more: Git, from: Commit, to: Commit, n: nat, b: set<string>)
    requires Grown(git, more) && Chain(git, from, to, n, b)
    ensures Chain(more, from, to, n, b)
    decreases n
  {
    if n > 0 { ChainGrows(git, more, git[from].parent.value, to, n - 1, b); }
  }

  lemma {:induction false} ChainCompose(git: Git, from: Commit, middle: Commit, to: Commit, n: nat, k: nat,
                                        b: set<string>)
    requires Chain(git, from, middle, n, b) && Chain(git, middle, to, k, b)
    ensures Chain(git, from, to, n + k, b)
    decreases n
  {
    if n > 0 { ChainCompose(git, git[from].parent.value, middle, to, n - 1, k, b); }
  }

  lemma ReachesCompose(git: Git, from: Commit, middle: Commit, to: Commit, b: set<string>)
    requires Reaches(git, from, middle, b) && Reaches(git, middle, to, b)
    ensures Reaches(git, from, to, b)
  {
    var n: nat :| Chain(git, from, middle, n, b);
    var k: nat :| Chain(git, middle, to, k, b);
    ChainCompose(git, from, middle, to, n, k, b);
  }

  lemma ReachesGrows(git: Git, more: Git, from: Commit, to: Commit, b: set<string>)
    requires Grown(git, more) && Reaches(git, from, to, b)
    ensures Reaches(more, from, to, b)
  {
    var n: nat :| Chain(git, from, to, n, b);
    ChainGrows(git, more, from, to, n, b);
  }

  lemma ReachesStep(git: Git, commit: Commit, head: Commit, to: Commit, b: set<string>)
    requires commit in git && git[commit].parent == Some(head) && AllInside(git[commit].changed, b)
    requires Reaches(git, head, to, b)
    ensures Reaches(git, commit, to, b)
  {
    var n: nat :| Chain(git, head, to, n, b);
    assert Chain(git, commit, to, n + 1, b);
  }

  lemma ReachesSelf(git: Git, c: Commit, b: set<string>)
    ensures Reaches(git, c, c, b)
  {
    assert Chain(git, c, c, 0, b);
  }

  // ---------------------------------------------------------------- invariant

  predicate NamesOk(id: Id, s: LineageState, root: string) {
    && Identifier(s.campaign) && Identifier(id)
    && s.branch == BranchOf(s.campaign, id) && s.path == PathOf(root, s.campaign, id)
  }

  ghost predicate HeadOk(s: LineageState, git: Git) {
    && s.head in git && s.tree == git[s.head].tree
    && Reaches(git, s.head, s.parentCommit, {})
  }

  /** A child branched from a commit of its parent's own chain, with a narrower boundary. */
  ghost predicate ParentOk(s: LineageState, parent: LineageState, git: Git) {
    && parent.campaign == s.campaign && Narrower(s.boundary, parent.boundary)
    && Reaches(git, parent.head, s.parentCommit, {}) && Reaches(git, s.parentCommit, parent.parentCommit, {})
  }

  ghost predicate LineageOk(id: Id, reg: Registry, git: Git, root: string)
    requires id in reg.lineages
  {
    var s := reg.lineages[id];
    && NamesOk(id, s, root) && HeadOk(s, git)
    && (s.parent.Some? ==> s.parent.value in reg.lineages && ParentOk(s, reg.lineages[s.parent.value], git))
  }

  /** Branch and worktree owners are exactly the lineages' own names. */
  ghost predicate OwnersOk(reg: Registry) {
    && (forall id | id in reg.lineages :: OwnerOf(reg, id))
    && (forall b | b in reg.branches :: reg.branches[b] in reg.lineages && reg.lineages[reg.branches[b]].branch == b)
    && (forall p | p in reg.worktrees :: reg.worktrees[p] in reg.lineages && reg.lineages[reg.worktrees[p]].path == p)
  }

  predicate OwnerOf(reg: Registry, id: Id)
    requires id in reg.lineages
  {
    var s := reg.lineages[id];
    s.branch in reg.branches && reg.branches[s.branch] == id && s.path in reg.worktrees && reg.worktrees[s.path] == id
  }

  ghost predicate AncestryOk(reg: Registry, git: Git, root: string) {
    && OwnersOk(reg)
    && forall id | id in reg.lineages :: LineageOk(id, reg, git, root)
  }

  lemma AncestryGrows(reg: Registry, git: Git, more: Git, root: string)
    requires AncestryOk(reg, git, root) && Grown(git, more)
    ensures AncestryOk(reg, more, root)
  {
    forall id | id in reg.lineages ensures LineageOk(id, reg, more, root) {
      assert LineageOk(id, reg, git, root);
      var s := reg.lineages[id];
      ReachesGrows(git, more, s.head, s.parentCommit, {});
      if s.parent.Some? {
        var parent := reg.lineages[s.parent.value];
        ReachesGrows(git, more, parent.head, s.parentCommit, {});
        ReachesGrows(git, more, s.parentCommit, parent.parentCommit, {});
      }
    }
  }

  // ------------------------------------------------------- one applied receipt

  lemma RegisterKeeps(reg: Registry, git: Git, root: string, r: Receipt)
    requires AncestryOk(reg, git, root) && Constructible(r) && r.kind == Created
    requires ApplyCreated(reg, git, root, r).Ok?
    ensures AncestryOk(Register(reg, r), git, root)
  {
    var after := Register(reg, r);
    var s := CreatedState(r);
    ReachesSelf(git, s.head, {});
    if r.parent.Some? {
      var parent := reg.lineages[r.parent.value];
      assert LineageOk(r.parent.value, reg, git, root);
      ReachesSelf(git, parent.head, {});
    }
    forall id | id in after.lineages ensures LineageOk(id, after, git, root) {
      if id != r.lineage { assert LineageOk(id, reg, git, root); }
    }
    RegisterOwners(reg, r);
  }

  lemma RegisterOwners(reg: Registry, r: Receipt)
    requires OwnersOk(reg) && r.parentCommit.Some? && r.tree.Some?
    requires r.lineage !in reg.lineages && r.branch !in reg.branches && r.path !in reg.worktrees
    ensures OwnersOk(Register(reg, r))
  {
    var after := Register(reg, r);
    forall id | id in after.lineages ensures OwnerOf(after, id) {
      if id != r.lineage { assert OwnerOf(reg, id); }
    }
  }

  /** The fields that name a lineage and bound it never change. */
  predicate SameNames(s: LineageState, t: LineageState) {
    && s.campaign == t.campaign && s.parent == t.parent && s.parentCommit == t.parentCommit
    && s.branch == t.branch && s.path == t.path && s.boundary == t.boundary
  }

  lemma UpdateKeeps(reg: Registry, git: Git, root: string, id: Id, t: LineageState)
    requires AncestryOk(reg, git, root) && id in reg.lineages && SameNames(reg.lineages[id], t)
    requires HeadOk(t, git) && Reaches(git, t.head, reg.lineages[id].head, {})
    ensures AncestryOk(reg.(lineages := reg.lineages[id := t]), git, root)
  {
    var after := reg.(lineages := reg.lineages[id := t]);
    forall e | e in after.lineages ensures LineageOk(e, after, git, root) {
      assert LineageOk(e, reg, git, root);
      UpdatedLineage(reg, git, root, id, t, e);
    }
    UpdateOwners(reg, id, t);
  }

  lemma UpdatedLineage(reg: Registry, git: Git, root: string, id: Id, t: LineageState, e: Id)
    requires id in reg.lineages && SameNames(reg.lineages[id], t)
    requires HeadOk(t, git) && Reaches(git, t.head, reg.lineages[id].head, {})
    requires e in reg.lineages && LineageOk(e, reg, git, root)
    ensures LineageOk(e, reg.(lineages := reg.lineages[id := t]), git, root)
  {
    var s := reg.lineages[e];
    if s.parent == Some(id) {
      ReachesCompose(git, t.head, reg.lineages[id].head, s.parentCommit, {});
    }
  }

  lemma UpdateOwners(reg: Registry, id: Id, t: LineageState)
    requires OwnersOk(reg) && id in reg.lineages && SameNames(reg.lineages[id], t)
    ensures OwnersOk(reg.(lineages := reg.lineages[id := t]))
  {
    var after := reg.(lineages := reg.lineages[id := t]);
    forall e | e in after.lineages ensures OwnerOf(after, e) {
      assert OwnerOf(reg, e);
    }
  }

  lemma LaterKeeps(reg: Registry, git: Git, root: string, r: Receipt)
    requires AncestryOk(reg, git, root) && Constructible(r) && r.kind != Created && r.lineage in reg.lineages
    requires ApplyLater(reg.lineages[r.lineage], git, r).Ok?
    ensures AncestryOk(reg.(lineages := reg.lineages[r.lineage := ApplyLater(reg.lineages[r.lineage], git, r).value]),
                       git, root)
  {
    var s := reg.lineages[r.lineage];
    var t := ApplyLater(s, git, r).value;
    assert LineageOk(r.lineage, reg, git, root);
    ReachesSelf(git, s.head, {});
    if r.kind == Checkpointed || r.kind == ChildCommitted {
      ReachesStep(git, t.head, s.head, s.parentCommit, {});
      ReachesStep(git, t.head, s.head, s.head, {});
    }
    UpdateKeeps(reg, git, root, r.lineage, t);
  }

  lemma ApplyKeepsAncestry(reg: Registry, git: Git, root: string, r: Receipt)
    requires AncestryOk(reg, git, root) && Constructible(r) && ApplyReceipt(reg, git, root, r).Ok?
    ensures AncestryOk(ApplyReceipt(reg, git, root, r).value, git, root)
  {
    var after := ApplyReceipt(reg, git, root, r).value;
    if r.kind == Created {
      assert after == Register(reg, r);
      RegisterKeeps(reg, git, root, r);
    } else {
      var t := ApplyLater(reg.lineages[r.lineage], git, r).value;
      assert after == reg.(lineages := reg.lineages[r.lineage := t]);
      LaterKeeps(reg, git, root, r);
    }
  }

  /** Replay accepts only logs whose registry has exact ancestry and narrowing boundaries;
      so does every partial registry on the way. */
  lemma {:induction false} ReplayKeepsAncestry(reg: Registry, git: Git, root: string, log: seq<Receipt>)
    requires AncestryOk(reg, git, root) && AllConstructible(log)
    ensures AncestryOk(Replay(reg, git, root, log).0, git, root)
    decreases |log|
  {
    if log != [] {
      var next := ApplyReceipt(reg, git, root, log[0]);
      if next.Ok? {
        ApplyKeepsAncestry(reg, git, root, log[0]);
        ReplayKeepsAncestry(next.value, git, root, log[1..]);
      }
    }
  }

  lemma {:induction false} ReplayAppend(reg: Registry, git: Git, root: string, log: seq<Receipt>, more: seq<Receipt>)
    requires AllConstructible(log) && AllConstructible(more)
    requires Replay(reg, git, root, log).1.None?
    ensures AllConstructible(log + more)
    ensures Replay(reg, git, root, log + more) == Replay(Replay(reg, git, root, log).0, git, root, more)
    decreases |log|
  {
    if log == [] {
      assert log + more == more;
    } else {
      assert (log + more)[1..] == log[1..] + more;
      ReplayAppend(ApplyReceipt(reg, git, root, log[0]).value, git, root, log[1..], more);
    }
  }

  /** An accepted log stays accepted, with the same result, as the repository grows. */
  lemma {:induction false} ReplayGrows(reg: Registry, git: Git, more: Git, root: string, log: seq<Receipt>)
    requires AllConstructible(log) && Grown(git, more) && Replay(reg, git, root, log).1.None?
    ensures Replay(reg, more, root, log) == Replay(reg, git, root, log)
    decreases |log|
  {
    if log != [] {
      assert ApplyReceipt(reg, more, root, log[0]) == ApplyReceipt(reg, git, root, log[0]);
      ReplayGrows(ApplyReceipt(reg, git, root, log[0]).value, git, more, root, log[1..]);
    }
  }

  // ---------------------------------------------------------- parent chains

  /** `line[i + 1]` is the parent lineage of `line[i]`. */
  ghost predicate ParentLine(reg: Registry, line: seq<Id>) {
    && (forall i | 0 <= i < |line| :: line[i] in reg.lineages)
    && (forall i | 0 <= i < |line| - 1 :: reg.lineages[line[i]].parent == Some(line[i + 1]))
  }

  /** Along a parent line of an accepted log, boundaries only narrow and the youngest
      head reaches the oldest baseline by exact parent steps. */
  lemma {:induction false} BoundariesOnlyNarrow(reg: Registry, git: Git, root: string, line: seq<Id>)
    requires AncestryOk(reg, git, root) && ParentLine(reg, line) && line != []
    ensures var young, aged := reg.lineages[line[0]], reg.lineages[line[|line| - 1]];
      && young.campaign == aged.campaign
      && Narrower(young.boundary, aged.boundary)
      && Reaches(git, young.parentCommit, aged.parentCommit, {})
      && Reaches(git, young.head, aged.parentCommit, {})
    decreases |line|
  {
    var young := reg.lineages[line[0]];
    assert LineageOk(line[0], reg, git, root);
    if |line| == 1 {
      NarrowerReflexive(young.boundary);
      ReachesSelf(git, young.parentCommit, {});
    } else {
      var rest := line[1..];
      forall i | 0 <= i < |rest| - 1 ensures reg.lineages[rest[i]].parent == Some(rest[i + 1]) {
        assert rest[i] == line[i + 1] && rest[i + 1] == line[i + 2];
      }
      BoundariesOnlyNarrow(reg, git, root, rest);
      var aged := reg.lineages[line[|line| - 1]];
      NarrowerTransitive(young.boundary, reg.lineages[line[1]].boundary, aged.boundary);
      ReachesCompose(git, young.parentCommit, reg.lineages[line[1]].parentCommit, aged.parentCommit, {});
      ReachesCompose(git, young.head, young.parentCommit, aged.parentCommit, {});
    }
  }

  /** Once an ancestor is restricted, every descendant is, and no path inside the
      descendant's boundary escapes the ancestor's. */
  lemma DescendantsStayInside(reg: Registry, git: Git, root: string, line: seq<Id>, path: string)
    requires AncestryOk(reg, git, root) && ParentLine(reg, line) && line != []
    requires reg.lineages[line[|line| - 1]].boundary != {}
    ensures reg.lineages[line[0]].boundary != {}
    ensures Within(path, reg.lineages[line[0]].boundary) ==> Within(path, reg.lineages[line[|line| - 1]].boundary)
  {
    BoundariesOnlyNarrow(reg, git, root, line);
    if Within(path, reg.lineages[line[0]].boundary) {
      NarrowerInside(path, reg.lineages[line[0]].boundary, reg.lineages[line[|line| - 1]].boundary);
    }
  }

  // ------------------------------------------------------------------- names

  predicate SlashFree(s: string) {
    forall i | 0 <= i < |s| :: s[i] != '/'
  }

  lemma {:induction false} JoinedNamesDiffer(a: string, b: string, c: string, d: string)
    requires SlashFree(a) && SlashFree(c) && a + "/" + b == c + "/" + d
    ensures a == c && b == d
  {
    var whole := a + "/" + b;
    assert whole[|a|] == '/' && whole[|c|] == '/';
    assert forall i | 0 <= i < |a| :: whole[i] == a[i];
    assert forall i | 0 <= i < |c| :: whole[i] == c[i];
    assert whole[..|a|] == a && whole[..|c|] == c;
    assert whole[|a| + 1..] == b && whole[|c| + 1..] == d;
  }

  lemma NamesAreInjective(root: string, campaign: Id, id: Id, other: Id, e: Id)
    requires Identifier(campaign) && Identifier(other)
    ensures BranchOf(campaign, id) == BranchOf(other, e) ==> campaign == other && id == e
    ensures PathOf(root, campaign, id) == PathOf(root, other, e) ==> campaign == other && id == e
  {
    if BranchOf(campaign, id) == BranchOf(other, e) {
      assert BranchOf(campaign, id)[10..] == campaign + "/" + id && BranchOf(other, e)[10..] == other + "/" + e;
      JoinedNamesDiffer(campaign, id, other, e);
    }
    if PathOf(root, campaign, id) == PathOf(root, other, e) {
      assert PathOf(root, campaign, id)[|root| + 1..] == campaign + "/" + id;
      assert PathOf(root, other, e)[|root| + 1..] == other + "/" + e;
      JoinedNamesDiffer(campaign, id, other, e);
    }
  }

  /** The branch and path guards are unreachable: a new lineage id brings names that no
      lineage of any campaign has. */
  lemma FreshNamesAreFree(reg: Registry, git: Git, root: string, campaign: Id, id: Id)
    requires AncestryOk(reg, git, root) && Identifier(campaign) && Identifier(id) && id !in reg.lineages
    ensures BranchOf(campaign, id) !in reg.branches && PathOf(root, campaign, id) !in reg.worktrees
  {
    if BranchOf(campaign, id) in reg.branches {
      var e := reg.branches[BranchOf(campaign, id)];
      assert LineageOk(e, reg, git, root);
      NamesAreInjective(root, campaign, id, reg.lineages[e].campaign, e);
    }
    if PathOf(root, campaign, id) in reg.worktrees {
      var e := reg.worktrees[PathOf(root, campaign, id)];
      assert LineageOk(e, reg, git, root);
      NamesAreInjective(root, campaign, id, reg.lineages[e].campaign, e);
    }
  }
}
