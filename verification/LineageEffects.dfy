/** What creating, committing and recovering do, field by field, and exactly when. */
module LineageEffects {
  import opened Boundaries
  import opened LineageAncestry
  import opened LineageRecovery
  import opened LineageRecoveryTheorems
  import opened LineageTheorems
  import opened Lineages
  import opened Wrappers

  // ----------------------------------------------------------------- creating

  /** A root names its baseline; a child names a trusted parent of its own campaign. */
  predicate Grounded(reg: Registry, git: Git, a: CreateArgs) {
    if a.parent.None? then a.baseline.Some? && a.baseline.value in git
    else
      && a.baseline.None? && a.parent.value in reg.lineages
      && reg.lineages[a.parent.value].campaign == a.campaign
      && reg.lineages[a.parent.value].quarantine.None?
  }

  /** A requested boundary is well formed and, for a child, no wider than its parent's. */
  predicate BoundaryAllowed(reg: Registry, a: CreateArgs) {
    a.requested.Some? ==>
      && (forall p | p in a.requested.value :: ValidPrefix(p))
      && (a.parent.Some? && a.parent.value in reg.lineages ==>
            Narrower(a.requested.value, reg.lineages[a.parent.value].boundary))
  }

  /** Where the new lineage starts: the baseline, or the parent's head at this moment. */
  function Start(reg: Registry, a: CreateArgs): Option<Commit> {
    if a.parent.None? then a.baseline
    else if a.parent.value in reg.lineages then Some(reg.lineages[a.parent.value].head)
    else None
  }

  /** What it may change: what was asked for, else what its parent may change. */
  function BoundaryFor(reg: Registry, a: CreateArgs): set<string> {
    if a.requested.Some? then a.requested.value
    else if a.parent.Some? && a.parent.value in reg.lineages then reg.lineages[a.parent.value].boundary
    else {}
  }

  predicate Startable(m: Manager, git: Git, a: CreateArgs) {
    && !m.poisoned && Identifier(a.campaign) && Identifier(a.lineage) && a.lineage !in m.reg.lineages
    && Grounded(m.reg, git, a) && BoundaryAllowed(m.reg, a)
  }

  /** Two registries whose lineages are the same everywhere but at one id. */
  predicate OnlyLineageChanged(before: Registry, after: Registry, id: Id) {
    && id in after.lineages && after.lineages.Keys == before.lineages.Keys + {id}
    && forall e | e in before.lineages && e != id :: after.lineages[e] == before.lineages[e]
  }

  /** Two worlds with the same commits and, everywhere but at one path, the same worktrees. */
  ghost predicate OnlySiteChanged(before: World, after: World, path: string) {
    path in after.sites && forall p | p != path :: SiteAt(after, p) == SiteAt(before, p)
  }

  lemma StartableIff(l: Live, root: string, a: CreateArgs)
    requires LiveOk(l, root)
    ensures CreateCheck(l.m, l.w.git, root, a).Ok? <==> Startable(l.m, l.w.git, a)
    ensures Startable(l.m, l.w.git, a) ==>
      CreateCheck(l.m, l.w.git, root, a).value.boundary == BoundaryFor(l.m.reg, a)
      && Start(l.m.reg, a) == Some(CreateCheck(l.m, l.w.git, root, a).value.commit)
      && CreateCheck(l.m, l.w.git, root, a).value.commit in l.w.git
  {
    if a.parent.Some? && a.parent.value in l.m.reg.lineages {
      assert LineageOk(a.parent.value, l.m.reg, l.w.git, root);
    }
    NamesNeverRefuse(l, root, a);
  }

  /** In any life of a manager a creation succeeds exactly for a fresh id of a grounded
      lineage with an allowed boundary, when git adds the worktree. */
  lemma CreateSucceedsIff(l: Live, root: string, a: CreateArgs, added: bool)
    requires LiveOk(l, root)
    ensures Create(l.m, l.w, root, a, added).2.Ok? <==> Startable(l.m, l.w.git, a) && added
    ensures !Create(l.m, l.w, root, a, added).2.Ok? ==>
      Create(l.m, l.w, root, a, added).0.reg == l.m.reg && Create(l.m, l.w, root, a, added).1 == l.w
  {
    StartableIff(l, root, a);
  }

  /** The new lineage stands at its start, with the boundary it asked for or inherits, in a
      clean worktree of its own on its own branch; nothing else changes. */
  lemma CreateStarts(l: Live, root: string, a: CreateArgs)
    requires LiveOk(l, root) && Startable(l.m, l.w.git, a)
    ensures var (m, w, _) := Create(l.m, l.w, root, a, true); var path := root + "/" + a.campaign + "/" + a.lineage;
      OnlyLineageChanged(l.m.reg, m.reg, a.lineage) && w.git == l.w.git && OnlySiteChanged(l.w, w, path)
    ensures var (m, w, _) := Create(l.m, l.w, root, a, true); var path := root + "/" + a.campaign + "/" + a.lineage;
      a.lineage in m.reg.lineages && var s := m.reg.lineages[a.lineage];
      && s.campaign == a.campaign && s.parent == a.parent && Some(s.head) == Start(l.m.reg, a) && s.head in w.git
      && s.parentCommit == s.head && s.tree == w.git[s.head].tree && s.boundary == BoundaryFor(l.m.reg, a)
      && s.quarantine.None? && s.sequence == l.m.nextSequence && s.path == path && Confirmed(s, SiteAt(w, path))
      && s.branch == "discovery/" + a.campaign + "/" + a.lineage && SiteAt(w, path).realPath == path
  {
    StartableIff(l, root, a);
  }

  // --------------------------------------------------------------- committing

  /** The lineage is trusted, its worktree exists at the recorded head, and nothing outside
      the boundary is modified or staged. */
  predicate Committable(m: Manager, w: World, a: CommitArgs, g: GitAnswer) {
    && !m.poisoned && a.attempt != "" && a.message != "" && Trusted(m, a.lineage)
    && var s := m.reg.lineages[a.lineage];
    && SiteAt(w, s.path).Dir? && SiteAt(w, s.path).head == Some(s.head)
    && (s.boundary == {} || forall p | p in SiteAt(w, s.path).dirty + g.staged :: Within(p, s.boundary))
    && (g.commit in w.git ==> w.git[g.commit] == CommitInfo(Some(s.head), g.tree, g.staged))
  }

  /** A commit succeeds exactly for a committable lineage whose worktree git leaves clean;
      short of committable, it changes neither lineages nor worktrees. */
  lemma CommitSucceedsIff(m: Manager, w: World, a: CommitArgs, g: GitAnswer)
    ensures CommitWorktree(m, w, a, g).2.Ok? <==> Committable(m, w, a, g) && g.clean
    ensures !CommitWorktree(m, w, a, g).2.Ok? ==> CommitWorktree(m, w, a, g).0.reg == m.reg
    ensures !Committable(m, w, a, g) ==> CommitWorktree(m, w, a, g).1 == w
  {
  }

  /** The new commit is the child of the old head, the worktree stands at it, and the lineage
      moves there when the worktree is clean: one that git leaves dirty moves without it. */
  lemma CommitAdvancesTo(m: Manager, w: World, a: CommitArgs, g: GitAnswer)
    requires Committable(m, w, a, g)
    ensures var (next, after, _) := CommitWorktree(m, w, a, g); var s := m.reg.lineages[a.lineage];
      && after.git.Keys == w.git.Keys + {g.commit} && after.git[g.commit] == CommitInfo(Some(s.head), g.tree, g.staged)
      && (forall c | c in w.git :: after.git[c] == w.git[c])
      && OnlySiteChanged(w, after, s.path) && SiteAt(after, s.path).Dir?
      && SiteAt(after, s.path).head == Some(g.commit) && SiteAt(after, s.path).ref == SiteAt(w, s.path).ref
      && SiteAt(after, s.path).dirty == if g.clean then {} else SiteAt(w, s.path).dirty
    ensures var (next, after, _) := CommitWorktree(m, w, a, g); var s := m.reg.lineages[a.lineage];
      g.clean ==>
        && OnlyLineageChanged(m.reg, next.reg, a.lineage)
        && next.reg.lineages[a.lineage] == s.(head := g.commit, tree := g.tree, sequence := m.nextSequence)
        && next.nextSequence == m.nextSequence + 1
  {
  }

  // --------------------------------------------------------------- recovering

  /** A worktree directory of the root that a lineage may claim, whatever its condition. */
  predicate Occupies(site: Site) {
    site.Dir? && !site.linked && site.inside
  }

  /** A trusted lineage earlier in the list occupies the same real path. */
  predicate SharedBefore(m: Manager, w: World, ids: seq<Id>, i: nat)
    requires i < |ids| && forall k | 0 <= k < |ids| :: ids[k] in m.reg.lineages
  {
    var mine := SiteAt(w, m.reg.lineages[ids[i]].path);
    exists j | 0 <= j < i ::
      var other := m.reg.lineages[ids[j]]; var site := SiteAt(w, other.path);
      other.quarantine.None? && Occupies(site) && mine.Dir? && site.realPath == mine.realPath
  }

  lemma DetectsNothingIff(s: LineageState, id: Id, site: Site, claimed: map<string, Id>)
    ensures var (reason, more) := Detect(s, id, site, claimed);
      && (reason.None? <==> Confirmed(s, site) && site.realPath !in claimed)
      && more.Keys == claimed.Keys + if Occupies(site) then {site.realPath} else {}
  {
  }

  /** The sweep quarantines exactly the trusted lineages that are not confirmed or whose real
      path an earlier one occupies or somebody has claimed. */
  lemma {:induction false} SweepTrustsIff(m: Manager, w: World, ids: seq<Id>, claimed: map<string, Id>, i: nat)
    requires forall k | 0 <= k < |ids| :: ids[k] in m.reg.lineages
    requires forall j, k | 0 <= j < k < |ids| :: ids[j] != ids[k]
    requires i < |ids|
    ensures var s := m.reg.lineages[ids[i]]; var site := SiteAt(w, s.path);
      Trusted(Sweep(m, w, ids, claimed).0, ids[i]) <==>
        s.quarantine.None? && Confirmed(s, site) && site.realPath !in claimed && !SharedBefore(m, w, ids, i)
    decreases |ids|
  {
    var id, rest := ids[0], ids[1..];
    var s := m.reg.lineages[id];
    var (reason, more) := if s.quarantine.Some? then (None, claimed) else Detect(s, id, SiteAt(w, s.path), claimed);
    var next := if reason.None? then m else Quarantine(m, id, reason.value).0;
    DetectsNothingIff(s, id, SiteAt(w, s.path), claimed);
    assert Sweep(m, w, ids, claimed).0 == Sweep(next, w, rest, more).0;
    if i == 0 {
      SweepElsewhere(next, w, rest, more, id);
    } else {
      SweepTrustsIff(next, w, rest, more, i - 1);
      SharedShifts(m, next, w, ids, i);
    }
  }

  lemma SharedShifts(m: Manager, next: Manager, w: World, ids: seq<Id>, i: nat)
    requires 1 <= i < |ids| && forall k | 0 <= k < |ids| :: ids[k] in m.reg.lineages && ids[k] in next.reg.lineages
    requires forall k | 1 <= k < |ids| :: next.reg.lineages[ids[k]] == m.reg.lineages[ids[k]]
    ensures var s := m.reg.lineages[ids[0]]; var site := SiteAt(w, s.path);
      var mine := SiteAt(w, m.reg.lineages[ids[i]].path);
      SharedBefore(m, w, ids, i) <==>
        SharedBefore(next, w, ids[1..], i - 1)
        || (s.quarantine.None? && Occupies(site) && mine.Dir? && site.realPath == mine.realPath)
  {
    var rest := ids[1..];
    assert forall k | 0 <= k < |rest| :: rest[k] == ids[k + 1];
    assert forall j | 1 <= j < i :: rest[j - 1] == ids[j];
  }

  lemma {:induction false} SortedIdsAscend(ids: set<Id>)
    ensures forall i, j | 0 <= i < j < |SortedIds(ids)| :: Leq(SortedIds(ids)[i], SortedIds(ids)[j])
    decreases ids
  {
    if ids != {} {
      SortedIdsMembers(ids - {LeastOf(ids)});
      SortedIdsAscend(ids - {LeastOf(ids)});
    }
  }

  /** A trusted lineage of a smaller id occupies the same real path. */
  ghost predicate Rivalled(reg: Registry, w: World, id: Id)
    requires id in reg.lineages
  {
    exists e | e in reg.lineages && e != id && Leq(e, id) :: Rival(w, reg.lineages[e], reg.lineages[id])
  }

  predicate Rival(w: World, other: LineageState, s: LineageState) {
    var mine, site := SiteAt(w, s.path), SiteAt(w, other.path);
    other.quarantine.None? && Occupies(site) && mine.Dir? && site.realPath == mine.realPath
  }

  lemma SharedIsRivalled(m: Manager, w: World, ids: seq<Id>, i: nat)
    requires ids == SortedIds(m.reg.lineages.Keys) && i < |ids|
    requires forall k | 0 <= k < |ids| :: ids[k] in m.reg.lineages
    ensures SharedBefore(m, w, ids, i) <==> Rivalled(m.reg, w, ids[i])
  {
    var keys := m.reg.lineages.Keys;
    SortedIdsMembers(keys);
    SortedIdsComplete(keys);
    SortedIdsAscend(keys);
    var s := m.reg.lineages[ids[i]];
    if SharedBefore(m, w, ids, i) {
      var j :| 0 <= j < i && Rival(w, m.reg.lineages[ids[j]], s);
      assert Leq(ids[j], ids[i]);
    }
    if Rivalled(m.reg, w, ids[i]) {
      var e :| e in m.reg.lineages && e != ids[i] && Leq(e, ids[i]) && Rival(w, m.reg.lineages[e], s);
      var j :| 0 <= j < |ids| && ids[j] == e;
      LeqTotal(e, ids[i]);
      assert j < i;
    }
  }

  /** After any accepted recovery exactly those lineages are trusted that the log left
      trusted, whose worktree is positively theirs, and whose real path no trusted lineage
      of a smaller id occupies; they are unchanged. */
  lemma RecoveryTrustsIff(w: World, root: string, log: seq<Receipt>, id: Id) returns (reg: Registry)
    requires Recover(FRESH, w, root, log).1.Ok?
    ensures AllConstructible(SortBySequence(log)) && Replay(NO_LINEAGES, w.git, root, SortBySequence(log)) ==
      (reg, None)
    ensures Trusted(Recover(FRESH, w, root, log).0, id) <==>
      && id in reg.lineages && reg.lineages[id].quarantine.None?
      && Confirmed(reg.lineages[id], SiteAt(w, reg.lineages[id].path)) && !Rivalled(reg, w, id)
  {
    reg := RecoverGives(w, root, log);
    var ordered, ids := SortBySequence(log), SortedIds(reg.lineages.Keys);
    var counted := Manager(reg, |ordered|, NextGenerated(ordered), false);
    SortedIdsMembers(reg.lineages.Keys);
    SortedIdsComplete(reg.lineages.Keys);
    SweepElsewhere(counted, w, ids, map[], id);
    if id in reg.lineages {
      var i :| 0 <= i < |ids| && ids[i] == id;
      SweepTrustsIff(counted, w, ids, map[], i);
      SharedIsRivalled(counted, w, ids, i);
    }
  }

  // ---------------------------------------------------------------- replaying

  /** What a later receipt must agree with. */
  predicate SameLineage(s: LineageState, r: Receipt) {
    && r.campaign == s.campaign && r.parent == s.parent && r.parentCommit == Some(s.parentCommit)
    && r.branch == s.branch && r.path == s.path && r.boundary == s.boundary
  }

  /** A commit receipt names a child of the recorded head, with its tree. */
  predicate NextCommit(s: LineageState, git: Git, r: Receipt) {
    && r.commit.Some? && r.commit.value in git
    && git[r.commit.value].parent == Some(s.head) && r.tree == Some(git[r.commit.value].tree)
  }

  /** Replay applies a later receipt exactly when it keeps the lineage's identity and, for a
      commit, follows its head; it moves that lineage only. */
  lemma LaterReceiptIff(reg: Registry, git: Git, root: string, r: Receipt)
    requires Constructible(r) && r.kind != Created
    ensures ApplyReceipt(reg, git, root, r).Ok? <==>
      && r.lineage in reg.lineages && SameLineage(reg.lineages[r.lineage], r)
      && (r.kind in {Checkpointed, ChildCommitted} ==> NextCommit(reg.lineages[r.lineage], git, r))
    ensures ApplyReceipt(reg, git, root, r).Ok? ==>
      OnlyLineageChanged(reg, ApplyReceipt(reg, git, root, r).value, r.lineage)
    ensures var next := ApplyReceipt(reg, git, root, r);
      next.Ok? && r.lineage in reg.lineages && r.lineage in next.value.lineages ==>
        var s, t := reg.lineages[r.lineage], next.value.lineages[r.lineage];
        && t.sequence == r.sequence && SameLineage(t, r)
        && (r.kind.Quarantined? ==> t.quarantine == Some(r.detail))
        && (r.kind.Recovered? ==> t.quarantine == None)
        && (r.kind in {Quarantined, Recovered} ==> t.head == s.head && t.tree == s.tree)
        && (r.kind in {Checkpointed, ChildCommitted} ==>
              r.commit == Some(t.head) && r.tree == Some(t.tree) && t.quarantine == s.quarantine)
  {
  }
}
