/** What recovery gives back: the same registry again, confirmed worktrees, and for any
    accepted log the ancestry invariant. */
module LineageRecoveryTheorems {
  import opened Boundaries
  import opened LineageAncestry
  import opened LineageRecovery
  import opened LineageTheorems
  import opened Lineages
  import opened Wrappers

  // ------------------------------------------------------- recovering again

  lemma SortLength(log: seq<Receipt>)
    ensures |SortBySequence(log)| == |log|
  {
    SortSorts(log);
  }

  lemma SortMembers(log: seq<Receipt>, i: nat)
    requires i < |log|
    ensures |SortBySequence(log)| == |log| && SortBySequence(log)[i] in log
  {
    SortSorts(log);
    assert SortBySequence(log)[i] in multiset(SortBySequence(log));
  }

  lemma SortOneMore(log: seq<Receipt>, r: Receipt)
    ensures SortBySequence(log + [r]) == Insert(r, SortBySequence(log))
  {
    assert (log + [r])[..|log|] == log;
  }

  predicate NoneAbove(s: seq<Receipt>, n: nat) {
    forall i | 0 <= i < |s| :: s[i].sequence <= n
  }

  lemma SortedNoneAbove(log: seq<Receipt>, n: nat)
    requires NoneAbove(log, n)
    ensures NoneAbove(SortBySequence(log), n)
  {
    SortLength(log);
    forall i | 0 <= i < |log| ensures SortBySequence(log)[i].sequence <= n {
      SortMembers(log, i);
    }
  }

  lemma AppendOne(log: seq<Receipt>, r: Receipt)
    requires NoneAbove(log, r.sequence)
    ensures SortBySequence(log + [r]) == SortBySequence(log) + [r]
  {
    SortedNoneAbove(log, r.sequence);
    SortOneMore(log, r);
    InsertLast(r, SortBySequence(log));
  }

  lemma ShiftOne<T>(s: seq<T>, q: seq<T>)
    requires q != []
    ensures (s + [q[0]]) + q[1..] == s + q
  {
  }

  ghost predicate Follows(log: seq<Receipt>, q: seq<Receipt>) {
    Ascending(q) && forall j | 0 <= j < |q| :: NoneAbove(log, q[j].sequence)
  }

  lemma FollowsRest(log: seq<Receipt>, q: seq<Receipt>)
    requires Follows(log, q) && q != []
    ensures NoneAbove(log, q[0].sequence) && Follows(log + [q[0]], q[1..])
  {
  }

  lemma {:induction false} SortAppend(log: seq<Receipt>, q: seq<Receipt>)
    requires Follows(log, q)
    ensures SortBySequence(log + q) == SortBySequence(log) + q
    decreases |q|
  {
    if q == [] {
      assert log + q == log;
    } else {
      FollowsRest(log, q);
      AppendOne(log, q[0]);
      SortAppend(log + [q[0]], q[1..]);
      ShiftOne(log, q);
      ShiftOne(SortBySequence(log), q);
    }
  }

  lemma {:induction false} SweepElsewhere(m: Manager, w: World, ids: seq<Id>, claimed: map<string, Id>, e: Id)
    requires forall i | 0 <= i < |ids| :: ids[i] in m.reg.lineages
    ensures var last := Sweep(m, w, ids, claimed).0;
      last.reg.lineages.Keys == m.reg.lineages.Keys
      && (e in m.reg.lineages && e !in ids ==> last.reg.lineages[e] == m.reg.lineages[e])
    decreases |ids|
  {
    if ids != [] {
      var id := ids[0];
      var s := m.reg.lineages[id];
      if s.quarantine.Some? {
        SweepElsewhere(m, w, ids[1..], claimed, e);
      } else {
        var (reason, more) := Detect(s, id, SiteAt(w, s.path), claimed);
        SweepElsewhere(if reason.None? then m else Quarantine(m, id, reason.value).0, w, ids[1..], more, e);
      }
    }
  }

  /** Sweeping a second time finds nothing: what was quarantined is skipped, and what was
      confirmed beside more claims is confirmed beside fewer. */
  lemma {:induction false} SweepAgain(m: Manager, w: World, ids: seq<Id>, claimed: map<string, Id>,
                                      again: Manager, fewer: map<string, Id>)
    requires forall i | 0 <= i < |ids| :: ids[i] in m.reg.lineages
    requires forall i, j | 0 <= i < j < |ids| :: ids[i] != ids[j]
    requires again.reg == Sweep(m, w, ids, claimed).0.reg && fewer.Keys <= claimed.Keys
    ensures again.reg.lineages.Keys == m.reg.lineages.Keys
    ensures Sweep(again, w, ids, fewer) == (again, [])
    decreases |ids|
  {
    if ids != [] {
      var id := ids[0];
      var s := m.reg.lineages[id];
      if s.quarantine.Some? {
        SweepElsewhere(m, w, ids[1..], claimed, id);
        SweepAgain(m, w, ids[1..], claimed, again, fewer);
      } else {
        var (reason, more) := Detect(s, id, SiteAt(w, s.path), claimed);
        if reason.None? {
          SweepElsewhere(m, w, ids[1..], more, id);
          SweepAgain(m, w, ids[1..], more, again, Detect(s, id, SiteAt(w, s.path), fewer).1);
        } else {
          var next := Quarantine(m, id, reason.value).0;
          SweepElsewhere(next, w, ids[1..], more, id);
          SweepAgain(next, w, ids[1..], more, again, fewer);
        }
      }
    }
  }

  /** The sweep's own receipts replay to the swept registry, in order and without repeats. */
  lemma {:induction false} SweepReplays(m: Manager, w: World, root: string, ids: seq<Id>, claimed: map<string, Id>)
    requires forall i | 0 <= i < |ids| :: ids[i] in m.reg.lineages
    ensures var (last, q) := Sweep(m, w, ids, claimed);
      && AllConstructible(q) && Replay(m.reg, w.git, root, q) == (last.reg, None)
      && (forall i | 0 <= i < |q| :: q[i].sequence == m.nextSequence + i && q[i].id == Generated(m.nextReceipt + i))
      && last.nextSequence == m.nextSequence + |q|
    decreases |ids|
  {
    if ids != [] {
      var id := ids[0];
      var s := m.reg.lineages[id];
      if s.quarantine.Some? {
        SweepReplays(m, w, root, ids[1..], claimed);
      } else {
        var (reason, more) := Detect(s, id, SiteAt(w, s.path), claimed);
        if reason.None? {
          SweepReplays(m, w, root, ids[1..], more);
        } else {
          var (next, r) := Quarantine(m, id, reason.value);
          QuarantineReplays(m, w.git, root, id, reason.value);
          SweepReplays(next, w, root, ids[1..], more);
          var q := Sweep(next, w, ids[1..], more).1;
          assert ([r] + q)[1..] == q;
        }
      }
    }
  }

  /** The order checks of an accepted log still pass with the sweep's receipts behind it. */
  lemma OrderWithSweep(ordered: seq<Receipt>, q: seq<Receipt>)
    requires OrderError(ordered).None?
    requires forall i | 0 <= i < |q| ::
      q[i].sequence == |ordered| + i && q[i].id == Generated(NextGenerated(ordered) + i)
    ensures OrderError(ordered + q).None?
  {
    RepeatsRefused(ordered, {}, {});
    NextGeneratedBounds(ordered);
    var all := ordered + q;
    forall i, j | 0 <= i < j < |all| ensures all[i].sequence != all[j].sequence && all[i].id != all[j].id {
      if j >= |ordered| && i < |ordered| { assert all[j] == q[j - |ordered|]; }
    }
    NoRepeats(all, {}, {});
  }

  /** Recovering the log together with the quarantine receipts that its first recovery
      minted gives the same registry and adds nothing further, for any accepted log. */
  lemma SecondRecoveryAddsNothing(w: World, root: string, log: seq<Receipt>)
    requires Recover(FRESH, w, root, log).1.Ok?
    ensures var (m, r) := Recover(FRESH, w, root, log); var (again, s) := Recover(FRESH, w, root, log + r.value);
      s == Ok([]) && again.reg == m.reg && again.nextSequence == m.nextSequence
  {
    var reg := RecoverGives(w, root, log);
    var ordered := SortBySequence(log);
    var (m, q) := SweepAll(Manager(reg, |ordered|, NextGenerated(ordered), false), w);
    SecondSweep(w, root, log, ordered, reg, m, q);
  }

  lemma SecondSweep(w: World, root: string, log: seq<Receipt>, ordered: seq<Receipt>, reg: Registry, m: Manager,
                    q: seq<Receipt>)
    requires AllConstructible(log) && ordered == SortBySequence(log) && OrderError(ordered).None?
    requires AllConstructible(ordered) && Replay(NO_LINEAGES, w.git, root, ordered) == (reg, None)
    requires (m, q) == SweepAll(Manager(reg, |ordered|, NextGenerated(ordered), false), w)
    ensures var (again, s) := Recover(FRESH, w, root, log + q);
      s == Ok([]) && again.reg == m.reg && again.nextSequence == m.nextSequence
  {
    var counted := Manager(reg, |ordered|, NextGenerated(ordered), false);
    var ids := SortedIds(reg.lineages.Keys);
    SortedIdsMembers(reg.lineages.Keys);
    SweepReplays(counted, w, root, ids, map[]);
    LogWithSweep(w, root, log, ordered, reg, q, m.reg);
    var again := Manager(m.reg, |ordered + q|, NextGenerated(ordered + q), false);
    SweepAgain(counted, w, ids, map[], again, map[]);
    RecoverIs(w, root, log + q, ordered + q, m.reg, again, []);
  }

  /** The extended log passes the checks and replays to the swept registry. */
  lemma LogWithSweep(w: World, root: string, log: seq<Receipt>, ordered: seq<Receipt>, reg: Registry, q: seq<Receipt>,
                     swept: Registry)
    requires AllConstructible(log) && ordered == SortBySequence(log) && OrderError(ordered).None?
    requires AllConstructible(ordered) && Replay(NO_LINEAGES, w.git, root, ordered) == (reg, None)
    requires AllConstructible(q) && Replay(reg, w.git, root, q) == (swept, None)
    requires forall i | 0 <= i < |q| ::
      q[i].sequence == |ordered| + i && q[i].id == Generated(NextGenerated(ordered) + i)
    ensures AllConstructible(log + q) && AllConstructible(ordered + q) && SortBySequence(log + q) == ordered + q
    ensures OrderError(ordered + q).None? && Replay(NO_LINEAGES, w.git, root, ordered + q) == (swept, None)
  {
    SortLength(log);
    SortedTogether(log, q);
    OrderWithSweep(ordered, q);
    ReplayAppend(NO_LINEAGES, w.git, root, ordered, q);
  }

  lemma RecoverGives(w: World, root: string, log: seq<Receipt>) returns (reg: Registry)
    requires Recover(FRESH, w, root, log).1.Ok?
    ensures AllConstructible(log) && AllConstructible(SortBySequence(log)) && OrderError(SortBySequence(log)).None?
    ensures Replay(NO_LINEAGES, w.git, root, SortBySequence(log)) == (reg, None)
    ensures var ordered := SortBySequence(log);
      var (m, q) := SweepAll(Manager(reg, |ordered|, NextGenerated(ordered), false), w);
      Recover(FRESH, w, root, log) == (m, Ok(q))
  {
    assert AllConstructible(log);
    SortedConstructible(log);
    reg := Replay(NO_LINEAGES, w.git, root, SortBySequence(log)).0;
  }

  lemma SortedTogether(log: seq<Receipt>, q: seq<Receipt>)
    requires OrderError(SortBySequence(log)).None?
    requires forall i | 0 <= i < |q| :: q[i].sequence == |log| + i
    ensures SortBySequence(log + q) == SortBySequence(log) + q
  {
    SortLength(log);
    forall i | 0 <= i < |log| ensures log[i].sequence < |log| {
      SortSorts(log);
      assert log[i] in multiset(log);
      assert log[i] in SortBySequence(log);
    }
    SortAppend(log, q);
  }

  lemma RecoverIs(w: World, root: string, log: seq<Receipt>, ordered: seq<Receipt>, reg: Registry, m: Manager,
                  q: seq<Receipt>)
    requires AllConstructible(log) && ordered == SortBySequence(log) && OrderError(ordered).None?
    requires AllConstructible(ordered) && Replay(NO_LINEAGES, w.git, root, ordered) == (reg, None)
    requires (m, q) == SweepAll(Manager(reg, |ordered|, NextGenerated(ordered), false), w)
    ensures Recover(FRESH, w, root, log) == (m, Ok(q))
  {
  }

  // -------------------------------------------------------- what a log proves

  /** Every log that recovery accepts, whoever wrote it, has exact ancestry and narrowing
      boundaries: the registry it rebuilds satisfies the lineage invariant. */
  lemma AcceptedLogsAreSound(w: World, root: string, log: seq<Receipt>)
    requires Recover(FRESH, w, root, log).1.Ok?
    ensures AncestryOk(Recover(FRESH, w, root, log).0.reg, w.git, root)
  {
    var reg := RecoverGives(w, root, log);
    var ordered := SortBySequence(log);
    var counted := Manager(reg, |ordered|, NextGenerated(ordered), false);
    var ids := SortedIds(reg.lineages.Keys);
    SortedIdsMembers(reg.lineages.Keys);
    SweepReplays(counted, w, root, ids, map[]);
    ReplayKeepsAncestry(NO_LINEAGES, w.git, root, ordered);
    ReplayKeepsAncestry(reg, w.git, root, Sweep(counted, w, ids, map[]).1);
  }

  /** A worktree that is what its lineage left. */
  predicate Intact(s: LineageState, site: Site) {
    site == AddedSite(s.path, s.branch, s.head)
  }

  lemma {:induction false} IntactSweep(m: Manager, w: World, root: string, ids: seq<Id>, claimed: map<string, Id>)
    requires AncestryOk(m.reg, w.git, root)
    requires forall i | 0 <= i < |ids| :: ids[i] in m.reg.lineages
    requires forall i, j | 0 <= i < j < |ids| :: ids[i] != ids[j]
    requires forall id | id in m.reg.lineages && m.reg.lineages[id].quarantine.None? ::
      Intact(m.reg.lineages[id], SiteAt(w, m.reg.lineages[id].path))
    requires forall p | p in claimed :: p in m.reg.worktrees && m.reg.worktrees[p] !in ids
    ensures Sweep(m, w, ids, claimed) == (m, [])
    decreases |ids|
  {
    if ids != [] {
      var id := ids[0];
      var s := m.reg.lineages[id];
      assert OwnerOf(m.reg, id);
      forall p | p in claimed ensures m.reg.worktrees[p] !in ids[1..] { assert m.reg.worktrees[p] !in ids; }
      assert id !in ids[1..];
      if s.quarantine.Some? {
        IntactSweep(m, w, root, ids[1..], claimed);
      } else {
        IntactSweep(m, w, root, ids[1..], claimed[s.path := id]);
      }
    }
  }

  /** When nothing touched the worktrees, recovery quarantines nothing and rebuilds the
      live manager's registry, unless a failed add lies before a receipt. Failed adds
      behind the log only give their sequence numbers back. */
  lemma UndisturbedRecovery(l: Live, root: string)
    requires LiveOk(l, root)
    requires forall id | id in l.m.reg.lineages && l.m.reg.lineages[id].quarantine.None? ::
      Intact(l.m.reg.lineages[id], SiteAt(l.w, l.m.reg.lineages[id].path))
    ensures var (m, r) := Recover(FRESH, l.w, root, l.log);
      if NoGap(l.log, l.spent) then r == Ok([]) && m == Counted(l).m else r == Err(SequenceGap)
    ensures l.spent == {} ==> Recover(FRESH, l.w, root, l.log).0.nextSequence == l.m.nextSequence
  {
    RecoveryRebuilds(l, root);
    if NoGap(l.log, l.spent) {
      SortedIdsMembers(l.m.reg.lineages.Keys);
      IntactSweep(Counted(l).m, l.w, root, SortedIds(l.m.reg.lineages.Keys), map[]);
    }
    if l.spent == {} {
      NumberedIff(l.log, {}, l.m.nextSequence);
      NextIsLength(l.log, l.m.nextSequence);
    }
  }

  lemma NextIsLength(log: seq<Receipt>, next: nat)
    requires NumbersOk(log, {}, next) && Numbered(log)
    ensures next == |log|
  {
    assert !Numbers(log, |log|);
    if log != [] { assert log[|log| - 1].sequence < next; }
  }

  lemma LastIsSame(s: seq<Receipt>, t: seq<Receipt>)
    requires Numbered(s) && Ascending(t) && multiset(s) == multiset(t) && s != [] && |t| == |s|
    ensures s[|s| - 1] == t[|t| - 1]
  {
    var n := |s| - 1;
    assert s[n] in multiset(t) && t[n] in multiset(s);
    var k :| 0 <= k < |t| && t[k] == s[n];
    var m :| 0 <= m < |s| && s[m] == t[n];
    assert t[k].sequence <= t[n].sequence;
  }

  lemma SameFront(a: seq<Receipt>, b: seq<Receipt>, last: Receipt)
    requires multiset(a + [last]) == multiset(b + [last])
    ensures multiset(a) == multiset(b)
  {
    assert multiset(a) == multiset(a + [last]) - multiset{last};
    assert multiset(b) == multiset(b + [last]) - multiset{last};
  }

  /** A numbered log is the only ascending arrangement of its receipts. */
  lemma {:induction false} OneArrangement(s: seq<Receipt>, t: seq<Receipt>)
    requires Numbered(s) && Ascending(t) && multiset(s) == multiset(t) && |s| == |t|
    ensures s == t
    decreases |s|
  {
    if s != [] {
      var n := |s| - 1;
      LastIsSame(s, t);
      assert s == s[..n] + [s[n]] && t == t[..n] + [t[n]];
      SameFront(s[..n], t[..n], s[n]);
      OneArrangement(s[..n], t[..n]);
    }
  }

  /** The order in which the receipts arrive does not matter. */
  lemma RecoveryIgnoresOrder(w: World, root: string, log: seq<Receipt>, other: seq<Receipt>)
    requires multiset(log) == multiset(other) && Recover(FRESH, w, root, log).1.Ok?
    ensures Recover(FRESH, w, root, other) == Recover(FRESH, w, root, log)
  {
    var reg := RecoverGives(w, root, log);
    SameArrangement(log, other);
    SameMembers(log, other);
    var ordered := SortBySequence(other);
    var (m, q) := SweepAll(Manager(reg, |ordered|, NextGenerated(ordered), false), w);
    RecoverIs(w, root, other, ordered, reg, m, q);
  }

  lemma SameArrangement(log: seq<Receipt>, other: seq<Receipt>)
    requires multiset(log) == multiset(other) && Numbered(SortBySequence(log))
    ensures SortBySequence(other) == SortBySequence(log)
  {
    SortSorts(log);
    SortSorts(other);
    assert |multiset(log)| == |multiset(other)|;
    OneArrangement(SortBySequence(log), SortBySequence(other));
  }

  lemma SameMembers(log: seq<Receipt>, other: seq<Receipt>)
    requires multiset(log) == multiset(other) && AllConstructible(log)
    ensures AllConstructible(other)
  {
    forall i | 0 <= i < |other| ensures Constructible(other[i]) {
      assert other[i] in multiset(log);
    }
  }

  lemma {:induction false} ChainWidens(git: Git, from: Commit, to: Commit, n: nat, b: set<string>, wider: set<string>)
    requires Chain(git, from, to, n, b) && Narrower(b, wider)
    ensures Chain(git, from, to, n, wider)
    decreases n
  {
    if n > 0 {
      ChainWidens(git, git[from].parent.value, to, n - 1, b, wider);
      if wider != {} {
        forall p | p in git[from].changed ensures Within(p, wider) { NarrowerInside(p, b, wider); }
      }
    }
  }

  /** In any life of the manager, a lineage's own commits change nothing outside the
      boundary of any of its ancestors. */
  lemma CommitsStayInside(w: World, root: string, deeds: seq<Deed>, line: seq<Id>)
    requires line != [] && ParentLine(ActAll(Beginning(w), root, deeds).m.reg, line)
    ensures var end := ActAll(Beginning(w), root, deeds);
      var young, aged := end.m.reg.lineages[line[0]], end.m.reg.lineages[line[|line| - 1]];
      Reaches(end.w.git, young.head, young.parentCommit, aged.boundary)
  {
    ReplayRebuildsLife(w, root, deeds);
    var end := ActAll(Beginning(w), root, deeds);
    BoundariesOnlyNarrow(end.m.reg, end.w.git, root, line);
    var young, aged := end.m.reg.lineages[line[0]], end.m.reg.lineages[line[|line| - 1]];
    assert Reaches(end.w.git, young.head, young.parentCommit, young.boundary);
    var n: nat :| Chain(end.w.git, young.head, young.parentCommit, n, young.boundary);
    ChainWidens(end.w.git, young.head, young.parentCommit, n, young.boundary, aged.boundary);
  }

  // ------------------------------------------------------ positive confirmation

  /** The worktree is positively its lineage's: a real directory inside the root, a
      registered and clean worktree, at the recorded head, on the lineage's branch. */
  predicate Confirmed(s: LineageState, site: Site) {
    && site.Dir? && !site.linked && site.inside && site.registered && site.dirty == {}
    && site.head == Some(s.head) && site.ref == Some("refs/heads/" + s.branch)
  }

  predicate Trusted(m: Manager, id: Id) {
    id in m.reg.lineages && m.reg.lineages[id].quarantine.None?
  }

  /** Every lineage that the sweep leaves trusted is confirmed, at a real path that
      nothing before it claimed and nothing after it shares. */
  lemma {:induction false} SweepConfirms(m: Manager, w: World, ids: seq<Id>, claimed: map<string, Id>, i: nat)
    requires forall i | 0 <= i < |ids| :: ids[i] in m.reg.lineages
    requires forall i, j | 0 <= i < j < |ids| :: ids[i] != ids[j]
    requires i < |ids| && Trusted(Sweep(m, w, ids, claimed).0, ids[i])
    ensures var s := Sweep(m, w, ids, claimed).0.reg.lineages[ids[i]]; var site := SiteAt(w, s.path);
      && s == m.reg.lineages[ids[i]] && Confirmed(s, site) && site.realPath !in claimed
    ensures forall j | i < j < |ids| && Trusted(Sweep(m, w, ids, claimed).0, ids[j]) ::
      var last := Sweep(m, w, ids, claimed).0;
      && ids[j] in m.reg.lineages && SiteAt(w, last.reg.lineages[ids[j]].path).Dir?
      && SiteAt(w, m.reg.lineages[ids[i]].path).Dir?
      && SiteAt(w, last.reg.lineages[ids[j]].path).realPath != SiteAt(w, m.reg.lineages[ids[i]].path).realPath
    decreases |ids|
  {
    var id, rest := ids[0], ids[1..];
    var s := m.reg.lineages[id];
    var (reason, more) := if s.quarantine.Some? then (None, claimed) else Detect(s, id, SiteAt(w, s.path), claimed);
    var next := if reason.None? then m else Quarantine(m, id, reason.value).0;
    SweepElsewhere(next, w, rest, more, id);
    assert Sweep(m, w, ids, claimed).0 == Sweep(next, w, rest, more).0;
    if i > 0 {
      assert rest[i - 1] == ids[i];
      SweepConfirms(next, w, rest, more, i - 1);
      forall j | i < j < |ids| ensures rest[j - 1] == ids[j] {
      }
    } else {
      forall j | 0 < j < |ids| && Trusted(Sweep(m, w, ids, claimed).0, ids[j])
        ensures var last := Sweep(m, w, ids, claimed).0;
          SiteAt(w, last.reg.lineages[ids[j]].path).Dir?
          && SiteAt(w, last.reg.lineages[ids[j]].path).realPath != SiteAt(w, s.path).realPath
      {
        assert rest[j - 1] == ids[j];
        SweepConfirms(next, w, rest, more, j - 1);
      }
    }
  }

  /** After any recovery, whatever the log and the worktrees, every lineage is either
      quarantined or positively confirmed. */
  lemma RecoveredAreConfirmed(w: World, root: string, log: seq<Receipt>, id: Id)
    requires Recover(FRESH, w, root, log).1.Ok? && id in Recover(FRESH, w, root, log).0.reg.lineages
    ensures var s := Recover(FRESH, w, root, log).0.reg.lineages[id];
      s.quarantine.Some? || Confirmed(s, SiteAt(w, s.path))
  {
    var reg := RecoverGives(w, root, log);
    var ordered := SortBySequence(log);
    var counted := Manager(reg, |ordered|, NextGenerated(ordered), false);
    var ids := SortedIds(reg.lineages.Keys);
    SortedIdsMembers(reg.lineages.Keys);
    SortedIdsComplete(reg.lineages.Keys);
    SweepElsewhere(counted, w, ids, map[], id);
    assert id in ids;
    var i :| 0 <= i < |ids| && ids[i] == id;
    if Trusted(SweepAll(counted, w).0, id) { SweepConfirms(counted, w, ids, map[], i); }
  }

  lemma {:induction false} SortedIdsComplete(ids: set<Id>)
    ensures forall e | e in ids :: e in SortedIds(ids)
    decreases ids
  {
    if ids != {} { SortedIdsComplete(ids - {LeastOf(ids)}); }
  }
}
