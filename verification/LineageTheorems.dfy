/** The live operations and the replay of their receipts are one transition system. */
module LineageTheorems {
  import opened Boundaries
  import opened LineageAncestry
  import opened LineageRecovery
  import opened Lineages
  import opened Wrappers

  /** A manager, the world around it, the receipts it has handed out, and the sequence
      numbers that failed worktree adds have spent since the last recovery. */
  datatype Live = Live(m: Manager, w: World, log: seq<Receipt>, spent: set<nat>)

  datatype Deed =
    | Creates(a: CreateArgs, added: bool)
    | Commits(c: CommitArgs, g: GitAnswer)
    | Disturbs(path: string, site: Site)
    | Imports(commit: Commit, info: CommitInfo)
    | Restarts

  function Logged(log: seq<Receipt>, r: Result<Receipt, Error>): seq<Receipt> {
    if r.Ok? then log + [r.value] else log
  }

  /** Other processes may disturb any worktree and add commits; a restart recovers a
      fresh manager from the log, and a manager that fails to recover is not used. */
  ghost function Act(l: Live, root: string, d: Deed): Live {
    match d
    case Creates(a, added) =>
      var (m, w, r) := Create(l.m, l.w, root, a, added);
      Live(m, w, Logged(l.log, r), if r == Err(WorktreeAddFailed) then l.spent + {l.m.nextSequence} else l.spent)
    case Commits(c, g) =>
      if c.kind != Checkpointed && c.kind != ChildCommitted then l
      else
        var (m, w, r) := CommitWorktree(l.m, l.w, c, g);
        l.(m := m, w := w, log := Logged(l.log, r))
    case Disturbs(path, site) => l.(w := l.w.(sites := l.w.sites[path := site]))
    case Imports(commit, info) =>
      if Fits(l.w.git, commit, info) then l.(w := l.w.(git := l.w.git[commit := info])) else l
    case Restarts =>
      var (m, r) := Recover(FRESH, l.w, root, l.log);
      if r.Ok? then Live(m, l.w, l.log + r.value, {}) else l.(m := l.m.(poisoned := true))
  }

  ghost function ActAll(l: Live, root: string, deeds: seq<Deed>): Live
    decreases |deeds|
  {
    if deeds == [] then l else ActAll(Act(l, root, deeds[0]), root, deeds[1..])
  }

  // ---------------------------------------------------------------- invariant

  /** The numbers spent so far are exactly those of the log and of the failed adds. */
  ghost predicate NumbersOk(log: seq<Receipt>, spent: set<nat>, next: nat) {
    && (forall i, j | 0 <= i < j < |log| :: log[i].sequence < log[j].sequence)
    && (forall i | 0 <= i < |log| :: log[i].sequence < next && log[i].sequence !in spent)
    && (forall n | n in spent :: n < next)
    && (forall n: nat | n < next && n !in spent :: Numbers(log, n))
  }

  ghost predicate Numbers(log: seq<Receipt>, n: nat) {
    exists i | 0 <= i < |log| :: log[i].sequence == n
  }

  ghost predicate IdsOk(log: seq<Receipt>, next: nat) {
    && (forall i | 0 <= i < |log| :: log[i].id.Generated? && log[i].id.n < next)
    && (forall i, j | 0 <= i < j < |log| :: log[i].id.n < log[j].id.n)
  }

  /** Every commit that a lineage made changed only paths inside its boundary. */
  ghost predicate CommitsInside(reg: Registry, git: Git) {
    forall id | id in reg.lineages ::
      Reaches(git, reg.lineages[id].head, reg.lineages[id].parentCommit, reg.lineages[id].boundary)
  }

  ghost predicate Replays(l: Live, root: string) {
    AllConstructible(l.log) && Replay(NO_LINEAGES, l.w.git, root, l.log) == (l.m.reg, None)
  }

  ghost predicate LiveOk(l: Live, root: string) {
    && Replays(l, root)
    && AncestryOk(l.m.reg, l.w.git, root)
    && CommitsInside(l.m.reg, l.w.git)
    && NumbersOk(l.log, l.spent, l.m.nextSequence)
    && IdsOk(l.log, l.m.nextReceipt)
  }

  lemma GitGrows(l: Live, root: string, w: World)
    requires LiveOk(l, root) && Grown(l.w.git, w.git)
    ensures LiveOk(l.(w := w), root)
  {
    ReplayGrows(NO_LINEAGES, l.w.git, w.git, root, l.log);
    AncestryGrows(l.m.reg, l.w.git, w.git, root);
    forall id | id in l.m.reg.lineages
      ensures Reaches(w.git, l.m.reg.lineages[id].head, l.m.reg.lineages[id].parentCommit,
                      l.m.reg.lineages[id].boundary)
    {
      var s := l.m.reg.lineages[id];
      ReachesGrows(l.w.git, w.git, s.head, s.parentCommit, s.boundary);
    }
  }

  /** One more receipt that replay accepts with the live result. */
  lemma OneMore(l: Live, root: string, reg: Registry, r: Receipt)
    requires Replays(l, root) && Constructible(r) && ApplyReceipt(l.m.reg, l.w.git, root, r) == Ok(reg)
    ensures AllConstructible(l.log + [r]) && Replay(NO_LINEAGES, l.w.git, root, l.log + [r]) == (reg, None)
  {
    ReplayAppend(NO_LINEAGES, l.w.git, root, l.log, [r]);
    assert [r][1..] == [];
    assert Replay(l.m.reg, l.w.git, root, [r]) == Replay(reg, l.w.git, root, []);
  }

  lemma NumberAdded(log: seq<Receipt>, spent: set<nat>, next: nat, r: Receipt)
    requires NumbersOk(log, spent, next) && r.sequence == next
    ensures NumbersOk(log + [r], spent, next + 1)
  {
    var more := log + [r];
    forall n: nat | n < next + 1 && n !in spent ensures Numbers(more, n) {
      if n == next { assert more[|log|].sequence == n; }
      else {
        assert Numbers(log, n);
        var i :| 0 <= i < |log| && log[i].sequence == n;
        assert more[i].sequence == n;
      }
    }
  }

  lemma IdAdded(log: seq<Receipt>, next: nat, r: Receipt)
    requires IdsOk(log, next) && r.id == Generated(next)
    ensures IdsOk(log + [r], next + 1)
  {
  }

  /** The live manager after it has handed out one receipt. */
  function Extended(l: Live, reg: Registry, r: Receipt, sites: map<string, Site>): Live {
    Live(Manager(reg, l.m.nextSequence + 1, l.m.nextReceipt + 1, l.m.poisoned), World(l.w.git, sites), l.log + [r],
         l.spent)
  }

  /** Handing out one receipt whose replay gives the new registry. */
  lemma Extends(l: Live, root: string, reg: Registry, r: Receipt, sites: map<string, Site>)
    requires LiveOk(l, root) && Constructible(r) && ApplyReceipt(l.m.reg, l.w.git, root, r) == Ok(reg)
    requires r.sequence == l.m.nextSequence && r.id == Generated(l.m.nextReceipt)
    requires CommitsInside(reg, l.w.git)
    ensures LiveOk(Extended(l, reg, r, sites), root)
  {
    OneMore(l, root, reg, r);
    NumberAdded(l.log, l.spent, l.m.nextSequence, r);
    IdAdded(l.log, l.m.nextReceipt, r);
    ApplyKeepsAncestry(l.m.reg, l.w.git, root, r);
  }

  lemma NumberSpent(log: seq<Receipt>, spent: set<nat>, next: nat)
    requires NumbersOk(log, spent, next)
    ensures NumbersOk(log, spent + {next}, next + 1)
  {
  }

  // ------------------------------------------------------------ live = replay

  /** What create does to its registry is what replay does with its receipt. */
  lemma CreateReplays(m: Manager, git: Git, root: string, a: CreateArgs)
    requires AncestryOk(m.reg, git, root) && CreateCheck(m, git, root, a).Ok?
    ensures var from := CreateCheck(m, git, root, a).value;
      var r := CreatedReceipt(m.nextReceipt, root, a, from, git[from.commit].tree, m.nextSequence);
      && from.commit in git && Constructible(r)
      && ApplyReceipt(m.reg, git, root, r) == Ok(Register(m.reg, r))
  {
    var from := CreateCheck(m, git, root, a).value;
    var r := CreatedReceipt(m.nextReceipt, root, a, from, git[from.commit].tree, m.nextSequence);
    RootFits(m.reg, a, r);
  }

  /** The parent checks of replay hold of the root that create resolved. */
  lemma RootFits(reg: Registry, a: CreateArgs, r: Receipt)
    requires RootOf(reg, a).Ok? && r.parent == a.parent && r.campaign == a.campaign
    requires r.parentCommit == Some(RootOf(reg, a).value.commit) && r.boundary == RootOf(reg, a).value.boundary
    ensures ParentError(reg, r).None?
  {
    if a.parent.Some? { NarrowerReflexive(reg.lineages[a.parent.value].boundary); }
  }

  /** The guards on branch and worktree names never refuse a live creation. */
  lemma NamesNeverRefuse(l: Live, root: string, a: CreateArgs)
    requires LiveOk(l, root)
    ensures CreateCheck(l.m, l.w.git, root, a) != Err(BranchInUse)
    ensures CreateCheck(l.m, l.w.git, root, a) != Err(PathInUse)
  {
    if Identifier(a.campaign) && Identifier(a.lineage) && a.lineage !in l.m.reg.lineages {
      FreshNamesAreFree(l.m.reg, l.w.git, root, a.campaign, a.lineage);
    }
  }

  lemma CreateKeeps(l: Live, root: string, a: CreateArgs, added: bool)
    requires LiveOk(l, root)
    ensures LiveOk(Act(l, root, Creates(a, added)), root)
  {
    if CreateCheck(l.m, l.w.git, root, a).Ok? {
      if added {
        AddKeeps(l, root, a);
      } else {
        AddFails(l, root);
        FailedAddActs(l, root, a);
      }
    } else {
      RefusedCreateActs(l, root, a, added);
    }
  }

  lemma RefusedCreateActs(l: Live, root: string, a: CreateArgs, added: bool)
    requires CreateCheck(l.m, l.w.git, root, a).Err?
    ensures Act(l, root, Creates(a, added)) == l
  {
    NotAddFailed(l.m, l.w.git, root, a);
  }

  lemma FailedAddActs(l: Live, root: string, a: CreateArgs)
    requires CreateCheck(l.m, l.w.git, root, a).Ok?
    ensures Act(l, root, Creates(a, false)) ==
      l.(m := l.m.(nextSequence := l.m.nextSequence + 1, nextReceipt := l.m.nextReceipt + 1),
         spent := l.spent + {l.m.nextSequence})
  {
  }

  /** A failed `git worktree add` has used up an id and a sequence number. */
  lemma AddFails(l: Live, root: string)
    requires LiveOk(l, root)
    ensures LiveOk(l.(m := l.m.(nextSequence := l.m.nextSequence + 1, nextReceipt := l.m.nextReceipt + 1),
                      spent := l.spent + {l.m.nextSequence}), root)
  {
    NumberSpent(l.log, l.spent, l.m.nextSequence);
  }

  /** The receipt of a successful creation. */
  function ReceiptOfAdd(l: Live, root: string, a: CreateArgs): Receipt
    requires CreateCheck(l.m, l.w.git, root, a).Ok? && CreateCheck(l.m, l.w.git, root, a).value.commit in l.w.git
  {
    var from := CreateCheck(l.m, l.w.git, root, a).value;
    CreatedReceipt(l.m.nextReceipt, root, a, from, l.w.git[from.commit].tree, l.m.nextSequence)
  }

  lemma AddActs(l: Live, root: string, a: CreateArgs)
    requires CreateCheck(l.m, l.w.git, root, a).Ok? && CreateCheck(l.m, l.w.git, root, a).value.commit in l.w.git
    ensures var r := ReceiptOfAdd(l, root, a); var sites := Create(l.m, l.w, root, a, true).1.sites;
      Act(l, root, Creates(a, true)) == Extended(l, Register(l.m.reg, r), r, sites)
  {
  }

  lemma AddKeeps(l: Live, root: string, a: CreateArgs)
    requires LiveOk(l, root) && CreateCheck(l.m, l.w.git, root, a).Ok?
    ensures LiveOk(Act(l, root, Creates(a, true)), root)
  {
    CreateReplays(l.m, l.w.git, root, a);
    var r := ReceiptOfAdd(l, root, a);
    RegisterInside(l.m.reg, l.w.git, r);
    AddActs(l, root, a);
    Extends(l, root, Register(l.m.reg, r), r, Create(l.m, l.w, root, a, true).1.sites);
  }

  lemma RegisterInside(reg: Registry, git: Git, r: Receipt)
    requires CommitsInside(reg, git) && r.parentCommit.Some? && r.tree.Some?
    ensures CommitsInside(Register(reg, r), git)
  {
    ReachesSelf(git, r.parentCommit.value, r.boundary);
  }

  /** The same for a commit. */
  lemma CommitReplays(reg: Registry, git: Git, root: string, id: nat, a: CommitArgs, g: GitAnswer, sequence: nat)
    requires a.lineage in reg.lineages && (a.kind == Checkpointed || a.kind == ChildCommitted)
    requires g.commit in git && git[g.commit].parent == Some(reg.lineages[a.lineage].head)
      && git[g.commit].tree == g.tree
    ensures var s := reg.lineages[a.lineage]; var r := CommittedReceipt(id, s, a, g, sequence);
      && Constructible(r)
      && ApplyReceipt(reg, git, root, r) ==
         Ok(reg.(lineages := reg.lineages[a.lineage := Advanced(s, g.commit, g.tree, sequence)]))
  {
  }

  lemma CommitShape(m: Manager, w: World, c: CommitArgs, g: GitAnswer)
    ensures var (after, moved, r) := CommitWorktree(m, w, c, g);
      && Grown(w.git, moved.git)
      && (r.Err? ==> after == m || after == m.(nextReceipt := m.nextReceipt + 1))
      && (r.Ok? ==>
            && c.lineage in m.reg.lineages
            && var s := m.reg.lineages[c.lineage];
            && g.commit in moved.git && moved.git[g.commit] == CommitInfo(Some(s.head), g.tree, g.staged)
            && AllInside(g.staged, s.boundary)
            && after.reg ==
               m.reg.(lineages := m.reg.lineages[c.lineage := Advanced(s, g.commit, g.tree, m.nextSequence)])
            && after == Manager(after.reg, m.nextSequence + 1, m.nextReceipt + 1, m.poisoned)
            && r.value == CommittedReceipt(m.nextReceipt, s, c, g, m.nextSequence))
  {
  }

  lemma CommitKeeps(l: Live, root: string, c: CommitArgs, g: GitAnswer)
    requires LiveOk(l, root) && (c.kind == Checkpointed || c.kind == ChildCommitted)
    ensures LiveOk(Act(l, root, Commits(c, g)), root)
  {
    CommitActs(l, root, c, g);
    if CommitWorktree(l.m, l.w, c, g).2.Ok? { CommitOkKeeps(l, root, c, g); } else { CommitErrKeeps(l, root, c, g); }
  }

  lemma CommitOkKeeps(l: Live, root: string, c: CommitArgs, g: GitAnswer)
    requires LiveOk(l, root) && (c.kind == Checkpointed || c.kind == ChildCommitted)
    requires CommitWorktree(l.m, l.w, c, g).2.Ok?
    ensures var (m, w, r) := CommitWorktree(l.m, l.w, c, g); LiveOk(Live(m, w, l.log + [r.value], l.spent), root)
  {
    CommitShape(l.m, l.w, c, g);
    var w := CommitWorktree(l.m, l.w, c, g).1;
    GitGrows(l, root, w);
    CommitAdvances(l.(w := w), root, c, g);
    CommitIsAdvance(l, c, g);
  }

  /** The live manager after a commit on the lineage's worktree. */
  function AdvancedLive(l: Live, c: CommitArgs, g: GitAnswer): Live
    requires c.lineage in l.m.reg.lineages
  {
    var s, n := l.m.reg.lineages[c.lineage], l.m.nextSequence;
    Extended(l, l.m.reg.(lineages := l.m.reg.lineages[c.lineage := Advanced(s, g.commit, g.tree, n)]),
             CommittedReceipt(l.m.nextReceipt, s, c, g, n), l.w.sites)
  }

  lemma CommitIsAdvance(l: Live, c: CommitArgs, g: GitAnswer)
    requires CommitWorktree(l.m, l.w, c, g).2.Ok?
    ensures var (m, w, r) := CommitWorktree(l.m, l.w, c, g);
      c.lineage in l.m.reg.lineages && Live(m, w, l.log + [r.value], l.spent) == AdvancedLive(l.(w := w), c, g)
  {
    CommitShape(l.m, l.w, c, g);
  }

  lemma CommitErrKeeps(l: Live, root: string, c: CommitArgs, g: GitAnswer)
    requires LiveOk(l, root) && CommitWorktree(l.m, l.w, c, g).2.Err?
    ensures var (m, w, r) := CommitWorktree(l.m, l.w, c, g); LiveOk(Live(m, w, l.log, l.spent), root)
  {
    CommitShape(l.m, l.w, c, g);
    var w := CommitWorktree(l.m, l.w, c, g).1;
    GitGrows(l, root, w);
    IdSpent(l.(w := w), root);
  }

  lemma CommitActs(l: Live, root: string, c: CommitArgs, g: GitAnswer)
    requires c.kind == Checkpointed || c.kind == ChildCommitted
    ensures var (m, w, r) := CommitWorktree(l.m, l.w, c, g);
      Act(l, root, Commits(c, g)) == Live(m, w, Logged(l.log, r), l.spent)
  {
  }

  lemma IdSpent(l: Live, root: string)
    requires LiveOk(l, root)
    ensures LiveOk(l.(m := l.m.(nextReceipt := l.m.nextReceipt + 1)), root)
  {
  }

  lemma CommitAdvances(l: Live, root: string, c: CommitArgs, g: GitAnswer)
    requires LiveOk(l, root) && c.lineage in l.m.reg.lineages && (c.kind == Checkpointed || c.kind == ChildCommitted)
    requires var s := l.m.reg.lineages[c.lineage];
      && g.commit in l.w.git && l.w.git[g.commit] == CommitInfo(Some(s.head), g.tree, g.staged)
      && AllInside(g.staged, s.boundary)
    ensures LiveOk(AdvancedLive(l, c, g), root)
  {
    var s, n := l.m.reg.lineages[c.lineage], l.m.nextSequence;
    var r := CommittedReceipt(l.m.nextReceipt, s, c, g, n);
    var reg := l.m.reg.(lineages := l.m.reg.lineages[c.lineage := Advanced(s, g.commit, g.tree, n)]);
    CommitReplays(l.m.reg, l.w.git, root, l.m.nextReceipt, c, g, n);
    AdvanceInside(l.m.reg, l.w.git, c.lineage, g, n);
    Extends(l, root, reg, r, l.w.sites);
  }

  lemma AdvanceInside(reg: Registry, git: Git, id: Id, g: GitAnswer, n: nat)
    requires CommitsInside(reg, git) && id in reg.lineages
    requires var s := reg.lineages[id];
      g.commit in git && git[g.commit] == CommitInfo(Some(s.head), g.tree, g.staged) && AllInside(g.staged, s.boundary)
    ensures CommitsInside(reg.(lineages := reg.lineages[id := Advanced(reg.lineages[id], g.commit, g.tree, n)]), git)
  {
    var s := reg.lineages[id];
    ReachesStep(git, g.commit, s.head, s.parentCommit, s.boundary);
  }

  // ------------------------------------------------------------------ recovery

  lemma {:induction false} NoRepeats(s: seq<Receipt>, sequences: set<nat>, ids: set<ReceiptId>)
    requires forall i | 0 <= i < |s| :: s[i].sequence !in sequences && s[i].id !in ids
    requires forall i, j | 0 <= i < j < |s| :: s[i].sequence != s[j].sequence && s[i].id != s[j].id
    ensures RepeatError(s, sequences, ids).None?
    decreases |s|
  {
    if s != [] { NoRepeats(s[1..], sequences + {s[0].sequence}, ids + {s[0].id}); }
  }

  lemma {:induction false} RepeatsRefused(s: seq<Receipt>, sequences: set<nat>, ids: set<ReceiptId>)
    requires RepeatError(s, sequences, ids).None?
    ensures forall i | 0 <= i < |s| :: s[i].sequence !in sequences && s[i].id !in ids
    ensures forall i, j | 0 <= i < j < |s| :: s[i].sequence != s[j].sequence && s[i].id != s[j].id
    decreases |s|
  {
    if s != [] {
      RepeatsRefused(s[1..], sequences + {s[0].sequence}, ids + {s[0].id});
      assert forall i | 1 <= i < |s| :: s[i] == s[1..][i - 1];
    }
  }

  /** With every smaller number in the log, ascending numbers count from zero. */
  lemma {:induction false} Counts(log: seq<Receipt>, i: nat)
    requires i < |log|
    requires forall i, j | 0 <= i < j < |log| :: log[i].sequence < log[j].sequence
    requires forall n: nat | n <= log[|log| - 1].sequence :: Numbers(log, n)
    ensures log[i].sequence == i
    decreases i
  {
    forall k | 0 <= k < i ensures log[k].sequence == k { Counts(log, k); }
    assert i > 0 ==> log[i - 1].sequence < log[i].sequence;
    assert log[i].sequence <= log[|log| - 1].sequence;
    assert Numbers(log, i);
    var j :| 0 <= j < |log| && log[j].sequence == i;
    assert j > i ==> log[i].sequence < log[j].sequence;
  }

  /** No failed worktree add lies before one of the receipts. */
  ghost predicate NoGap(log: seq<Receipt>, spent: set<nat>) {
    forall n, i | n in spent && 0 <= i < |log| :: log[i].sequence < n
  }

  lemma NumberedIff(log: seq<Receipt>, spent: set<nat>, next: nat)
    requires NumbersOk(log, spent, next)
    ensures Numbered(log) <==> NoGap(log, spent)
  {
    if Numbered(log) {
      forall k | 0 <= k < |log| ensures k !in spent {
        assert log[k].sequence == k;
      }
    }
    if NoGap(log, spent) {
      forall i | 0 <= i < |log| ensures log[i].sequence == i {
        Counts(log, i);
      }
    }
  }

  /** The order checks accept a live log if and only if no failed worktree add lies
      before one of its receipts. */
  lemma OrderAcceptsIff(log: seq<Receipt>, spent: set<nat>, next: nat, ids: nat)
    requires NumbersOk(log, spent, next) && IdsOk(log, ids)
    ensures SortBySequence(log) == log
    ensures OrderError(log) == if NoGap(log, spent) then None else Some(SequenceGap)
  {
    SortedAlready(log);
    NoRepeats(log, {}, {});
    NumberedIff(log, spent, next);
  }

  lemma RecoverSorted(w: World, root: string, log: seq<Receipt>, reg: Registry)
    requires AllConstructible(log) && SortBySequence(log) == log && Replay(NO_LINEAGES, w.git, root, log) == (reg, None)
    ensures OrderError(log).Some? ==> Recover(FRESH, w, root, log) == (FRESH, Err(OrderError(log).value))
    ensures OrderError(log).None? ==>
      var (m, q) := SweepAll(Manager(reg, |log|, NextGenerated(log), false), w);
      Recover(FRESH, w, root, log) == (m, Ok(q))
  {
  }

  /** A fresh manager recovers the live log, with no replay error reachable, exactly when
      no failed worktree add precedes a later receipt. Its registry before the worktree
      sweep is the live registry: same heads, trees, sequences and boundaries. */
  lemma RecoveryRebuilds(l: Live, root: string)
    requires LiveOk(l, root)
    ensures var (m, r) := Recover(FRESH, l.w, root, l.log);
      && (r.Ok? <==> NoGap(l.log, l.spent))
      && (r.Err? ==> r == Err(SequenceGap) && m == FRESH)
      && (r.Ok? ==> (m, r.value) == SweepAll(Counted(l).m, l.w))
  {
    OrderAcceptsIff(l.log, l.spent, l.m.nextSequence, l.m.nextReceipt);
    RecoverSorted(l.w, root, l.log, l.m.reg);
  }

  lemma QuarantineReplays(m: Manager, git: Git, root: string, id: Id, reason: string)
    requires id in m.reg.lineages
    ensures var (next, r) := Quarantine(m, id, reason);
      Constructible(r) && ApplyReceipt(m.reg, git, root, r) == Ok(next.reg) && r.sequence == m.nextSequence
  {
  }

  function QuarantineLive(l: Live, id: Id, reason: string): Live
    requires id in l.m.reg.lineages
  {
    var (next, r) := Quarantine(l.m, id, reason);
    l.(m := next, log := l.log + [r])
  }

  /** The sweep as a run of live quarantines. */
  function SweepLive(l: Live, ids: seq<Id>, claimed: map<string, Id>): Live
    requires forall i | 0 <= i < |ids| :: ids[i] in l.m.reg.lineages
    decreases |ids|
  {
    if ids == [] then l
    else
      var id := ids[0];
      var s := l.m.reg.lineages[id];
      if s.quarantine.Some? then SweepLive(l, ids[1..], claimed)
      else
        var (reason, more) := Detect(s, id, SiteAt(l.w, s.path), claimed);
        SweepLive(if reason.None? then l else QuarantineLive(l, id, reason.value), ids[1..], more)
  }

  lemma {:induction false} SweepLiveIs(l: Live, ids: seq<Id>, claimed: map<string, Id>)
    requires forall i | 0 <= i < |ids| :: ids[i] in l.m.reg.lineages
    ensures var (m, q) := Sweep(l.m, l.w, ids, claimed); SweepLive(l, ids, claimed) == l.(m := m, log := l.log + q)
    decreases |ids|
  {
    if ids == [] {
      assert l.log + [] == l.log;
    } else {
      var id := ids[0];
      var s := l.m.reg.lineages[id];
      if s.quarantine.Some? {
        SweepLiveIs(l, ids[1..], claimed);
      } else {
        var (reason, more) := Detect(s, id, SiteAt(l.w, s.path), claimed);
        if reason.None? {
          SweepLiveIs(l, ids[1..], more);
        } else {
          var (next, r) := Quarantine(l.m, id, reason.value);
          SweepLiveIs(QuarantineLive(l, id, reason.value), ids[1..], more);
          var q := Sweep(next, l.w, ids[1..], more).1;
          assert l.log + ([r] + q) == (l.log + [r]) + q;
        }
      }
    }
  }

  /** The sweep is a live operation like the others: its receipts extend the log. */
  lemma {:induction false} SweepKeeps(l: Live, root: string, ids: seq<Id>, claimed: map<string, Id>)
    requires LiveOk(l, root) && forall i | 0 <= i < |ids| :: ids[i] in l.m.reg.lineages
    ensures LiveOk(SweepLive(l, ids, claimed), root)
    decreases |ids|
  {
    if ids != [] {
      var id := ids[0];
      var s := l.m.reg.lineages[id];
      if s.quarantine.Some? {
        SweepKeeps(l, root, ids[1..], claimed);
      } else {
        var (reason, more) := Detect(s, id, SiteAt(l.w, s.path), claimed);
        if reason.None? {
          SweepKeeps(l, root, ids[1..], more);
        } else {
          QuarantineKeeps(l, root, id, reason.value);
          SweepKeeps(QuarantineLive(l, id, reason.value), root, ids[1..], more);
        }
      }
    }
  }

  lemma QuarantineKeeps(l: Live, root: string, id: Id, reason: string)
    requires LiveOk(l, root) && id in l.m.reg.lineages
    ensures LiveOk(QuarantineLive(l, id, reason), root)
  {
    var (next, r) := Quarantine(l.m, id, reason);
    QuarantineReplays(l.m, l.w.git, root, id, reason);
    QuarantineInside(l.m, l.w.git, id, reason);
    QuarantineIs(l, id, reason);
    Extends(l, root, next.reg, r, l.w.sites);
  }

  lemma QuarantineIs(l: Live, id: Id, reason: string)
    requires id in l.m.reg.lineages
    ensures var (next, r) := Quarantine(l.m, id, reason);
      QuarantineLive(l, id, reason) == Extended(l, next.reg, r, l.w.sites)
  {
  }

  lemma QuarantineInside(m: Manager, git: Git, id: Id, reason: string)
    requires CommitsInside(m.reg, git) && id in m.reg.lineages
    ensures CommitsInside(Quarantine(m, id, reason).0.reg, git)
  {
  }

  lemma {:induction false} NextGeneratedBounds(log: seq<Receipt>)
    ensures forall i | 0 <= i < |log| && log[i].id.Generated? :: log[i].id.n < NextGenerated(log)
    decreases |log|
  {
    if log != [] {
      NextGeneratedBounds(log[..|log| - 1]);
      forall i | 0 <= i < |log| && log[i].id.Generated? ensures log[i].id.n < NextGenerated(log) {
        if i < |log| - 1 { assert log[..|log| - 1][i] == log[i]; }
      }
    }
  }

  /** Recovery restarts the counters behind the log. */
  lemma CountedKeeps(l: Live, root: string)
    requires LiveOk(l, root) && Numbered(l.log)
    ensures LiveOk(Counted(l), root)
  {
    NextGeneratedBounds(l.log);
    NumberedCounts(l.log);
  }

  lemma RestartKeeps(l: Live, root: string)
    requires LiveOk(l, root)
    ensures LiveOk(Act(l, root, Restarts), root)
  {
    if OrderError(l.log).None? { RestartSwept(l, root); } else { RestartRefused(l, root); }
  }

  lemma RestartSwept(l: Live, root: string)
    requires LiveOk(l, root) && OrderError(l.log).None?
    ensures LiveOk(Act(l, root, Restarts), root)
  {
    var ids := SortedIds(l.m.reg.lineages.Keys);
    SortedIdsMembers(l.m.reg.lineages.Keys);
    SweptKeeps(l, root, ids);
    RestartSweeps(l, root, ids);
  }

  lemma SweptKeeps(l: Live, root: string, ids: seq<Id>)
    requires LiveOk(l, root) && OrderError(l.log).None? && forall i | 0 <= i < |ids| :: ids[i] in l.m.reg.lineages
    ensures LiveOk(SweepLive(Counted(l), ids, map[]), root)
  {
    OrderNumbers(l.log);
    CountedKeeps(l, root);
    SweepKeeps(Counted(l), root, ids, map[]);
  }

  lemma OrderNumbers(log: seq<Receipt>)
    requires OrderError(log).None?
    ensures Numbered(log)
  {
  }

  lemma RestartRefused(l: Live, root: string)
    requires LiveOk(l, root) && OrderError(l.log).Some?
    ensures LiveOk(Act(l, root, Restarts), root)
  {
    PoisonKeeps(l, root);
    RecoveryFails(l, root);
    RestartPoisons(l, root);
  }

  lemma RestartSweeps(l: Live, root: string, ids: seq<Id>)
    requires LiveOk(l, root) && OrderError(l.log).None?
    requires ids == SortedIds(l.m.reg.lineages.Keys) && forall i | 0 <= i < |ids| :: ids[i] in l.m.reg.lineages
    ensures Act(l, root, Restarts) == SweepLive(Counted(l), ids, map[])
  {
    RecoveryRebuilds(l, root);
    OrderAcceptsIff(l.log, l.spent, l.m.nextSequence, l.m.nextReceipt);
    RestartIs(l, root, ids);
  }

  lemma RecoveryFails(l: Live, root: string)
    requires LiveOk(l, root) && OrderError(l.log).Some?
    ensures Recover(FRESH, l.w, root, l.log).1.Err?
  {
    RecoveryRebuilds(l, root);
    OrderAcceptsIff(l.log, l.spent, l.m.nextSequence, l.m.nextReceipt);
  }

  lemma RestartPoisons(l: Live, root: string)
    requires Recover(FRESH, l.w, root, l.log).1.Err?
    ensures Act(l, root, Restarts) == l.(m := l.m.(poisoned := true))
  {
  }

  function Counted(l: Live): Live {
    Live(Manager(l.m.reg, |l.log|, NextGenerated(l.log), false), l.w, l.log, {})
  }

  lemma RestartActs(l: Live, root: string, m: Manager, q: seq<Receipt>)
    requires Recover(FRESH, l.w, root, l.log) == (m, Ok(q))
    ensures Act(l, root, Restarts) == Live(m, l.w, l.log + q, {})
  {
  }

  lemma RestartIs(l: Live, root: string, ids: seq<Id>)
    requires forall i | 0 <= i < |ids| :: ids[i] in l.m.reg.lineages
    requires var (m, r) := Recover(FRESH, l.w, root, l.log);
      r.Ok? && (m, r.value) == Sweep(Counted(l).m, l.w, ids, map[])
    ensures Act(l, root, Restarts) == SweepLive(Counted(l), ids, map[])
  {
    var (m, q) := Sweep(Counted(l).m, l.w, ids, map[]);
    RestartActs(l, root, m, q);
    SweepLiveIs(Counted(l), ids, map[]);
  }

  lemma PoisonKeeps(l: Live, root: string)
    requires LiveOk(l, root)
    ensures LiveOk(l.(m := l.m.(poisoned := true)), root)
  {
  }

  lemma NumberedCounts(log: seq<Receipt>)
    requires Numbered(log)
    ensures NumbersOk(log, {}, |log|)
  {
    forall n: nat | n < |log| ensures Numbers(log, n) {
      assert log[n].sequence == n;
    }
  }

  lemma ActKeeps(l: Live, root: string, d: Deed)
    requires LiveOk(l, root)
    ensures LiveOk(Act(l, root, d), root)
  {
    match d
    case Creates(a, added) => CreateKeeps(l, root, a, added);
    case Commits(c, g) => if c.kind == Checkpointed || c.kind == ChildCommitted { CommitKeeps(l, root, c, g); }
    case Disturbs(path, site) => GitGrows(l, root, l.w.(sites := l.w.sites[path := site]));
    case Imports(commit, info) =>
      if Fits(l.w.git, commit, info) { GitGrows(l, root, l.w.(git := l.w.git[commit := info])); }
    case Restarts => RestartKeeps(l, root);
  }

  lemma {:induction false} LivesKeep(l: Live, root: string, deeds: seq<Deed>)
    requires LiveOk(l, root)
    ensures LiveOk(ActAll(l, root, deeds), root)
    decreases |deeds|
  {
    if deeds != [] {
      ActKeeps(l, root, deeds[0]);
      LivesKeep(Act(l, root, deeds[0]), root, deeds[1..]);
    }
  }

  function Beginning(w: World): Live {
    Live(FRESH, w, [], {})
  }

  /** Replaying the receipts of any life of the manager, through disturbed worktrees,
      failed operations and restarts, rebuilds exactly the live registry: every lineage's
      head, tree, sequence, boundary and quarantine. */
  lemma ReplayRebuildsLife(w: World, root: string, deeds: seq<Deed>)
    ensures LiveOk(ActAll(Beginning(w), root, deeds), root)
  {
    LivesKeep(Beginning(w), root, deeds);
  }

  /** A life in which every worktree add succeeds can always be recovered. */
  lemma {:induction false} NoFailuresNoGaps(l: Live, root: string, deeds: seq<Deed>)
    requires LiveOk(l, root) && l.spent == {}
    requires forall i | 0 <= i < |deeds| && deeds[i].Creates? :: deeds[i].added
    ensures var end := ActAll(l, root, deeds); end.spent == {} && Recover(FRESH, end.w, root, end.log).1.Ok?
    decreases |deeds|
  {
    if deeds == [] {
      RecoveryRebuilds(l, root);
    } else {
      ActKeeps(l, root, deeds[0]);
      AddedSpendsNothing(l, root, deeds[0]);
      NoFailuresNoGaps(Act(l, root, deeds[0]), root, deeds[1..]);
    }
  }

  lemma AddedSpendsNothing(l: Live, root: string, d: Deed)
    requires l.spent == {} && (d.Creates? ==> d.added)
    ensures Act(l, root, d).spent == {}
  {
    if d.Creates? { NotAddFailed(l.m, l.w.git, root, d.a); }
  }

  lemma NotAddFailed(m: Manager, git: Git, root: string, a: CreateArgs)
    ensures CreateCheck(m, git, root, a) != Err(WorktreeAddFailed)
  {
  }

  ghost predicate Gap(l: Live, n: nat) {
    n in l.spent && exists i | 0 <= i < |l.log| :: n < l.log[i].sequence
  }

  /** Receipts are never taken out of the log, and only a recovery forgets a gap. */
  lemma LogStays(l: Live, root: string, d: Deed)
    ensures l.log <= Act(l, root, d).log
    ensures !d.Restarts? ==> l.spent <= Act(l, root, d).spent
  {
  }

  lemma GapRefused(l: Live, root: string, n: nat)
    requires LiveOk(l, root) && Gap(l, n)
    ensures Recover(FRESH, l.w, root, l.log) == (FRESH, Err(SequenceGap))
  {
    RecoveryRebuilds(l, root);
  }

  lemma GapStays(l: Live, root: string, d: Deed, n: nat)
    requires LiveOk(l, root) && Gap(l, n)
    ensures Gap(Act(l, root, d), n)
  {
    var i :| 0 <= i < |l.log| && n < l.log[i].sequence;
    if d.Restarts? {
      GapRefused(l, root, n);
      RestartPoisons(l, root);
    }
    LogStays(l, root, d);
    assert Act(l, root, d).log[i] == l.log[i];
  }

  /** The gap is permanent: once a failed add lies before a receipt of the log, no later
      recovery succeeds, whatever is done in between. */
  lemma {:induction false} GapNeverRecovers(l: Live, root: string, deeds: seq<Deed>, n: nat)
    requires LiveOk(l, root) && Gap(l, n)
    ensures var end := ActAll(l, root, deeds); Recover(FRESH, end.w, root, end.log) == (FRESH, Err(SequenceGap))
    decreases |deeds|
  {
    if deeds == [] {
      GapRefused(l, root, n);
    } else {
      ActKeeps(l, root, deeds[0]);
      GapStays(l, root, deeds[0], n);
      GapNeverRecovers(Act(l, root, deeds[0]), root, deeds[1..], n);
    }
  }

  /** A root lineage of a campaign, from a baseline commit and without a boundary. */
  function Rooted(lineage: Id, baseline: Commit): CreateArgs {
    CreateArgs("campaign", lineage, None, Some(baseline), None)
  }

  lemma TwoDeeds(l: Live, root: string, first: Deed, second: Deed)
    ensures ActAll(l, root, [first, second]) == Act(Act(l, root, first), root, second)
  {
    assert [first, second][1..] == [second] && [second][1..] == [];
    var next := Act(l, root, first);
    assert ActAll(l, root, [first, second]) == ActAll(next, root, [second]);
    assert ActAll(next, root, [second]) == ActAll(Act(next, root, second), root, []);
  }

  /** It takes two creations: in any world that has the baseline commit, a failed add
      and a successful one leave a log that nothing done later makes recoverable. */
  lemma FailedAddLosesTheLog(w: World, root: string, baseline: Commit, deeds: seq<Deed>)
    requires baseline in w.git
    ensures var creations := [Creates(Rooted("a", baseline), false), Creates(Rooted("b", baseline), true)];
      var l := ActAll(Beginning(w), root, creations);
      var end := ActAll(l, root, deeds);
      && Gap(l, 0) && |l.log| == 1
      && Recover(FRESH, end.w, root, end.log) == (FRESH, Err(SequenceGap))
  {
    var a, b := Rooted("a", baseline), Rooted("b", baseline);
    var first := Act(Beginning(w), root, Creates(a, false));
    FailedAddActs(Beginning(w), root, a);
    assert first == Live(Manager(NO_LINEAGES, 1, 1, false), w, [], {0});
    var l := Act(first, root, Creates(b, true));
    AddActs(first, root, b);
    assert l.log[0].sequence == 1;
    TwoDeeds(Beginning(w), root, Creates(a, false), Creates(b, true));
    ReplayRebuildsLife(w, root, [Creates(a, false), Creates(b, true)]);
    GapNeverRecovers(l, root, deeds, 0);
  }
}
