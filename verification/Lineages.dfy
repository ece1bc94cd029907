/** Lineage workspaces over an abstract git: what the live operations do, and what
    applying one durable receipt does. */
module Lineages {
  import opened Boundaries
  import opened Wrappers

  type Id = string
  type Commit = string

  datatype CommitInfo = CommitInfo(parent: Option<Commit>, tree: string, changed: set<string>)

  /** Commits are only ever added. */
  type Git = map<Commit, CommitInfo>

  /** What is at a worktree path. */
  datatype Site =
    | Missing
    | Dir(linked: bool, realPath: string, inside: bool, registered: bool, dirty: set<string>,
          head: Option<Commit>, ref: Option<string>)

  datatype World = World(git: Git, sites: map<string, Site>)

  function SiteAt(w: World, path: string): Site {
    if path in w.sites then w.sites[path] else Missing
  }

  datatype LineageState = LineageState(
    campaign: Id, parent: Option<Id>, parentCommit: Commit, branch: string, path: string,
    head: Commit, tree: string, sequence: nat, quarantine: Option<string>, boundary: set<string>)

  datatype Kind = Created | Checkpointed | ChildCommitted | Recovered | Quarantined

  /** Ids of the manager's own generator are numbers; others come from elsewhere. */
  datatype ReceiptId = Generated(n: nat) | Foreign(text: string)

  datatype Receipt = Receipt(
    id: ReceiptId, campaign: Id, lineage: Id, attempt: Option<string>, kind: Kind,
    parent: Option<Id>, parentCommit: Option<Commit>, tree: Option<string>, commit: Option<Commit>,
    branch: string, path: string, sequence: nat, detail: string, boundary: set<string>)

  /** What the receipt type itself enforces. */
  predicate Constructible(r: Receipt) {
    && (r.parent.Some? ==> r.parentCommit.Some?)
    && (r.kind in {Created, Checkpointed, ChildCommitted} ==> r.parentCommit.Some?)
    && (r.kind in {Checkpointed, ChildCommitted} ==> r.commit.Some?)
  }

  datatype Registry = Registry(lineages: map<Id, LineageState>, branches: map<string, Id>, worktrees: map<string, Id>)

  const NO_LINEAGES := Registry(map[], map[], map[])

  datatype Manager = Manager(reg: Registry, nextSequence: nat, nextReceipt: nat, poisoned: bool)

  const FRESH := Manager(NO_LINEAGES, 0, 0, false)

  datatype Error =
    | Poisoned | InvalidIdentifier | AlreadyExists | SelfParent | BaselineRequired | BaselineNotAllowed
    | UnknownParent | CampaignMismatch | ParentQuarantined | InvalidPrefix | BoundaryWidened | UnknownCommit
    | BranchInUse | PathInUse | WorktreeAddFailed | InvalidAttempt | InvalidMessage | UnknownLineage
    | LineageQuarantined | WorktreeMissing | HeadMoved | OutsideBoundary | GitFailed | NotClean
    | InvalidReceipt | DuplicateSequence | DuplicateReceiptId | SequenceGap
    | BranchForgery | PathForgery | ParentMismatch | TreeMismatch | ImmutableChanged

  // ------------------------------------------------------------- identifiers

  predicate WordChar(c: char) {
    'a' <= c <= 'z' || 'A' <= c <= 'Z' || '0' <= c <= '9'
  }

  predicate Identifier(s: string) {
    1 <= |s| <= 64 && WordChar(s[0]) && forall i | 1 <= i < |s| :: WordChar(s[i]) || s[i] in "._-"
  }

  function BranchOf(campaign: Id, lineage: Id): string {
    "discovery/" + campaign + "/" + lineage
  }

  function PathOf(root: string, campaign: Id, lineage: Id): string {
    root + "/" + campaign + "/" + lineage
  }

  // ----------------------------------------------------------------- creating

  datatype CreateArgs = CreateArgs(
    campaign: Id, lineage: Id, parent: Option<Id>, baseline: Option<Commit>, requested: Option<set<string>>)

  datatype Root = Root(commit: Commit, boundary: set<string>)

  /** A child inherits its parent's boundary or narrows it. */
  function ResolveBoundary(parent: set<string>, requested: Option<set<string>>): Result<set<string>, Error> {
    if requested.None? then Ok(parent)
    else if exists p | p in requested.value :: !ValidPrefix(p) then Err(InvalidPrefix)
    else if !Narrower(requested.value, parent) then Err(BoundaryWidened)
    else Ok(requested.value)
  }

  function RootOf(reg: Registry, a: CreateArgs): Result<Root, Error> {
    if a.parent.None? then
      if a.baseline.None? then Err(BaselineRequired)
      else
        var boundary := if a.requested.Some? then a.requested.value else {};
        if exists p | p in boundary :: !ValidPrefix(p) then Err(InvalidPrefix)
        else Ok(Root(a.baseline.value, boundary))
    else if a.baseline.Some? then Err(BaselineNotAllowed)
    else if a.parent.value !in reg.lineages then Err(UnknownParent)
    else
      var parent := reg.lineages[a.parent.value];
      if parent.campaign != a.campaign then Err(CampaignMismatch)
      else if parent.quarantine.Some? then Err(ParentQuarantined)
      else
        var boundary := ResolveBoundary(parent.boundary, a.requested);
        if boundary.Err? then Err(boundary.error) else Ok(Root(parent.head, boundary.value))
  }

  function CreateCheck(m: Manager, git: Git, root: string, a: CreateArgs): Result<Root, Error> {
    if m.poisoned then Err(Poisoned)
    else if !Identifier(a.campaign) || !Identifier(a.lineage) then Err(InvalidIdentifier)
    else if a.lineage in m.reg.lineages then Err(AlreadyExists)
    else if a.parent == Some(a.lineage) then Err(SelfParent)
    else
      var from := RootOf(m.reg, a);
      if from.Err? then from
      else if from.value.commit !in git then Err(UnknownCommit)
      else if BranchOf(a.campaign, a.lineage) in m.reg.branches then Err(BranchInUse)
      else if PathOf(root, a.campaign, a.lineage) in m.reg.worktrees then Err(PathInUse)
      else from
  }

  function CreatedReceipt(id: nat, root: string, a: CreateArgs, from: Root, tree: string, sequence: nat): Receipt {
    Receipt(Generated(id), a.campaign, a.lineage, None, Created, a.parent, Some(from.commit), Some(tree), None,
            BranchOf(a.campaign, a.lineage), PathOf(root, a.campaign, a.lineage), sequence, "", from.boundary)
  }

  function CreatedState(r: Receipt): LineageState
    requires r.parentCommit.Some? && r.tree.Some?
  {
    LineageState(r.campaign, r.parent, r.parentCommit.value, r.branch, r.path, r.parentCommit.value, r.tree.value,
                 r.sequence, None, r.boundary)
  }

  function Register(reg: Registry, r: Receipt): Registry
    requires r.parentCommit.Some? && r.tree.Some?
  {
    Registry(reg.lineages[r.lineage := CreatedState(r)], reg.branches[r.branch := r.lineage],
             reg.worktrees[r.path := r.lineage])
  }

  /** A freshly added worktree. */
  function AddedSite(path: string, branch: string, commit: Commit): Site {
    Dir(false, path, true, true, {}, Some(commit), Some("refs/heads/" + branch))
  }

  /** The sequence number is spent before `git worktree add`, which may fail. */
  function Create(m: Manager, w: World, root: string, a: CreateArgs, added: bool)
    : (Manager, World, Result<Receipt, Error>)
  {
    var check := CreateCheck(m, w.git, root, a);
    if check.Err? then (m, w, Err(check.error))
    else
      var from := check.value;
      var r := CreatedReceipt(m.nextReceipt, root, a, from, w.git[from.commit].tree, m.nextSequence);
      var spent := m.(nextSequence := m.nextSequence + 1, nextReceipt := m.nextReceipt + 1);
      if !added then (spent, w, Err(WorktreeAddFailed))
      else (spent.(reg := Register(m.reg, r)),
            w.(sites := w.sites[r.path := AddedSite(r.path, r.branch, from.commit)]), Ok(r))
  }

  // --------------------------------------------------------------- committing

  datatype CommitArgs = CommitArgs(lineage: Id, attempt: string, kind: Kind, message: string)

  /** What git does during one commit: the new commit and its tree, the staged paths
      (another process may have staged some), and whether the worktree is clean after. */
  datatype GitAnswer = GitAnswer(commit: Commit, tree: string, staged: set<string>, clean: bool)

  function CommitCheck(reg: Registry, w: World, a: CommitArgs, g: GitAnswer): Option<Error> {
    if a.lineage !in reg.lineages then Some(UnknownLineage)
    else
      var s := reg.lineages[a.lineage];
      if s.quarantine.Some? then Some(LineageQuarantined)
      else if SiteAt(w, s.path).Missing? then Some(WorktreeMissing)
      else
        var site := SiteAt(w, s.path);
        if site.head != Some(s.head) then Some(HeadMoved)
        else if !AllInside(site.dirty, s.boundary) || !AllInside(g.staged, s.boundary) then Some(OutsideBoundary)
        else None
  }

  /** Content addressing: a commit id that exists already names the same commit. */
  predicate Fits(git: Git, commit: Commit, info: CommitInfo) {
    commit in git ==> git[commit] == info
  }

  function CommittedReceipt(id: nat, s: LineageState, a: CommitArgs, g: GitAnswer, sequence: nat): Receipt {
    Receipt(Generated(id), s.campaign, a.lineage, Some(a.attempt), a.kind, s.parent, Some(s.parentCommit), Some(g.tree),
            Some(g.commit), s.branch, s.path, sequence, "", s.boundary)
  }

  function Advanced(s: LineageState, commit: Commit, tree: string, sequence: nat): LineageState {
    s.(head := commit, tree := tree, sequence := sequence)
  }

  /** `checkpoint` and `commit_child`. Git commits before the cleanliness check, so a
      dirty worktree moves its head without a receipt. */
  function CommitWorktree(m: Manager, w: World, a: CommitArgs, g: GitAnswer): (Manager, World, Result<Receipt, Error>) {
    if m.poisoned then (m, w, Err(Poisoned))
    else if a.attempt == "" then (m, w, Err(InvalidAttempt))
    else if a.message == "" then (m, w, Err(InvalidMessage))
    else
      var spent := m.(nextReceipt := m.nextReceipt + 1);
      var error := CommitCheck(m.reg, w, a, g);
      if error.Some? then (spent, w, Err(error.value))
      else
        var s := m.reg.lineages[a.lineage];
        var info := CommitInfo(Some(s.head), g.tree, g.staged);
        if !Fits(w.git, g.commit, info) then (spent, w, Err(GitFailed))
        else
          var site := SiteAt(w, s.path);
          var moved := World(w.git[g.commit := info],
                             w.sites[s.path := site.(head := Some(g.commit),
                                                     dirty := if g.clean then {} else site.dirty)]);
          if !g.clean then (spent, moved, Err(NotClean))
          else
            var advanced := Advanced(s, g.commit, g.tree, m.nextSequence);
            (spent.(reg := m.reg.(lineages := m.reg.lineages[a.lineage := advanced]),
                    nextSequence := m.nextSequence + 1),
             moved, Ok(CommittedReceipt(m.nextReceipt, s, a, g, m.nextSequence)))
  }

  // ----------------------------------------------------------------- replaying

  function ApplyCreated(reg: Registry, git: Git, root: string, r: Receipt): Result<Registry, Error>
    requires r.kind == Created && Constructible(r)
  {
    if r.lineage in reg.lineages then Err(AlreadyExists)
    else if !Identifier(r.campaign) || !Identifier(r.lineage) then Err(InvalidIdentifier)
    else if r.branch != BranchOf(r.campaign, r.lineage) then Err(BranchForgery)
    else if r.path != PathOf(root, r.campaign, r.lineage) then Err(PathForgery)
    else
      var parent := ParentError(reg, r);
      if parent.Some? then Err(parent.value)
      else if r.branch in reg.branches then Err(BranchInUse)
      else if r.path in reg.worktrees then Err(PathInUse)
      else if r.parentCommit.value !in git then Err(UnknownCommit)
      else if Some(git[r.parentCommit.value].tree) != r.tree then Err(TreeMismatch)
      else Ok(Register(reg, r))
  }

  function ParentError(reg: Registry, r: Receipt): Option<Error>
    requires r.parentCommit.Some?
  {
    if r.parent.None? then None
    else if r.parent.value !in reg.lineages then Some(UnknownParent)
    else
      var parent := reg.lineages[r.parent.value];
      if parent.quarantine.Some? then Some(ParentQuarantined)
      else if parent.campaign != r.campaign then Some(CampaignMismatch)
      else if parent.head != r.parentCommit.value then Some(ParentMismatch)
      else if !Narrower(r.boundary, parent.boundary) then Some(BoundaryWidened)
      else None
  }

  predicate SameIdentity(s: LineageState, r: Receipt) {
    && r.campaign == s.campaign && r.parent == s.parent && r.parentCommit == Some(s.parentCommit)
    && r.branch == s.branch && r.path == s.path && r.boundary == s.boundary
  }

  function ApplyLater(s: LineageState, git: Git, r: Receipt): Result<LineageState, Error>
    requires r.kind != Created && Constructible(r)
  {
    if !SameIdentity(s, r) then Err(ImmutableChanged)
    else if r.kind.Quarantined? then Ok(s.(quarantine := Some(r.detail), sequence := r.sequence))
    else if r.kind.Recovered? then Ok(s.(quarantine := None, sequence := r.sequence))
    else
      var commit := r.commit.value;
      if commit !in git then Err(UnknownCommit)
      else if git[commit].parent != Some(s.head) then Err(ParentMismatch)
      else if Some(git[commit].tree) != r.tree then Err(TreeMismatch)
      else Ok(Advanced(s, commit, r.tree.value, r.sequence))
  }

  function ApplyReceipt(reg: Registry, git: Git, root: string, r: Receipt): Result<Registry, Error>
    requires Constructible(r)
  {
    if r.kind == Created then ApplyCreated(reg, git, root, r)
    else if r.lineage !in reg.lineages then Err(UnknownLineage)
    else
      var s := ApplyLater(reg.lineages[r.lineage], git, r);
      if s.Err? then Err(s.error) else Ok(reg.(lineages := reg.lineages[r.lineage := s.value]))
  }

  ghost predicate AllConstructible(log: seq<Receipt>) {
    forall i | 0 <= i < |log| :: Constructible(log[i])
  }

  /** Replay stops at the first receipt it refuses; what was applied so far stays. */
  function Replay(reg: Registry, git: Git, root: string, log: seq<Receipt>): (Registry, Option<Error>)
    requires forall i | 0 <= i < |log| :: Constructible(log[i])
    decreases |log|
  {
    if log == [] then (reg, None)
    else
      var next := ApplyReceipt(reg, git, root, log[0]);
      if next.Err? then (reg, Some(next.error)) else Replay(next.value, git, root, log[1..])
  }
}
