/** The workspace manager object: live operations and recovery, statement by statement. */
module LineageManager {
  import opened Boundaries
  import opened LineageRecovery
  import opened Lineages
  import opened Wrappers

  class LineageWorkspaceManager {
    const root: string
    var lineages: map<Id, LineageState>
    var branchOwners: map<string, Id>
    var worktreeOwners: map<string, Id>
    var nextSequence: nat
    var nextReceipt: nat
    var poisoned: bool
    var world: World

    constructor (root: string, world: World)
      ensures this.root == root && this.world == world && Value() == FRESH
    {
      this.root, this.world := root, world;
      lineages, branchOwners, worktreeOwners := map[], map[], map[];
      nextSequence, nextReceipt, poisoned := 0, 0, false;
    }

    function Value(): Manager
      reads this
    {
      Manager(Registry(lineages, branchOwners, worktreeOwners), nextSequence, nextReceipt, poisoned)
    }

    /** `_validate_changed_path_prefix` on every requested prefix. */
    static method FindInvalidPrefix(prefixes: set<string>) returns (found: bool)
      ensures found == exists p | p in prefixes :: !ValidPrefix(p)
    {
      var rest := prefixes;
      while rest != {}
        invariant rest <= prefixes
        invariant forall p | p in prefixes - rest :: ValidPrefix(p)
        decreases rest
      {
        var p :| p in rest;
        if !ValidPrefix(p) {
          return true;
        }
        rest := rest - {p};
      }
      assert prefixes - rest == prefixes;
      found := false;
    }

    /** Inherit the parent's boundary or take a contained one. */
    static method ResolveChildBoundary(parent: set<string>, requested: Option<set<string>>)
      returns (r: Result<set<string>, Error>)
      ensures r == ResolveBoundary(parent, requested)
    {
      if requested.None? {
        return Ok(parent);
      }
      var candidate := requested.value;
      var invalid := FindInvalidPrefix(candidate);
      if invalid {
        return Err(InvalidPrefix);
      }
      if parent != {} {
        if candidate == {} {
          return Err(BoundaryWidened);
        }
        var rest := candidate;
        while rest != {}
          invariant rest <= candidate
          invariant forall c | c in candidate - rest :: Contained(c, parent)
          decreases rest
        {
          var c :| c in rest;
          if !Contained(c, parent) {
            return Err(BoundaryWidened);
          }
          rest := rest - {c};
        }
        assert candidate - rest == candidate;
      }
      r := Ok(candidate);
    }

    method FindRoot(a: CreateArgs) returns (r: Result<Root, Error>)
      ensures r == RootOf(Value().reg, a)
    {
      if a.parent.None? {
        if a.baseline.None? {
          return Err(BaselineRequired);
        }
        var boundary := if a.requested.Some? then a.requested.value else {};
        var invalid := FindInvalidPrefix(boundary);
        if invalid {
          return Err(InvalidPrefix);
        }
        return Ok(Root(a.baseline.value, boundary));
      }
      if a.baseline.Some? {
        return Err(BaselineNotAllowed);
      }
      if a.parent.value !in lineages {
        return Err(UnknownParent);
      }
      var parent := lineages[a.parent.value];
      if parent.campaign != a.campaign {
        return Err(CampaignMismatch);
      }
      if parent.quarantine.Some? {
        return Err(ParentQuarantined);
      }
      var boundary := ResolveChildBoundary(parent.boundary, a.requested);
      r := if boundary.Err? then Err(boundary.error) else Ok(Root(parent.head, boundary.value));
    }

    method CheckCreate(a: CreateArgs) returns (r: Result<Root, Error>)
      ensures r == CreateCheck(Value(), world.git, root, a)
    {
      if poisoned {
        return Err(Poisoned);
      }
      if !Identifier(a.campaign) || !Identifier(a.lineage) {
        return Err(InvalidIdentifier);
      }
      if a.lineage in lineages {
        return Err(AlreadyExists);
      }
      if a.parent == Some(a.lineage) {
        return Err(SelfParent);
      }
      r := FindRoot(a);
      if r.Err? {
        return;
      }
      if r.value.commit !in world.git {
        return Err(UnknownCommit);
      }
      if BranchOf(a.campaign, a.lineage) in branchOwners {
        return Err(BranchInUse);
      }
      if PathOf(root, a.campaign, a.lineage) in worktreeOwners {
        return Err(PathInUse);
      }
    }

    method CreateLineage(a: CreateArgs, added: bool) returns (reply: Result<Receipt, Error>)
      modifies this
      ensures (Value(), world, reply) == Create(old(Value()), old(world), root, a, added)
    {
      var check := CheckCreate(a);
      if check.Err? {
        return Err(check.error);
      }
      var from := check.value;
      var branch, path := BranchOf(a.campaign, a.lineage), PathOf(root, a.campaign, a.lineage);
      var tree := world.git[from.commit].tree;
      var id, sequence := nextReceipt, nextSequence;
      nextReceipt := nextReceipt + 1;
      nextSequence := nextSequence + 1;
      var receipt := Receipt(Generated(id), a.campaign, a.lineage, None, Created, a.parent, Some(from.commit),
                             Some(tree),
                             None, branch, path, sequence, "", from.boundary);
      if !added {
        return Err(WorktreeAddFailed);
      }
      world := world.(sites := world.sites[path := AddedSite(path, branch, from.commit)]);
      var state := LineageState(a.campaign, a.parent, from.commit, branch, path, from.commit, tree, sequence, None,
                                from.boundary);
      lineages := lineages[a.lineage := state];
      branchOwners := branchOwners[branch := a.lineage];
      worktreeOwners := worktreeOwners[path := a.lineage];
      reply := Ok(receipt);
    }

    method CommitLineage(a: CommitArgs, g: GitAnswer) returns (reply: Result<Receipt, Error>)
      modifies this
      ensures (Value(), world, reply) == CommitWorktree(old(Value()), old(world), a, g)
    {
      if poisoned {
        return Err(Poisoned);
      }
      if a.attempt == "" {
        return Err(InvalidAttempt);
      }
      if a.message == "" {
        return Err(InvalidMessage);
      }
      var id := nextReceipt;
      nextReceipt := nextReceipt + 1;
      var error := CommitCheck(Registry(lineages, branchOwners, worktreeOwners), world, a, g);
      if error.Some? {
        return Err(error.value);
      }
      var state := lineages[a.lineage];
      var info := CommitInfo(Some(state.head), g.tree, g.staged);
      if !Fits(world.git, g.commit, info) {
        return Err(GitFailed);
      }
      var site := SiteAt(world, state.path);
      world := World(world.git[g.commit := info],
                     world.sites[state.path := site.(head := Some(g.commit),
                                                     dirty := if g.clean then {} else site.dirty)]);
      if !g.clean {
        return Err(NotClean);
      }
      var sequence := nextSequence;
      nextSequence := nextSequence + 1;
      lineages := lineages[a.lineage := state.(head := g.commit, tree := g.tree, sequence := sequence)];
      reply := Ok(CommittedReceipt(id, state, a, g, sequence));
    }

    /** `_apply_receipt`. */
    method ApplyOne(r: Receipt) returns (refused: Option<Error>)
      requires Constructible(r)
      modifies `lineages, `branchOwners, `worktreeOwners
      ensures var next := ApplyReceipt(old(Value()).reg, world.git, root, r);
        && refused == (if next.Err? then Some(next.error) else None)
        && Value().reg == (if next.Err? then old(Value()).reg else next.value)
    {
      if r.kind == Created {
        var next := ApplyCreated(Registry(lineages, branchOwners, worktreeOwners), world.git, root, r);
        if next.Err? {
          return Some(next.error);
        }
        lineages := lineages[r.lineage := CreatedState(r)];
        branchOwners := branchOwners[r.branch := r.lineage];
        worktreeOwners := worktreeOwners[r.path := r.lineage];
        return None;
      }
      if r.lineage !in lineages {
        return Some(UnknownLineage);
      }
      var next := ApplyLater(lineages[r.lineage], world.git, r);
      if next.Err? {
        return Some(next.error);
      }
      lineages := lineages[r.lineage := next.value];
      refused := None;
    }

    /** The scan for repeated sequence numbers and ids. */
    static method CheckOrder(ordered: seq<Receipt>) returns (error: Option<Error>)
      ensures error == OrderError(ordered)
    {
      var sequences: set<nat>, ids: set<ReceiptId>, i := {}, {}, 0;
      assert ordered[0..] == ordered;
      while i < |ordered|
        invariant i <= |ordered|
        invariant RepeatError(ordered, {}, {}) == RepeatError(ordered[i..], sequences, ids)
        invariant forall j | 0 <= j < i :: ordered[j].sequence in sequences
      {
        assert ordered[i..][0] == ordered[i] && ordered[i..][1..] == ordered[i + 1..];
        if ordered[i].sequence in sequences {
          return Some(DuplicateSequence);
        }
        if ordered[i].id in ids {
          return Some(DuplicateReceiptId);
        }
        sequences, ids, i := sequences + {ordered[i].sequence}, ids + {ordered[i].id}, i + 1;
      }
      assert ordered[i..] == [];
      error := if Numbered(ordered) then None else Some(SequenceGap);
    }

    method ReplayLog(ordered: seq<Receipt>) returns (refused: Option<Error>)
      requires forall i | 0 <= i < |ordered| :: Constructible(ordered[i])
      modifies `lineages, `branchOwners, `worktreeOwners
      ensures (Value().reg, refused) == Replay(old(Value()).reg, world.git, root, ordered)
    {
      var i := 0;
      assert ordered[0..] == ordered;
      while i < |ordered|
        invariant i <= |ordered|
        invariant Replay(old(Value()).reg, world.git, root, ordered) ==
          Replay(Value().reg, world.git, root, ordered[i..])
      {
        assert ordered[i..][0] == ordered[i] && ordered[i..][1..] == ordered[i + 1..];
        refused := ApplyOne(ordered[i]);
        if refused.Some? {
          return;
        }
        i := i + 1;
      }
      refused := None;
    }

    /** Cross-checks the lineages in the given order. */
    method SweepWorktrees(ids: seq<Id>) returns (found: seq<Receipt>)
      requires forall i | 0 <= i < |ids| :: ids[i] in lineages
      modifies `lineages, `nextSequence, `nextReceipt
      ensures (Value(), found) == Sweep(old(Value()), world, ids, map[])
    {
      found := [];
      var i, claimed := 0, map[];
      ghost var rest := Sweep(Value(), world, ids, claimed);
      assert ids[0..] == ids && found + rest.1 == rest.1;
      while i < |ids|
        invariant i <= |ids| && forall j | 0 <= j < |ids| :: ids[j] in lineages
        invariant rest == Sweep(Value(), world, ids[i..], claimed)
        invariant (rest.0, found + rest.1) == Sweep(old(Value()), world, ids, map[])
      {
        var id := ids[i];
        assert ids[i..][0] == id && ids[i..][1..] == ids[i + 1..];
        var receipts;
        receipts, claimed := CheckOne(id, claimed, ids[i..]);
        assert found + (receipts + Sweep(Value(), world, ids[i + 1..], claimed).1) ==
          (found + receipts) + Sweep(Value(), world, ids[i + 1..], claimed).1;
        found, i := found + receipts, i + 1;
        rest := Sweep(Value(), world, ids[i..], claimed);
      }
      assert ids[i..] == [] && found + rest.1 == found;
    }

    /** One lineage of the sweep: at most one receipt. */
    method CheckOne(id: Id, claimed: map<string, Id>, ghost ids: seq<Id>)
      returns (receipts: seq<Receipt>, more: map<string, Id>)
      requires (forall i | 0 <= i < |ids| :: ids[i] in lineages) && ids != [] && ids[0] == id
      modifies `lineages, `nextSequence, `nextReceipt
      ensures lineages.Keys == old(lineages.Keys)
      ensures var rest := Sweep(Value(), world, ids[1..], more);
        Sweep(old(Value()), world, ids, claimed) == (rest.0, receipts + rest.1)
    {
      receipts, more := [], claimed;
      var state := lineages[id];
      if state.quarantine.None? {
        var (reason, claims) := Detect(state, id, SiteAt(world, state.path), claimed);
        more := claims;
        if reason.Some? {
          var receipt := QuarantineOne(id, reason.value);
          receipts := [receipt];
        }
      }
      assert [] + Sweep(Value(), world, ids[1..], more).1 == Sweep(Value(), world, ids[1..], more).1;
    }

    method QuarantineOne(id: Id, reason: string) returns (receipt: Receipt)
      requires id in lineages
      modifies `lineages, `nextSequence, `nextReceipt
      ensures (Value(), receipt) == Quarantine(old(Value()), id, reason)
    {
      var state, sequence := lineages[id], nextSequence;
      nextSequence := nextSequence + 1;
      lineages := lineages[id := state.(quarantine := Some(reason), sequence := sequence)];
      receipt := QuarantineReceipt(nextReceipt, id, state, reason, sequence);
      nextReceipt := nextReceipt + 1;
    }

    /** `sorted(self._lineages)`, least id first. */
    method SortLineages() returns (ids: seq<Id>)
      ensures ids == SortedIds(lineages.Keys)
    {
      ids := [];
      var rest := lineages.Keys;
      ghost var tail := SortedIds(rest);
      while rest != {}
        invariant rest <= lineages.Keys
        invariant tail == SortedIds(rest) && ids + tail == SortedIds(lineages.Keys)
        decreases rest
      {
        LeastExists(rest);
        var id :| Least(id, rest);
        SortedIdsStep(rest, id);
        tail := SortedIds(rest - {id});
        assert ids + ([id] + tail) == (ids + [id]) + tail;
        ids, rest := ids + [id], rest - {id};
      }
    }

    method RecoverLog(receipts: seq<Receipt>) returns (reply: Result<seq<Receipt>, Error>)
      modifies this
      ensures world == old(world) && (Value(), reply) == Recover(old(Value()), world, root, receipts)
    {
      if poisoned {
        return Err(Poisoned);
      }
      if exists i | 0 <= i < |receipts| :: !Constructible(receipts[i]) {
        return Err(InvalidReceipt);
      }
      var ordered := SortBySequence(receipts);
      SortSorts(receipts);
      SortedConstructible(receipts);
      var error := CheckOrder(ordered);
      if error.Some? {
        return Err(error.value);
      }
      nextSequence := |ordered|;
      nextReceipt := NextGenerated(ordered);
      var refused := ReplayLog(ordered);
      if refused.Some? {
        poisoned := true;
        return Err(refused.value);
      }
      var ids := SortLineages();
      SortedIdsMembers(lineages.Keys);
      var found := SweepWorktrees(ids);
      reply := Ok(found);
    }
  }
}
