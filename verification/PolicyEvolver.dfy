/** The evolver object: fields reassigned by consideration and rollback. */
module PolicyEvolver {
  import opened Evolution
  import opened EvolutionTheorems
  import opened Policies
  import opened Wrappers

  class SearchPolicyEvolver {
    const root: Snapshot
    var current: Snapshot
    var strategyHistory: seq<Row>
    var activationReceipts: seq<Activation>
    var knownSnapshots: seq<Snapshot>

    function Value(): Controller
      reads this
    {
      Controller(current, strategyHistory, activationReceipts, knownSnapshots)
    }

    ghost predicate Valid()
      reads this
    {
      ControllerOk(root, Value())
    }

    constructor (root: Snapshot)
      requires IsRoot(root)
      ensures Valid() && this.root == root && Value() == Initial(root)
    {
      this.root, current := root, root;
      strategyHistory, activationReceipts, knownSnapshots := [], [], [root];
    }

    /** Validates, and either activates the candidate or keeps the exact parent. */
    method ConsiderCandidate(candidate: Snapshot, window: string, simulated: bool, sequence: int)
      returns (reply: Result<Row, Error>)
      requires Valid()
      modifies this
      ensures Valid()
      ensures var next := Consider(old(Value()), candidate, window, simulated, sequence);
        if next.Err? then reply == Err(next.error) && Value() == old(Value())
        else Value() == next.value && reply == Ok(strategyHistory[|strategyHistory| - 1])
    {
      PerformKeeps(root, Value(), Considers(candidate, window, simulated, sequence));
      reply := RunConsider(candidate, window, simulated, sequence);
    }

    method RunConsider(candidate: Snapshot, window: string, simulated: bool, sequence: int)
      returns (reply: Result<Row, Error>)
      modifies this
      ensures var next := Consider(old(Value()), candidate, window, simulated, sequence);
        if next.Err? then reply == Err(next.error) && Value() == old(Value())
        else Value() == next.value && reply == Ok(strategyHistory[|strategyHistory| - 1])
    {
      var invalid := SequenceError(Value(), sequence);
      if invalid.Some? {
        return Err(invalid.value);
      }
      var parent := current;
      var receipts := ValidatePolicy(candidate, Some(parent), simulated);
      var failed := FailedStage(receipts, candidate.hash, Some(parent.hash));
      OwnReceiptsFailHonestly(candidate, parent, simulated);
      var score := ScoreHash(parent.hash, window);
      if candidate.hash == parent.hash {
        return Err(SelfParentRow);
      }
      if failed.Some? {
        var row := Row(sequence, candidate.hash, parent.hash, score, Rejected(failed.value.stage), failed.value.reason);
        strategyHistory := strategyHistory + [row];
        return Ok(row);
      }
      var activation := Activation(candidate.hash, parent.hash, receipts, candidate.body.windowId, sequence);
      var row := Row(sequence, candidate.hash, parent.hash, score, Activated, ACTIVATION_REASON);
      activationReceipts := activationReceipts + [activation];
      knownSnapshots := knownSnapshots + [candidate];
      current := candidate;
      strategyHistory := strategyHistory + [row];
      reply := Ok(row);
    }

    /** Walks the parent hashes up to the root, collecting what was passed. */
    method ActivatedAncestors() returns (r: Result<set<PolicyHash>, Error>)
      requires Valid()
      ensures r == if WalkError(knownSnapshots, current).Some? then Err(WalkError(knownSnapshots, current).value)
                   else Ok(Ancestors(current.hash) * ActivatedHashes(strategyHistory))
    {
      WalkNeverFails(root, knownSnapshots, current);
      var ancestors: set<PolicyHash>, cursor := {}, current;
      while cursor.body.parentHash.Some?
        invariant cursor in knownSnapshots && cursor.hash == Sealed(cursor.body)
        invariant ancestors + Ancestors(cursor.hash) == Ancestors(current.hash)
        decreases Depth(cursor.hash)
      {
        ParentKnown(root, knownSnapshots, cursor);
        var parent := FindSnapshot(knownSnapshots, cursor.body.parentHash.value);
        if parent.None? || Some(parent.value.body.policyId) != cursor.body.parentId {
          return Err(LineageIncomplete);
        }
        ancestors := ancestors + {parent.value.hash};
        cursor := parent.value;
      }
      ParentKnown(root, knownSnapshots, cursor);
      if cursor.body.parentId.Some? {
        return Err(MissingHashBinding);
      }
      r := Ok(ancestors * ActivatedHashes(strategyHistory));
    }

    method RollBackTo(target: PolicyHash, sequence: int, reason: string) returns (reply: Result<Row, Error>)
      requires Valid()
      modifies this
      ensures Valid()
      ensures var next := Rollback(old(Value()), target, sequence, reason);
        if next.Err? then reply == Err(next.error) && Value() == old(Value())
        else Value() == next.value && reply == Ok(strategyHistory[|strategyHistory| - 1])
    {
      PerformKeeps(root, Value(), RollsBack(target, sequence, reason));
      var invalid := SequenceError(Value(), sequence);
      if invalid.Some? {
        return Err(invalid.value);
      }
      var eligible := ActivatedAncestors();
      if eligible.Err? {
        return Err(eligible.error);
      }
      if target !in eligible.value {
        return Err(NotAnActivatedAncestor);
      }
      var snapshot, activation := FindSnapshot(knownSnapshots, target), FindActivation(strategyHistory, target);
      if snapshot.None? || activation.None? {
        return Err(SnapshotUnavailable);
      }
      if !ReasonOk(reason) {
        return Err(InvalidReason);
      }
      var row := Row(sequence, snapshot.value.hash, current.hash, activation.value.score, RolledBack, reason);
      current := snapshot.value;
      strategyHistory := strategyHistory + [row];
      reply := Ok(row);
    }
  }
}
