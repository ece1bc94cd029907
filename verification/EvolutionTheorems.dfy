/** What holds of every controller that considering and rolling back can reach. */
module EvolutionTheorems {
  import opened Evolution
  import opened Policies
  import opened Wrappers

  datatype Call =
    | Considers(candidate: Snapshot, window: string, simulated: bool, sequence: int)
    | RollsBack(target: PolicyHash, sequence: int, reason: string)

  /** A call that raises leaves the controller as it was. */
  function Perform(c: Controller, call: Call): Controller {
    var r :=
      match call
      case Considers(candidate, window, simulated, sequence) => Consider(c, candidate, window, simulated, sequence)
      case RollsBack(target, sequence, reason) => Rollback(c, target, sequence, reason);
    if r.Ok? then r.value else c
  }

  function Run(c: Controller, calls: seq<Call>): Controller
    decreases |calls|
  {
    if calls == [] then c else Run(Perform(c, calls[0]), calls[1..])
  }

  predicate IsRoot(root: Snapshot) {
    WellFormed(root) && root.body.parentId.None? && root.body.parentHash.None?
  }

  // ---------------------------------------------------------------- invariant

  /** One activation step down the lineage. */
  predicate ChildOf(s: Snapshot, parent: Snapshot) {
    && s.body.parentHash == Some(parent.hash) && s.body.parentId == Some(parent.body.policyId)
    && s.body.campaign == parent.body.campaign
    && ChangedFields(s.body.policy, parent.body.policy) <= MAX_MUTATION_FIELDS
  }

  predicate HasParent(known: seq<Snapshot>, i: nat)
    requires i < |known|
  {
    exists j | 0 <= j < i :: ChildOf(known[i], known[j])
  }

  predicate KnownOk(root: Snapshot, known: seq<Snapshot>) {
    && known != [] && known[0] == root
    && (forall i | 0 <= i < |known| :: WellFormed(known[i]))
    && (forall i | 0 < i < |known| :: HasParent(known, i))
  }

  /** The snapshot that a hash stands for. */
  function Unsealed(h: PolicyHash): Snapshot {
    Snapshot(h.body, h)
  }

  /** The four receipts of a candidate that passed. */
  function PassingReceipts(h: PolicyHash, parent: PolicyHash): seq<StageReceipt> {
    seq(4, i requires 0 <= i < 4 => StageReceipt(STAGES[i], h, Some(parent), true, Policies.Verdict(STAGES[i], true)))
  }

  /** The controller that replaying a history from the root gives. */
  function Rebuilt(root: Snapshot, history: seq<Row>): Controller {
    if history == [] then Initial(root)
    else
      var row := history[|history| - 1];
      var c := Rebuilt(root, history[..|history| - 1]).(history := history);
      match row.verdict
      case Activated =>
        c.(current := Unsealed(row.policy), known := c.known + [Unsealed(row.policy)],
           activations := c.activations + [Activation(row.policy, row.parent, PassingReceipts(row.policy, row.parent),
                                                      row.policy.body.windowId, row.sequence)])
      case RolledBack => c.(current := Unsealed(row.policy))
      case Rejected(_) => c
  }

  predicate Ascending(history: seq<Row>) {
    forall i, j | 0 <= i < j < |history| :: history[i].sequence < history[j].sequence
  }

  /** Activated hashes are exactly the known ones other than the root's. */
  ghost predicate Recorded(known: seq<Snapshot>, history: seq<Row>) {
    && (forall h | h in ActivatedHashes(history) :: exists i | 0 < i < |known| :: known[i].hash == h)
    && (forall i | 0 < i < |known| :: known[i].hash in ActivatedHashes(history))
  }

  ghost predicate ControllerOk(root: Snapshot, c: Controller) {
    && IsRoot(root) && KnownOk(root, c.known) && c.current in c.known
    && c == Rebuilt(root, c.history)
    && Ascending(c.history)
    && Recorded(c.known, c.history)
  }

  // -------------------------------------------------------------------- steps

  lemma HistoryAppend(history: seq<Row>, row: Row)
    ensures ActivatedHashes(history + [row]) ==
      ActivatedHashes(history) + (if row.verdict.Activated? then {row.policy} else {})
    ensures (history + [row])[..|history|] == history
  {
    var more := history + [row];
    forall h | h in ActivatedHashes(history) ensures h in ActivatedHashes(more) {
      var i :| 0 <= i < |history| && history[i].verdict.Activated? && history[i].policy == h;
      assert more[i] == history[i];
    }
    if row.verdict.Activated? { assert more[|history|] == row; }
  }

  lemma StaticMakesChild(candidate: Snapshot, parent: Snapshot)
    requires WellFormed(candidate) && StaticCheck(candidate.body, Some(parent)).None?
    ensures ChildOf(candidate, parent)
  {
  }

  lemma PassedReceipts(candidate: Snapshot, parent: Snapshot, simulated: bool)
    requires PassedStages(candidate, Some(parent), simulated) == 4
    ensures Receipts(candidate, Some(parent), simulated) == PassingReceipts(candidate.hash, parent.hash)
  {
  }

  lemma KnownAppend(root: Snapshot, known: seq<Snapshot>, s: Snapshot, parent: Snapshot)
    requires KnownOk(root, known) && WellFormed(s) && parent in known && ChildOf(s, parent)
    ensures KnownOk(root, known + [s])
  {
    var more := known + [s];
    forall i | 0 < i < |more| ensures HasParent(more, i) {
      if i < |known| {
        assert HasParent(known, i);
        var j :| 0 <= j < i && ChildOf(known[i], known[j]);
        assert ChildOf(more[i], more[j]);
      } else {
        var j :| 0 <= j < |known| && known[j] == parent;
        assert ChildOf(more[i], more[j]);
      }
    }
  }

  lemma RejectionKeeps(root: Snapshot, c: Controller, row: Row)
    requires ControllerOk(root, c) && row.verdict.Rejected? && Ascending(c.history + [row])
    ensures ControllerOk(root, c.(history := c.history + [row]))
  {
    HistoryAppend(c.history, row);
  }

  /** An accepted child becomes known and is recorded by its row. */
  lemma ActivationKeeps(root: Snapshot, c: Controller, candidate: Snapshot, row: Row)
    requires ControllerOk(root, c) && WellFormed(candidate) && ChildOf(candidate, c.current)
    requires row.verdict.Activated? && row.policy == candidate.hash && Ascending(c.history + [row])
    ensures ControllerOk(root, Controller(
      candidate, c.history + [row],
      c.activations + [Activation(row.policy, row.parent, PassingReceipts(row.policy, row.parent),
                                  candidate.body.windowId, row.sequence)],
      c.known + [candidate]))
  {
    HistoryAppend(c.history, row);
    KnownAppend(root, c.known, candidate, c.current);
    RecordedAppend(c.known, c.history, candidate, row);
    assert Unsealed(candidate.hash) == candidate;
    assert (c.known + [candidate])[|c.known|] == candidate;
  }

  lemma ConsiderKeeps(root: Snapshot, c: Controller, candidate: Snapshot, window: string, simulated: bool,
                      sequence: int)
    requires ControllerOk(root, c) && Consider(c, candidate, window, simulated, sequence).Ok?
    ensures ControllerOk(root, Consider(c, candidate, window, simulated, sequence).value)
  {
    var next := Consider(c, candidate, window, simulated, sequence).value;
    var row := next.history[|c.history|];
    if PassedStages(candidate, Some(c.current), simulated) == 4 {
      StaticMakesChild(candidate, c.current);
      PassedReceipts(candidate, c.current, simulated);
      ActivationKeeps(root, c, candidate, row);
    } else {
      RejectionKeeps(root, c, row);
    }
  }

  lemma RecordedAppend(known: seq<Snapshot>, history: seq<Row>, s: Snapshot, row: Row)
    requires Recorded(known, history) && known != [] && row.verdict.Activated? && row.policy == s.hash
    ensures Recorded(known + [s], history + [row])
  {
    HistoryAppend(history, row);
    var more := known + [s];
    forall h | h in ActivatedHashes(history + [row]) ensures exists i | 0 < i < |more| :: more[i].hash == h {
      if h in ActivatedHashes(history) {
        var i :| 0 < i < |known| && known[i].hash == h;
        assert more[i].hash == h;
      } else {
        assert more[|known|].hash == h;
      }
    }
  }

  lemma KnownByHash(root: Snapshot, known: seq<Snapshot>, h: PolicyHash)
    requires KnownOk(root, known)
    ensures FindSnapshot(known, h).Some? <==> exists i | 0 <= i < |known| :: known[i].hash == h
    ensures FindSnapshot(known, h).Some? ==> FindSnapshot(known, h) == Some(Unsealed(h)) && Unsealed(h) in known
  {
    FoundHash(known, h);
  }

  lemma {:induction false} ActivationFound(history: seq<Row>, h: PolicyHash)
    ensures FindActivation(history, h).Some? <==> h in ActivatedHashes(history)
    decreases |history|
  {
    if history != [] {
      var n := |history| - 1;
      ActivationFound(history[..n], h);
      HistoryAppend(history[..n], history[n]);
      assert history == history[..n] + [history[n]];
    }
  }

  lemma RollbackKeeps(root: Snapshot, c: Controller, target: PolicyHash, sequence: int, reason: string)
    requires ControllerOk(root, c) && Rollback(c, target, sequence, reason).Ok?
    ensures ControllerOk(root, Rollback(c, target, sequence, reason).value)
  {
    KnownByHash(root, c.known, target);
    RestoredKeeps(root, c, Row(sequence, target, c.current.hash, FindActivation(c.history, target).value.score,
                               RolledBack, reason));
  }

  lemma RestoredKeeps(root: Snapshot, c: Controller, row: Row)
    requires ControllerOk(root, c) && row.verdict.RolledBack? && Unsealed(row.policy) in c.known
    requires SequenceError(c, row.sequence).None?
    ensures ControllerOk(root, c.(current := Unsealed(row.policy), history := c.history + [row]))
  {
    HistoryAppend(c.history, row);
  }

  lemma {:induction false} RunKeeps(root: Snapshot, c: Controller, calls: seq<Call>)
    requires ControllerOk(root, c)
    ensures ControllerOk(root, Run(c, calls))
    decreases |calls|
  {
    if calls != [] {
      PerformKeeps(root, c, calls[0]);
      RunKeeps(root, Perform(c, calls[0]), calls[1..]);
    }
  }

  lemma PerformKeeps(root: Snapshot, c: Controller, call: Call)
    requires ControllerOk(root, c)
    ensures ControllerOk(root, Perform(c, call))
  {
    match call
    case Considers(candidate, window, simulated, sequence) =>
      if Consider(c, candidate, window, simulated, sequence).Ok? {
        ConsiderKeeps(root, c, candidate, window, simulated, sequence);
      }
    case RollsBack(target, sequence, reason) =>
      if Rollback(c, target, sequence, reason).Ok? { RollbackKeeps(root, c, target, sequence, reason); }
  }

  // ----------------------------------------------------------------- theorems

  /** The history determines the controller: active policy, activation receipts and
      known snapshots are what replaying its rows from the root gives. */
  lemma HistoryDeterminesController(root: Snapshot, calls: seq<Call>)
    requires IsRoot(root)
    ensures var c := Run(Initial(root), calls); c == Rebuilt(root, c.history) && ControllerOk(root, c)
  {
    RunKeeps(root, Initial(root), calls);
  }

  /** A rejection changes nothing but the history. */
  lemma RejectionsOnlyRecord(c: Controller, candidate: Snapshot, window: string, simulated: bool, sequence: int)
    requires PassedStages(candidate, Some(c.current), simulated) < 4
    ensures var next := Perform(c, Considers(candidate, window, simulated, sequence));
      && next.current == c.current && next.known == c.known && next.activations == c.activations
      && c.history <= next.history
  {
  }

  lemma ParentKnown(root: Snapshot, known: seq<Snapshot>, s: Snapshot)
    requires IsRoot(root) && KnownOk(root, known) && s in known
    ensures s.body.parentHash.None? ==> s == root
    ensures s.body.parentHash.Some? ==>
      var parent := Unsealed(s.body.parentHash.value);
      s != root && parent in known && ChildOf(s, parent) && FindSnapshot(known, s.body.parentHash.value) == Some(parent)
  {
    var i :| 0 <= i < |known| && known[i] == s;
    if i > 0 {
      assert HasParent(known, i);
      var j :| 0 <= j < i && ChildOf(known[i], known[j]);
      KnownByHash(root, known, known[j].hash);
    }
  }

  /** The ancestor walk reaches the root and its error branches are unreachable. */
  lemma {:induction false} WalkNeverFails(root: Snapshot, known: seq<Snapshot>, cursor: Snapshot)
    requires IsRoot(root) && KnownOk(root, known) && cursor in known
    ensures WalkError(known, cursor).None?
    decreases Depth(cursor.hash)
  {
    ParentKnown(root, known, cursor);
    if cursor.body.parentHash.Some? {
      var i :| 0 <= i < |known| && known[i] == cursor;
      WalkNeverFails(root, known, Unsealed(cursor.body.parentHash.value));
    }
  }

  /** Every ancestor of a known policy is known. */
  lemma {:induction false} AncestorsKnown(root: Snapshot, known: seq<Snapshot>, s: Snapshot, h: PolicyHash)
    requires IsRoot(root) && KnownOk(root, known) && s in known && h in Ancestors(s.hash)
    ensures Unsealed(h) in known
    decreases Depth(s.hash)
  {
    var i :| 0 <= i < |known| && known[i] == s;
    ParentKnown(root, known, s);
    var parent := s.body.parentHash.value;
    if h != parent { AncestorsKnown(root, known, Unsealed(parent), h); }
  }

  /** A policy `d` activations away from the root differs from it in at most `3 * d`
      top-level fields, although only neighbours are ever compared. */
  lemma {:induction false} DriftIsBounded(root: Snapshot, known: seq<Snapshot>, s: Snapshot)
    requires IsRoot(root) && KnownOk(root, known) && s in known
    ensures ChangedFields(s.body.policy, root.body.policy) <= 3 * Depth(s.hash)
    ensures s.body.campaign == root.body.campaign
    decreases Depth(s.hash)
  {
    var i :| 0 <= i < |known| && known[i] == s;
    ParentKnown(root, known, s);
    if s.body.parentHash.Some? {
      var parent := Unsealed(s.body.parentHash.value);
      DriftIsBounded(root, known, parent);
      ChangesAddUp(s.body.policy, parent.body.policy, root.body.policy);
    } else {
      ChangesAddUp(s.body.policy, root.body.policy, root.body.policy);
    }
  }

  /** The same for whatever policy is active after any calls. */
  lemma ActivePolicyDrift(root: Snapshot, calls: seq<Call>)
    requires IsRoot(root)
    ensures var c := Run(Initial(root), calls);
      ChangedFields(c.current.body.policy, root.body.policy) <= 3 * Depth(c.current.hash)
  {
    HistoryDeterminesController(root, calls);
    var c := Run(Initial(root), calls);
    DriftIsBounded(root, c.known, c.current);
  }

  /** A rollback goes through exactly when its target is a proper ancestor of the active
      policy other than the root; the unavailable-snapshot error cannot occur. */
  lemma RollbackSucceedsIff(root: Snapshot, c: Controller, target: PolicyHash, sequence: int, reason: string)
    requires ControllerOk(root, c)
    ensures Rollback(c, target, sequence, reason).Ok? <==>
      && SequenceError(c, sequence).None? && ReasonOk(reason)
      && target in Ancestors(c.current.hash) && target != root.hash
    ensures Rollback(c, target, sequence, reason).Ok? ==>
      Rollback(c, target, sequence, reason).value.current == Unsealed(target)
    ensures Rollback(c, target, sequence, reason) !in
      {Err(SnapshotUnavailable), Err(LineageIncomplete), Err(MissingHashBinding)}
  {
    WalkNeverFails(root, c.known, c.current);
    RootNotActivated(root, c);
    ActivationFound(c.history, target);
    KnownByHash(root, c.known, target);
    if target in Ancestors(c.current.hash) {
      AncestorsKnown(root, c.known, c.current, target);
      var i :| 0 <= i < |c.known| && c.known[i] == Unsealed(target);
    }
  }

  lemma RootNotActivated(root: Snapshot, c: Controller)
    requires ControllerOk(root, c)
    ensures root.hash !in ActivatedHashes(c.history)
  {
    forall i | 0 < i < |c.known| ensures c.known[i].hash != root.hash {
      assert HasParent(c.known, i);
    }
  }

  lemma LeavesRootForGood(root: Snapshot, c: Controller, call: Call)
    requires ControllerOk(root, c) && c.current != root
    ensures Perform(c, call).current != root
  {
    match call
    case Considers(candidate, window, simulated, sequence) =>
      if PassedStages(candidate, Some(c.current), simulated) == 4 { StaticMakesChild(candidate, c.current); }
    case RollsBack(target, sequence, reason) => RollbackSucceedsIff(root, c, target, sequence, reason);
  }

  /** The root has no activation row, so once it has been left no sequence of calls ever
      restores it. */
  lemma {:induction false} RootIsNeverRestored(root: Snapshot, c: Controller, calls: seq<Call>)
    requires ControllerOk(root, c) && c.current != root
    ensures Run(c, calls).current != root
    decreases |calls|
  {
    if calls != [] {
      LeavesRootForGood(root, c, calls[0]);
      PerformKeeps(root, c, calls[0]);
      RootIsNeverRestored(root, Perform(c, calls[0]), calls[1..]);
    }
  }
}
