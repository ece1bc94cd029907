/** The policy controller: considering candidates and rolling back. */
module Evolution {
  import opened Policies
  import opened Wrappers

  datatype Verdict = Activated | RolledBack | Rejected(stage: Stage)

  /** A window score is bound to the policy that was active and to the window. */
  datatype ScoreHash = ScoreHash(policy: PolicyHash, window: string)

  datatype Row = Row(sequence: int, policy: PolicyHash, parent: PolicyHash, score: ScoreHash, verdict: Verdict,
                     reason: string)

  datatype Activation = Activation(policy: PolicyHash, parent: PolicyHash, receipts: seq<StageReceipt>, window: string,
                                   sequence: int)

  datatype Controller = Controller(
    current: Snapshot, history: seq<Row>, activations: seq<Activation>, known: seq<Snapshot>)

  datatype Error =
    | NegativeSequence | SequenceNotIncreasing | SelfParentRow | NotAnActivatedAncestor | LineageIncomplete
    | MissingHashBinding | SnapshotUnavailable | InvalidReason

  function Initial(root: Snapshot): Controller {
    Controller(root, [], [], [root])
  }

  function SequenceError(c: Controller, sequence: int): Option<Error> {
    if sequence < 0 then Some(NegativeSequence)
    else if c.history != [] && sequence <= c.history[|c.history| - 1].sequence then Some(SequenceNotIncreasing)
    else None
  }

  const ACTIVATION_REASON := "activated after four PASSED policy-validation receipts"

  /** Why a stage that the validator failed was failed. */
  function RejectionReason(stage: Stage): string {
    Policies.Verdict(stage, false)
  }

  /** The transition of `consider`. A row cannot name itself as its parent, so considering
      the active policy itself is an error rather than a rejection. */
  function Consider(c: Controller, candidate: Snapshot, window: string, simulated: bool, sequence: int)
    : Result<Controller, Error>
  {
    var invalid := SequenceError(c, sequence);
    if invalid.Some? then Err(invalid.value)
    else
      var parent := c.current;
      var passed := PassedStages(candidate, Some(parent), simulated);
      var score := ScoreHash(parent.hash, window);
      if candidate.hash == parent.hash then Err(SelfParentRow)
      else if passed < 4 then
        Ok(c.(history := c.history + [Row(sequence, candidate.hash, parent.hash, score, Rejected(STAGES[passed]),
                                          RejectionReason(STAGES[passed]))]))
      else
        Ok(Controller(
          candidate,
          c.history + [Row(sequence, candidate.hash, parent.hash, score, Activated, ACTIVATION_REASON)],
          c.activations + [Activation(candidate.hash, parent.hash, Receipts(candidate, Some(parent), simulated),
                                      candidate.body.windowId, sequence)],
          c.known + [candidate]))
  }

  /** Proper ancestors of a policy, read off its hash. */
  function Ancestors(h: PolicyHash): set<PolicyHash> {
    if h.body.parentHash.None? then {} else {h.body.parentHash.value} + Ancestors(h.body.parentHash.value)
  }

  function Depth(h: PolicyHash): nat {
    if h.body.parentHash.None? then 0 else 1 + Depth(h.body.parentHash.value)
  }

  function ActivatedHashes(history: seq<Row>): set<PolicyHash> {
    set i | 0 <= i < |history| && history[i].verdict.Activated? :: history[i].policy
  }

  /** The last known snapshot, or history row, for a hash. */
  function FindSnapshot(known: seq<Snapshot>, h: PolicyHash): Option<Snapshot> {
    if known == [] then None
    else if known[|known| - 1].hash == h then Some(known[|known| - 1])
    else FindSnapshot(known[..|known| - 1], h)
  }

  function FindActivation(history: seq<Row>, h: PolicyHash): Option<Row> {
    if history == [] then None
    else if history[|history| - 1].verdict.Activated? && history[|history| - 1].policy == h then
      Some(history[|history| - 1])
    else FindActivation(history[..|history| - 1], h)
  }

  predicate ReasonOk(reason: string) {
    1 <= |reason| <= 512
  }

  /** The walk from the active policy to the root, with its two error branches. */
  function WalkError(known: seq<Snapshot>, cursor: Snapshot): Option<Error>
    decreases cursor.body
  {
    if cursor.body.parentHash.None? then
      if cursor.body.parentId.Some? then Some(MissingHashBinding) else None
    else
      var parent := FindSnapshot(known, cursor.body.parentHash.value);
      if parent.None? || Some(parent.value.body.policyId) != cursor.body.parentId then Some(LineageIncomplete)
      else if parent.value.hash != Sealed(parent.value.body) then Some(LineageIncomplete)
      else
        StepDown(known, cursor, parent.value);
        WalkError(known, parent.value)
  }

  lemma StepDown(known: seq<Snapshot>, cursor: Snapshot, parent: Snapshot)
    requires cursor.body.parentHash.Some? && FindSnapshot(known, cursor.body.parentHash.value) == Some(parent)
    requires parent.hash == Sealed(parent.body)
    ensures cursor.body decreases to parent.body
  {
    FoundHash(known, cursor.body.parentHash.value);
    assert cursor.body.parentHash.value == Sealed(parent.body);
  }

  lemma {:induction false} FoundHash(known: seq<Snapshot>, h: PolicyHash)
    ensures var s := FindSnapshot(known, h); s.Some? ==> s.value in known && s.value.hash == h
    ensures FindSnapshot(known, h).None? ==> forall i | 0 <= i < |known| :: known[i].hash != h
    decreases |known|
  {
    if known != [] && known[|known| - 1].hash != h { FoundHash(known[..|known| - 1], h); }
  }

  /** The transition of `rollback`. */
  function Rollback(c: Controller, target: PolicyHash, sequence: int, reason: string): Result<Controller, Error> {
    var invalid := SequenceError(c, sequence);
    if invalid.Some? then Err(invalid.value)
    else
      var walk := WalkError(c.known, c.current);
      if walk.Some? then Err(walk.value)
      else if target !in Ancestors(c.current.hash) * ActivatedHashes(c.history) then Err(NotAnActivatedAncestor)
      else
        var snapshot, activation := FindSnapshot(c.known, target), FindActivation(c.history, target);
        if snapshot.None? || activation.None? then Err(SnapshotUnavailable)
        else if !ReasonOk(reason) then Err(InvalidReason)
        else
          Ok(c.(current := snapshot.value,
                history := c.history + [Row(sequence, snapshot.value.hash, c.current.hash, activation.value.score,
                                            RolledBack, reason)]))
  }
}
