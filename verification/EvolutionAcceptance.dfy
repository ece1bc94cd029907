/** Exactly which candidates become the active policy, read off their fields, and which
    stage rejects the others. */
module EvolutionAcceptance {
  import opened Evolution
  import opened EvolutionTheorems
  import opened Policies
  import opened Wrappers

  // -------------------------------------------------------------- the three checks

  /** The recorded hash seals the body, and nobody is its own parent. */
  predicate SchemaSound(s: Snapshot) {
    s.hash == Sealed(s.body) && s.body.parentId != Some(s.body.policyId)
  }

  /** Role fractions sum to one within a billionth, elites leave room for diversity, and the
      search stays in its envelope. */
  predicate BoundsSound(p: Dsl) {
    && -0.000000001 <= p.explorerFraction + p.optimizerFraction - 1.0 <= 0.000000001
    && (p.parentSelector == Elite ==> p.diversityFloor > 0.0)
    && p.maxWidth * p.maxDepth <= 4096
  }

  /** The positions of the top-level fields in which two policies differ. */
  function Differing(a: Dsl, b: Dsl): set<nat> {
    set i: nat | i < 14 && Fields(a)[i] != Fields(b)[i]
  }

  /** The candidate is a small step from the policy that it names, in the same campaign. */
  predicate SmallStepFrom(s: Snapshot, parent: Snapshot) {
    && s.body.parentId == Some(parent.body.policyId) && s.body.parentHash == Some(parent.hash)
    && s.body.campaign == parent.body.campaign
    && |Differing(s.body.policy, parent.body.policy)| <= 3
  }

  /** No field of a policy escapes the comparison. */
  lemma FieldsDetermine(a: Dsl, b: Dsl)
    ensures Differing(a, b) == {} <==> a == b
  {
    if Differing(a, b) == {} {
      forall i | 0 <= i < 14 ensures Fields(a)[i] == Fields(b)[i] {
        assert i !in Differing(a, b);
      }
      SameFields(a, b);
    }
  }

  lemma SameFields(a: Dsl, b: Dsl)
    requires forall i | 0 <= i < 14 :: Fields(a)[i] == Fields(b)[i]
    ensures a == b
  {
    assert Fields(a)[0] == Fields(b)[0] && Fields(a)[1] == Fields(b)[1] && Fields(a)[2] == Fields(b)[2];
    assert Fields(a)[3] == Fields(b)[3] && Fields(a)[4] == Fields(b)[4] && Fields(a)[5] == Fields(b)[5];
    assert Fields(a)[6] == Fields(b)[6] && Fields(a)[7] == Fields(b)[7] && Fields(a)[8] == Fields(b)[8];
    assert Fields(a)[9] == Fields(b)[9] && Fields(a)[10] == Fields(b)[10] && Fields(a)[11] == Fields(b)[11];
    assert Fields(a)[12] == Fields(b)[12] && Fields(a)[13] == Fields(b)[13];
  }

  function DifferingFrom(a: seq<FieldValue>, b: seq<FieldValue>, k: nat): set<nat>
    requires |a| == |b| && k <= |a|
  {
    set i: nat | k <= i < |a| && a[i] != b[i]
  }

  /** Counting field by field is counting the differing positions. */
  lemma {:induction false} CountDiffering(a: seq<FieldValue>, b: seq<FieldValue>, k: nat)
    requires |a| == |b| && k <= |a|
    ensures Differences(a[k..], b[k..]) == |DifferingFrom(a, b, k)|
    decreases |a| - k
  {
    if k == |a| {
      assert DifferingFrom(a, b, k) == {};
    } else {
      CountDiffering(a, b, k + 1);
      assert a[k..][1..] == a[k + 1..] && b[k..][1..] == b[k + 1..];
      var rest := DifferingFrom(a, b, k + 1);
      assert DifferingFrom(a, b, k) == if a[k] == b[k] then rest else {k} + rest;
    }
  }

  lemma ChangedIsDiffering(a: Dsl, b: Dsl)
    ensures ChangedFields(a, b) == |Differing(a, b)|
  {
    CountDiffering(Fields(a), Fields(b), 0);
    assert Fields(a)[0..] == Fields(a) && Fields(b)[0..] == Fields(b);
    assert DifferingFrom(Fields(a), Fields(b), 0) == Differing(a, b);
  }

  // ------------------------------------------------------------------- the stages

  /** A candidate without a supplied parent must not name one. */
  predicate LineageSound(s: Snapshot, parent: Option<Snapshot>) {
    match parent
    case None => s.body.parentId.None? && s.body.parentHash.None?
    case Some(p) => SchemaSound(p) && SmallStepFrom(s, p)
  }

  /** The condition of each stage; the shadow stage adds none. */
  predicate StageHolds(stage: Stage, s: Snapshot, parent: Option<Snapshot>, simulated: bool) {
    match stage
    case SchemaStage => SchemaSound(s)
    case StaticStage => BoundsSound(s.body.policy) && LineageSound(s, parent)
    case SimulationStage => simulated
    case ShadowStage => true
  }

  lemma StaticMeans(s: Snapshot, parent: Option<Snapshot>)
    ensures StaticCheck(s.body, parent).None? <==> StageHolds(StaticStage, s, parent, true)
  {
    if parent.Some? { ChangedIsDiffering(s.body.policy, parent.value.body.policy); }
  }

  /** Validation runs the stages in order: it writes one receipt per stage, PASSED exactly
      where the stage's condition holds, and stops after the first that fails. */
  lemma ValidationFollowsStages(s: Snapshot, parent: Option<Snapshot>, simulated: bool)
    ensures var r := Receipts(s, parent, simulated);
      && 1 <= |r| <= 4
      && (forall i | 0 <= i < |r| ::
            && r[i].stage == STAGES[i] && r[i].policy == s.hash
            && r[i].parent == (if parent.Some? then Some(parent.value.hash) else None)
            && (r[i].passed <==> StageHolds(STAGES[i], s, parent, simulated)))
      && (forall i | 0 <= i < |r| - 1 :: r[i].passed)
      && (|r| < 4 ==> !r[|r| - 1].passed)
  {
    StaticMeans(s, parent);
  }

  // ---------------------------------------------------------------- the decision

  /** What considering a candidate concludes. */
  function Conclusion(s: Snapshot, active: Snapshot, simulated: bool): Verdict {
    if !SchemaSound(s) then Rejected(SchemaStage)
    else if !BoundsSound(s.body.policy) || !SmallStepFrom(s, active) then Rejected(StaticStage)
    else if !simulated then Rejected(SimulationStage)
    else Activated
  }

  predicate FreshSequence(c: Controller, sequence: int) {
    sequence >= 0 && forall i | 0 <= i < |c.history| :: c.history[i].sequence < sequence
  }

  lemma FreshIsNoError(root: Snapshot, c: Controller, sequence: int)
    requires ControllerOk(root, c)
    ensures FreshSequence(c, sequence) <==> SequenceError(c, sequence).None?
  {
  }

  lemma ConcludedStages(s: Snapshot, active: Snapshot, simulated: bool)
    requires SchemaSound(active)
    ensures var n := PassedStages(s, Some(active), simulated);
      Conclusion(s, active, simulated) == if n == 4 then Activated else Rejected(STAGES[n])
  {
    StaticMeans(s, Some(active));
  }

  /** A policy never names itself as its parent by hash. */
  lemma NotItsOwnParent(s: Snapshot)
    requires s.hash == Sealed(s.body)
    ensures s.body.parentHash != Some(s.hash)
  {
  }

  lemma ActiveIsSound(root: Snapshot, c: Controller)
    requires ControllerOk(root, c)
    ensures SchemaSound(c.current)
  {
    var i :| 0 <= i < |c.known| && c.known[i] == c.current;
    assert WellFormed(c.known[i]);
  }

  /** A call under a stale sequence number, or with the active policy itself, changes
      nothing. Any other adds exactly one row with the conclusion; an activation makes the
      candidate the active policy and keeps it, and nothing else does. */
  lemma ConsiderDecides(root: Snapshot, c: Controller, s: Snapshot, window: string, simulated: bool, sequence: int)
    requires ControllerOk(root, c)
    ensures var next := Perform(c, Considers(s, window, simulated, sequence));
      var verdict := Conclusion(s, c.current, simulated);
      if !FreshSequence(c, sequence) || s.hash == c.current.hash then next == c
      else
        && |next.history| == |c.history| + 1 && c.history <= next.history
        && (if verdict == Activated then next.current == s && next.known == c.known + [s]
            else next.current == c.current && next.known == c.known && next.activations == c.activations)
        && var row := next.history[|c.history|];
           && row.sequence == sequence && row.policy == s.hash && row.parent == c.current.hash
           && row.score == ScoreHash(c.current.hash, window) && row.verdict == verdict
  {
    ActiveIsSound(root, c);
    FreshIsNoError(root, c, sequence);
    ConcludedStages(s, c.current, simulated);
  }

  /** So a candidate is activated if and only if the sequence number is new, its hash seals
      its body, its fields are within bounds, it is a small step from the active policy and
      the simulation passed. */
  lemma ActivatedIff(root: Snapshot, c: Controller, s: Snapshot, window: string, simulated: bool, sequence: int)
    requires ControllerOk(root, c)
    ensures var next := Perform(c, Considers(s, window, simulated, sequence));
      (next.history != c.history && next.history[|next.history| - 1].verdict == Activated && next.current == s)
      <==> && FreshSequence(c, sequence) && SchemaSound(s) && BoundsSound(s.body.policy)
           && SmallStepFrom(s, c.current) && simulated
  {
    ConsiderDecides(root, c, s, window, simulated, sequence);
    if SchemaSound(s) { NotItsOwnParent(s); }
  }

  // -------------------------------------------------------------------- rollback

  /** A rollback that goes through records its row and restores the policy, keeping every
      known snapshot and activation; any other call changes nothing. */
  lemma RollbackRestores(root: Snapshot, c: Controller, target: PolicyHash, sequence: int, reason: string)
    requires ControllerOk(root, c)
    ensures var next := Perform(c, RollsBack(target, sequence, reason));
      if !(FreshSequence(c, sequence) && 1 <= |reason| <= 512 && target in Ancestors(c.current.hash)
           && target != root.hash)
      then next == c
      else
        && next.current == Unsealed(target) && next.known == c.known && next.activations == c.activations
        && |next.history| == |c.history| + 1 && c.history <= next.history
        && var row := next.history[|c.history|];
           && row.sequence == sequence && row.policy == target && row.parent == c.current.hash
           && row.verdict == RolledBack && row.reason == reason
  {
    FreshIsNoError(root, c, sequence);
    RollbackSucceedsIff(root, c, target, sequence, reason);
  }
}
