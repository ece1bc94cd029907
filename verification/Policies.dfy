/** Search policies and the staged validation that a candidate must pass. Content hashes
    are an injective constructor, so a snapshot's hash contains its whole ancestry. */
module Policies {
  import opened Wrappers

  datatype Selector = Elite | Diverse | Underexplored | ScoreTier | Uncertain | ParetoSelector | Baseline

  datatype StopRules = StopRules(maxAttempts: nat, maxCost: real, otherRules: string)

  datatype Dsl = Dsl(
    parentSelector: Selector, inspirationSelector: string, explorerFraction: real, optimizerFraction: real,
    variationWeights: seq<(string, real)>, briefingTemplate: string, maxWidth: nat, maxDepth: nat,
    maxConcurrency: nat, diversityFloor: real, reseedInterval: nat, memoryVisibility: string,
    islandVisibility: string, stopRules: StopRules)

  datatype PolicyHash = Sealed(body: Body)

  datatype Body = Body(
    policyId: string, parentId: Option<string>, parentHash: Option<PolicyHash>, campaign: string,
    policy: Dsl, windowId: string, created: nat)

  /** A presented snapshot; its recorded hash may be wrong. */
  datatype Snapshot = Snapshot(body: Body, hash: PolicyHash)

  datatype Stage = SchemaStage | StaticStage | SimulationStage | ShadowStage

  datatype StageReceipt = StageReceipt(stage: Stage, policy: PolicyHash, parent: Option<PolicyHash>, passed: bool,
                                       reason: string)

  const STAGES: seq<Stage> := [SchemaStage, StaticStage, SimulationStage, ShadowStage]

  /** What the snapshot type itself enforces, its own hash included. */
  predicate WellFormed(s: Snapshot) {
    && s.hash == Sealed(s.body)
    && s.body.parentId != Some(s.body.policyId)
  }

  // --------------------------------------------------------- static validation

  const MAX_WIDTH_DEPTH := 4096
  const MAX_MUTATION_FIELDS := 3

  datatype FieldValue =
    | OfSelector(selector: Selector) | OfText(text: string) | OfFraction(fraction: real) | OfNumber(number: nat)
    | OfWeights(weights: seq<(string, real)>) | OfRules(rules: StopRules)

  /** The top-level fields of a policy, in declaration order. */
  function Fields(p: Dsl): (fields: seq<FieldValue>)
    ensures |fields| == 14
  {
    [OfSelector(p.parentSelector), OfText(p.inspirationSelector), OfFraction(p.explorerFraction),
     OfFraction(p.optimizerFraction), OfWeights(p.variationWeights), OfText(p.briefingTemplate), OfNumber(p.maxWidth),
     OfNumber(p.maxDepth), OfNumber(p.maxConcurrency), OfFraction(p.diversityFloor), OfNumber(p.reseedInterval),
     OfText(p.memoryVisibility), OfText(p.islandVisibility), OfRules(p.stopRules)]
  }

  function Differences(a: seq<FieldValue>, b: seq<FieldValue>): nat
    requires |a| == |b|
  {
    if a == [] then 0 else (if a[0] == b[0] then 0 else 1) + Differences(a[1..], b[1..])
  }

  /** How many top-level fields differ. */
  function ChangedFields(a: Dsl, b: Dsl): nat {
    Differences(Fields(a), Fields(b))
  }

  function Absolute(x: real): real {
    if x < 0.0 then -x else x
  }

  datatype StaticFault =
    | FractionsOff | EliteWithoutDiversity | EnvelopeExceeded | OrphanNamesParent | ParentUnsound
    | ParentIdMismatch | ParentHashMismatch | CampaignMismatch | TooManyChanges

  function StaticCheck(candidate: Body, parent: Option<Snapshot>): Option<StaticFault> {
    var p := candidate.policy;
    if Absolute(p.explorerFraction + p.optimizerFraction - 1.0) > 0.000000001 then Some(FractionsOff)
    else if p.parentSelector.Elite? && p.diversityFloor <= 0.0 then Some(EliteWithoutDiversity)
    else if p.maxWidth * p.maxDepth > MAX_WIDTH_DEPTH then Some(EnvelopeExceeded)
    else if parent.None? then
      if candidate.parentId.Some? || candidate.parentHash.Some? then Some(OrphanNamesParent) else None
    else if !WellFormed(parent.value) then Some(ParentUnsound)
    else if candidate.parentId != Some(parent.value.body.policyId) then Some(ParentIdMismatch)
    else if candidate.parentHash != Some(parent.value.hash) then Some(ParentHashMismatch)
    else if candidate.campaign != parent.value.body.campaign then Some(CampaignMismatch)
    else if ChangedFields(p, parent.value.body.policy) > MAX_MUTATION_FIELDS then Some(TooManyChanges)
    else None
  }

  lemma {:induction false} DifferencesAddUp(a: seq<FieldValue>, b: seq<FieldValue>, c: seq<FieldValue>)
    requires |a| == |b| == |c|
    ensures Differences(a, c) <= Differences(a, b) + Differences(b, c)
    ensures Differences(a, a) == 0
  {
    if a != [] { DifferencesAddUp(a[1..], b[1..], c[1..]); }
  }

  /** Field changes add up at most. */
  lemma ChangesAddUp(a: Dsl, b: Dsl, c: Dsl)
    ensures ChangedFields(a, c) <= ChangedFields(a, b) + ChangedFields(b, c)
    ensures ChangedFields(a, a) == 0
  {
    DifferencesAddUp(Fields(a), Fields(b), Fields(c));
  }

  // ----------------------------------------------------------- staged receipts

  /** SCHEMA, STATIC, SIMULATION, SHADOW, stopping at the first failure; the dry run's
      verdict on the window is an input. */
  method ValidatePolicy(candidate: Snapshot, parent: Option<Snapshot>, simulated: bool)
    returns (receipts: seq<StageReceipt>)
    ensures receipts == Receipts(candidate, parent, simulated)
  {
    var parentHash := if parent.Some? then Some(parent.value.hash) else None;
    if !WellFormed(candidate) {
      return [StageReceipt(SchemaStage, candidate.hash, parentHash, false, "schema failed")];
    }
    receipts := [StageReceipt(SchemaStage, candidate.hash, parentHash, true, "schema passed")];
    var fault := StaticCheck(candidate.body, parent);
    receipts := receipts + [StageReceipt(StaticStage, candidate.hash, parentHash, fault.None?,
                                         if fault.None? then "static passed" else "static failed")];
    if fault.Some? {
      return;
    }
    receipts := receipts + [StageReceipt(SimulationStage, candidate.hash, parentHash, simulated,
                                         if simulated then "simulation passed" else "simulation failed")];
    if !simulated {
      return;
    }
    receipts := receipts + [StageReceipt(ShadowStage, candidate.hash, parentHash, true, "shadow passed")];
  }

  /** The stages that pass, in order. */
  function PassedStages(candidate: Snapshot, parent: Option<Snapshot>, simulated: bool): nat {
    if !WellFormed(candidate) then 0
    else if StaticCheck(candidate.body, parent).Some? then 1
    else if !simulated then 2
    else 4
  }

  function Verdict(stage: Stage, passed: bool): string {
    match stage
    case SchemaStage => if passed then "schema passed" else "schema failed"
    case StaticStage => if passed then "static passed" else "static failed"
    case SimulationStage => if passed then "simulation passed" else "simulation failed"
    case ShadowStage => if passed then "shadow passed" else "shadow failed"
  }

  /** One receipt per stage up to and including the first failed one. */
  function Receipts(candidate: Snapshot, parent: Option<Snapshot>, simulated: bool): seq<StageReceipt> {
    var parentHash := if parent.Some? then Some(parent.value.hash) else None;
    var n := PassedStages(candidate, parent, simulated);
    seq(if n == 4 then 4 else n + 1,
        i requires 0 <= i <= n && i < 4 =>
          StageReceipt(STAGES[i], candidate.hash, parentHash, i < n, Verdict(STAGES[i], i < n)))
  }

  datatype Fault = Fault(stage: Stage, reason: string)

  /** `_failed_stage`: the first stage without a matching PASSED receipt. */
  method FailedStage(receipts: seq<StageReceipt>, policy: PolicyHash, parent: Option<PolicyHash>)
    returns (fault: Option<Fault>)
    ensures fault.None? <==> AllPassed(receipts, policy, parent)
    ensures fault.Some? ==>
      exists k :: FirstGap(receipts, policy, parent, k) && fault.value.stage == STAGES[if k == 4 then 3 else k]
    ensures fault.Some? && |receipts| <= 4 && receipts != [] && !receipts[|receipts| - 1].passed
            && (forall i | 0 <= i < |receipts| - 1 :: Matches(receipts[i], i, policy, parent))
            && Names(receipts[|receipts| - 1], |receipts| - 1, policy, parent) ==>
      fault.value == Fault(STAGES[|receipts| - 1], receipts[|receipts| - 1].reason)
  {
    var k := 0;
    while k < 4
      invariant k <= 4 && (forall i | 0 <= i < k :: i < |receipts| && Matches(receipts[i], i, policy, parent))
    {
      if k >= |receipts| {
        assert FirstGap(receipts, policy, parent, k);
        return Some(Fault(STAGES[k], "PASSED receipt missing"));
      }
      var r := receipts[k];
      if r.stage != STAGES[k] {
        assert FirstGap(receipts, policy, parent, k);
        return Some(Fault(STAGES[k], "ordered receipt missing"));
      }
      if r.policy != policy {
        assert FirstGap(receipts, policy, parent, k);
        return Some(Fault(STAGES[k], "receipt policy mismatch"));
      }
      if r.parent != parent {
        assert FirstGap(receipts, policy, parent, k);
        return Some(Fault(STAGES[k], "receipt parent mismatch"));
      }
      if !r.passed {
        assert FirstGap(receipts, policy, parent, k);
        return Some(Fault(STAGES[k], r.reason));
      }
      k := k + 1;
    }
    if |receipts| != 4 {
      assert FirstGap(receipts, policy, parent, 4);
      return Some(Fault(ShadowStage, "unexpected surplus validation receipt"));
    }
    fault := None;
  }

  predicate Names(r: StageReceipt, i: int, policy: PolicyHash, parent: Option<PolicyHash>) {
    0 <= i < 4 && r.stage == STAGES[i] && r.policy == policy && r.parent == parent
  }

  predicate Matches(r: StageReceipt, i: int, policy: PolicyHash, parent: Option<PolicyHash>) {
    Names(r, i, policy, parent) && r.passed
  }

  predicate AllPassed(receipts: seq<StageReceipt>, policy: PolicyHash, parent: Option<PolicyHash>) {
    |receipts| == 4 && forall i | 0 <= i < 4 :: Matches(receipts[i], i, policy, parent)
  }

  /** The first position at which the four ordered PASSED receipts break off. */
  predicate FirstGap(receipts: seq<StageReceipt>, policy: PolicyHash, parent: Option<PolicyHash>, k: nat) {
    && k <= 4
    && (forall i | 0 <= i < k :: i < |receipts| && Matches(receipts[i], i, policy, parent))
    && (if k == 4 then |receipts| != 4 else k >= |receipts| || !Matches(receipts[k], k, policy, parent))
  }

  /** On the validator's own receipts, the stage found is the stage that failed: the
      checks for missing, misordered or foreign receipts never fire. */
  lemma OwnReceiptsFailHonestly(candidate: Snapshot, parent: Snapshot, simulated: bool)
    ensures var n := PassedStages(candidate, Some(parent), simulated);
      var r := Receipts(candidate, Some(parent), simulated);
      && (AllPassed(r, candidate.hash, Some(parent.hash)) <==> n == 4)
      && (n < 4 ==> |r| == n + 1 && Names(r[n], n, candidate.hash, Some(parent.hash)) && !r[n].passed
                    && (forall i | 0 <= i < n :: Matches(r[i], i, candidate.hash, Some(parent.hash)))
                    && forall k: nat | FirstGap(r, candidate.hash, Some(parent.hash), k) :: k == n)
  {
    var n := PassedStages(candidate, Some(parent), simulated);
    var r := Receipts(candidate, Some(parent), simulated);
    if n < 4 {
      assert !Matches(r[n], n, candidate.hash, Some(parent.hash));
      forall k: nat | k < n ensures !FirstGap(r, candidate.hash, Some(parent.hash), k) {
        assert Matches(r[k], k, candidate.hash, Some(parent.hash));
      }
    }
  }
}
