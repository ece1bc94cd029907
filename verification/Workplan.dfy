/** What each gateway transaction decides: the first error in source order, or the
    rows its card has afterwards. */
module Workplan {
  import opened Paths
  import opened Records
  import opened Wrappers

  datatype ErrorCode =
    | InvalidPath | InvalidPaths | InvalidDefinition | InvalidRepository | CoordinatorRequired
    | DependencyUnmet | PathConflict | StaleRevision | InvalidTransition | ExpectedRevisionRequired
    | InvalidLease | WorkerRequired | CardNotFound | DefinitionChanged | CardNotReady
    | OwnerNamespaceDenied | WipLimit | ReservationLost | IntegrityError | FenceExpired
    | ClaimNotActive | OwnerMismatch | StaleFence | ClaimBundleInvalid | InvalidLineage
    | WorktreeNotBound | LineageMismatch | InvalidWorktree | RepositoryMismatch | WorktreeAlreadyBound
    | InvalidCheckpoint | InvalidReason | EvidenceRequired | InvalidAncestry | ReviewHeadMismatch
    | SelfApproval | IntegrationRequired | InvalidOwner | InvalidBackend | SnapshotRequired
    | StaleEpoch | ActiveClaims | BackendUnchanged

  datatype OwnerAction =
    | Checkpoint(checkpoint: string, evidence: seq<string>, lineage: Lineage)
    | Block(reason: string, retainPaths: bool)
    | Resume
    | Submit(evidence: seq<string>, lineage: Lineage)

  datatype CoordinatorAction =
    | Integrate(integratedCommit: string, reviewHead: string, ancestry: MergeEvidence, evidence: seq<string>)
    | Accept(evidence: seq<string>)
    | Cancel(reason: string)
    | Requeue(reason: string)

  /** One transaction on one card. `Preflight` is the separate expiry transaction. */
  datatype Command =
    | Qualify(title: string, rawPaths: seq<string>, definition: Definition, dependencies: set<CardId>,
              priority: int, expected: Option<nat>, ready: bool, repositoryId: string)
    | TakeClaim(revision: nat, expectedDefinition: Digest, leaseSeconds: int, claimId: ClaimId)
    | Preflight
    | ByOwner(revision: nat, token: nat, step: OwnerAction)
    | Bind(revision: nat, token: nat, repositoryId: string, worktreePath: string, branch: string, baseCommit: string)
    | Heartbeat(token: nat, leaseSeconds: int)
    | ByCoordinator(revision: nat, token: nat, decision: CoordinatorAction)
    | Reassign(revision: nat, newOwner: Actor, leaseSeconds: int, reason: string, claimId: ClaimId)
    | Revalidate(revision: nat, definition: Definition)
    | Notice(delivery: string)

  /** The rows of one card after a transaction. `mint` stores a fresh bundle for the
      open claim; `binding`, when present, becomes the open claim's binding. */
  datatype Delta = Delta(
    card: Card, claim: Option<Claim>, closeReason: string, rows: map<string, nat>,
    binding: Option<Binding>, mint: bool, event: Option<Event>, actor: Actor, token: Option<nat>)

  datatype Change = Refuse(code: ErrorCode) | Keep | Update(delta: Delta)

  // ---------------------------------------------------------------- checks

  function Namespace(actor: Actor): string {
    if actor == "" || actor[0] == ':' then "" else [actor[0]] + Namespace(actor[1..])
  }

  predicate IsCoordinator(actor: Actor) {
    "coordinator:" <= actor
  }

  const SUPPORTED_NAMESPACES := {"codex", "claude", "dev-orchestrator", "pi"}

  predicate Blank(s: string) {
    Strip(s) == ""
  }

  predicate ValidDefinition(d: Definition) {
    && !Blank(d.sourceRevision) && !Blank(d.worktreePath) && !Blank(d.branch) && !Blank(d.baseCommit)
    && d.worktreePath[0] == '/' && '\\' !in d.worktreePath
    && d.allowedOwnerNamespaces != []
    && (forall i | 0 <= i < |d.allowedOwnerNamespaces| :: d.allowedOwnerNamespaces[i] in SUPPORTED_NAMESPACES)
    && (forall i, j | 0 <= i < j < |d.allowedOwnerNamespaces| ::
          d.allowedOwnerNamespaces[i] != d.allowedOwnerNamespaces[j])
  }

  predicate HexDigits(s: string) {
    forall i | 0 <= i < |s| :: '0' <= s[i] <= '9' || 'a' <= s[i] <= 'f'
  }

  predicate Fingerprint(s: string) {
    "sha256:" <= s && |s| == 71 && HexDigits(s[7..])
  }

  predicate WhitespaceFree(s: string) {
    s != "" && forall i | 0 <= i < |s| :: !IsSpace(s[i])
  }

  predicate DependenciesDone(t: Tables, dependencies: set<CardId>) {
    forall d | d in dependencies :: d in t.cards && t.cards[d].status == Done
  }

  /** Some path overlaps a reservation of another card. */
  predicate Conflicts(t: Tables, c: CardId, paths: set<string>) {
    exists d | d in t.reservations && d != c :: Touches(paths, t.reservations[d])
  }

  predicate Touches(paths: set<string>, rows: map<string, nat>) {
    exists p | p in paths :: OverlapsAny(p, rows)
  }

  predicate OverlapsAny(p: string, rows: map<string, nat>) {
    exists q | q in rows :: Overlaps(p, q)
  }

  predicate HoldsClaim(t: Tables, owner: Actor) {
    exists d | d in t.open :: t.open[d].owner == owner
  }

  predicate ClaimIdUsed(t: Tables, id: ClaimId) {
    id in t.closed || exists d | d in t.open :: t.open[d].id == id
  }

  predicate BundleIntact(t: Tables, c: CardId, card: Card, claim: Claim) {
    BundleOf(t, claim) == Some(Seal(BundleMaterial(c, card, claim)))
  }

  function OptionalToken(generation: nat): Option<nat> {
    if generation == 0 then None else Some(generation)
  }

  function LastSubmit(log: seq<Receipt>): (i: int)
    ensures -1 <= i < |log|
    ensures i >= 0 ==> log[i].body.event.SubmitEvent?
    ensures forall j | i < j < |log| :: !log[j].body.event.SubmitEvent?
  {
    if log == [] then -1
    else if log[|log| - 1].body.event.SubmitEvent? then |log| - 1
    else LastSubmit(log[..|log| - 1])
  }

  function LastIntegrate(log: seq<Receipt>): (i: int)
    ensures -1 <= i < |log|
    ensures i >= 0 ==> log[i].body.event.IntegrateEvent?
    ensures forall j | i < j < |log| :: !log[j].body.event.IntegrateEvent?
  {
    if log == [] then -1
    else if log[|log| - 1].body.event.IntegrateEvent? then |log| - 1
    else LastIntegrate(log[..|log| - 1])
  }

  /** The owner's fence: open claim, owner, token, intact bundle, not frozen. */
  function OwnerFence(t: Tables, c: CardId, card: Card, token: nat, actor: Actor): Option<ErrorCode> {
    if c !in t.open then Some(ClaimNotActive)
    else if t.open[c].owner != actor then Some(OwnerMismatch)
    else if t.open[c].token != token || card.generation != token then Some(StaleFence)
    else if !BundleIntact(t, c, card, t.open[c]) then Some(ClaimBundleInvalid)
    else if card.revalidation then Some(DefinitionChanged)
    else None
  }

  function CoordinatorFence(t: Tables, c: CardId, card: Card, token: nat): Option<ErrorCode> {
    if c !in t.open then Some(ClaimNotActive)
    else if t.open[c].token != token || card.generation != token then Some(StaleFence)
    else if !BundleIntact(t, c, card, t.open[c]) then Some(ClaimBundleInvalid)
    else None
  }

  function LineageError(card: Card, binding: Option<Binding>, l: Lineage): Option<ErrorCode> {
    if !(WhitespaceFree(l.repositoryId) && WhitespaceFree(l.branch)
         && WhitespaceFree(l.baseCommit) && WhitespaceFree(l.headCommit)) then Some(InvalidLineage)
    else if binding.None? then Some(WorktreeNotBound)
    else if || binding.value.repositoryId != l.repositoryId || binding.value.branch != l.branch
            || binding.value.baseCommit != l.baseCommit
            || binding.value.worktreePath != card.definition.worktreePath
            || l.branch != card.definition.branch || l.baseCommit != card.definition.baseCommit
    then Some(LineageMismatch)
    else if || l.ancestry.baseCommit != l.baseCommit || l.ancestry.headCommit != l.headCommit
            || !l.ancestry.isDescendant || l.ancestry.verification == ""
    then Some(InvalidLineage)
    else None
  }

  // ---------------------------------------------------------- transactions

  function Expired(t: Tables, c: CardId, now: Time): bool {
    c in t.open && t.open[c].expiresAt <= now
  }

  /** The expiry transaction persists attention once; it never moves ownership. */
  function PreflightChange(t: Tables, c: CardId, now: Time): Change {
    if c !in t.cards then Refuse(CardNotFound)
    else if !Expired(t, c, now) || t.cards[c].attention then Keep
    else
      var card := t.cards[c];
      Update(Delta(card.(attention := true, revision := card.revision + 1), Some(t.open[c]), "", Rows(t, c), None,
                   false,
                   Some(LeaseExpiredEvent(t.open[c].id)), "gateway:expiry:sweep", Some(card.generation)))
  }

  function NormalizedPaths(raw: seq<string>): set<string> {
    set i | 0 <= i < |raw| && NormalizePath(raw[i]).Accepted? :: NormalizePath(raw[i]).path
  }

  function QualifyArgumentError(cmd: Command): Option<ErrorCode>
    requires cmd.Qualify?
  {
    if exists i | 0 <= i < |cmd.rawPaths| :: NormalizePath(cmd.rawPaths[i]).Rejected? then Some(InvalidPath)
    else if NormalizedPaths(cmd.rawPaths) == {} then Some(InvalidPaths)
    else if !ValidDefinition(cmd.definition) then Some(InvalidDefinition)
    else if !Fingerprint(cmd.repositoryId) then Some(InvalidRepository)
    else None
  }

  function QualifyError(t: Tables, c: CardId, cmd: Command, actor: Actor): Option<ErrorCode>
    requires cmd.Qualify?
  {
    if QualifyArgumentError(cmd).Some? then QualifyArgumentError(cmd)
    else if !IsCoordinator(actor) then Some(CoordinatorRequired)
    else if cmd.ready && !DependenciesDone(t, cmd.dependencies) then Some(DependencyUnmet)
    else if cmd.ready && Conflicts(t, c, NormalizedPaths(cmd.rawPaths)) then Some(PathConflict)
    else if c !in t.cards && cmd.expected !in {None, Some(0)} then Some(StaleRevision)
    else if c in t.cards && t.cards[c].status !in {Backlog, Ready} then Some(InvalidTransition)
    else if c in t.cards && cmd.expected.None? then Some(ExpectedRevisionRequired)
    else if c in t.cards && cmd.expected.value != t.cards[c].revision then Some(StaleRevision)
    else None
  }

  function QualifiedCard(was: Option<Card>, cmd: Command, paths: set<string>): Card
    requires cmd.Qualify?
  {
    var hash := DefinitionDigest(cmd.definition);
    var status := if cmd.ready then Ready else Backlog;
    if was.Some? then
      was.value.(title := cmd.title, status := status, revision := was.value.revision + 1,
                 definition := cmd.definition, definitionHash := hash, repositoryId := cmd.repositoryId,
                 priority := cmd.priority, paths := paths, dependencies := cmd.dependencies)
    else
      Card(cmd.title, status, None, 1, cmd.definition, hash, cmd.repositoryId, cmd.priority, 0,
           false, false, None, None, paths, cmd.dependencies)
  }

  function QualifyChange(t: Tables, c: CardId, cmd: Command, actor: Actor, now: Time): Change
    requires cmd.Qualify?
  {
    var error := QualifyError(t, c, cmd, actor);
    if error.Some? then Refuse(error.value)
    else Update(QualifyDelta(t, c, cmd, actor))
  }

  function QualifyDelta(t: Tables, c: CardId, cmd: Command, actor: Actor): Delta
    requires cmd.Qualify?
  {
    var paths := NormalizedPaths(cmd.rawPaths);
    var card := QualifiedCard(if c in t.cards then Some(t.cards[c]) else None, cmd, paths);
    Delta(card, OpenClaim(t, c), "", if cmd.ready then Reserve(paths, 0) else map[], None, false,
          Some(QualifyEvent(card.definitionHash, card.status)), actor, None)
  }

  function ClaimChange(t: Tables, c: CardId, cmd: Command, actor: Actor, now: Time): Change
    requires cmd.TakeClaim?
  {
    if cmd.leaseSeconds <= 0 then Refuse(InvalidLease)
    else if IsCoordinator(actor) then Refuse(WorkerRequired)
    else if c !in t.cards then Refuse(CardNotFound)
    else
      var card := t.cards[c];
      if cmd.revision != card.revision then Refuse(StaleRevision)
      else if cmd.expectedDefinition != card.definitionHash then Refuse(DefinitionChanged)
      else if card.status != Ready then Refuse(CardNotReady)
      else if Namespace(actor) !in card.definition.allowedOwnerNamespaces then Refuse(OwnerNamespaceDenied)
      else if HoldsClaim(t, actor) then Refuse(WipLimit)
      else if !DependenciesDone(t, card.dependencies) then Refuse(DependencyUnmet)
      else if Conflicts(t, c, card.paths) then Refuse(PathConflict)
      else if ClaimIdUsed(t, cmd.claimId) || c in t.open then Refuse(IntegrityError)
      else if |Rows(t, c)| != |card.paths| then Refuse(ReservationLost)
      else
        if (cmd.claimId, card.generation + 1) in t.bundles then Refuse(IntegrityError)
        else Update(ClaimDelta(t, c, cmd, actor, now))
  }

  function ClaimDelta(t: Tables, c: CardId, cmd: Command, actor: Actor, now: Time): Delta
    requires cmd.TakeClaim? && c in t.cards
  {
    var card := t.cards[c];
    var fence := card.generation + 1;
    Delta(card.(status := Claimed, owner := Some(actor), revision := card.revision + 1,
                generation := fence, attention := false),
          Some(Claim(cmd.claimId, c, actor, fence, card.definitionHash, now, now, now + cmd.leaseSeconds, None)), "",
          Reserve(Rows(t, c).Keys, fence), None, true,
          Some(ClaimEvent(cmd.claimId, card.definitionHash, card.paths)), actor, Some(fence))
  }

  predicate OwnerArgumentsOk(step: OwnerAction) {
    match step
    case Checkpoint(checkpoint, _, _) => checkpoint != ""
    case Block(reason, _) => reason != ""
    case Resume => true
    case Submit(evidence, lineage) => lineage.headCommit != "" && evidence != []
  }

  function OwnerArgumentError(step: OwnerAction): ErrorCode {
    match step
    case Checkpoint(_, _, _) => InvalidCheckpoint
    case Block(_, _) => InvalidReason
    case _ => EvidenceRequired
  }

  predicate OwnerMay(step: OwnerAction, status: Status) {
    match step
    case Checkpoint(_, _, _) => status == InProgress
    case Block(_, _) => status in {Claimed, InProgress, Review, Verifying}
    case Resume => status == Blocked
    case Submit(_, _) => status == InProgress
  }

  function OwnerTarget(step: OwnerAction): Status {
    match step
    case Checkpoint(_, _, _) => InProgress
    case Block(_, _) => Blocked
    case Resume => InProgress
    case Submit(_, _) => Review
  }

  function OwnerEvent(step: OwnerAction): Event {
    match step
    case Checkpoint(checkpoint, evidence, lineage) => CheckpointEvent(checkpoint, evidence, lineage)
    case Block(reason, retainPaths) => BlockEvent(reason, retainPaths)
    case Resume => ResumeEvent
    case Submit(evidence, lineage) => SubmitEvent(evidence, lineage)
  }

  function OwnerRows(t: Tables, c: CardId, card: Card, token: nat, step: OwnerAction): map<string, nat> {
    match step
    case Block(_, false) => map[]
    case Resume => if Rows(t, c) == map[] then Reserve(card.paths, token) else Rows(t, c)
    case _ => Rows(t, c)
  }

  function OwnerChange(t: Tables, c: CardId, cmd: Command, actor: Actor, now: Time): Change
    requires cmd.ByOwner?
  {
    if !OwnerArgumentsOk(cmd.step) then Refuse(OwnerArgumentError(cmd.step))
    else if c !in t.cards then Refuse(CardNotFound)
    else
      var card := t.cards[c];
      if cmd.revision != card.revision then Refuse(StaleRevision)
      else
        var fence := OwnerFence(t, c, card, cmd.token, actor);
        if fence.Some? then Refuse(fence.value)
        else if !OwnerMay(cmd.step, card.status) then Refuse(InvalidTransition)
        else
          var lineage :=
            if cmd.step.Checkpoint? || cmd.step.Submit? then
              LineageError(card, BindingOf(t, t.open[c]), cmd.step.lineage)
            else None;
          if lineage.Some? then Refuse(lineage.value)
          else if cmd.step.Resume? && Rows(t, c) == map[] && Conflicts(t, c, card.paths) then Refuse(PathConflict)
          else Update(OwnerDelta(t, c, cmd, actor))
  }

  function OwnerDelta(t: Tables, c: CardId, cmd: Command, actor: Actor): Delta
    requires cmd.ByOwner? && c in t.cards && c in t.open
  {
    var card := t.cards[c];
    Delta(card.(status := OwnerTarget(cmd.step), revision := card.revision + 1), Some(t.open[c]), "",
          OwnerRows(t, c, card, cmd.token, cmd.step), None, false,
          Some(OwnerEvent(cmd.step)), actor, Some(cmd.token))
  }

  function BindChange(t: Tables, c: CardId, cmd: Command, actor: Actor, now: Time): Change
    requires cmd.Bind?
  {
    if cmd.repositoryId == "" || cmd.worktreePath == "" || cmd.branch == "" || cmd.baseCommit == "" then
      Refuse(InvalidWorktree)
    else if c !in t.cards then Refuse(CardNotFound)
    else
      var card := t.cards[c];
      if cmd.revision != card.revision then Refuse(StaleRevision)
      else
        var fence := OwnerFence(t, c, card, cmd.token, actor);
        if fence.Some? then Refuse(fence.value)
        else if || cmd.worktreePath != card.definition.worktreePath || cmd.branch != card.definition.branch
                || cmd.baseCommit != card.definition.baseCommit then Refuse(LineageMismatch)
        else if cmd.repositoryId != card.repositoryId then Refuse(RepositoryMismatch)
        else if !(WhitespaceFree(cmd.repositoryId) && WhitespaceFree(cmd.branch) && WhitespaceFree(cmd.baseCommit)) then
          Refuse(InvalidLineage)
        else
          var prior := BindingOf(t, t.open[c]);
          var binding := Binding(c, cmd.token, cmd.repositoryId, cmd.worktreePath, cmd.branch, cmd.baseCommit);
          if prior.Some? then
            if prior.value.(card := c, token := cmd.token) == binding then Keep else Refuse(WorktreeAlreadyBound)
          else
            Update(Delta(card.(status := InProgress, revision := card.revision + 1), Some(t.open[c]), "", Rows(t, c),
                         Some(binding), false,
                         Some(BindEvent(cmd.repositoryId, cmd.worktreePath, cmd.branch, cmd.baseCommit)),
                         actor, Some(cmd.token)))
  }

  function HeartbeatChange(t: Tables, c: CardId, cmd: Command, actor: Actor, now: Time): Change
    requires cmd.Heartbeat?
  {
    if cmd.leaseSeconds <= 0 then Refuse(InvalidLease)
    else if c !in t.cards then Refuse(CardNotFound)
    else
      var fence := OwnerFence(t, c, t.cards[c], cmd.token, actor);
      if fence.Some? then Refuse(fence.value)
      else
        var claim := t.open[c].(heartbeatAt := now, expiresAt := now + cmd.leaseSeconds);
        Update(Delta(t.cards[c], Some(claim), "", Rows(t, c), None, false, None, actor, None))
  }

  predicate Fenced(decision: CoordinatorAction) {
    decision.Integrate? || decision.Accept?
  }

  /** Argument checks, and for `integrate` the read of the last submit receipt. */
  function CoordinatorArgumentError(t: Tables, c: CardId, decision: CoordinatorAction): Option<ErrorCode> {
    match decision
    case Integrate(commit, head, ancestry, evidence) =>
      if commit == "" || evidence == [] then Some(EvidenceRequired)
      else if || ancestry.reviewHead != head || ancestry.integratedCommit != commit
              || !ancestry.isAncestor || ancestry.verification == "" then Some(InvalidAncestry)
      else
        var submitted := LastSubmit(Log(t, c));
        if submitted < 0 || Log(t, c)[submitted].body.event.lineage.headCommit != head then Some(ReviewHeadMismatch)
        else None
    case Accept(evidence) => if evidence == [] then Some(EvidenceRequired) else None
    case Cancel(reason) => if reason == "" then Some(InvalidReason) else None
    case Requeue(reason) => if reason == "" then Some(InvalidReason) else None
  }

  predicate CoordinatorMay(decision: CoordinatorAction, status: Status) {
    match decision
    case Integrate(_, _, _, _) => status == Review
    case Accept(_) => status == Verifying
    case Cancel(_) => Active(status) || status in {Ready, Backlog}
    case Requeue(_) => Active(status)
  }

  function CoordinatorTarget(decision: CoordinatorAction): Status {
    match decision
    case Integrate(_, _, _, _) => Verifying
    case Accept(_) => Done
    case Cancel(_) => Cancelled
    case Requeue(_) => Ready
  }

  function CoordinatorEvent(decision: CoordinatorAction): Event {
    match decision
    case Integrate(commit, head, ancestry, evidence) => IntegrateEvent(commit, head, ancestry, evidence)
    case Accept(evidence) => AcceptEvent(evidence)
    case Cancel(reason) => CancelEvent(reason)
    case Requeue(reason) => RequeueEvent(reason)
  }

  function CloseReason(decision: CoordinatorAction): string {
    match decision
    case Integrate(_, _, _, _) => ""
    case Accept(_) => "accept"
    case Cancel(_) => "cancel"
    case Requeue(_) => "requeue"
  }

  predicate IntegrationRecorded(log: seq<Receipt>) {
    var i := LastIntegrate(log);
    i >= 0 && log[i].body.event.integratedCommit != "" && log[i].body.event.ancestry.isAncestor
  }

  function CoordinatorChange(t: Tables, c: CardId, cmd: Command, actor: Actor, now: Time): Change
    requires cmd.ByCoordinator?
  {
    var d := cmd.decision;
    var argument := CoordinatorArgumentError(t, c, d);
    if argument.Some? then Refuse(argument.value)
    else if Fenced(d) && c !in t.cards then Refuse(CardNotFound)
    else if !IsCoordinator(actor) then Refuse(CoordinatorRequired)
    else if c !in t.cards then Refuse(CardNotFound)
    else
      var card := t.cards[c];
      if cmd.revision != card.revision then Refuse(StaleRevision)
      else
        var fence := if Fenced(d) then CoordinatorFence(t, c, card, cmd.token) else None;
        if fence.Some? then Refuse(fence.value)
        else if !CoordinatorMay(d, card.status) then Refuse(InvalidTransition)
        else if Some(actor) == card.owner then Refuse(SelfApproval)
        else if d.Accept? && !IntegrationRecorded(Log(t, c)) then Refuse(IntegrationRequired)
        else if d.Requeue? && Conflicts(t, c, card.paths) then Refuse(PathConflict)
        else Update(DecisionDelta(t, c, d, actor))
  }

  function DecisionDelta(t: Tables, c: CardId, d: CoordinatorAction, actor: Actor): Delta
    requires c in t.cards
  {
    var card := t.cards[c];
    var moved := card.(status := CoordinatorTarget(d), revision := card.revision + 1,
                       owner := if d.Integrate? then card.owner else None);
    var next := if d.Integrate? then moved.(integratedBy := Some(actor), integratedCommit := Some(d.integratedCommit))
                else moved;
    Delta(next, if d.Integrate? then OpenClaim(t, c) else None, CloseReason(d),
          if d.Integrate? then Rows(t, c) else if d.Requeue? then Reserve(card.paths, 0) else map[],
          None, false, Some(CoordinatorEvent(d)), actor, OptionalToken(card.generation))
  }

  function ReassignChange(t: Tables, c: CardId, cmd: Command, actor: Actor, now: Time): Change
    requires cmd.Reassign?
  {
    if cmd.newOwner == "" || IsCoordinator(cmd.newOwner) || cmd.leaseSeconds <= 0 then Refuse(InvalidOwner)
    else if Blank(cmd.reason) then Refuse(InvalidReason)
    else if !IsCoordinator(actor) then Refuse(CoordinatorRequired)
    else if c !in t.cards then Refuse(CardNotFound)
    else
      var card := t.cards[c];
      if cmd.revision != card.revision then Refuse(StaleRevision)
      else if !Active(card.status) then Refuse(InvalidTransition)
      else if c !in t.open then Refuse(ClaimNotActive)
      else if HoldsClaim(t, cmd.newOwner) then Refuse(WipLimit)
      else if ClaimIdUsed(t, cmd.claimId) then Refuse(IntegrityError)
      else if Namespace(cmd.newOwner) !in card.definition.allowedOwnerNamespaces then Refuse(OwnerNamespaceDenied)
      else if Conflicts(t, c, card.paths) then Refuse(PathConflict)
      else
        if (cmd.claimId, card.generation + 1) in t.bundles then Refuse(IntegrityError)
        else Update(ReassignDelta(t, c, cmd, actor, now))
  }

  function ReassignDelta(t: Tables, c: CardId, cmd: Command, actor: Actor, now: Time): Delta
    requires cmd.Reassign? && c in t.cards
  {
    var card := t.cards[c];
    var fence := card.generation + 1;
    Delta(card.(status := Claimed, owner := Some(cmd.newOwner), revision := card.revision + 1,
                generation := fence, attention := false),
          Some(Claim(cmd.claimId, c, cmd.newOwner, fence, card.definitionHash, now, now, now + cmd.leaseSeconds, None)),
          "reassign", Reserve(card.paths, fence), None, true,
          Some(ReassignEvent(cmd.newOwner, cmd.reason, cmd.claimId)), actor, Some(fence))
  }

  function RevalidateError(t: Tables, c: CardId, cmd: Command, actor: Actor): Option<ErrorCode>
    requires cmd.Revalidate?
  {
    if !ValidDefinition(cmd.definition) then Some(InvalidDefinition)
    else if !IsCoordinator(actor) then Some(CoordinatorRequired)
    else if c !in t.cards then Some(CardNotFound)
    else if cmd.revision != t.cards[c].revision then Some(StaleRevision)
    else if c in t.open && Namespace(t.open[c].owner) !in cmd.definition.allowedOwnerNamespaces then
      Some(OwnerNamespaceDenied)
    else if c in t.open && (t.open[c].id, t.cards[c].generation + 1) in t.bundles then Some(IntegrityError)
    else None
  }

  function RevalidateChange(t: Tables, c: CardId, cmd: Command, actor: Actor, now: Time): Change
    requires cmd.Revalidate?
  {
    var error := RevalidateError(t, c, cmd, actor);
    if error.Some? then Refuse(error.value) else Update(RevalidateDelta(t, c, cmd, actor))
  }

  function RevalidateDelta(t: Tables, c: CardId, cmd: Command, actor: Actor): Delta
    requires cmd.Revalidate? && c in t.cards
  {
    var card := t.cards[c];
    var hash := DefinitionDigest(cmd.definition);
    var fence := if c in t.open then card.generation + 1 else card.generation;
    var next := card.(definition := cmd.definition, definitionHash := hash, revalidation := false,
                      revision := card.revision + 1, generation := fence);
    var event := RevalidateEvent(hash, fence);
    if c in t.open then
      var claim := t.open[c].(definitionHash := hash, token := fence);
      var prior := BindingOf(t, t.open[c]);
      Delta(next, Some(claim), "", Reserve(Rows(t, c).Keys, fence),
            if prior.Some? then Some(prior.value.(token := fence)) else None, true,
            Some(event), actor, OptionalToken(fence))
    else
      Delta(next, None, "", Rows(t, c), None, false, Some(event), actor, OptionalToken(fence))
  }

  /** A protected Linear change freezes an active card; the delivery itself is
      recorded by `DeliverNotice`. */
  function NoticeChange(t: Tables, c: CardId, cmd: Command, actor: Actor): Change
    requires cmd.Notice?
  {
    if c !in t.cards || c !in t.open || t.cards[c].revalidation then Keep
    else
      var card := t.cards[c];
      Update(Delta(card.(revalidation := true, attention := true, revision := card.revision + 1), Some(t.open[c]), "",
                   Rows(t, c), None, false, Some(DefinitionChangedEvent(cmd.delivery)), actor,
                   Some(card.generation)))
  }

  function ChangeOf(t: Tables, c: CardId, cmd: Command, actor: Actor, now: Time): Change {
    match cmd
    case Qualify(_, _, _, _, _, _, _, _) => QualifyChange(t, c, cmd, actor, now)
    case TakeClaim(_, _, _, _) => ClaimChange(t, c, cmd, actor, now)
    case Preflight => PreflightChange(t, c, now)
    case ByOwner(_, _, _) => OwnerChange(t, c, cmd, actor, now)
    case Bind(_, _, _, _, _, _) => BindChange(t, c, cmd, actor, now)
    case Heartbeat(_, _) => HeartbeatChange(t, c, cmd, actor, now)
    case ByCoordinator(_, _, _) => CoordinatorChange(t, c, cmd, actor, now)
    case Reassign(_, _, _, _, _) => ReassignChange(t, c, cmd, actor, now)
    case Revalidate(_, _) => RevalidateChange(t, c, cmd, actor, now)
    case Notice(_) => NoticeChange(t, c, cmd, actor)
  }

  // ---------------------------------------------------------------- effect

  function SetClaim(open: map<CardId, Claim>, c: CardId, claim: Option<Claim>): map<CardId, Claim> {
    if claim.Some? then open[c := claim.value] else open - {c}
  }

  function CloseReplaced(open: map<CardId, Claim>, closed: map<ClaimId, Claim>, c: CardId,
                         claim: Option<Claim>, closing: Closing): map<ClaimId, Claim> {
    if c in open && (claim.None? || claim.value.id != open[c].id) then
      closed[open[c].id := open[c].(closed := Some(closing))]
    else closed
  }

  function SetRows(reservations: map<CardId, map<string, nat>>, c: CardId, rows: map<string, nat>)
    : map<CardId, map<string, nat>> {
    if rows == map[] then reservations - {c} else reservations[c := rows]
  }

  function SetBinding(bindings: map<ClaimId, Binding>, claim: Option<Claim>, binding: Option<Binding>)
    : map<ClaimId, Binding> {
    if binding.Some? && claim.Some? then bindings[claim.value.id := binding.value] else bindings
  }

  function MintBundle(bundles: map<(ClaimId, nat), StoredBundle>, c: CardId, card: Card, claim: Option<Claim>,
                      mint: bool)
    : map<(ClaimId, nat), StoredBundle> {
    if mint && claim.Some? then
      bundles[(claim.value.id, claim.value.token) := Seal(BundleMaterial(c, card, claim.value))]
    else bundles
  }

  /** The rows of a successful transaction, before its receipt. */
  function Store(t: Tables, c: CardId, d: Delta, now: Time): Tables {
    t.(cards := t.cards[c := d.card],
       open := SetClaim(t.open, c, d.claim),
       closed := CloseReplaced(t.open, t.closed, c, d.claim, Closing(now, d.closeReason)),
       reservations := SetRows(t.reservations, c, d.rows),
       bindings := SetBinding(t.bindings, d.claim, d.binding),
       bundles := MintBundle(t.bundles, c, d.card, d.claim, d.mint))
  }

  function Revision(t: Tables, c: CardId): nat {
    if c in t.cards then t.cards[c].revision else 0
  }

  /** The committed tables after a successful transaction. */
  function Apply(t: Tables, c: CardId, d: Delta, now: Time): Tables {
    var u := Store(t, c, d, now);
    if d.event.None? then u
    else AppendReceipt(u, c, d.event.value, d.actor, Revision(t, c), d.card.revision, d.token, now)
  }

  function Commit(t: Tables, c: CardId, change: Change, now: Time): Tables {
    if change.Update? then Apply(t, c, change.delta, now) else t
  }
}
