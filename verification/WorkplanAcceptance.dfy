/** Exactly when an operation on a card is performed, in every state of a valid store. */
module WorkplanAcceptance {
  import opened Paths
  import opened Records
  import opened Workplan
  import opened WorkplanGrowth
  import opened WorkplanInvariant
  import opened WorkplanLease
  import opened WorkplanSteps
  import opened WorkplanTheorems
  import opened Wrappers

  /** The actor holds the card's unexpired claim under this token. */
  predicate HeldBy(t: Tables, c: CardId, token: nat, actor: Actor, now: Time) {
    c in t.cards && c in t.open && t.open[c].owner == actor && t.open[c].token == token && now < t.open[c].expiresAt
  }

  /** Some path overlaps a path that another card has reserved. */
  ghost predicate Taken(t: Tables, c: CardId, paths: set<string>) {
    exists d, p, q :: d != c && p in paths && q in Rows(t, d) && Overlaps(p, q)
  }

  lemma TakenIsConflict(t: Tables, c: CardId, paths: set<string>)
    ensures Taken(t, c, paths) <==> Conflicts(t, c, paths)
  {
    if Conflicts(t, c, paths) {
      var d :| d in t.reservations && d != c && Touches(paths, t.reservations[d]);
      var p :| p in paths && OverlapsAny(p, t.reservations[d]);
      var q :| q in t.reservations[d] && Overlaps(p, q);
      assert q in Rows(t, d);
    }
    if Taken(t, c, paths) {
      var d, p, q :| d != c && p in paths && q in Rows(t, d) && Overlaps(p, q);
      assert OverlapsAny(p, t.reservations[d]) && Touches(paths, t.reservations[d]);
    }
  }

  /** The lineage evidence is about the bound worktree of the frozen definition. */
  predicate FitsBinding(card: Card, binding: Option<Binding>, l: Lineage) {
    && WhitespaceFree(l.repositoryId) && WhitespaceFree(l.branch) && WhitespaceFree(l.baseCommit)
    && WhitespaceFree(l.headCommit)
    && binding.Some? && binding.value.repositoryId == l.repositoryId && binding.value.branch == l.branch
    && binding.value.baseCommit == l.baseCommit && binding.value.worktreePath == card.definition.worktreePath
    && l.branch == card.definition.branch && l.baseCommit == card.definition.baseCommit
    && l.ancestry.baseCommit == l.baseCommit && l.ancestry.headCommit == l.headCommit
    && l.ancestry.isDescendant && l.ancestry.verification != ""
  }

  /** What each owner step asks of its arguments and of the card. */
  ghost predicate StepFits(t: Tables, c: CardId, step: OwnerAction)
    requires c in t.cards && c in t.open
  {
    var card, binding := t.cards[c], BindingOf(t, t.open[c]);
    match step
    case Checkpoint(note, _, lineage) => note != "" && card.status == InProgress && FitsBinding(card, binding, lineage)
    case Block(reason, _) => reason != "" && card.status in {Claimed, InProgress, Review, Verifying}
    case Resume => card.status == Blocked && (Rows(t, c) == map[] ==> !Taken(t, c, card.paths))
    case Submit(evidence, lineage) => evidence != [] && card.status == InProgress && FitsBinding(card, binding, lineage)
  }

  /** An owner step is performed exactly for the unexpired holder at the card's revision,
      while the card is not frozen, with arguments that fit. */
  lemma ProgressIff(t: Tables, c: CardId, cmd: Command, actor: Actor, now: Time)
    requires Inv(t) && cmd.ByOwner?
    ensures Perform(t, Call(c, cmd, actor, now)).1 == Performed <==>
      && HeldBy(t, c, cmd.token, actor, now) && cmd.revision == t.cards[c].revision && !t.cards[c].revalidation
      && StepFits(t, c, cmd.step)
  {
    InvKnown(t, c);
    if c in t.cards { TakenIsConflict(t, c, t.cards[c].paths); }
    if c in t.cards && c in t.open { Intact(t, c); }
    ProgressDecided(t, c, cmd, actor, now);
  }

  lemma Intact(t: Tables, c: CardId)
    requires Known(t, c) && c in t.cards && c in t.open
    ensures t.open[c].token == t.cards[c].generation && BundleIntact(t, c, t.cards[c], t.open[c])
  {
  }

  lemma ProgressDecided(t: Tables, c: CardId, cmd: Command, actor: Actor, now: Time)
    requires cmd.ByOwner?
    requires c in t.cards ==> (Taken(t, c, t.cards[c].paths) <==> Conflicts(t, c, t.cards[c].paths))
    requires c in t.cards && c in t.open ==>
      t.open[c].token == t.cards[c].generation && BundleIntact(t, c, t.cards[c], t.open[c])
    ensures Perform(t, Call(c, cmd, actor, now)).1 == Performed <==>
      && HeldBy(t, c, cmd.token, actor, now) && cmd.revision == t.cards[c].revision && !t.cards[c].revalidation
      && StepFits(t, c, cmd.step)
  {
  }

  /** A heartbeat is performed exactly for the unexpired holder of a card that is not
      frozen, and a positive lease. */
  lemma HeartbeatIff(t: Tables, c: CardId, token: nat, seconds: int, actor: Actor, now: Time)
    requires Inv(t)
    ensures Perform(t, Call(c, Heartbeat(token, seconds), actor, now)).1 == Performed <==>
      HeldBy(t, c, token, actor, now) && !t.cards[c].revalidation && seconds > 0
  {
    InvKnown(t, c);
    if c in t.cards && c in t.open { Intact(t, c); }
    HeartbeatDecided(t, c, token, seconds, actor, now);
  }

  lemma HeartbeatDecided(t: Tables, c: CardId, token: nat, seconds: int, actor: Actor, now: Time)
    requires c in t.cards && c in t.open ==>
      t.open[c].token == t.cards[c].generation && BundleIntact(t, c, t.cards[c], t.open[c])
    ensures Perform(t, Call(c, Heartbeat(token, seconds), actor, now)).1 == Performed <==>
      HeldBy(t, c, token, actor, now) && !t.cards[c].revalidation && seconds > 0
  {
  }

  /** A binding is performed exactly for the unexpired holder at the card's revision, with
      the frozen worktree, repository, branch and base, unless another one is in place. */
  lemma BindIff(t: Tables, c: CardId, b: Command, actor: Actor, now: Time)
    requires Inv(t) && b.Bind?
    ensures Perform(t, Call(c, b, actor, now)).1 == Performed <==>
      && HeldBy(t, c, b.token, actor, now) && b.revision == t.cards[c].revision && !t.cards[c].revalidation
      && Frozen(t.cards[c], b) && Rebinds(BindingOf(t, t.open[c]), b)
  {
    InvKnown(t, c);
    if c in t.cards && c in t.open { Intact(t, c); }
    BindDecided(t, c, b, actor, now);
  }

  predicate Frozen(card: Card, b: Command)
    requires b.Bind?
  {
    && b.worktreePath == card.definition.worktreePath != "" && b.repositoryId == card.repositoryId
    && b.branch == card.definition.branch && b.baseCommit == card.definition.baseCommit
    && WhitespaceFree(b.repositoryId) && WhitespaceFree(b.branch) && WhitespaceFree(b.baseCommit)
  }

  predicate Rebinds(prior: Option<Binding>, b: Command)
    requires b.Bind?
  {
    prior.Some? ==> prior.value.repositoryId == b.repositoryId && prior.value.worktreePath == b.worktreePath
                    && prior.value.branch == b.branch && prior.value.baseCommit == b.baseCommit
  }

  lemma BindDecided(t: Tables, c: CardId, b: Command, actor: Actor, now: Time)
    requires b.Bind?
    requires c in t.cards && c in t.open ==>
      t.open[c].token == t.cards[c].generation && BundleIntact(t, c, t.cards[c], t.open[c])
    ensures Perform(t, Call(c, b, actor, now)).1 == Performed <==>
      && HeldBy(t, c, b.token, actor, now) && b.revision == t.cards[c].revision && !t.cards[c].revalidation
      && Frozen(t.cards[c], b) && Rebinds(BindingOf(t, t.open[c]), b)
  {
  }

  /** What each decision asks of its arguments, the card and its ledger. */
  ghost predicate DecisionFits(t: Tables, c: CardId, token: nat, d: CoordinatorAction, now: Time)
    requires c in t.cards
  {
    var status, submitted := t.cards[c].status, LastSubmit(Log(t, c));
    match d
    case Integrate(commit, head, ancestry, evidence) =>
      && c in t.open && t.open[c].token == token && now < t.open[c].expiresAt && status == Review
      && commit != "" && evidence != [] && ancestry.reviewHead == head && ancestry.integratedCommit == commit
      && ancestry.isAncestor && ancestry.verification != ""
      && submitted >= 0 && Log(t, c)[submitted].body.event.lineage.headCommit == head
    case Accept(evidence) =>
      c in t.open && t.open[c].token == token && now < t.open[c].expiresAt && status == Verifying && evidence != []
    case Cancel(reason) => reason != "" && status !in {Done, Cancelled}
    case Requeue(reason) => reason != "" && c in t.open && !Taken(t, c, t.cards[c].paths)
  }

  /** A decision is performed exactly for a coordinator at the card's revision, when it
      fits; approving one's own work or an acceptance without integration never comes up. */
  lemma DecisionIff(t: Tables, c: CardId, d: Command, actor: Actor, now: Time)
    requires Inv(t) && d.ByCoordinator?
    ensures Perform(t, Call(c, d, actor, now)).1 == Performed <==>
      && IsCoordinator(actor) && c in t.cards && d.revision == t.cards[c].revision
      && DecisionFits(t, c, d.token, d.decision, now)
  {
    InvKnown(t, c);
    InvKnownHistory(t, c);
    if c in t.cards {
      TakenIsConflict(t, c, t.cards[c].paths);
      DecisionFacts(t, c);
    }
    DecisionDecided(t, c, d, actor, now);
  }

  /** What the invariant settles about a decision beforehand. */
  ghost predicate Decidable(t: Tables, c: CardId)
    requires c in t.cards
  {
    var card := t.cards[c];
    && (c in t.open ==> t.open[c].token == card.generation && BundleIntact(t, c, card, t.open[c]))
    && (card.owner.Some? ==> !IsCoordinator(card.owner.value)) && (Active(card.status) <==> c in t.open)
    && (card.status == Verifying ==> IntegrationRecorded(Log(t, c)))
  }

  lemma DecisionFacts(t: Tables, c: CardId)
    requires Known(t, c) && KnownHistory(t, c) && c in t.cards
    ensures Decidable(t, c)
  {
  }

  lemma DecisionDecided(t: Tables, c: CardId, d: Command, actor: Actor, now: Time)
    requires d.ByCoordinator? && (c in t.cards ==> Decidable(t, c))
    requires c in t.cards ==> (Taken(t, c, t.cards[c].paths) <==> Conflicts(t, c, t.cards[c].paths))
    ensures Perform(t, Call(c, d, actor, now)).1 == Performed <==>
      && IsCoordinator(actor) && c in t.cards && d.revision == t.cards[c].revision
      && DecisionFits(t, c, d.token, d.decision, now)
  {
  }

  /** A reassignment is performed exactly by a coordinator at the revision of a claimed
      card, to another worker of an allowed namespace who holds nothing, for a positive
      lease under a new claim id, while nobody else has taken a path. */
  lemma ReassignIff(t: Tables, c: CardId, r: Command, actor: Actor, now: Time)
    requires Inv(t) && r.Reassign?
    ensures Perform(t, Call(c, r, actor, now)).1 == Performed <==>
      && IsCoordinator(actor) && c in t.cards && c in t.open && r.revision == t.cards[c].revision
      && r.newOwner != "" && !IsCoordinator(r.newOwner) && r.leaseSeconds > 0 && Strip(r.reason) != ""
      && Namespace(r.newOwner) in t.cards[c].definition.allowedOwnerNamespaces
      && (forall d | d in t.open :: t.open[d].owner != r.newOwner) && !ClaimIdUsed(t, r.claimId)
      && !Taken(t, c, t.cards[c].paths)
  {
    InvKnown(t, c);
    InvKnownHistory(t, c);
    if c in t.cards {
      TakenIsConflict(t, c, t.cards[c].paths);
      DecisionFacts(t, c);
      if !ClaimIdUsed(t, r.claimId) { UnusedIdUnminted(t, r.claimId, t.cards[c].generation + 1); }
    }
    ReassignDecided(t, c, r, actor, now);
  }

  lemma ReassignDecided(t: Tables, c: CardId, r: Command, actor: Actor, now: Time)
    requires r.Reassign? && (c in t.cards ==> (Active(t.cards[c].status) <==> c in t.open))
    requires c in t.cards ==> (Taken(t, c, t.cards[c].paths) <==> Conflicts(t, c, t.cards[c].paths))
    requires c in t.cards && !ClaimIdUsed(t, r.claimId) ==> (r.claimId, t.cards[c].generation + 1) !in t.bundles
    ensures Perform(t, Call(c, r, actor, now)).1 == Performed <==>
      && IsCoordinator(actor) && c in t.cards && c in t.open && r.revision == t.cards[c].revision
      && r.newOwner != "" && !IsCoordinator(r.newOwner) && r.leaseSeconds > 0 && Strip(r.reason) != ""
      && Namespace(r.newOwner) in t.cards[c].definition.allowedOwnerNamespaces
      && (forall d | d in t.open :: t.open[d].owner != r.newOwner) && !ClaimIdUsed(t, r.claimId)
      && !Taken(t, c, t.cards[c].paths)
  {
  }

  /** A revalidation is performed exactly by a coordinator at the card's revision, with a
      valid definition that still allows the holder. */
  lemma RevalidateIff(t: Tables, c: CardId, v: Command, actor: Actor, now: Time)
    requires Inv(t) && v.Revalidate?
    ensures Perform(t, Call(c, v, actor, now)).1 == Performed <==>
      && IsCoordinator(actor) && c in t.cards && v.revision == t.cards[c].revision && ValidDefinition(v.definition)
      && (c in t.open ==> Namespace(t.open[c].owner) in v.definition.allowedOwnerNamespaces)
  {
    if c in t.cards && c in t.open { NextTokenUnminted(t, c); }
    RevalidateDecided(t, c, v, actor, now);
  }

  lemma NextTokenUnminted(t: Tables, c: CardId)
    requires RowsInv(t) && c in t.cards && c in t.open
    ensures (t.open[c].id, t.cards[c].generation + 1) !in t.bundles
  {
    var claim := t.open[c].(token := t.cards[c].generation + 1);
    InvKnown(t, c);
    MintKeyFresh(t, c, claim);
  }

  lemma RevalidateDecided(t: Tables, c: CardId, v: Command, actor: Actor, now: Time)
    requires v.Revalidate?
    requires c in t.cards && c in t.open ==> (t.open[c].id, t.cards[c].generation + 1) !in t.bundles
    ensures Perform(t, Call(c, v, actor, now)).1 == Performed <==>
      && IsCoordinator(actor) && c in t.cards && v.revision == t.cards[c].revision && ValidDefinition(v.definition)
      && (c in t.open ==> Namespace(t.open[c].owner) in v.definition.allowedOwnerNamespaces)
  {
  }

  /** A claim is performed exactly on a ready card at the presented revision and definition,
      for a worker of an allowed namespace who holds nothing, a positive lease and a new
      claim id. */
  lemma ClaimIff(t: Tables, c: CardId, k: Command, actor: Actor, now: Time)
    requires Inv(t) && k.TakeClaim?
    ensures Perform(t, Call(c, k, actor, now)).1 == Performed <==>
      && c in t.cards && t.cards[c].status == Ready && k.revision == t.cards[c].revision
      && k.expectedDefinition == t.cards[c].definitionHash && k.leaseSeconds > 0 && !IsCoordinator(actor)
      && Namespace(actor) in t.cards[c].definition.allowedOwnerNamespaces
      && (forall d | d in t.open :: t.open[d].owner != actor) && !ClaimIdUsed(t, k.claimId)
  {
    ClaimSucceedsIff(t, c, k, actor, now);
    ClaimReplies(t, c, k, actor, now);
  }

  lemma ClaimReplies(t: Tables, c: CardId, k: Command, actor: Actor, now: Time)
    requires k.TakeClaim?
    ensures Perform(t, Call(c, k, actor, now)).1 == Performed <==> ClaimChange(t, c, k, actor, now).Update?
  {
  }

  /** The definition, paths and repository of a qualification are well formed. */
  ghost predicate Presentable(q: Command)
    requires q.Qualify?
  {
    && q.rawPaths != [] && (forall i | 0 <= i < |q.rawPaths| :: Canonical(Strip(q.rawPaths[i])))
    && ValidDefinition(q.definition) && Fingerprint(q.repositoryId)
  }

  /** A qualification is performed exactly by a coordinator who presents well-formed work,
      ready only when its dependencies are done and its paths are free, for a new card or,
      at its revision, for one that nobody has claimed or finished. */
  lemma QualifyIff(t: Tables, c: CardId, q: Command, actor: Actor, now: Time)
    requires q.Qualify?
    ensures Perform(t, Call(c, q, actor, now)).1 == Performed <==>
      && IsCoordinator(actor) && Presentable(q)
      && (q.ready ==> DependenciesDone(t, q.dependencies) && !Taken(t, c, NormalizedPaths(q.rawPaths)))
      && (if c in t.cards then t.cards[c].status in {Backlog, Ready} && q.expected == Some(t.cards[c].revision)
          else q.expected in {None, Some(0)})
  {
    TakenIsConflict(t, c, NormalizedPaths(q.rawPaths));
    PathsPresentable(q);
    QualifyDecided(t, c, q, actor, now);
  }

  lemma PathsPresentable(q: Command)
    requires q.Qualify?
    ensures Presentable(q) <==> QualifyArgumentError(q).None?
  {
    forall i | 0 <= i < |q.rawPaths|
      ensures NormalizePath(q.rawPaths[i]).Accepted? <==> Canonical(Strip(q.rawPaths[i]))
    {
      NormalizeAcceptsCanonical(q.rawPaths[i]);
    }
    if q.rawPaths != [] && NormalizePath(q.rawPaths[0]).Accepted? {
      assert NormalizePath(q.rawPaths[0]).path in NormalizedPaths(q.rawPaths);
    }
  }

  lemma QualifyDecided(t: Tables, c: CardId, q: Command, actor: Actor, now: Time)
    requires q.Qualify? && (Presentable(q) <==> QualifyArgumentError(q).None?)
    requires Taken(t, c, NormalizedPaths(q.rawPaths)) <==> Conflicts(t, c, NormalizedPaths(q.rawPaths))
    ensures Perform(t, Call(c, q, actor, now)).1 == Performed <==>
      && IsCoordinator(actor) && Presentable(q)
      && (q.ready ==> DependenciesDone(t, q.dependencies) && !Taken(t, c, NormalizedPaths(q.rawPaths)))
      && (if c in t.cards then t.cards[c].status in {Backlog, Ready} && q.expected == Some(t.cards[c].revision)
          else q.expected in {None, Some(0)})
  {
  }
}
