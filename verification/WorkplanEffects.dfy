/** What an operation that is performed has done, card by card and field by field. */
module WorkplanEffects {
  import opened Records
  import opened Workplan
  import opened WorkplanInvariant
  import opened WorkplanLease
  import opened WorkplanRuns
  import opened WorkplanSteps
  import opened Wrappers

  /** The rows about one card, and the receipt that announces their change. */
  datatype Effect = Effect(card: Card, claim: Option<Claim>, rows: map<string, nat>, event: Event, actor: Actor)

  /** The card's row, open claim and reservations are now the given ones, its ledger has
      one more receipt with the given event, and no other card is touched. */
  ghost predicate Becomes(t: Tables, u: Tables, c: CardId, e: Effect, now: Time) {
    && u.cards == t.cards[c := e.card] && OpenClaim(u, c) == e.claim && Rows(u, c) == e.rows
    && (forall d | d != c :: OpenClaim(u, d) == OpenClaim(t, d) && Rows(u, d) == Rows(t, d) && Log(u, d) == Log(t, d))
    && |Log(u, c)| == |Log(t, c)| + 1 && Log(t, c) <= Log(u, c)
    && var body := Log(u, c)[|Log(t, c)|].body;
       body.event == e.event && body.actor == e.actor && body.at == now && body.revisionTo == e.card.revision
  }

  lemma AppliedBecomes(t: Tables, c: CardId, d: Delta, now: Time)
    requires d.event.Some?
    ensures Becomes(t, Apply(t, c, d, now), c, EffectOf(d), now)
  {
    StoredElsewhere(t, c, d, now);
  }

  lemma StoredElsewhere(t: Tables, c: CardId, d: Delta, now: Time)
    ensures var u := Store(t, c, d, now);
      && OpenClaim(u, c) == d.claim && Rows(u, c) == d.rows
      && forall e | e != c :: OpenClaim(u, e) == OpenClaim(t, e) && Rows(u, e) == Rows(t, e)
  {
  }

  /** What a delta says about its card. */
  function EffectOf(d: Delta): Effect
    requires d.event.Some?
  {
    Effect(d.card, d.claim, d.rows, d.event.value, d.actor)
  }

  /** The transaction of an operation that is performed. */
  lemma PerformedUpdates(t: Tables, call: Call)
    requires Perform(t, call).1 == Performed
    ensures var change := ChangeOf(t, call.card, call.command, call.actor, call.now);
      !change.Refuse? && Perform(t, call).0 == Commit(t, call.card, change, call.now)
  {
  }

  lemma UpdateBecomes(t: Tables, call: Call, d: Delta)
    requires Perform(t, call).1 == Performed && d.event.Some?
    requires ChangeOf(t, call.card, call.command, call.actor, call.now) == Update(d)
    ensures Becomes(t, Perform(t, call).0, call.card, EffectOf(d), call.now)
  {
    PerformedUpdates(t, call);
    AppliedBecomes(t, call.card, d, call.now);
  }

  // ------------------------------------------------------- what should happen

  /** Every path of the card, all under the same token. */
  function AllPaths(card: Card, token: nat): map<string, nat> {
    map p | p in card.paths :: token
  }

  /** A claim gives the card to its actor under the next token, for `seconds`. */
  function Claiming(c: CardId, card: Card, k: Command, actor: Actor, now: Time): Effect
    requires k.TakeClaim?
  {
    var token := card.generation + 1;
    Effect(card.(status := Claimed, owner := Some(actor), revision := card.revision + 1, generation := token,
                 attention := false),
           Some(Claim(k.claimId, c, actor, token, card.definitionHash, now, now, now + k.leaseSeconds, None)),
           AllPaths(card, token), ClaimEvent(k.claimId, card.definitionHash, card.paths), actor)
  }

  /** Progress keeps claim and paths; a block may give the paths up and a resume takes
      them all back. */
  function Progressing(card: Card, claim: Claim, rows: map<string, nat>, step: OwnerAction): Effect {
    var next := card.(revision := card.revision + 1);
    match step
    case Checkpoint(note, evidence, lineage) =>
      Effect(next, Some(claim), rows, CheckpointEvent(note, evidence, lineage), claim.owner)
    case Block(reason, retain) =>
      var kept := if retain then rows else map[];
      Effect(next.(status := Blocked), Some(claim), kept, BlockEvent(reason, retain), claim.owner)
    case Resume =>
      Effect(next.(status := InProgress), Some(claim), AllPaths(card, card.generation), ResumeEvent, claim.owner)
    case Submit(evidence, lineage) =>
      Effect(next.(status := Review), Some(claim), rows, SubmitEvent(evidence, lineage), claim.owner)
  }

  /** Integration records who merged what; the other decisions end the claim, and only a
      requeue keeps the paths, for nobody. */
  function Deciding(card: Card, claim: Option<Claim>, rows: map<string, nat>, d: CoordinatorAction,
                    actor: Actor): Effect {
    var next := card.(revision := card.revision + 1);
    match d
    case Integrate(commit, head, ancestry, evidence) =>
      Effect(next.(status := Verifying, integratedBy := Some(actor), integratedCommit := Some(commit)), claim, rows,
             IntegrateEvent(commit, head, ancestry, evidence), actor)
    case Accept(evidence) => Effect(next.(status := Done, owner := None), None, map[], AcceptEvent(evidence), actor)
    case Cancel(reason) => Effect(next.(status := Cancelled, owner := None), None, map[], CancelEvent(reason), actor)
    case Requeue(reason) =>
      Effect(next.(status := Ready, owner := None), None, AllPaths(card, 0), RequeueEvent(reason), actor)
  }

  /** A reassignment hands the card to a new owner under the next token. */
  function Reassigning(c: CardId, card: Card, r: Command, actor: Actor, now: Time): Effect
    requires r.Reassign?
  {
    var token := card.generation + 1;
    Effect(card.(status := Claimed, owner := Some(r.newOwner), revision := card.revision + 1, generation := token,
                 attention := false),
           Some(Claim(r.claimId, c, r.newOwner, token, card.definitionHash, now, now, now + r.leaseSeconds, None)),
           AllPaths(card, token), ReassignEvent(r.newOwner, r.reason, r.claimId), actor)
  }

  /** A revalidation freezes a new definition; an open claim moves to the next token. */
  function Revalidating(card: Card, claim: Option<Claim>, rows: map<string, nat>, definition: Definition, actor: Actor)
    : Effect
  {
    var hash := DefinitionDigest(definition);
    var token := if claim.Some? then card.generation + 1 else card.generation;
    Effect(card.(definition := definition, definitionHash := hash, revalidation := false, revision := card.revision + 1,
                 generation := token),
           if claim.Some? then Some(claim.value.(definitionHash := hash, token := token)) else None,
           if claim.Some? then map p | p in rows :: token else rows,
           RevalidateEvent(hash, token), actor)
  }

  /** The first binding puts the card in progress; nothing else about it moves. */
  function BoundTo(card: Card, claim: Claim, rows: map<string, nat>, b: Command): Effect
    requires b.Bind?
  {
    Effect(card.(status := InProgress, revision := card.revision + 1), Some(claim), rows,
           BindEvent(b.repositoryId, b.worktreePath, b.branch, b.baseCommit), claim.owner)
  }

  /** A qualification writes the presented definition, keeps what it does not present, and
      reserves every path when the card is ready. */
  function Qualifying(was: Option<Card>, q: Command, paths: set<string>, actor: Actor): Effect
    requires q.Qualify?
  {
    var hash, status := DefinitionDigest(q.definition), if q.ready then Ready else Backlog;
    var blank := Card(q.title, status, None, 1, q.definition, hash, q.repositoryId, q.priority, 0, false, false,
                      None, None, paths, q.dependencies);
    Effect(if was.None? then blank
           else blank.(owner := was.value.owner, revision := was.value.revision + 1, generation := was.value.generation,
                       attention := was.value.attention, revalidation := was.value.revalidation,
                       integratedBy := was.value.integratedBy, integratedCommit := was.value.integratedCommit),
           None, if q.ready then map p | p in paths :: 0 else map[], QualifyEvent(hash, status), actor)
  }

  // --------------------------------------------------------------- does happen

  lemma ReadyRows(t: Tables, c: CardId)
    requires Known(t, c) && c in t.cards && t.cards[c].status == Ready
    ensures Rows(t, c).Keys == t.cards[c].paths
  {
  }

  lemma ClaimedRows(t: Tables, c: CardId)
    requires Known(t, c) && c in t.cards && c in t.open
    ensures Rows(t, c) == map[] || Rows(t, c) == AllPaths(t.cards[c], t.cards[c].generation)
  {
  }

  lemma ClaimEffect(t: Tables, c: CardId, k: Command, actor: Actor, now: Time)
    requires Inv(t) && k.TakeClaim? && Perform(t, Call(c, k, actor, now)).1 == Performed
    ensures c in t.cards && t.cards[c].status == Ready
    ensures Becomes(t, Perform(t, Call(c, k, actor, now)).0, c, Claiming(c, t.cards[c], k, actor, now), now)
  {
    ClaimAccepted(t, c, k, actor, now);
    InvKnown(t, c);
    ClaimMatches(t, c, k, actor, now);
    UpdateBecomes(t, Call(c, k, actor, now), ClaimDelta(t, c, k, actor, now));
  }

  lemma ClaimMatches(t: Tables, c: CardId, k: Command, actor: Actor, now: Time)
    requires Known(t, c) && k.TakeClaim? && c in t.cards && t.cards[c].status == Ready
    ensures EffectOf(ClaimDelta(t, c, k, actor, now)) == Claiming(c, t.cards[c], k, actor, now)
  {
    ReadyRows(t, c);
  }

  lemma ClaimAccepted(t: Tables, c: CardId, k: Command, actor: Actor, now: Time)
    requires k.TakeClaim? && Perform(t, Call(c, k, actor, now)).1 == Performed
    ensures c in t.cards && t.cards[c].status == Ready
    ensures ChangeOf(t, c, k, actor, now) == Update(ClaimDelta(t, c, k, actor, now))
  {
    assert ClaimChange(t, c, k, actor, now) == Update(ClaimDelta(t, c, k, actor, now));
  }

  lemma ProgressEffect(t: Tables, c: CardId, cmd: Command, actor: Actor, now: Time)
    requires Inv(t) && cmd.ByOwner? && Perform(t, Call(c, cmd, actor, now)).1 == Performed
    ensures c in t.cards && c in t.open && t.open[c].owner == actor && t.open[c].token == cmd.token
    ensures Becomes(t, Perform(t, Call(c, cmd, actor, now)).0, c,
                    Progressing(t.cards[c], t.open[c], Rows(t, c), cmd.step), now)
  {
    OwnerAccepted(t, c, cmd, actor, now);
    InvKnown(t, c);
    ProgressMatches(t, c, cmd, actor);
    UpdateBecomes(t, Call(c, cmd, actor, now), OwnerDelta(t, c, cmd, actor));
  }

  lemma ProgressMatches(t: Tables, c: CardId, cmd: Command, actor: Actor)
    requires Known(t, c) && cmd.ByOwner? && c in t.cards && c in t.open && t.open[c].owner == actor
    requires cmd.token == t.cards[c].generation && OwnerMay(cmd.step, t.cards[c].status)
    ensures EffectOf(OwnerDelta(t, c, cmd, actor)) == Progressing(t.cards[c], t.open[c], Rows(t, c), cmd.step)
  {
    ClaimedRows(t, c);
  }

  lemma OwnerAccepted(t: Tables, c: CardId, cmd: Command, actor: Actor, now: Time)
    requires cmd.ByOwner? && Perform(t, Call(c, cmd, actor, now)).1 == Performed
    ensures c in t.cards && c in t.open && t.open[c].owner == actor
      && t.open[c].token == cmd.token == t.cards[c].generation
    ensures OwnerMay(cmd.step, t.cards[c].status)
    ensures ChangeOf(t, c, cmd, actor, now) == Update(OwnerDelta(t, c, cmd, actor))
  {
    assert OwnerChange(t, c, cmd, actor, now) == Update(OwnerDelta(t, c, cmd, actor));
  }

  /** A binding either repeats the one in place and changes nothing, or is the claim's
      first. */
  lemma BindEffect(t: Tables, c: CardId, b: Command, actor: Actor, now: Time)
    requires Inv(t) && b.Bind? && Perform(t, Call(c, b, actor, now)).1 == Performed
    ensures c in t.cards && c in t.open && t.open[c].owner == actor && t.open[c].token == b.token
    ensures var u := Perform(t, Call(c, b, actor, now)).0;
      var binding := Binding(c, b.token, b.repositoryId, b.worktreePath, b.branch, b.baseCommit);
      if BindingOf(t, t.open[c]).Some? then u == t && BindingOf(t, t.open[c]) == Some(binding)
      else Becomes(t, u, c, BoundTo(t.cards[c], t.open[c], Rows(t, c), b), now)
           && u.bindings == t.bindings[t.open[c].id := binding]
  {
    BindAccepted(t, c, b, actor, now);
    InvKnown(t, c);
    if BindingOf(t, t.open[c]).Some? { BindingCurrent(t, c); }
    BindBecomes(t, c, b, actor, now);
  }

  lemma BindBecomes(t: Tables, c: CardId, b: Command, actor: Actor, now: Time)
    requires b.Bind? && Perform(t, Call(c, b, actor, now)).1 == Performed && c in t.cards && c in t.open
    requires BindingOf(t, t.open[c]).Some? ==>
      BindingOf(t, t.open[c]).value.card == c && BindingOf(t, t.open[c]).value.token == b.token
    ensures var u := Perform(t, Call(c, b, actor, now)).0;
      var binding := Binding(c, b.token, b.repositoryId, b.worktreePath, b.branch, b.baseCommit);
      if BindingOf(t, t.open[c]).Some? then u == t && BindingOf(t, t.open[c]) == Some(binding)
      else Becomes(t, u, c, BoundTo(t.cards[c], t.open[c], Rows(t, c), b), now)
           && u.bindings == t.bindings[t.open[c].id := binding]
  {
    BindAccepted(t, c, b, actor, now);
    PerformedUpdates(t, Call(c, b, actor, now));
    var change := BindChange(t, c, b, actor, now);
    if change.Update? {
      AppliedBecomes(t, c, change.delta, now);
      BindingStored(t, c, change.delta, now);
    }
  }

  lemma BindingStored(t: Tables, c: CardId, d: Delta, now: Time)
    requires d.claim.Some? && d.binding.Some?
    ensures Apply(t, c, d, now).bindings == t.bindings[d.claim.value.id := d.binding.value]
  {
  }

  lemma BindingCurrent(t: Tables, c: CardId)
    requires Known(t, c) && c in t.cards && c in t.open && BindingOf(t, t.open[c]).Some?
    ensures var b := BindingOf(t, t.open[c]).value; b.card == c && b.token == t.cards[c].generation
  {
  }

  lemma BindAccepted(t: Tables, c: CardId, b: Command, actor: Actor, now: Time)
    requires b.Bind? && Perform(t, Call(c, b, actor, now)).1 == Performed
    ensures c in t.cards && c in t.open && t.open[c].owner == actor
      && t.open[c].token == b.token == t.cards[c].generation
    ensures ChangeOf(t, c, b, actor, now) == BindChange(t, c, b, actor, now)
    ensures var change := BindChange(t, c, b, actor, now);
      var binding := Binding(c, b.token, b.repositoryId, b.worktreePath, b.branch, b.baseCommit);
      var prior := BindingOf(t, t.open[c]);
      if prior.Some? then change == Keep && prior.value.(card := c, token := b.token) == binding
      else change.Update? && change.delta.event.Some? && change.delta.binding == Some(binding)
           && change.delta.claim == Some(t.open[c])
           && EffectOf(change.delta) == BoundTo(t.cards[c], t.open[c], Rows(t, c), b)
  {
  }

  lemma DecisionEffect(t: Tables, c: CardId, d: Command, actor: Actor, now: Time)
    requires Inv(t) && d.ByCoordinator? && Perform(t, Call(c, d, actor, now)).1 == Performed
    ensures c in t.cards && IsCoordinator(actor)
    ensures var u := Perform(t, Call(c, d, actor, now)).0;
      && Becomes(t, u, c, Deciding(t.cards[c], OpenClaim(t, c), Rows(t, c), d.decision, actor), now)
      && (c in t.open && !d.decision.Integrate? ==>
            u.closed == t.closed[t.open[c].id := t.open[c].(closed := Some(Closing(now, CloseReason(d.decision))))])
  {
    DecisionAccepted(t, c, d, actor, now);
    UpdateBecomes(t, Call(c, d, actor, now), DecisionDelta(t, c, d.decision, actor));
    PerformedUpdates(t, Call(c, d, actor, now));
    DecisionMatches(t, c, d.decision, actor);
    ClaimClosed(t, c, DecisionDelta(t, c, d.decision, actor), now);
  }

  lemma DecisionMatches(t: Tables, c: CardId, d: CoordinatorAction, actor: Actor)
    requires c in t.cards
    ensures EffectOf(DecisionDelta(t, c, d, actor)) == Deciding(t.cards[c], OpenClaim(t, c), Rows(t, c), d, actor)
  {
  }

  /** Replacing or dropping the open claim closes it with its reason. */
  lemma ClaimClosed(t: Tables, c: CardId, d: Delta, now: Time)
    ensures c in t.open && (d.claim.None? || d.claim.value.id != t.open[c].id) ==>
      Commit(t, c, Update(d), now).closed ==
      t.closed[t.open[c].id := t.open[c].(closed := Some(Closing(now, d.closeReason)))]
  {
  }

  lemma DecisionAccepted(t: Tables, c: CardId, d: Command, actor: Actor, now: Time)
    requires d.ByCoordinator? && Perform(t, Call(c, d, actor, now)).1 == Performed
    ensures c in t.cards && IsCoordinator(actor) && CoordinatorMay(d.decision, t.cards[c].status)
    ensures ChangeOf(t, c, d, actor, now) == Update(DecisionDelta(t, c, d.decision, actor))
  {
    assert CoordinatorChange(t, c, d, actor, now) == Update(DecisionDelta(t, c, d.decision, actor));
  }

  lemma ReassignEffect(t: Tables, c: CardId, r: Command, actor: Actor, now: Time)
    requires r.Reassign? && Perform(t, Call(c, r, actor, now)).1 == Performed
    ensures c in t.cards && c in t.open && Active(t.cards[c].status)
    ensures var u := Perform(t, Call(c, r, actor, now)).0;
      && Becomes(t, u, c, Reassigning(c, t.cards[c], r, actor, now), now)
      && u.closed == t.closed[t.open[c].id := t.open[c].(closed := Some(Closing(now, "reassign")))]
  {
    ReassignAccepted(t, c, r, actor, now);
    ReassignMatches(t, c, r, actor, now);
    UpdateBecomes(t, Call(c, r, actor, now), ReassignDelta(t, c, r, actor, now));
    ReassignCloses(t, c, r, actor, now);
  }

  lemma ReassignMatches(t: Tables, c: CardId, r: Command, actor: Actor, now: Time)
    requires r.Reassign? && c in t.cards && c in t.open
    ensures EffectOf(ReassignDelta(t, c, r, actor, now)) == Reassigning(c, t.cards[c], r, actor, now)
  {
  }

  lemma ReassignCloses(t: Tables, c: CardId, r: Command, actor: Actor, now: Time)
    requires r.Reassign? && Perform(t, Call(c, r, actor, now)).1 == Performed && c in t.cards && c in t.open
    requires ChangeOf(t, c, r, actor, now) == Update(ReassignDelta(t, c, r, actor, now)) && r.claimId != t.open[c].id
    ensures Perform(t, Call(c, r, actor, now)).0.closed ==
            t.closed[t.open[c].id := t.open[c].(closed := Some(Closing(now, "reassign")))]
  {
    PerformedUpdates(t, Call(c, r, actor, now));
    ClaimClosed(t, c, ReassignDelta(t, c, r, actor, now), now);
  }

  lemma ReassignAccepted(t: Tables, c: CardId, r: Command, actor: Actor, now: Time)
    requires r.Reassign? && Perform(t, Call(c, r, actor, now)).1 == Performed
    ensures c in t.cards && c in t.open && Active(t.cards[c].status) && r.claimId != t.open[c].id
    ensures ChangeOf(t, c, r, actor, now) == Update(ReassignDelta(t, c, r, actor, now))
  {
    assert ReassignChange(t, c, r, actor, now) == Update(ReassignDelta(t, c, r, actor, now));
  }

  lemma RevalidateEffect(t: Tables, c: CardId, v: Command, actor: Actor, now: Time)
    requires v.Revalidate? && Perform(t, Call(c, v, actor, now)).1 == Performed
    ensures c in t.cards && IsCoordinator(actor)
    ensures Becomes(t, Perform(t, Call(c, v, actor, now)).0, c,
                    Revalidating(t.cards[c], OpenClaim(t, c), Rows(t, c), v.definition, actor), now)
  {
    RevalidateAccepted(t, c, v, actor, now);
    UpdateBecomes(t, Call(c, v, actor, now), RevalidateDelta(t, c, v, actor));
    RevalidateMatches(t, c, v, actor);
  }

  lemma RevalidateMatches(t: Tables, c: CardId, v: Command, actor: Actor)
    requires v.Revalidate? && c in t.cards
    ensures EffectOf(RevalidateDelta(t, c, v, actor)) ==
            Revalidating(t.cards[c], OpenClaim(t, c), Rows(t, c), v.definition, actor)
  {
  }

  lemma RevalidateAccepted(t: Tables, c: CardId, v: Command, actor: Actor, now: Time)
    requires v.Revalidate? && Perform(t, Call(c, v, actor, now)).1 == Performed
    ensures c in t.cards && IsCoordinator(actor)
    ensures ChangeOf(t, c, v, actor, now) == Update(RevalidateDelta(t, c, v, actor))
  {
    assert RevalidateChange(t, c, v, actor, now) == Update(RevalidateDelta(t, c, v, actor));
  }

  lemma QualifyEffect(t: Tables, c: CardId, q: Command, actor: Actor, now: Time)
    requires Inv(t) && q.Qualify? && Perform(t, Call(c, q, actor, now)).1 == Performed
    ensures IsCoordinator(actor) && c !in t.open && (c in t.cards ==> t.cards[c].status in {Backlog, Ready})
    ensures var was := if c in t.cards then Some(t.cards[c]) else None;
      Becomes(t, Perform(t, Call(c, q, actor, now)).0, c, Qualifying(was, q, NormalizedPaths(q.rawPaths), actor), now)
  {
    QualifyAccepted(t, c, q, actor, now);
    InvKnown(t, c);
    QualifyChecked(t, c, q, actor);
    UpdateBecomes(t, Call(c, q, actor, now), QualifyDelta(t, c, q, actor));
    QualifyMatches(t, c, q, actor);
  }

  lemma QualifyMatches(t: Tables, c: CardId, q: Command, actor: Actor)
    requires q.Qualify? && c !in t.open
    ensures EffectOf(QualifyDelta(t, c, q, actor)) ==
            Qualifying(if c in t.cards then Some(t.cards[c]) else None, q, NormalizedPaths(q.rawPaths), actor)
  {
  }

  lemma QualifyAccepted(t: Tables, c: CardId, q: Command, actor: Actor, now: Time)
    requires q.Qualify? && Perform(t, Call(c, q, actor, now)).1 == Performed
    ensures IsCoordinator(actor) && QualifyError(t, c, q, actor).None?
    ensures ChangeOf(t, c, q, actor, now) == Update(QualifyDelta(t, c, q, actor))
  {
    assert QualifyChange(t, c, q, actor, now) == Update(QualifyDelta(t, c, q, actor));
  }

  /** A heartbeat that is performed makes the lease end `seconds` after it; apart from the
      lease nothing changes. */
  lemma HeartbeatEffect(t: Tables, c: CardId, token: nat, seconds: int, actor: Actor, now: Time)
    requires Perform(t, Call(c, Heartbeat(token, seconds), actor, now)).1 == Performed
    ensures seconds > 0 && c in t.cards && c in t.open && t.open[c].owner == actor && t.open[c].token == token
    ensures var u := Perform(t, Call(c, Heartbeat(token, seconds), actor, now)).0;
      && u.open == t.open[c := t.open[c].(heartbeatAt := now, expiresAt := now + seconds)]
      && u.cards == t.cards && u.closed == t.closed && u.bindings == t.bindings && u.bundles == t.bundles
      && u.receipts == t.receipts && u.outbox == t.outbox && forall d :: Rows(u, d) == Rows(t, d)
  {
    PerformedUpdates(t, Call(c, Heartbeat(token, seconds), actor, now));
    HeartbeatAccepted(t, c, token, seconds, actor, now);
  }

  lemma HeartbeatAccepted(t: Tables, c: CardId, token: nat, seconds: int, actor: Actor, now: Time)
    requires Perform(t, Call(c, Heartbeat(token, seconds), actor, now)).1 == Performed
    ensures seconds > 0 && c in t.cards && c in t.open && t.open[c].owner == actor && t.open[c].token == token
    ensures var claim := t.open[c].(heartbeatAt := now, expiresAt := now + seconds);
      ChangeOf(t, c, Heartbeat(token, seconds), actor, now) ==
      Update(Delta(t.cards[c], Some(claim), "", Rows(t, c), None, false, None, actor, None))
  {
  }

  lemma NotifiedEffect(t: Tables, c: CardId, delivery: string, now: Time)
    ensures var u := Notified(t, c, delivery, now);
      if c in t.cards && c in t.open && !t.cards[c].revalidation then Becomes(t, u, c, Freezing(t, c, delivery), now)
      else u == t
  {
    var change := NoticeChange(t, c, Notice(delivery), WEBHOOK_ACTOR);
    if change.Update? { AppliedBecomes(t, c, change.delta, now); }
  }

  /** A frozen card keeps claim and paths, but waits for somebody's attention. */
  function Freezing(t: Tables, c: CardId, delivery: string): Effect
    requires c in t.cards
  {
    var card := t.cards[c];
    Effect(card.(revalidation := true, attention := true, revision := card.revision + 1), OpenClaim(t, c), Rows(t, c),
           DefinitionChangedEvent(delivery), WEBHOOK_ACTOR)
  }

  /** A protected change of an active card that is not frozen yet freezes it and asks for
      attention, with one receipt; any other delivery leaves every card alone. */
  lemma DeliveryEffect(t: Tables, delivery: string, row: Delivery, subject: Option<CardId>, protectedChange: bool,
                       now: Time)
    ensures var u := DeliverNotice(t, delivery, row, subject, protectedChange, now);
      if delivery in t.inbox then u == t
      else
        && u.inbox == t.inbox[delivery := row]
        && if protectedChange && subject.Some? && subject.value != "" && subject.value in t.cards
              && subject.value in t.open && !t.cards[subject.value].revalidation then
             Becomes(t, u, subject.value, Freezing(t, subject.value, delivery), now)
           else u == t.(inbox := u.inbox)
  {
    if subject.Some? { NotifiedEffect(t.(inbox := t.inbox[delivery := row]), subject.value, delivery, now); }
  }

  // ----------------------------------------------------------------- bindings

  /** Only a binding adds one, and only a revalidation touches one: it moves the open claim's
      to the card's new token and keeps what it binds. */
  lemma BindingsStay(t: Tables, call: Call)
    requires !call.command.Bind?
    ensures BindingsFit(t, call.card, call.command, Perform(t, call).0.bindings)
  {
    PreflightBindings(t, call.card, call.now);
    CommandBindings(t, call.card, call.command, call.actor, call.now);
    CommitBindings(t, call.card, call.command, ChangeOf(t, call.card, call.command, call.actor, call.now), call.now);
    PerformedOne(t, call);
  }

  predicate BindingsFit(t: Tables, c: CardId, k: Command, after: map<ClaimId, Binding>) {
    if k.Revalidate? then
      after.Keys == t.bindings.Keys && forall i | i in t.bindings :: Rebound(t, c, t.bindings[i], after[i], i)
    else after == t.bindings
  }

  predicate Rebound(t: Tables, c: CardId, was: Binding, now: Binding, id: ClaimId) {
    was == now || (c in t.open && t.open[c].id == id && was.(token := now.token) == now)
  }

  /** An operation commits its expiry transaction, its own, or nothing. */
  lemma PerformedOne(t: Tables, call: Call)
    ensures var (c, now) := (call.card, call.now);
      || Perform(t, call).0 == Commit(t, c, PreflightChange(t, c, now), now)
      || Perform(t, call).0 == Commit(t, c, ChangeOf(t, c, call.command, call.actor, now), now)
      || Perform(t, call).0 == t
  {
  }

  lemma PreflightBindings(t: Tables, c: CardId, now: Time)
    ensures Commit(t, c, PreflightChange(t, c, now), now).bindings == t.bindings
  {
  }

  predicate ChangeFits(t: Tables, c: CardId, k: Command, change: Change) {
    change.Update? && change.delta.binding.Some? ==>
      && k.Revalidate? && c in t.open && change.delta.claim.Some? && change.delta.claim.value.id == t.open[c].id
      && t.open[c].id in t.bindings
      && Rebound(t, c, t.bindings[t.open[c].id], change.delta.binding.value, t.open[c].id)
  }

  lemma CommandBindings(t: Tables, c: CardId, k: Command, actor: Actor, now: Time)
    requires !k.Bind?
    ensures ChangeFits(t, c, k, ChangeOf(t, c, k, actor, now))
  {
  }

  lemma CommitBindings(t: Tables, c: CardId, k: Command, change: Change, now: Time)
    requires ChangeFits(t, c, k, change)
    ensures BindingsFit(t, c, k, Commit(t, c, change, now).bindings)
  {
  }
}
