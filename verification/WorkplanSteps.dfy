/** Every transaction of the gateway keeps the invariant. */
module WorkplanSteps {
  import opened Records
  import opened Workplan
  import opened WorkplanInvariant
  import opened Wrappers

  // ------------------------------------------------------------- ledgers

  lemma LastAfterAppend(log: seq<Receipt>, r: Receipt)
    ensures LastSubmit(log + [r]) == if r.body.event.SubmitEvent? then |log| else LastSubmit(log)
    ensures LastIntegrate(log + [r]) == if r.body.event.IntegrateEvent? then |log| else LastIntegrate(log)
  {
    assert (log + [r])[..|log|] == log;
  }

  lemma LedgerGrows(c: CardId, log: seq<Receipt>, event: Event, actor: Actor, token: Option<nat>, now: Time)
    requires |log| >= 1 ==> LedgerOk(c, log, |log|)
    ensures var r := NextReceipt(log, c, event, actor, |log|, |log| + 1, token, now);
            LedgerOk(c, log + [r], |log| + 1)
  {
    var r := NextReceipt(log, c, event, actor, |log|, |log| + 1, token, now);
    forall i | 0 <= i < |log + [r]| ensures ReceiptOk(c, log + [r], i) {
      assert i < |log| ==> ReceiptOk(c, log, i);
    }
  }

  /** Appending neither a submission nor an integration keeps reviewed logs reviewed. */
  lemma ReviewKept(log: seq<Receipt>, r: Receipt)
    requires ReviewedLog(log) && !r.body.event.SubmitEvent? && !r.body.event.IntegrateEvent?
    ensures ReviewedLog(log + [r])
  {
    LastAfterAppend(log, r);
  }

  /** The history after an event that is neither a submission nor an integration, or
      that leaves the card outside verifying and done. */
  lemma PlainHistory(c: CardId, was: Option<Card>, log: seq<Receipt>, card: Card, event: Event, actor: Actor,
                     token: Option<nat>, now: Time)
    requires if was.Some? then HistoryOk(c, was.value, log) && card.revision == was.value.revision + 1
             else log == [] && card.revision == 1
    requires card.status in {Verifying, Done} ==>
               && was.Some? && was.value.status in {Verifying, Done}
               && !event.SubmitEvent? && !event.IntegrateEvent?
    ensures HistoryOk(c, card, log + [NextReceipt(log, c, event, actor, |log|, |log| + 1, token, now)])
  {
    LedgerGrows(c, log, event, actor, token, now);
    if card.status in {Verifying, Done} {
      ReviewKept(log, NextReceipt(log, c, event, actor, |log|, |log| + 1, token, now));
    }
  }

  lemma IntegrateHistory(c: CardId, was: Card, log: seq<Receipt>, card: Card, event: Event, actor: Actor,
                         token: Option<nat>, now: Time)
    requires HistoryOk(c, was, log) && card.revision == was.revision + 1
    requires event.IntegrateEvent? && event.integratedCommit != "" && event.ancestry.isAncestor
    requires LastSubmit(log) >= 0 && log[LastSubmit(log)].body.event.lineage.headCommit == event.reviewHead
    ensures HistoryOk(c, card, log + [NextReceipt(log, c, event, actor, |log|, |log| + 1, token, now)])
  {
    LedgerGrows(c, log, event, actor, token, now);
    LastAfterAppend(log, NextReceipt(log, c, event, actor, |log|, |log| + 1, token, now));
  }

  // ---------------------------------------------------------- transactions

  /** What the invariant says about one card. */
  ghost predicate Known(t: Tables, c: CardId) {
    && (c in t.cards ==>
          && ViewOk(c, ViewOf(t, c))
          && (Qualified(t.cards[c].status) ==> DependenciesDone(t, t.cards[c].dependencies)))
    && (c !in t.cards ==> c !in t.open && c !in t.reservations)
  }

  ghost predicate Unbound(t: Tables, id: ClaimId) {
    !ClaimIdUsed(t, id) ==> id !in t.bindings
  }

  lemma InvKnown(t: Tables, c: CardId)
    requires RowsInv(t)
    ensures Known(t, c)
  {
  }

  lemma InvUnbound(t: Tables, id: ClaimId)
    requires ClaimsApart(t.open, t.closed, t.bindings)
    ensures Unbound(t, id)
  {
    if id in t.bindings { assert IdUsed(t.open, t.closed, id); }
  }

  /** The update agrees with itself and with the rest of the tables. */
  ghost predicate Sound(t: Tables, c: CardId, d: Delta) {
    Admissible(t, c, d) && ViewOk(c, NextView(t, c, d))
  }

  lemma PreflightSound(t: Tables, c: CardId, now: Time)
    requires Known(t, c)
    ensures var r := PreflightChange(t, c, now); r.Update? ==> Sound(t, c, r.delta)
  {
  }

  lemma QualifyView(c: CardId, was: Option<Card>, cmd: Command, paths: set<string>)
    requires cmd.Qualify? && paths != {}
    requires was.Some? ==> was.value.owner == None
    ensures var card := QualifiedCard(was, cmd, paths);
      ViewOk(c, View(card, None, if cmd.ready then Reserve(paths, 0) else map[], None, None))
  {
  }

  lemma QualifyChecked(t: Tables, c: CardId, cmd: Command, actor: Actor)
    requires cmd.Qualify? && Known(t, c) && QualifyError(t, c, cmd, actor).None?
    ensures NormalizedPaths(cmd.rawPaths) != {} && c !in t.open
    ensures c in t.cards ==> t.cards[c].status in {Backlog, Ready} && t.cards[c].owner == None
    ensures cmd.ready ==> DependenciesDone(t, cmd.dependencies) && !Conflicts(t, c, NormalizedPaths(cmd.rawPaths))
  {
    if c in t.cards { assert CardOk(c, t.cards[c], OpenClaim(t, c)); }
  }

  lemma QualifySound(t: Tables, c: CardId, cmd: Command, actor: Actor, now: Time)
    requires Known(t, c) && cmd.Qualify?
    ensures var r := QualifyChange(t, c, cmd, actor, now); r.Update? ==> Sound(t, c, r.delta)
  {
    if QualifyError(t, c, cmd, actor).None? {
      QualifyChecked(t, c, cmd, actor);
      QualifiedSound(t, c, cmd, NormalizedPaths(cmd.rawPaths), actor);
    }
  }

  lemma QualifiedSound(t: Tables, c: CardId, cmd: Command, paths: set<string>, actor: Actor)
    requires Known(t, c) && cmd.Qualify? && c !in t.open && paths != {}
    requires c in t.cards ==> t.cards[c].status in {Backlog, Ready} && t.cards[c].owner == None
    requires cmd.ready ==> DependenciesDone(t, cmd.dependencies) && !Conflicts(t, c, paths)
    ensures var card := QualifiedCard(if c in t.cards then Some(t.cards[c]) else None, cmd, paths);
      Sound(t, c, Delta(card, None, "", if cmd.ready then Reserve(paths, 0) else map[], None, false,
                        Some(QualifyEvent(card.definitionHash, card.status)), actor, None))
  {
    QualifyView(c, if c in t.cards then Some(t.cards[c]) else None, cmd, paths);
    assert Reserve(paths, 0).Keys == paths;
  }

  lemma ClaimSound(t: Tables, c: CardId, cmd: Command, actor: Actor, now: Time)
    requires Known(t, c) && cmd.TakeClaim? && Unbound(t, cmd.claimId)
    ensures var r := ClaimChange(t, c, cmd, actor, now); r.Update? ==> Sound(t, c, r.delta)
  {
  }

  lemma OwnerSound(t: Tables, c: CardId, cmd: Command, actor: Actor, now: Time)
    requires Known(t, c) && cmd.ByOwner?
    ensures var r := OwnerChange(t, c, cmd, actor, now); r.Update? ==> Sound(t, c, r.delta)
  {
    if OwnerChange(t, c, cmd, actor, now).Update? { OwnerDeltaSound(t, c, cmd, actor); }
  }

  /** Under the owner's fence, the moves that the transition table allows are sound. */
  lemma OwnerDeltaSound(t: Tables, c: CardId, cmd: Command, actor: Actor)
    requires Known(t, c) && cmd.ByOwner? && c in t.cards && c in t.open && cmd.token == t.cards[c].generation
    requires OwnerMay(cmd.step, t.cards[c].status)
    requires cmd.step.Submit? ==> BindingOf(t, t.open[c]).Some?
    requires cmd.step.Resume? && Rows(t, c) == map[] ==> !Conflicts(t, c, t.cards[c].paths)
    ensures Sound(t, c, OwnerDelta(t, c, cmd, actor))
  {
  }

  lemma BindSound(t: Tables, c: CardId, cmd: Command, actor: Actor, now: Time)
    requires Known(t, c) && cmd.Bind?
    ensures var r := BindChange(t, c, cmd, actor, now); r.Update? ==> Sound(t, c, r.delta)
  {
  }

  lemma HeartbeatSound(t: Tables, c: CardId, cmd: Command, actor: Actor, now: Time)
    requires Known(t, c) && cmd.Heartbeat?
    ensures var r := HeartbeatChange(t, c, cmd, actor, now); r.Update? ==> Sound(t, c, r.delta)
  {
  }

  lemma CoordinatorSound(t: Tables, c: CardId, cmd: Command, actor: Actor, now: Time)
    requires Known(t, c) && cmd.ByCoordinator?
    ensures var r := CoordinatorChange(t, c, cmd, actor, now); r.Update? ==> Sound(t, c, r.delta)
  {
    if CoordinatorChange(t, c, cmd, actor, now).Update? { DecisionSound(t, c, cmd.decision, actor); }
  }

  lemma DecisionSound(t: Tables, c: CardId, d: CoordinatorAction, actor: Actor)
    requires Known(t, c) && c in t.cards && CoordinatorMay(d, t.cards[c].status)
    requires d.Integrate? ==> c in t.open
    requires d.Requeue? ==> !Conflicts(t, c, t.cards[c].paths)
    ensures Sound(t, c, DecisionDelta(t, c, d, actor))
  {
    assert Reserve(t.cards[c].paths, 0).Keys == t.cards[c].paths;
  }

  lemma ReassignSound(t: Tables, c: CardId, cmd: Command, actor: Actor, now: Time)
    requires Known(t, c) && cmd.Reassign? && Unbound(t, cmd.claimId)
    ensures var r := ReassignChange(t, c, cmd, actor, now); r.Update? ==> Sound(t, c, r.delta)
  {
    if ReassignChange(t, c, cmd, actor, now).Update? { ReassignDeltaSound(t, c, cmd, actor, now); }
  }

  lemma ReassignDeltaSound(t: Tables, c: CardId, cmd: Command, actor: Actor, now: Time)
    requires Known(t, c) && cmd.Reassign? && c in t.cards && c in t.open
    requires !ClaimIdUsed(t, cmd.claimId) && cmd.claimId !in t.bindings && !HoldsClaim(t, cmd.newOwner)
    requires !IsCoordinator(cmd.newOwner) && Namespace(cmd.newOwner) in t.cards[c].definition.allowedOwnerNamespaces
    requires !Conflicts(t, c, t.cards[c].paths) && (cmd.claimId, t.cards[c].generation + 1) !in t.bundles
    ensures Sound(t, c, ReassignDelta(t, c, cmd, actor, now))
  {
    assert Reserve(t.cards[c].paths, t.cards[c].generation + 1).Keys == t.cards[c].paths;
  }

  lemma RevalidateSound(t: Tables, c: CardId, cmd: Command, actor: Actor, now: Time)
    requires Known(t, c) && cmd.Revalidate?
    ensures var r := RevalidateChange(t, c, cmd, actor, now); r.Update? ==> Sound(t, c, r.delta)
  {
    if RevalidateError(t, c, cmd, actor).None? && c in t.open { RevalidateClaimedSound(t, c, cmd, actor); }
  }

  lemma RevalidateClaimedSound(t: Tables, c: CardId, cmd: Command, actor: Actor)
    requires Known(t, c) && cmd.Revalidate? && c in t.cards && c in t.open
    requires Namespace(t.open[c].owner) in cmd.definition.allowedOwnerNamespaces
    requires (t.open[c].id, t.cards[c].generation + 1) !in t.bundles
    ensures Sound(t, c, RevalidateDelta(t, c, cmd, actor))
  {
  }

  lemma NoticeSound(t: Tables, c: CardId, cmd: Command, actor: Actor)
    requires Known(t, c) && cmd.Notice?
    ensures var r := NoticeChange(t, c, cmd, actor); r.Update? ==> Sound(t, c, r.delta)
  {
  }

  ghost predicate KnownHistory(t: Tables, c: CardId) {
    if c in t.cards then HistoryOk(c, t.cards[c], Log(t, c)) else Log(t, c) == []
  }

  lemma InvKnownHistory(t: Tables, c: CardId)
    requires LogsInv(t)
    ensures KnownHistory(t, c)
  {
  }

  /** What a delta has to say about status and revision for its history to be kept. */
  ghost predicate PlainDelta(t: Tables, c: CardId, d: Delta) {
    && d.event.Some? && d.card.revision == Revision(t, c) + 1
    && (d.card.status in {Verifying, Done} ==>
          && c in t.cards && t.cards[c].status in {Verifying, Done}
          && !d.event.value.SubmitEvent? && !d.event.value.IntegrateEvent?)
  }

  ghost predicate IntegrateDelta(t: Tables, c: CardId, d: Delta) {
    var log := Log(t, c);
    && c in t.cards && d.card.revision == t.cards[c].revision + 1
    && d.event.Some? && d.event.value.IntegrateEvent?
    && d.event.value.integratedCommit != "" && d.event.value.ancestry.isAncestor
    && LastSubmit(log) >= 0 && log[LastSubmit(log)].body.event.lineage.headCommit == d.event.value.reviewHead
  }

  ghost predicate LeaseDelta(t: Tables, c: CardId, d: Delta) {
    d.event.None? && c in t.cards && d.card == t.cards[c]
  }

  lemma DeltaHistory(t: Tables, c: CardId, d: Delta, now: Time)
    requires KnownHistory(t, c) && (PlainDelta(t, c, d) || IntegrateDelta(t, c, d) || LeaseDelta(t, c, d))
    ensures HistoryOk(c, d.card, NextLog(t, c, d, now))
  {
    var was := if c in t.cards then Some(t.cards[c]) else None;
    if PlainDelta(t, c, d) {
      PlainHistory(c, was, Log(t, c), d.card, d.event.value, d.actor, d.token, now);
    } else if IntegrateDelta(t, c, d) {
      IntegrateHistory(c, t.cards[c], Log(t, c), d.card, d.event.value, d.actor, d.token, now);
    }
  }

  lemma CoordinatorDelta(t: Tables, c: CardId, cmd: Command, actor: Actor, now: Time)
    requires cmd.ByCoordinator?
    ensures var r := CoordinatorChange(t, c, cmd, actor, now);
      r.Update? ==> PlainDelta(t, c, r.delta) || IntegrateDelta(t, c, r.delta)
  {
  }

  lemma QualifyPlain(t: Tables, c: CardId, cmd: Command, actor: Actor)
    requires cmd.Qualify?
    ensures PlainDelta(t, c, QualifyDelta(t, c, cmd, actor))
  {
  }

  lemma OwnerPlain(t: Tables, c: CardId, cmd: Command, actor: Actor, now: Time)
    requires cmd.ByOwner?
    ensures var r := OwnerChange(t, c, cmd, actor, now); r.Update? ==> PlainDelta(t, c, r.delta)
  {
  }

  lemma ClaimPlain(t: Tables, c: CardId, cmd: Command, actor: Actor, now: Time)
    requires cmd.TakeClaim? || cmd.Reassign?
    ensures var r := ChangeOf(t, c, cmd, actor, now); r.Update? ==> PlainDelta(t, c, r.delta)
  {
  }

  lemma CommandDelta(t: Tables, c: CardId, cmd: Command, actor: Actor, now: Time)
    ensures var r := ChangeOf(t, c, cmd, actor, now);
      r.Update? ==> PlainDelta(t, c, r.delta) || IntegrateDelta(t, c, r.delta) || LeaseDelta(t, c, r.delta)
  {
    if cmd.ByCoordinator? { CoordinatorDelta(t, c, cmd, actor, now); }
    else if cmd.Qualify? { QualifyPlain(t, c, cmd, actor); }
    else if cmd.ByOwner? { OwnerPlain(t, c, cmd, actor, now); }
    else if cmd.TakeClaim? || cmd.Reassign? { ClaimPlain(t, c, cmd, actor, now); }
  }

  lemma CommandSound(t: Tables, c: CardId, cmd: Command, actor: Actor, now: Time)
    requires Known(t, c)
    requires cmd.TakeClaim? || cmd.Reassign? ==> Unbound(t, cmd.claimId)
    ensures var r := ChangeOf(t, c, cmd, actor, now); r.Update? ==> Sound(t, c, r.delta)
  {
    match cmd
    case Qualify(_, _, _, _, _, _, _, _) => QualifySound(t, c, cmd, actor, now);
    case TakeClaim(_, _, _, _) => ClaimSound(t, c, cmd, actor, now);
    case Preflight => PreflightSound(t, c, now);
    case ByOwner(_, _, _) => OwnerSound(t, c, cmd, actor, now);
    case Bind(_, _, _, _, _, _) => BindSound(t, c, cmd, actor, now);
    case Heartbeat(_, _) => HeartbeatSound(t, c, cmd, actor, now);
    case ByCoordinator(_, _, _) => CoordinatorSound(t, c, cmd, actor, now);
    case Reassign(_, _, _, _, _) => ReassignSound(t, c, cmd, actor, now);
    case Revalidate(_, _) => RevalidateSound(t, c, cmd, actor, now);
    case Notice(_) => NoticeSound(t, c, cmd, actor);
  }

  /** Whatever a transaction decides, committing it keeps the invariant. */
  lemma CommandKeeps(t: Tables, c: CardId, cmd: Command, actor: Actor, now: Time)
    requires Inv(t)
    ensures Inv(Commit(t, c, ChangeOf(t, c, cmd, actor, now), now))
  {
    var r := ChangeOf(t, c, cmd, actor, now);
    if r.Update? {
      InvKnown(t, c);
      if cmd.TakeClaim? || cmd.Reassign? { InvUnbound(t, cmd.claimId); }
      CommandSound(t, c, cmd, actor, now);
      InvKnownHistory(t, c);
      CommandDelta(t, c, cmd, actor, now);
      DeltaHistory(t, c, r.delta, now);
      ApplyKeeps(t, c, r.delta, now);
    }
  }
}
