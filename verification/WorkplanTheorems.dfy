/** What every reachable state of the store guarantees. */
module WorkplanTheorems {
  import opened Outbox
  import opened Paths
  import opened Records
  import opened Workplan
  import opened WorkplanFencing
  import opened WorkplanGrowth
  import opened WorkplanInvariant
  import opened WorkplanRuns
  import opened WorkplanSteps
  import opened Wrappers

  lemma Reachable(txs: seq<Transaction>)
    ensures Inv(Run(EMPTY, txs))
  {
    EmptyInv();
    RunKeeps(EMPTY, txs);
  }

  // -------------------------------------------------------- file ownership

  /** No file of the repository lies under the reserved paths of two cards. */
  lemma FilesHaveOneCard(txs: seq<Transaction>, c: CardId, e: CardId, p: string, q: string, file: string)
    requires var t := Run(EMPTY, txs); p in Rows(t, c) && q in Rows(t, e)
    requires Under(file, p) && Under(file, q)
    ensures c == e
  {
    Reachable(txs);
    var t := Run(EMPTY, txs);
    OverlapsIffSharedFile(p, q);
    if c != e { OtherCardsApart(t, c, e, p, q); }
  }

  lemma OtherCardsApart(t: Tables, c: CardId, e: CardId, p: string, q: string)
    requires Inv(t) && c != e && p in Rows(t, c) && q in Rows(t, e)
    ensures !Overlaps(p, q)
  {
    assert Apart(t.reservations[c], t.reservations[e]);
  }

  // ------------------------------------------------------------- agreement

  /** Card, claim, reservations, binding and bundle carry one token; the active
      statuses are exactly those with an open claim, whose owner is the card's owner
      and holds no other claim. */
  ghost predicate Agree(t: Tables, c: CardId)
    requires c in t.cards
  {
    var card := t.cards[c];
    && (Active(card.status) <==> c in t.open)
    && (c in t.open ==>
          && card.owner == Some(t.open[c].owner) && t.open[c].token == card.generation
          && (forall e | e in t.open && t.open[e].owner == t.open[c].owner :: e == c)
          && BundleOf(t, t.open[c]) == Some(Seal(BundleMaterial(c, card, t.open[c])))
          && (BindingOf(t, t.open[c]).Some? ==> BindingOf(t, t.open[c]).value.token == card.generation))
    && (c !in t.open ==> card.owner == None)
    && (forall p | p in Rows(t, c) :: Rows(t, c)[p] == if c in t.open then card.generation else 0)
  }

  lemma TablesAgree(txs: seq<Transaction>, c: CardId)
    requires c in Run(EMPTY, txs).cards
    ensures Agree(Run(EMPTY, txs), c)
  {
    Reachable(txs);
    RowsAgree(Run(EMPTY, txs), c);
  }

  lemma RowsAgree(t: Tables, c: CardId)
    requires RowsInv(t) && c in t.cards
    ensures Agree(t, c)
  {
    InvKnown(t, c);
  }

  /** A card's reservations are all of its paths or none: all when ready or claimed,
      none in backlog, done or cancelled. */
  lemma ReservationsAllOrNone(txs: seq<Transaction>, c: CardId)
    requires c in Run(EMPTY, txs).cards
    ensures var t := Run(EMPTY, txs); var card := t.cards[c];
      && (Rows(t, c).Keys == card.paths || Rows(t, c).Keys == {})
      && (card.status in {Ready, Claimed} ==> Rows(t, c).Keys == card.paths != {})
      && (card.status in {Backlog, Done, Cancelled} ==> Rows(t, c).Keys == {})
  {
    Reachable(txs);
    InvKnown(Run(EMPTY, txs), c);
  }

  // ---------------------------------------------------- unreachable errors

  lemma SameSize(s: set<string>, m: map<string, nat>)
    requires m.Keys == s
    ensures |m| == |s|
  {
    assert |m| == |m.Keys|;
  }

  lemma ReadyHasNoConflict(t: Tables, c: CardId)
    requires Known(t, c) && Exclusive(t.reservations) && c in t.cards && t.cards[c].status == Ready
    ensures !Conflicts(t, c, t.cards[c].paths) && |Rows(t, c)| == |t.cards[c].paths|
    ensures DependenciesDone(t, t.cards[c].dependencies) && c !in t.open
  {
    var card := t.cards[c];
    assert RowsOk(card, OpenClaim(t, c), Rows(t, c));
    SameSize(card.paths, Rows(t, c));
    forall d | d in t.reservations && d != c ensures !Touches(card.paths, t.reservations[d]) {
      assert Apart(t.reservations[c], t.reservations[d]);
    }
  }

  /** Claiming a card never finds a dependency, a path conflict, a lost reservation or
      a used bundle key wrong: it succeeds exactly on a ready card with the presented
      revision and definition, an allowed free worker, a positive lease and a new id. */
  lemma ClaimSucceedsIff(t: Tables, c: CardId, cmd: Command, actor: Actor, now: Time)
    requires Inv(t) && cmd.TakeClaim?
    ensures ClaimChange(t, c, cmd, actor, now).Update? <==>
      && cmd.leaseSeconds > 0 && !IsCoordinator(actor)
      && c in t.cards && t.cards[c].status == Ready
      && cmd.revision == t.cards[c].revision && cmd.expectedDefinition == t.cards[c].definitionHash
      && Namespace(actor) in t.cards[c].definition.allowedOwnerNamespaces
      && !HoldsClaim(t, actor) && !ClaimIdUsed(t, cmd.claimId)
    ensures ClaimChange(t, c, cmd, actor, now) !in
      {Refuse(DependencyUnmet), Refuse(PathConflict), Refuse(ReservationLost)}
    ensures ClaimChange(t, c, cmd, actor, now) == Refuse(IntegrityError) ==> ClaimIdUsed(t, cmd.claimId)
  {
    if c in t.cards && t.cards[c].status == Ready { ReadyClaimable(t, c, cmd.claimId, actor); }
    ClaimDecided(t, c, cmd, actor, now);
  }

  /** What a ready card offers to a claim. */
  predicate Claimable(t: Tables, c: CardId, id: ClaimId) {
    && c in t.cards && !Conflicts(t, c, t.cards[c].paths) && |Rows(t, c)| == |t.cards[c].paths|
    && DependenciesDone(t, t.cards[c].dependencies) && c !in t.open
    && (!ClaimIdUsed(t, id) ==> (id, t.cards[c].generation + 1) !in t.bundles)
  }

  lemma ReadyClaimable(t: Tables, c: CardId, id: ClaimId, actor: Actor)
    requires RowsInv(t) && c in t.cards && t.cards[c].status == Ready
    ensures Claimable(t, c, id)
  {
    InvKnown(t, c);
    ReadyHasNoConflict(t, c);
    if !ClaimIdUsed(t, id) { UnusedIdUnminted(t, id, t.cards[c].generation + 1); }
  }

  /** Bundles are stored for claims only. */
  lemma UnusedIdUnminted(t: Tables, id: ClaimId, token: nat)
    requires RowsInv(t) && !ClaimIdUsed(t, id)
    ensures (id, token) !in t.bundles
  {
    forall k | k in t.bundles ensures k != (id, token) {
      assert BundleKeyOk(t.cards, k, t.bundles[k]);
      assert BundleClaim(t.open, t.closed, t.bundles[k].material);
    }
  }

  lemma ClaimDecided(t: Tables, c: CardId, cmd: Command, actor: Actor, now: Time)
    requires cmd.TakeClaim? && (c in t.cards && t.cards[c].status == Ready ==> Claimable(t, c, cmd.claimId))
    ensures ClaimChange(t, c, cmd, actor, now).Update? <==>
      && cmd.leaseSeconds > 0 && !IsCoordinator(actor)
      && c in t.cards && t.cards[c].status == Ready
      && cmd.revision == t.cards[c].revision && cmd.expectedDefinition == t.cards[c].definitionHash
      && Namespace(actor) in t.cards[c].definition.allowedOwnerNamespaces
      && !HoldsClaim(t, actor) && !ClaimIdUsed(t, cmd.claimId)
    ensures ClaimChange(t, c, cmd, actor, now) !in
      {Refuse(DependencyUnmet), Refuse(PathConflict), Refuse(ReservationLost)}
    ensures ClaimChange(t, c, cmd, actor, now) == Refuse(IntegrityError) ==> ClaimIdUsed(t, cmd.claimId)
  {
  }

  lemma FencesIntact(t: Tables, c: CardId, token: nat, actor: Actor)
    requires Known(t, c) && c in t.cards
    ensures OwnerFence(t, c, t.cards[c], token, actor) != Some(ClaimBundleInvalid)
    ensures CoordinatorFence(t, c, t.cards[c], token) != Some(ClaimBundleInvalid)
    ensures t.cards[c].owner.Some? ==> !IsCoordinator(t.cards[c].owner.value)
  {
  }

  lemma LineageErrors(card: Card, binding: Option<Binding>, l: Lineage)
    ensures LineageError(card, binding, l) in
      {None, Some(InvalidLineage), Some(WorktreeNotBound), Some(LineageMismatch)}
  {
  }

  /** An owner never meets a missing or altered claim bundle. */
  lemma OwnerErrors(t: Tables, c: CardId, cmd: Command, actor: Actor, now: Time)
    requires Inv(t) && OwnerCommand(cmd)
    ensures ChangeOf(t, c, cmd, actor, now) != Refuse(ClaimBundleInvalid)
  {
    InvKnown(t, c);
    OwnerErrorsKnown(t, c, cmd, actor, now);
  }

  lemma OwnerErrorsKnown(t: Tables, c: CardId, cmd: Command, actor: Actor, now: Time)
    requires Known(t, c) && OwnerCommand(cmd)
    ensures ChangeOf(t, c, cmd, actor, now) != Refuse(ClaimBundleInvalid)
  {
    if c in t.cards {
      FencesIntact(t, c, Presented(cmd).value, actor);
      if c in t.open && cmd.ByOwner? && (cmd.step.Submit? || cmd.step.Checkpoint?) {
        LineageErrors(t.cards[c], BindingOf(t, t.open[c]), cmd.step.lineage);
      }
      OwnerErrorsFor(t, c, cmd, actor, now);
    } else {
      OwnerErrorsNoCard(t, c, cmd, actor, now);
    }
  }

  lemma OwnerErrorsNoCard(t: Tables, c: CardId, cmd: Command, actor: Actor, now: Time)
    requires OwnerCommand(cmd) && c !in t.cards
    ensures ChangeOf(t, c, cmd, actor, now) != Refuse(ClaimBundleInvalid)
  {
  }

  lemma OwnerErrorsFor(t: Tables, c: CardId, cmd: Command, actor: Actor, now: Time)
    requires OwnerCommand(cmd) && c in t.cards
    requires OwnerFence(t, c, t.cards[c], Presented(cmd).value, actor) != Some(ClaimBundleInvalid)
    requires c in t.open && cmd.ByOwner? && (cmd.step.Submit? || cmd.step.Checkpoint?) ==>
      LineageError(t.cards[c], BindingOf(t, t.open[c]), cmd.step.lineage) != Some(ClaimBundleInvalid)
    ensures ChangeOf(t, c, cmd, actor, now) != Refuse(ClaimBundleInvalid)
  {
  }

  /** A coordinator never meets a corrupt bundle, never approves its own work, and an
      acceptance never lacks its integration receipt. */
  lemma CoordinatorErrors(t: Tables, c: CardId, cmd: Command, actor: Actor, now: Time)
    requires Inv(t) && cmd.ByCoordinator?
    ensures CoordinatorChange(t, c, cmd, actor, now) !in
      {Refuse(ClaimBundleInvalid), Refuse(SelfApproval), Refuse(IntegrationRequired)}
  {
    if c in t.cards {
      InvKnown(t, c);
      FencesIntact(t, c, cmd.token, actor);
      InvKnownHistory(t, c);
      CoordinatorErrorsFor(t, c, cmd, actor, now);
    }
  }

  lemma CoordinatorErrorsFor(t: Tables, c: CardId, cmd: Command, actor: Actor, now: Time)
    requires cmd.ByCoordinator? && c in t.cards
    requires CoordinatorFence(t, c, t.cards[c], cmd.token) != Some(ClaimBundleInvalid)
    requires t.cards[c].owner.Some? ==> !IsCoordinator(t.cards[c].owner.value)
    requires t.cards[c].status == Verifying ==> IntegrationRecorded(Log(t, c))
    ensures CoordinatorChange(t, c, cmd, actor, now) !in
      {Refuse(ClaimBundleInvalid), Refuse(SelfApproval), Refuse(IntegrationRequired)}
  {
  }

  /** Progress is reported only from the bound worktree: a checkpoint or a submission
      succeeds only with the binding's repository, branch and base, all of them those of
      the frozen definition, and with evidence that the head descends from that base. */
  lemma ProgressMatchesBinding(t: Tables, c: CardId, cmd: Command, actor: Actor, now: Time)
    requires cmd.ByOwner? && (cmd.step.Checkpoint? || cmd.step.Submit?) && Succeeds(t, c, cmd, actor, now)
    ensures c in t.cards && c in t.open && BindingOf(t, t.open[c]).Some? && t.cards[c].status == InProgress
    ensures var l := cmd.step.lineage; var binding := BindingOf(t, t.open[c]).value; var d := t.cards[c].definition;
      && l.repositoryId == binding.repositoryId && l.branch == binding.branch == d.branch
      && l.baseCommit == binding.baseCommit == d.baseCommit && binding.worktreePath == d.worktreePath
      && l.ancestry.isDescendant && l.ancestry.baseCommit == d.baseCommit && l.ancestry.headCommit == l.headCommit
    ensures OnlyReceipt(t, Commit(t, c, ChangeOf(t, c, cmd, actor, now), now), c, OwnerEvent(cmd.step))
  {
    assert OwnerFence(t, c, t.cards[c], cmd.token, actor).None?;
    assert LineageError(t.cards[c], BindingOf(t, t.open[c]), cmd.step.lineage).None?;
  }

  /** One receipt with this event is all that the card's ledger gained. */
  predicate OnlyReceipt(t: Tables, u: Tables, c: CardId, event: Event) {
    |Log(u, c)| == |Log(t, c)| + 1 && Log(t, c) <= Log(u, c) && Log(u, c)[|Log(t, c)|].body.event == event
  }

  // -------------------------------------------------------- review evidence

  /** Every verifying or done card was last integrated after its last submission, at
      the submitted head, with ancestry evidence. */
  lemma ReviewBeforeAcceptance(txs: seq<Transaction>, c: CardId)
    requires c in Run(EMPTY, txs).cards && Run(EMPTY, txs).cards[c].status in {Verifying, Done}
    ensures var log := Log(Run(EMPTY, txs), c); var i, s := LastIntegrate(log), LastSubmit(log);
      && 0 <= s < i < |log|
      && log[i].body.event.IntegrateEvent? && log[s].body.event.SubmitEvent?
      && log[i].body.event.reviewHead == log[s].body.event.lineage.headCommit
      && log[i].body.event.integratedCommit != "" && log[i].body.event.ancestry.isAncestor
  {
    Reachable(txs);
    InvKnownHistory(Run(EMPTY, txs), c);
  }

  // ----------------------------------------------------------------- ledger

  /** One receipt per revision, from 0 upwards without gaps, each hashed over its body
      and naming its predecessor's hash. */
  lemma LedgerCountsRevisions(txs: seq<Transaction>, c: CardId)
    requires c in Run(EMPTY, txs).cards
    ensures LedgerOk(c, Log(Run(EMPTY, txs), c), Run(EMPTY, txs).cards[c].revision)
  {
    Reachable(txs);
    InvKnownHistory(Run(EMPTY, txs), c);
  }

  /** Two valid chains with the same head are the same chain. */
  lemma {:induction false} HeadDeterminesChain(c: CardId, left: seq<Receipt>, e: CardId, right: seq<Receipt>)
    requires LedgerOk(c, left, |left|) && LedgerOk(e, right, |right|)
    requires left[|left| - 1].hash == right[|right| - 1].hash
    ensures left == right && c == e
    decreases |left|
  {
    var n := |left| - 1;
    assert ReceiptOk(c, left, n) && ReceiptOk(e, right, |right| - 1);
    if n > 0 {
      ChainPrefix(c, left);
      ChainPrefix(e, right);
      HeadDeterminesChain(c, left[..n], e, right[..n]);
    }
    assert left == left[..n] + [left[n]] && right == right[..n] + [right[n]];
  }

  lemma ChainPrefix(c: CardId, log: seq<Receipt>)
    requires LedgerOk(c, log, |log|) && |log| > 1
    ensures LedgerOk(c, log[..|log| - 1], |log| - 1)
  {
    var less := log[..|log| - 1];
    forall i | 0 <= i < |less| ensures ReceiptOk(c, less, i) {
      assert ReceiptOk(c, log, i);
    }
  }

  /** Receipt hashes identify a card and a revision, so the unique column never
      refuses an insert, and each receipt has exactly one outbox row. */
  lemma ReceiptsAreUniqueAndAnnounced(txs: seq<Transaction>, c: CardId, i: nat, e: CardId, j: nat)
    requires var t := Run(EMPTY, txs); i < |Log(t, c)| && j < |Log(t, e)|
    ensures var t := Run(EMPTY, txs);
      && (Log(t, c)[i].hash == Log(t, e)[j].hash ==> c == e && i == j)
      && (exists n | 0 <= n < |t.outbox| :: t.outbox[n].key == ReceiptKey(Log(t, c)[i].hash))
      && (forall n, m | 0 <= n < |t.outbox| && 0 <= m < |t.outbox|
                        && t.outbox[n].key == t.outbox[m].key == ReceiptKey(Log(t, c)[i].hash) :: n == m)
  {
    Reachable(txs);
    LedgersIdentify(Run(EMPTY, txs), c, i, e, j);
  }

  lemma LedgersIdentify(t: Tables, c: CardId, i: nat, e: CardId, j: nat)
    requires LogsInv(t) && i < |Log(t, c)| && j < |Log(t, e)|
    ensures Log(t, c)[i].hash == Log(t, e)[j].hash ==> c == e && i == j
    ensures exists n | 0 <= n < |t.outbox| :: t.outbox[n].key == ReceiptKey(Log(t, c)[i].hash)
    ensures forall n, m | 0 <= n < |t.outbox| && 0 <= m < |t.outbox|
                          && t.outbox[n].key == t.outbox[m].key == ReceiptKey(Log(t, c)[i].hash) :: n == m
  {
    ReceiptAt(t, c, i);
    ReceiptAt(t, e, j);
    AnnouncedOnce(t.outbox, ReceiptKey(Log(t, c)[i].hash));
  }

  lemma ReceiptAt(t: Tables, c: CardId, i: nat)
    requires LogsInv(t) && i < |Log(t, c)|
    ensures ReceiptOk(c, Log(t, c), i) && ReceiptKey(Log(t, c)[i].hash) in OutboxKeys(t.outbox)
  {
    InvKnownHistory(t, c);
  }

  lemma AnnouncedOnce(rows: seq<OutboxRow>, key: DedupeKey)
    requires UniqueKeys(rows) && key in OutboxKeys(rows)
    ensures exists n | 0 <= n < |rows| :: rows[n].key == key
    ensures forall n, m | 0 <= n < |rows| && 0 <= m < |rows| && rows[n].key == rows[m].key == key :: n == m
  {
  }

  // ------------------------------------------------------- dependency order

  /** `order` lists the done cards once each, every one after its dependencies. */
  ghost predicate CompletionOrder(t: Tables, order: seq<CardId>) {
    && (forall c | c in order :: c in t.cards && t.cards[c].status == Done)
    && (forall c | c in t.cards && t.cards[c].status == Done :: c in order)
    && (forall i, j | 0 <= i < j < |order| :: order[i] != order[j])
    && (forall i | 0 <= i < |order| :: t.cards[order[i]].dependencies <= Before(order, i))
  }

  ghost function Before(order: seq<CardId>, i: nat): set<CardId>
    requires i <= |order|
  {
    set j | 0 <= j < i :: order[j]
  }

  ghost predicate IsDone(t: Tables, c: CardId) {
    c in t.cards && t.cards[c].status == Done
  }

  /** Between `t` and `u` only `c` was completed, and the done cards stayed as they were. */
  ghost predicate Completes(t: Tables, u: Tables, c: CardId) {
    && (forall e | IsDone(t, e) :: IsDone(u, e) && u.cards[e].dependencies == t.cards[e].dependencies)
    && (forall e | IsDone(u, e) && e != c :: IsDone(t, e))
    && (IsDone(u, c) && !IsDone(t, c) ==> c !in u.cards[c].dependencies && DependenciesDone(u, u.cards[c].dependencies))
  }

  lemma BeforePrefix(order: seq<CardId>, longer: seq<CardId>, i: nat)
    requires order <= longer && i <= |order|
    ensures Before(longer, i) == Before(order, i)
  {
  }

  lemma OrderExtends(t: Tables, u: Tables, c: CardId, order: seq<CardId>) returns (longer: seq<CardId>)
    requires CompletionOrder(t, order) && Completes(t, u, c)
    ensures order <= longer && CompletionOrder(u, longer)
  {
    longer := if IsDone(u, c) && !IsDone(t, c) then order + [c] else order;
    forall e | e in longer ensures IsDone(u, e) {
      assert e in order ==> IsDone(t, e);
    }
    forall e | IsDone(u, e) ensures e in longer {
      assert IsDone(t, e) ==> e in order;
    }
    forall i | 0 <= i < |longer| ensures u.cards[longer[i]].dependencies <= Before(longer, i) {
      BeforePrefix(order, longer, if i <= |order| then i else |order|);
      if i < |order| {
        assert IsDone(t, order[i]);
      } else {
        forall d | d in u.cards[c].dependencies ensures d in Before(order, |order|) {
          assert IsDone(u, d) && IsDone(t, d);
        }
      }
    }
  }

  /** A transaction completes at most one card, and completes it last. */
  lemma ExecExtendsOrder(t: Tables, tx: Transaction, order: seq<CardId>) returns (longer: seq<CardId>)
    requires Inv(t) && CompletionOrder(t, order)
    ensures order <= longer && CompletionOrder(Exec(t, tx), longer)
  {
    var c := if tx.OnCard? then tx.card else "";
    ExecCompletes(t, tx, c);
    longer := OrderExtends(t, Exec(t, tx), c, order);
  }

  lemma ExecCompletes(t: Tables, tx: Transaction, c: CardId)
    requires Inv(t) && (tx.OnCard? ==> tx.card == c)
    ensures Completes(t, Exec(t, tx), c)
  {
    var u := Exec(t, tx);
    ExecGrows(t, tx);
    ExecKeeps(t, tx);
    InvKnown(u, c);
    forall e | IsDone(t, e) ensures IsDone(u, e) && u.cards[e].dependencies == t.cards[e].dependencies {
      assert CardGrows(t, u, e);
    }
    forall e | IsDone(u, e) && !IsDone(t, e) ensures e == c && c !in u.cards[c].dependencies {
      NewlyDone(t, tx, e);
    }
  }

  /** Only an acceptance of a verifying card completes it. */
  lemma BecomesDone(t: Tables, c: CardId, cmd: Command, actor: Actor, now: Time)
    requires var r := ChangeOf(t, c, cmd, actor, now); r.Update? && r.delta.card.status == Done
    requires !(c in t.cards && t.cards[c].status == Done)
    ensures c in t.cards && t.cards[c].status == Verifying && cmd.ByCoordinator? && cmd.decision.Accept?
    ensures ChangeOf(t, c, cmd, actor, now).delta.card.dependencies == t.cards[c].dependencies
  {
  }

  lemma DeliverKeepsStatus(t: Tables, tx: Transaction, c: CardId)
    requires NamesCard(t, tx) && c in Exec(t, tx).cards
    ensures c in t.cards && Exec(t, tx).cards[c].status == t.cards[c].status
  {
    var u := t.(inbox := t.inbox[tx.delivery := tx.row]);
    var r := ChangeOf(u, tx.subject.value, Notice(tx.delivery), WEBHOOK_ACTOR, tx.now);
    assert Exec(t, tx) == Commit(u, tx.subject.value, r, tx.now);
  }

  lemma NewlyDoneOnCard(t: Tables, c: CardId, cmd: Command, actor: Actor, now: Time, e: CardId)
    requires Known(t, c)
    requires var u := Commit(t, c, ChangeOf(t, c, cmd, actor, now), now); IsDone(u, e) && !IsDone(t, e)
    ensures e == c && c !in Commit(t, c, ChangeOf(t, c, cmd, actor, now), now).cards[c].dependencies
  {
    CommittedCards(t, c, ChangeOf(t, c, cmd, actor, now), now);
    BecomesDone(t, c, cmd, actor, now);
    VerifyingNotOwnDependency(t, c);
  }

  lemma CommittedCards(t: Tables, c: CardId, change: Change, now: Time)
    ensures Commit(t, c, change, now).cards == if change.Update? then t.cards[c := change.delta.card] else t.cards
  {
  }

  lemma VerifyingNotOwnDependency(t: Tables, c: CardId)
    requires Known(t, c)
    ensures c in t.cards && t.cards[c].status == Verifying ==> c !in t.cards[c].dependencies
  {
  }

  lemma NewlyDone(t: Tables, tx: Transaction, c: CardId)
    requires Inv(t) && IsDone(Exec(t, tx), c) && !IsDone(t, c)
    ensures tx.OnCard? && tx.card == c && c !in Exec(t, tx).cards[c].dependencies
  {
    if tx.OnCard? {
      InvKnown(t, tx.card);
      NewlyDoneOnCard(t, tx.card, tx.command, tx.actor, tx.now, c);
    } else if NamesCard(t, tx) {
      DeliverKeepsStatus(t, tx, c);
    } else {
      ExecElsewhere(t, tx);
    }
  }

  /** Every run admits an order in which each done card follows all its dependencies. */
  lemma {:induction false} DependenciesDoneInOrder(t: Tables, txs: seq<Transaction>, order: seq<CardId>)
    returns (longer: seq<CardId>)
    requires Inv(t) && CompletionOrder(t, order)
    ensures order <= longer && CompletionOrder(Run(t, txs), longer)
    decreases |txs|
  {
    longer := order;
    if txs != [] {
      var next := ExecExtendsOrder(t, txs[0], order);
      ExecKeeps(t, txs[0]);
      longer := DependenciesDoneInOrder(Exec(t, txs[0]), txs[1..], next);
    }
  }

  /** `path` follows dependencies from card to card. */
  ghost predicate DependencyPath(t: Tables, path: seq<CardId>) {
    && |path| >= 2
    && (forall i | 0 <= i < |path| :: path[i] in t.cards)
    && (forall i | 0 <= i < |path| - 1 :: path[i + 1] in t.cards[path[i]].dependencies)
  }

  lemma {:induction false} PathDescends(t: Tables, order: seq<CardId>, path: seq<CardId>, at: nat) returns (low: nat)
    requires CompletionOrder(t, order) && DependencyPath(t, path)
    requires at < |order| && order[at] == path[0]
    ensures low < at && order[low] == path[|path| - 1]
    decreases |path|
  {
    assert path[1] in Before(order, at);
    var next :| 0 <= next < at && order[next] == path[1];
    low := next;
    if |path| > 2 {
      low := PathDescends(t, order, path[1..], next);
    }
  }

  /** Following dependencies from a done card visits done cards only and never returns. */
  lemma DoneCardsAcyclic(txs: seq<Transaction>, path: seq<CardId>)
    requires DependencyPath(Run(EMPTY, txs), path) && Run(EMPTY, txs).cards[path[0]].status == Done
    ensures path[|path| - 1] != path[0]
    ensures Run(EMPTY, txs).cards[path[|path| - 1]].status == Done
  {
    EmptyInv();
    var order := DependenciesDoneInOrder(EMPTY, txs, []);
    var at :| 0 <= at < |order| && order[at] == path[0];
    var low := PathDescends(Run(EMPTY, txs), order, path, at);
  }

  /** Ready, active and done cards have all their dependencies done, and done is final. */
  lemma DependenciesPrecedeWork(txs: seq<Transaction>, more: seq<Transaction>, c: CardId)
    requires c in Run(EMPTY, txs).cards && Qualified(Run(EMPTY, txs).cards[c].status)
    ensures DependenciesDone(Run(EMPTY, txs), Run(EMPTY, txs).cards[c].dependencies)
    ensures DependenciesDone(Run(Run(EMPTY, txs), more), Run(EMPTY, txs).cards[c].dependencies)
  {
    Reachable(txs);
    var t := Run(EMPTY, txs);
    InvKnown(t, c);
    RunGrows(t, more);
    forall d | d in t.cards[c].dependencies ensures d in Run(t, more).cards && Run(t, more).cards[d].status == Done {
      assert CardGrows(t, Run(t, more), d);
    }
  }
}
