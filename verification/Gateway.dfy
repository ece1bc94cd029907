/** The gateway object. Each operation reads the committed tables into a working copy,
    changes that copy statement by statement, and commits it by assignment; an error
    leaves the committed tables alone. */
module Gateway {
  import opened Outbox
  import opened Records
  import opened Workplan
  import opened WorkplanInvariant
  import opened WorkplanLease
  import opened WorkplanRuns
  import opened Wrappers

  /** `INSERT INTO path_reservations` for every path. */
  function InsertRows(t: Tables, c: CardId, paths: set<string>, token: nat): Tables {
    t.(reservations := SetRows(t.reservations, c, Rows(t, c) + Reserve(paths, token)))
  }

  function DeleteRows(t: Tables, c: CardId): Tables {
    t.(reservations := t.reservations - {c})
  }

  /** `UPDATE path_reservations SET fencing_token`. */
  function RetokenRows(t: Tables, c: CardId, token: nat): Tables {
    t.(reservations := SetRows(t.reservations, c, Reserve(Rows(t, c).Keys, token)))
  }

  function UpdateCard(t: Tables, c: CardId, card: Card): Tables {
    t.(cards := t.cards[c := card])
  }

  function CloseClaim(t: Tables, c: CardId, now: Time, reason: string): Tables {
    if c in t.open then
      t.(open := t.open - {c},
         closed := t.closed[t.open[c].id := t.open[c].(closed := Some(Closing(now, reason)))])
    else t
  }

  function InsertClaim(t: Tables, claim: Claim): Tables {
    t.(open := t.open[claim.card := claim])
  }

  function InsertBundle(t: Tables, c: CardId, card: Card, claim: Claim): Tables {
    t.(bundles := t.bundles[(claim.id, claim.token) := Seal(BundleMaterial(c, card, claim))])
  }

  /** Reservations are grouped by card and a group is never empty. */
  ghost predicate NormalRows(reservations: map<CardId, map<string, nat>>) {
    forall c | c in reservations :: reservations[c] != map[]
  }

  lemma CommitNormal(t: Tables, c: CardId, change: Change, now: Time)
    requires NormalRows(t.reservations)
    ensures NormalRows(Commit(t, c, change, now).reservations)
  {
  }

  lemma RowsUnchanged(t: Tables, c: CardId)
    requires NormalRows(t.reservations)
    ensures SetRows(t.reservations, c, Rows(t, c)) == t.reservations
    ensures SetClaim(t.open, c, OpenClaim(t, c)) == t.open
  {
    if c in t.reservations { assert t.reservations[c := t.reservations[c]] == t.reservations; }
    else { assert t.reservations - {c} == t.reservations; }
    if c in t.open { assert t.open[c := t.open[c]] == t.open; }
    else { assert t.open - {c} == t.open; }
  }

  /** A transaction with an event ends by appending that event's receipt. */
  lemma ReceiptFollowsStore(t: Tables, c: CardId, d: Delta, now: Time)
    requires d.event.Some? && c in t.cards
    ensures Commit(t, c, Update(d), now) ==
            AppendReceipt(Store(t, c, d, now), c, d.event.value, d.actor, t.cards[c].revision, d.card.revision,
                          d.token, now)
  {
  }

  /** A qualification touches the card row, its reservations and its ledger only. */
  lemma QualifyStored(t: Tables, c: CardId, cmd: Command, actor: Actor, now: Time)
    requires cmd.Qualify? && NormalRows(t.reservations)
    ensures var d := QualifyDelta(t, c, cmd, actor);
      Store(t, c, d, now) == t.(cards := t.cards[c := d.card], reservations := SetRows(t.reservations, c, d.rows))
  {
    RowsUnchanged(t, c);
  }

  /** The statements of a qualification that passed its checks. */
  method QualifyStatements(t: Tables, c: CardId, cmd: Command, paths: set<string>, actor: Actor, now: Time)
    returns (u: Tables)
    requires cmd.Qualify? && NormalRows(t.reservations) && paths == NormalizedPaths(cmd.rawPaths)
    ensures u == Commit(t, c, Update(QualifyDelta(t, c, cmd, actor)), now)
  {
    ghost var d := QualifyDelta(t, c, cmd, actor);
    QualifyStored(t, c, cmd, actor, now);
    var card, from := QualifyCardRow(t, c, cmd, paths);
    u := QualifyRows(t, c, card, cmd.ready, paths);
    assert u == Store(t, c, d, now);
    u := AppendReceipt(u, c, QualifyEvent(card.definitionHash, card.status), actor, from, from + 1, None, now);
  }

  /** The inserted or updated card row, with its paths and dependencies. */
  method QualifyCardRow(t: Tables, c: CardId, cmd: Command, paths: set<string>) returns (card: Card, from: nat)
    requires cmd.Qualify?
    ensures card == QualifiedCard(if c in t.cards then Some(t.cards[c]) else None, cmd, paths)
    ensures from == Revision(t, c) && card.revision == from + 1
  {
    var hash, status := DefinitionDigest(cmd.definition), if cmd.ready then Ready else Backlog;
    from := 0;
    card := Card(cmd.title, status, None, 1, cmd.definition, hash, cmd.repositoryId, cmd.priority,
                 0, false, false, None, None, {}, {});
    if c in t.cards {
      from := t.cards[c].revision;
      card := t.cards[c].(title := cmd.title, status := status, revision := from + 1,
                          definition := cmd.definition, definitionHash := hash,
                          repositoryId := cmd.repositoryId, priority := cmd.priority);
    }
    card := card.(paths := paths, dependencies := cmd.dependencies);
  }

  method QualifyRows(t: Tables, c: CardId, card: Card, ready: bool, paths: set<string>) returns (u: Tables)
    requires NormalRows(t.reservations)
    ensures u == t.(cards := t.cards[c := card],
                    reservations := SetRows(t.reservations, c, if ready then Reserve(paths, 0) else map[]))
  {
    u := DeleteRows(t, c);
    u := UpdateCard(u, c, card);
    if ready {
      u := InsertRows(u, c, paths, 0);
    }
    RowsReplaced(t.reservations, c, if ready then Reserve(paths, 0) else map[]);
  }

  lemma RowsReplaced(r: map<CardId, map<string, nat>>, c: CardId, rows: map<string, nat>)
    ensures SetRows(r - {c}, c, map[] + rows) == SetRows(r, c, rows)
    ensures r - {c} == SetRows(r, c, map[])
  {
    assert map[] + rows == rows;
    assert (r - {c})[c := rows] == r[c := rows];
    assert r - {c} - {c} == r - {c};
  }

  lemma ClosedWhenNone(t: Tables, c: CardId)
    ensures c !in t.open ==> SetClaim(t.open, c, None) == t.open
  {
    if c !in t.open { assert t.open - {c} == t.open; }
  }

  /** The error of a refused change. */
  function RefusalOf(change: Change): Option<ErrorCode> {
    if change.Refuse? then Some(change.code) else None
  }

  /** A claim writes the card, its claim, its reservations' token and one bundle. */
  lemma ClaimStored(t: Tables, c: CardId, cmd: Command, actor: Actor, now: Time)
    requires cmd.TakeClaim? && c in t.cards && c !in t.open
    ensures var d := ClaimDelta(t, c, cmd, actor, now); var claim := d.claim.value;
      Store(t, c, d, now) ==
      t.(cards := t.cards[c := d.card], open := t.open[c := claim],
         reservations := SetRows(t.reservations, c, Reserve(Rows(t, c).Keys, claim.token)),
         bundles := t.bundles[(claim.id, claim.token) := Seal(BundleMaterial(c, d.card, claim))])
  {
  }

  method ClaimRows(t: Tables, c: CardId, next: Card, claim: Claim) returns (u: Tables)
    requires claim.card == c
    ensures u == t.(cards := t.cards[c := next], open := t.open[c := claim],
                    reservations := SetRows(t.reservations, c, Reserve(Rows(t, c).Keys, claim.token)),
                    bundles := t.bundles[(claim.id, claim.token) := Seal(BundleMaterial(c, next, claim))])
  {
    u := UpdateCard(t, c, next);
    u := InsertClaim(u, claim);
    u := RetokenRows(u, c, claim.token);
    u := InsertBundle(u, c, next, claim);
  }

  /** The statements of a claim that passed its checks. */
  method ClaimStatements(t: Tables, c: CardId, cmd: Command, actor: Actor, now: Time) returns (u: Tables)
    requires cmd.TakeClaim? && c in t.cards && c !in t.open
    ensures u == Commit(t, c, Update(ClaimDelta(t, c, cmd, actor, now)), now)
  {
    ghost var d := ClaimDelta(t, c, cmd, actor, now);
    ClaimStored(t, c, cmd, actor, now);
    ReceiptFollowsStore(t, c, d, now);
    var card := t.cards[c];
    var fence := card.generation + 1;
    var next := card.(status := Claimed, owner := Some(actor), revision := card.revision + 1,
                      generation := fence, attention := false);
    var claim := Claim(cmd.claimId, c, actor, fence, card.definitionHash, now, now, now + cmd.leaseSeconds, None);
    u := ClaimRows(t, c, next, claim);
    assert u == Store(t, c, d, now);
    u := AppendReceipt(u, c, ClaimEvent(cmd.claimId, card.definitionHash, card.paths), actor,
                       card.revision, card.revision + 1, Some(fence), now);
  }

  /** The reservation statements of an owner transition. */
  method MoveOwnerRows(t: Tables, c: CardId, card: Card, token: nat, step: OwnerAction) returns (u: Tables)
    requires NormalRows(t.reservations)
    ensures u == t.(reservations := SetRows(t.reservations, c, OwnerRows(t, c, card, token, step)))
  {
    u := t;
    RowsUnchanged(t, c);
    RowsReplaced(t.reservations, c, Reserve(card.paths, token));
    if step.Resume? && |Rows(t, c)| == 0 {
      u := InsertRows(u, c, card.paths, token);
    }
    if step.Block? && !step.retainPaths {
      u := DeleteRows(u, c);
    }
  }

  /** An owner transition moves the card row and its reservations only. */
  lemma OwnerStored(t: Tables, c: CardId, cmd: Command, actor: Actor, now: Time)
    requires cmd.ByOwner? && c in t.cards && c in t.open
    ensures var d := OwnerDelta(t, c, cmd, actor);
      Store(t, c, d, now) == t.(cards := t.cards[c := d.card], reservations := SetRows(t.reservations, c, d.rows))
  {
    assert t.open[c := t.open[c]] == t.open;
  }

  method OwnerStatements(t: Tables, c: CardId, cmd: Command, actor: Actor, now: Time) returns (u: Tables)
    requires NormalRows(t.reservations) && cmd.ByOwner? && c in t.cards && c in t.open
    ensures u == Commit(t, c, Update(OwnerDelta(t, c, cmd, actor)), now)
  {
    ghost var d := OwnerDelta(t, c, cmd, actor);
    OwnerStored(t, c, cmd, actor, now);
    ReceiptFollowsStore(t, c, d, now);
    var card := t.cards[c];
    u := MoveOwnerRows(t, c, card, cmd.token, cmd.step);
    u := UpdateCard(u, c, card.(status := OwnerTarget(cmd.step), revision := card.revision + 1));
    assert u == Store(t, c, d, now);
    u := AppendReceipt(u, c, OwnerEvent(cmd.step), actor, card.revision, card.revision + 1, Some(cmd.token), now);
  }

  /** A coordinator decision other than `integrate` closes the claim. */
  method SettleClaim(t: Tables, c: CardId, d: CoordinatorAction, now: Time) returns (u: Tables)
    ensures var claim := if d.Integrate? then OpenClaim(t, c) else None;
      u == t.(open := SetClaim(t.open, c, claim),
              closed := CloseReplaced(t.open, t.closed, c, claim, Closing(now, CloseReason(d))))
  {
    u := t;
    if d.Integrate? {
      assert c in t.open ==> t.open[c := t.open[c]] == t.open;
      assert c !in t.open ==> t.open - {c} == t.open;
    } else {
      ClosedWhenNone(t, c);
      u := CloseClaim(t, c, now, CloseReason(d));
    }
  }

  function DecidedRows(t: Tables, c: CardId, d: CoordinatorAction): map<string, nat> {
    if d.Integrate? then Rows(t, c)
    else if d.Requeue? && c in t.cards then Reserve(t.cards[c].paths, 0)
    else map[]
  }

  /** The reservation statements of a coordinator decision. */
  method MoveDecidedRows(t: Tables, c: CardId, d: CoordinatorAction) returns (u: Tables)
    requires NormalRows(t.reservations) && c in t.cards
    ensures u == t.(reservations := SetRows(t.reservations, c, DecidedRows(t, c, d)))
  {
    u := t;
    RowsUnchanged(t, c);
    RowsReplaced(t.reservations, c, Reserve(t.cards[c].paths, 0));
    if d.Accept? || d.Cancel? {
      u := DeleteRows(u, c);
    }
    if d.Requeue? {
      u := DeleteRows(u, c);
      u := InsertRows(u, c, t.cards[c].paths, 0);
    }
  }

  function DecidedCard(card: Card, d: CoordinatorAction, actor: Actor): Card {
    var moved := card.(status := CoordinatorTarget(d), revision := card.revision + 1);
    if d.Integrate? then moved.(integratedBy := Some(actor), integratedCommit := Some(d.integratedCommit))
    else moved.(owner := None)
  }

  lemma DecisionStored(t: Tables, c: CardId, d: CoordinatorAction, actor: Actor, now: Time)
    requires c in t.cards
    ensures var e := DecisionDelta(t, c, d, actor);
      Store(t, c, e, now) ==
      t.(cards := t.cards[c := DecidedCard(t.cards[c], d, actor)],
         open := SetClaim(t.open, c, e.claim),
         closed := CloseReplaced(t.open, t.closed, c, e.claim, Closing(now, CloseReason(d))),
         reservations := SetRows(t.reservations, c, DecidedRows(t, c, d)))
  {
  }

  method DecisionStatements(t: Tables, c: CardId, d: CoordinatorAction, actor: Actor, now: Time) returns (u: Tables)
    requires NormalRows(t.reservations) && c in t.cards
    ensures u == Commit(t, c, Update(DecisionDelta(t, c, d, actor)), now)
  {
    ghost var e := DecisionDelta(t, c, d, actor);
    DecisionStored(t, c, d, actor, now);
    ReceiptFollowsStore(t, c, e, now);
    var card := t.cards[c];
    u := MoveDecidedRows(t, c, d);
    u := SettleClaim(u, c, d, now);
    u := UpdateCard(u, c, DecidedCard(card, d, actor));
    assert u == Store(t, c, e, now);
    u := AppendReceipt(u, c, CoordinatorEvent(d), actor, card.revision, card.revision + 1,
                       OptionalToken(card.generation), now);
  }

  /** A reassignment closes the old claim and opens a new one over all the card's paths. */
  lemma ReassignStored(t: Tables, c: CardId, cmd: Command, actor: Actor, now: Time)
    requires cmd.Reassign? && c in t.cards && c in t.open && cmd.claimId != t.open[c].id
    ensures var d := ReassignDelta(t, c, cmd, actor, now); var claim := d.claim.value;
      Store(t, c, d, now) ==
      t.(cards := t.cards[c := d.card], open := t.open[c := claim],
         closed := t.closed[t.open[c].id := t.open[c].(closed := Some(Closing(now, "reassign")))],
         reservations := SetRows(t.reservations, c, d.rows),
         bundles := t.bundles[(claim.id, claim.token) := Seal(BundleMaterial(c, d.card, claim))])
  {
  }

  method ReassignRows(t: Tables, c: CardId, next: Card, claim: Claim, paths: set<string>, now: Time) returns (u: Tables)
    requires claim.card == c && c in t.open
    ensures u == t.(cards := t.cards[c := next], open := t.open[c := claim],
                    closed := t.closed[t.open[c].id := t.open[c].(closed := Some(Closing(now, "reassign")))],
                    reservations := SetRows(t.reservations, c, Reserve(paths, claim.token)),
                    bundles := t.bundles[(claim.id, claim.token) := Seal(BundleMaterial(c, next, claim))])
  {
    u := CloseClaim(t, c, now, "reassign");
    u := UpdateCard(u, c, next);
    u := InsertClaim(u, claim);
    assert (t.open - {c})[c := claim] == t.open[c := claim];
    u := DeleteRows(u, c);
    u := InsertRows(u, c, paths, claim.token);
    RowsReplaced(t.reservations, c, Reserve(paths, claim.token));
    u := InsertBundle(u, c, next, claim);
  }

  method ReassignStatements(t: Tables, c: CardId, cmd: Command, actor: Actor, now: Time) returns (u: Tables)
    requires cmd.Reassign? && c in t.cards && c in t.open && cmd.claimId != t.open[c].id
    ensures u == Commit(t, c, Update(ReassignDelta(t, c, cmd, actor, now)), now)
  {
    ghost var d := ReassignDelta(t, c, cmd, actor, now);
    ReassignStored(t, c, cmd, actor, now);
    ReceiptFollowsStore(t, c, d, now);
    var card := t.cards[c];
    var fence, revision := card.generation + 1, card.revision + 1;
    var next := card.(status := Claimed, owner := Some(cmd.newOwner), revision := revision,
                      generation := fence, attention := false);
    var claim := Claim(cmd.claimId, c, cmd.newOwner, fence, card.definitionHash, now, now, now + cmd.leaseSeconds,
                       None);
    u := ReassignRows(t, c, next, claim, card.paths, now);
    assert u == Store(t, c, d, now);
    u := AppendReceipt(u, c, ReassignEvent(cmd.newOwner, cmd.reason, cmd.claimId), actor,
                       card.revision, revision, Some(fence), now);
  }

  /** With an open claim, a revalidation moves the claim, its reservations and its
      binding to the next token and freezes a new bundle. */
  function Retokened(t: Tables, c: CardId, card: Card, hash: Digest, fence: nat): Tables
    requires c in t.open
  {
    var claim := t.open[c].(definitionHash := hash, token := fence);
    var prior := BindingOf(t, t.open[c]);
    t.(open := t.open[c := claim],
       reservations := SetRows(t.reservations, c, Reserve(Rows(t, c).Keys, fence)),
       bindings := SetBinding(t.bindings, Some(claim),
                              if prior.Some? then Some(prior.value.(token := fence)) else None),
       bundles := t.bundles[(claim.id, fence) := Seal(BundleMaterial(c, card, claim))])
  }

  method RetokenClaim(t: Tables, c: CardId, card: Card, hash: Digest, fence: nat) returns (u: Tables)
    requires c in t.open
    ensures u == Retokened(t, c, card, hash, fence)
  {
    var claim := t.open[c].(definitionHash := hash, token := fence);
    u := t.(open := t.open[c := claim]);
    u := RetokenRows(u, c, fence);
    if claim.id in t.bindings {
      u := u.(bindings := u.bindings[claim.id := u.bindings[claim.id].(token := fence)]);
    }
    u := InsertBundle(u, c, card, claim);
  }

  lemma RevalidateStored(t: Tables, c: CardId, cmd: Command, actor: Actor, now: Time)
    requires NormalRows(t.reservations) && cmd.Revalidate? && c in t.cards
    ensures var d := RevalidateDelta(t, c, cmd, actor); var v := t.(cards := t.cards[c := d.card]);
      Store(t, c, d, now) ==
      if c in t.open then Retokened(v, c, d.card, DefinitionDigest(cmd.definition), d.card.generation) else v
  {
    RowsUnchanged(t, c);
  }

  /** The card row, and with an open claim everything that carries its token. */
  method RevalidateRows(t: Tables, c: CardId, next: Card, hash: Digest) returns (u: Tables)
    ensures var v := t.(cards := t.cards[c := next]);
      u == if c in t.open then Retokened(v, c, next, hash, next.generation) else v
  {
    u := UpdateCard(t, c, next);
    if c in t.open {
      u := RetokenClaim(u, c, next, hash, next.generation);
    }
  }

  method RevalidateStatements(t: Tables, c: CardId, cmd: Command, actor: Actor, now: Time) returns (u: Tables)
    requires NormalRows(t.reservations) && cmd.Revalidate? && c in t.cards
    ensures u == Commit(t, c, Update(RevalidateDelta(t, c, cmd, actor)), now)
  {
    ghost var d := RevalidateDelta(t, c, cmd, actor);
    RevalidateStored(t, c, cmd, actor, now);
    ReceiptFollowsStore(t, c, d, now);
    var card := t.cards[c];
    var hash, fence := DefinitionDigest(cmd.definition), card.generation;
    if c in t.open {
      fence := fence + 1;
    }
    var next := card.(definition := cmd.definition, definitionHash := hash, revalidation := false,
                      revision := card.revision + 1, generation := fence);
    assert next == d.card;
    u := RevalidateRows(t, c, next, hash);
    assert u == Store(t, c, d, now);
    u := AppendReceipt(u, c, RevalidateEvent(hash, fence), actor, card.revision, card.revision + 1,
                       OptionalToken(fence), now);
  }

  // ------------------------------------------------- operations on one card row

  method PreflightStatements(t: Tables, c: CardId, now: Time) returns (u: Tables)
    requires NormalRows(t.reservations) && c in t.cards && Expired(t, c, now) && !t.cards[c].attention
    ensures u == Commit(t, c, PreflightChange(t, c, now), now)
  {
    RowsUnchanged(t, c);
    var card := t.cards[c];
    u := UpdateCard(t, c, card.(attention := true, revision := card.revision + 1));
    u := AppendReceipt(u, c, LeaseExpiredEvent(t.open[c].id), "gateway:expiry:sweep",
                       card.revision, card.revision + 1, Some(card.generation), now);
  }

  method BindStatements(t: Tables, c: CardId, cmd: Command, actor: Actor, now: Time) returns (u: Tables)
    requires NormalRows(t.reservations) && cmd.Bind? && BindChange(t, c, cmd, actor, now).Update?
    ensures u == Commit(t, c, BindChange(t, c, cmd, actor, now), now)
  {
    RowsUnchanged(t, c);
    var card := t.cards[c];
    u := t.(bindings := t.bindings[t.open[c].id :=
      Binding(c, cmd.token, cmd.repositoryId, cmd.worktreePath, cmd.branch, cmd.baseCommit)]);
    u := UpdateCard(u, c, card.(status := InProgress, revision := card.revision + 1));
    u := AppendReceipt(u, c, BindEvent(cmd.repositoryId, cmd.worktreePath, cmd.branch, cmd.baseCommit), actor,
                       card.revision, card.revision + 1, Some(cmd.token), now);
  }

  method HeartbeatStatements(t: Tables, c: CardId, cmd: Command, actor: Actor, now: Time) returns (u: Tables)
    requires NormalRows(t.reservations) && cmd.Heartbeat? && HeartbeatChange(t, c, cmd, actor, now).Update?
    ensures u == Commit(t, c, HeartbeatChange(t, c, cmd, actor, now), now)
  {
    RowsUnchanged(t, c);
    u := t.(open := t.open[c := t.open[c].(heartbeatAt := now, expiresAt := now + cmd.leaseSeconds)]);
    assert t.cards[c := t.cards[c]] == t.cards;
  }

  method NoticeStatements(t: Tables, c: CardId, delivery: string, now: Time) returns (u: Tables)
    requires NormalRows(t.reservations)
    ensures u == Notified(t, c, delivery, now)
  {
    u := t;
    if c in t.cards && c in t.open && !t.cards[c].revalidation {
      RowsUnchanged(t, c);
      var card := t.cards[c];
      u := UpdateCard(u, c, card.(revalidation := true, attention := true, revision := card.revision + 1));
      u := AppendReceipt(u, c, DefinitionChangedEvent(delivery), WEBHOOK_ACTOR, card.revision, card.revision + 1,
                         Some(card.generation), now);
    }
  }

  method SwitchStatements(t: Tables, backend: string, snapshot: string, actor: Actor, now: Time) returns (u: Tables)
    ensures u == Switched(t, backend, snapshot, actor, now)
  {
    var previous := if t.backendReceipts == [] then None else Some(t.backendReceipts[|t.backendReceipts| - 1].hash);
    var switch := BackendSwitch(t.epoch, t.epoch + 1, t.backend, backend, snapshot, actor, now, previous);
    var hash := BackendDigest(switch);
    u := t.(epoch := t.epoch + 1, backend := backend);
    u := u.(backendReceipts := u.backendReceipts + [BackendReceipt(switch, hash)]);
    u := u.(outbox := Enqueue(u.outbox, BackendKey(hash), BackendActivity(u.epoch, backend, snapshot, hash),
                              now * 1000));
  }

  lemma OperationKeeps(t: Tables, call: Call)
    requires Inv(t)
    ensures NormalRows(t.reservations) && Inv(Perform(t, call).0)
  {
    PerformKeeps(t, call);
  }

  class WorkplanGateway {
    var db: Tables

    /** The store invariant, which every method keeps. */
    ghost predicate Valid()
      reads this
    {
      Inv(db)
    }

    constructor ()
      ensures Valid() && db == EMPTY
    {
      EmptyInv();
      db := EMPTY;
    }

    method ExpiryPreflight(c: CardId, now: Time) returns (raised: Option<ErrorCode>)
      requires NormalRows(db.reservations)
      modifies this
      ensures NormalRows(db.reservations) && db == Commit(old(db), c, PreflightChange(old(db), c, now), now)
      ensures raised == if c !in old(db).cards then Some(CardNotFound)
                        else if Expired(old(db), c, now) then Some(FenceExpired) else None
      ensures raised.None? ==> db == old(db)
    {
      CommitNormal(db, c, PreflightChange(db, c, now), now);
      if c !in db.cards {
        return Some(CardNotFound);
      }
      raised := None;
      if c in db.open && db.open[c].expiresAt <= now {
        if !db.cards[c].attention {
          db := PreflightStatements(db, c, now);
        }
        raised := Some(FenceExpired);
      }
    }

    method HeartbeatClaim(c: CardId, cmd: Command, actor: Actor, now: Time) returns (reply: Reply)
      requires Valid() && cmd.Heartbeat?
      modifies this
      ensures Valid() && (db, reply) == Perform(old(db), Call(c, cmd, actor, now))
    {
      OperationKeeps(db, Call(c, cmd, actor, now));
      reply := RunHeartbeat(c, cmd, actor, now);
    }

    method RunHeartbeat(c: CardId, cmd: Command, actor: Actor, now: Time) returns (reply: Reply)
      requires NormalRows(db.reservations) && cmd.Heartbeat?
      modifies this
      ensures (db, reply) == Perform(old(db), Call(c, cmd, actor, now))
    {
      if cmd.leaseSeconds <= 0 {
        return Failed(InvalidLease);
      }
      var raised := ExpiryPreflight(c, now);
      if raised.Some? {
        return Failed(raised.value);
      }
      var fence := CheckHeartbeat(c, cmd, actor, now);
      if fence.Some? {
        return Failed(fence.value);
      }
      db := HeartbeatStatements(db, c, cmd, actor, now);
      reply := Performed;
    }

    /** Only the owner's fence can refuse a renewal of a card that exists. */
    method CheckHeartbeat(c: CardId, cmd: Command, actor: Actor, now: Time) returns (fence: Option<ErrorCode>)
      requires cmd.Heartbeat? && cmd.leaseSeconds > 0 && c in db.cards
      ensures fence == RefusalOf(HeartbeatChange(db, c, cmd, actor, now))
      ensures fence.None? ==> HeartbeatChange(db, c, cmd, actor, now).Update?
    {
      fence := OwnerFence(db, c, db.cards[c], cmd.token, actor);
    }

    /** The nested loops over a card's paths and the other cards' reservations. */
    method FindConflict(c: CardId, paths: set<string>) returns (found: bool)
      ensures found == Conflicts(db, c, paths)
    {
      found := false;
      var cards := db.reservations.Keys;
      while cards != {}
        invariant cards <= db.reservations.Keys
        invariant found == exists d | d in db.reservations.Keys - cards && d != c :: Touches(paths, db.reservations[d])
        decreases cards
      {
        var d :| d in cards;
        if d != c {
          var rest := paths;
          while rest != {}
            invariant rest <= paths
            invariant found == ((exists e | e in db.reservations.Keys - cards && e != c ::
                                   Touches(paths, db.reservations[e]))
                                || exists p | p in paths - rest :: OverlapsAny(p, db.reservations[d]))
            decreases rest
          {
            var p :| p in rest;
            if OverlapsAny(p, db.reservations[d]) {
              found := true;
            }
            rest := rest - {p};
          }
          assert paths - rest == paths;
        }
        cards := cards - {d};
      }
    }

    method FindUnmet(dependencies: set<CardId>) returns (unmet: bool)
      ensures unmet == !DependenciesDone(db, dependencies)
    {
      var rest := dependencies;
      while rest != {}
        invariant rest <= dependencies
        invariant DependenciesDone(db, dependencies - rest)
        decreases rest
      {
        var d :| d in rest;
        if d !in db.cards || db.cards[d].status != Done {
          return true;
        }
        rest := rest - {d};
      }
      assert dependencies - rest == dependencies;
      unmet := false;
    }

    method QualifyCard(c: CardId, cmd: Command, actor: Actor, now: Time) returns (reply: Reply)
      requires Valid() && cmd.Qualify?
      modifies this
      ensures Valid() && (db, reply) == Perform(old(db), Call(c, cmd, actor, now))
    {
      OperationKeeps(db, Call(c, cmd, actor, now));
      reply := RunQualify(c, cmd, actor, now);
    }

    method RunQualify(c: CardId, cmd: Command, actor: Actor, now: Time) returns (reply: Reply)
      requires NormalRows(db.reservations) && cmd.Qualify?
      modifies this
      ensures (db, reply) == Perform(old(db), Call(c, cmd, actor, now))
    {
      var error := CheckQualify(c, cmd, actor);
      if error.Some? {
        return Failed(error.value);
      }
      db := QualifyStatements(db, c, cmd, NormalizedPaths(cmd.rawPaths), actor, now);
      reply := Performed;
    }

    method CheckQualify(c: CardId, cmd: Command, actor: Actor) returns (error: Option<ErrorCode>)
      requires cmd.Qualify?
      ensures error == QualifyError(db, c, cmd, actor)
    {
      error := QualifyArgumentError(cmd);
      if error.Some? {
        return;
      }
      if !IsCoordinator(actor) {
        return Some(CoordinatorRequired);
      }
      if cmd.ready {
        var unmet := FindUnmet(cmd.dependencies);
        if unmet {
          return Some(DependencyUnmet);
        }
        var conflict := FindConflict(c, NormalizedPaths(cmd.rawPaths));
        if conflict {
          return Some(PathConflict);
        }
      }
      if c !in db.cards {
        return if cmd.expected == None || cmd.expected == Some(0) then None else Some(StaleRevision);
      }
      if db.cards[c].status != Backlog && db.cards[c].status != Ready {
        return Some(InvalidTransition);
      }
      if cmd.expected == None {
        return Some(ExpectedRevisionRequired);
      }
      error := if cmd.expected.value != db.cards[c].revision then Some(StaleRevision) else None;
    }

    method TakeClaimOn(c: CardId, cmd: Command, actor: Actor, now: Time) returns (reply: Reply)
      requires Valid() && cmd.TakeClaim?
      modifies this
      ensures Valid() && (db, reply) == Perform(old(db), Call(c, cmd, actor, now))
    {
      OperationKeeps(db, Call(c, cmd, actor, now));
      reply := RunClaim(c, cmd, actor, now);
    }

    method RunClaim(c: CardId, cmd: Command, actor: Actor, now: Time) returns (reply: Reply)
      requires NormalRows(db.reservations) && cmd.TakeClaim?
      modifies this
      ensures (db, reply) == Perform(old(db), Call(c, cmd, actor, now))
    {
      var error := CheckClaim(c, cmd, actor, now);
      if error.Some? {
        return Failed(error.value);
      }
      db := ClaimStatements(db, c, cmd, actor, now);
      reply := Performed;
    }

    method CheckClaim(c: CardId, cmd: Command, actor: Actor, now: Time) returns (error: Option<ErrorCode>)
      requires cmd.TakeClaim?
      ensures error == RefusalOf(ClaimChange(db, c, cmd, actor, now))
      ensures error.None? ==>
        && c in db.cards && c !in db.open
        && ClaimChange(db, c, cmd, actor, now) == Update(ClaimDelta(db, c, cmd, actor, now))
    {
      if cmd.leaseSeconds <= 0 {
        return Some(InvalidLease);
      }
      if IsCoordinator(actor) {
        return Some(WorkerRequired);
      }
      if c !in db.cards {
        return Some(CardNotFound);
      }
      var card := db.cards[c];
      if cmd.revision != card.revision {
        return Some(StaleRevision);
      }
      if cmd.expectedDefinition != card.definitionHash {
        return Some(DefinitionChanged);
      }
      if card.status != Ready {
        return Some(CardNotReady);
      }
      if Namespace(actor) !in card.definition.allowedOwnerNamespaces {
        return Some(OwnerNamespaceDenied);
      }
      if HoldsClaim(db, actor) {
        return Some(WipLimit);
      }
      var unmet := FindUnmet(card.dependencies);
      if unmet {
        return Some(DependencyUnmet);
      }
      var conflict := FindConflict(c, card.paths);
      if conflict {
        return Some(PathConflict);
      }
      if ClaimIdUsed(db, cmd.claimId) || c in db.open {
        return Some(IntegrityError);
      }
      if |Rows(db, c)| != |card.paths| {
        return Some(ReservationLost);
      }
      error := if (cmd.claimId, card.generation + 1) in db.bundles then Some(IntegrityError) else None;
    }

    method TransitionOwner(c: CardId, cmd: Command, actor: Actor, now: Time) returns (reply: Reply)
      requires Valid() && cmd.ByOwner?
      modifies this
      ensures Valid() && (db, reply) == Perform(old(db), Call(c, cmd, actor, now))
    {
      OperationKeeps(db, Call(c, cmd, actor, now));
      reply := RunOwner(c, cmd, actor, now);
    }

    method RunOwner(c: CardId, cmd: Command, actor: Actor, now: Time) returns (reply: Reply)
      requires NormalRows(db.reservations) && cmd.ByOwner?
      modifies this
      ensures (db, reply) == Perform(old(db), Call(c, cmd, actor, now))
    {
      if !OwnerArgumentsOk(cmd.step) {
        return Failed(OwnerArgumentError(cmd.step));
      }
      var raised := ExpiryPreflight(c, now);
      if raised.Some? {
        return Failed(raised.value);
      }
      var error := CheckOwner(c, cmd, actor, now);
      if error.Some? {
        return Failed(error.value);
      }
      db := OwnerStatements(db, c, cmd, actor, now);
      reply := Performed;
    }

    method CheckOwner(c: CardId, cmd: Command, actor: Actor, now: Time) returns (error: Option<ErrorCode>)
      requires cmd.ByOwner? && OwnerArgumentsOk(cmd.step) && c in db.cards
      ensures error == RefusalOf(OwnerChange(db, c, cmd, actor, now))
      ensures error.None? ==>
        c in db.open && OwnerChange(db, c, cmd, actor, now) == Update(OwnerDelta(db, c, cmd, actor))
    {
      var card := db.cards[c];
      if cmd.revision != card.revision {
        return Some(StaleRevision);
      }
      var fence := OwnerFence(db, c, card, cmd.token, actor);
      if fence.Some? {
        return fence;
      }
      if !OwnerMay(cmd.step, card.status) {
        return Some(InvalidTransition);
      }
      if cmd.step.Checkpoint? || cmd.step.Submit? {
        var lineage := LineageError(card, BindingOf(db, db.open[c]), cmd.step.lineage);
        if lineage.Some? {
          return lineage;
        }
      }
      if cmd.step.Resume? && |Rows(db, c)| == 0 {
        var conflict := FindConflict(c, card.paths);
        if conflict {
          return Some(PathConflict);
        }
      }
      error := None;
    }

    method BindWorktree(c: CardId, cmd: Command, actor: Actor, now: Time) returns (reply: Reply)
      requires Valid() && cmd.Bind?
      modifies this
      ensures Valid() && (db, reply) == Perform(old(db), Call(c, cmd, actor, now))
    {
      OperationKeeps(db, Call(c, cmd, actor, now));
      reply := RunBind(c, cmd, actor, now);
    }

    method RunBind(c: CardId, cmd: Command, actor: Actor, now: Time) returns (reply: Reply)
      requires NormalRows(db.reservations) && cmd.Bind?
      modifies this
      ensures (db, reply) == Perform(old(db), Call(c, cmd, actor, now))
    {
      if cmd.repositoryId == "" || cmd.worktreePath == "" || cmd.branch == "" || cmd.baseCommit == "" {
        return Failed(InvalidWorktree);
      }
      var raised := ExpiryPreflight(c, now);
      if raised.Some? {
        return Failed(raised.value);
      }
      var error := CheckBind(c, cmd, actor, now);
      if error.Some? {
        return Failed(error.value);
      }
      if db.open[c].id !in db.bindings {
        db := BindStatements(db, c, cmd, actor, now);
      }
      reply := Performed;
    }

    /** Nothing refuses a binding that is new or equal to the one in place. */
    method CheckBind(c: CardId, cmd: Command, actor: Actor, now: Time) returns (error: Option<ErrorCode>)
      requires cmd.Bind? && c in db.cards
      requires cmd.repositoryId != "" && cmd.worktreePath != "" && cmd.branch != "" && cmd.baseCommit != ""
      ensures error == RefusalOf(BindChange(db, c, cmd, actor, now))
      ensures error.None? ==>
        c in db.open && (BindChange(db, c, cmd, actor, now).Update? <==> db.open[c].id !in db.bindings)
    {
      var card := db.cards[c];
      if cmd.revision != card.revision {
        return Some(StaleRevision);
      }
      var fence := OwnerFence(db, c, card, cmd.token, actor);
      if fence.Some? {
        return fence;
      }
      if || cmd.worktreePath != card.definition.worktreePath || cmd.branch != card.definition.branch
         || cmd.baseCommit != card.definition.baseCommit {
        return Some(LineageMismatch);
      }
      if cmd.repositoryId != card.repositoryId {
        return Some(RepositoryMismatch);
      }
      if !WhitespaceFree(cmd.repositoryId) || !WhitespaceFree(cmd.branch) || !WhitespaceFree(cmd.baseCommit) {
        return Some(InvalidLineage);
      }
      if db.open[c].id in db.bindings {
        var prior := db.bindings[db.open[c].id];
        if || prior.repositoryId != cmd.repositoryId || prior.worktreePath != cmd.worktreePath
           || prior.branch != cmd.branch || prior.baseCommit != cmd.baseCommit {
          return Some(WorktreeAlreadyBound);
        }
      }
      error := None;
    }

    method TransitionCoordinator(c: CardId, cmd: Command, actor: Actor, now: Time) returns (reply: Reply)
      requires Valid() && cmd.ByCoordinator?
      modifies this
      ensures Valid() && (db, reply) == Perform(old(db), Call(c, cmd, actor, now))
    {
      OperationKeeps(db, Call(c, cmd, actor, now));
      reply := RunDecision(c, cmd, actor, now);
    }

    method RunDecision(c: CardId, cmd: Command, actor: Actor, now: Time) returns (reply: Reply)
      requires NormalRows(db.reservations) && cmd.ByCoordinator?
      modifies this
      ensures (db, reply) == Perform(old(db), Call(c, cmd, actor, now))
    {
      var argument := CoordinatorArgumentError(db, c, cmd.decision);
      if argument.Some? {
        return Failed(argument.value);
      }
      if Fenced(cmd.decision) {
        var raised := ExpiryPreflight(c, now);
        if raised.Some? {
          return Failed(raised.value);
        }
      }
      var error := CheckCoordinator(c, cmd, actor, now);
      if error.Some? {
        return Failed(error.value);
      }
      db := DecisionStatements(db, c, cmd.decision, actor, now);
      reply := Performed;
    }

    method CheckCoordinator(c: CardId, cmd: Command, actor: Actor, now: Time) returns (error: Option<ErrorCode>)
      requires cmd.ByCoordinator? && CoordinatorArgumentError(db, c, cmd.decision).None?
      requires Fenced(cmd.decision) ==> c in db.cards
      ensures error == RefusalOf(CoordinatorChange(db, c, cmd, actor, now))
      ensures error.None? ==>
        c in db.cards && CoordinatorChange(db, c, cmd, actor, now) == Update(DecisionDelta(db, c, cmd.decision, actor))
    {
      var d := cmd.decision;
      if !IsCoordinator(actor) {
        return Some(CoordinatorRequired);
      }
      if c !in db.cards {
        return Some(CardNotFound);
      }
      var card := db.cards[c];
      if cmd.revision != card.revision {
        return Some(StaleRevision);
      }
      if Fenced(d) {
        var fence := CoordinatorFence(db, c, card, cmd.token);
        if fence.Some? {
          return fence;
        }
      }
      if !CoordinatorMay(d, card.status) {
        return Some(InvalidTransition);
      }
      if Some(actor) == card.owner {
        return Some(SelfApproval);
      }
      if d.Accept? && !IntegrationRecorded(Log(db, c)) {
        return Some(IntegrationRequired);
      }
      if d.Requeue? {
        var conflict := FindConflict(c, card.paths);
        if conflict {
          return Some(PathConflict);
        }
      }
      error := None;
    }

    method ReassignCard(c: CardId, cmd: Command, actor: Actor, now: Time) returns (reply: Reply)
      requires Valid() && cmd.Reassign?
      modifies this
      ensures Valid() && (db, reply) == Perform(old(db), Call(c, cmd, actor, now))
    {
      OperationKeeps(db, Call(c, cmd, actor, now));
      reply := RunReassign(c, cmd, actor, now);
    }

    method RunReassign(c: CardId, cmd: Command, actor: Actor, now: Time) returns (reply: Reply)
      requires NormalRows(db.reservations) && cmd.Reassign?
      modifies this
      ensures (db, reply) == Perform(old(db), Call(c, cmd, actor, now))
    {
      var error := CheckReassign(c, cmd, actor, now);
      if error.Some? {
        return Failed(error.value);
      }
      db := ReassignStatements(db, c, cmd, actor, now);
      reply := Performed;
    }

    method CheckReassign(c: CardId, cmd: Command, actor: Actor, now: Time) returns (error: Option<ErrorCode>)
      requires cmd.Reassign?
      ensures error == RefusalOf(ReassignChange(db, c, cmd, actor, now))
      ensures error.None? ==>
        && c in db.cards && c in db.open && cmd.claimId != db.open[c].id
        && ReassignChange(db, c, cmd, actor, now) == Update(ReassignDelta(db, c, cmd, actor, now))
    {
      if cmd.newOwner == "" || IsCoordinator(cmd.newOwner) || cmd.leaseSeconds <= 0 {
        return Some(InvalidOwner);
      }
      if Blank(cmd.reason) {
        return Some(InvalidReason);
      }
      if !IsCoordinator(actor) {
        return Some(CoordinatorRequired);
      }
      if c !in db.cards {
        return Some(CardNotFound);
      }
      var card := db.cards[c];
      if cmd.revision != card.revision {
        return Some(StaleRevision);
      }
      if !Active(card.status) {
        return Some(InvalidTransition);
      }
      if c !in db.open {
        return Some(ClaimNotActive);
      }
      if HoldsClaim(db, cmd.newOwner) {
        return Some(WipLimit);
      }
      if ClaimIdUsed(db, cmd.claimId) {
        return Some(IntegrityError);
      }
      if Namespace(cmd.newOwner) !in card.definition.allowedOwnerNamespaces {
        return Some(OwnerNamespaceDenied);
      }
      var conflict := FindConflict(c, card.paths);
      if conflict {
        return Some(PathConflict);
      }
      error := if (cmd.claimId, card.generation + 1) in db.bundles then Some(IntegrityError) else None;
    }

    method RevalidateDefinition(c: CardId, cmd: Command, actor: Actor, now: Time) returns (reply: Reply)
      requires Valid() && cmd.Revalidate?
      modifies this
      ensures Valid() && (db, reply) == Perform(old(db), Call(c, cmd, actor, now))
    {
      OperationKeeps(db, Call(c, cmd, actor, now));
      reply := RunRevalidate(c, cmd, actor, now);
    }

    method RunRevalidate(c: CardId, cmd: Command, actor: Actor, now: Time) returns (reply: Reply)
      requires NormalRows(db.reservations) && cmd.Revalidate?
      modifies this
      ensures (db, reply) == Perform(old(db), Call(c, cmd, actor, now))
    {
      var error := CheckRevalidate(c, cmd, actor, now);
      if error.Some? {
        return Failed(error.value);
      }
      db := RevalidateStatements(db, c, cmd, actor, now);
      reply := Performed;
    }

    method CheckRevalidate(c: CardId, cmd: Command, actor: Actor, now: Time) returns (error: Option<ErrorCode>)
      requires cmd.Revalidate?
      ensures error == RefusalOf(RevalidateChange(db, c, cmd, actor, now))
      ensures error.None? ==>
        c in db.cards && RevalidateChange(db, c, cmd, actor, now) == Update(RevalidateDelta(db, c, cmd, actor))
    {
      if !ValidDefinition(cmd.definition) {
        return Some(InvalidDefinition);
      }
      if !IsCoordinator(actor) {
        return Some(CoordinatorRequired);
      }
      if c !in db.cards {
        return Some(CardNotFound);
      }
      if cmd.revision != db.cards[c].revision {
        return Some(StaleRevision);
      }
      if c in db.open {
        if Namespace(db.open[c].owner) !in cmd.definition.allowedOwnerNamespaces {
          return Some(OwnerNamespaceDenied);
        }
        if (db.open[c].id, db.cards[c].generation + 1) in db.bundles {
          return Some(IntegrityError);
        }
      }
      error := None;
    }

    method RecordWebhook(delivery: string, row: Delivery, subject: Option<CardId>, protectedChange: bool, now: Time)
      returns (inserted: bool, reordered: bool)
      requires Valid()
      modifies this
      ensures Valid() && db == DeliverNotice(old(db), delivery, row, subject, protectedChange, now)
      ensures inserted == (delivery !in old(db).inbox)
      ensures reordered == (inserted && exists other | other in old(db).inbox ::
                              row.eventTimestamp < old(db).inbox[other].eventTimestamp)
    {
      DeliverKeeps(db, delivery, row, subject, protectedChange, now);
      var later := exists other | other in db.inbox :: row.eventTimestamp < db.inbox[other].eventTimestamp;
      if delivery in db.inbox {
        return false, false;
      }
      var t := db.(inbox := db.inbox[delivery := row]);
      if protectedChange && subject.Some? && subject.value != "" {
        t := NoticeStatements(t, subject.value, delivery, now);
      }
      db := t;
      return true, later;
    }

    method SwitchBackendTo(expectedEpoch: nat, backend: string, snapshot: string, actor: Actor, now: Time)
      returns (error: Option<ErrorCode>)
      requires Valid()
      modifies this
      ensures error == SwitchError(old(db), expectedEpoch, backend, snapshot, actor)
      ensures Valid() && db == if error.Some? then old(db) else Switched(old(db), backend, snapshot, actor, now)
    {
      SwitchKeeps(db, backend, snapshot, actor, now);
      if backend != "remote" && backend != "filesystem" {
        return Some(InvalidBackend);
      }
      if !Fingerprint(snapshot) {
        return Some(SnapshotRequired);
      }
      if !IsCoordinator(actor) {
        return Some(CoordinatorRequired);
      }
      if expectedEpoch != db.epoch {
        return Some(StaleEpoch);
      }
      if db.open.Keys != {} {
        return Some(ActiveClaims);
      }
      if backend == db.backend {
        return Some(BackendUnchanged);
      }
      db := SwitchStatements(db, backend, snapshot, actor, now);
      error := None;
    }

    /** `INSERT OR IGNORE`: true when the row was inserted. */
    method EnqueueOutbox(key: DedupeKey, payload: Projection, at: Time) returns (inserted: bool)
      requires Valid()
      modifies this
      ensures Valid() && db == Enqueued(old(db), key, payload, at)
      ensures inserted == (key !in OutboxKeys(old(db).outbox))
    {
      EnqueueKeeps(db, key, payload, at);
      inserted := key !in OutboxKeys(db.outbox);
      db := db.(outbox := Enqueue(db.outbox, key, payload, at));
    }

    /** Leases the first pending rows, one row after the other. */
    method ClaimOutbox(now: Time, limit: int, lease: int) returns (items: seq<Leased>, error: Option<ErrorCode>)
      requires Valid()
      modifies this
      ensures Valid() && db == WithSettled(old(db), Lease(now, limit, lease))
      ensures items == LeaseRows(old(db).outbox, now, limit, lease).1
      ensures error == if limit > 0 && lease <= 0 then Some(InvalidLease) else None
    {
      SettleKeeps(db, Lease(now, limit, lease));
      items, error := [], None;
      if limit <= 0 {
        return;
      }
      if lease <= 0 {
        return [], Some(InvalidLease);
      }
      var rows, granted := GrantRows(ReclaimAll(db.outbox, now - lease), limit, now);
      db, items := db.(outbox := rows), granted;
    }

    method MarkOutboxSent(id: nat, attempt: nat, at: Time) returns (changed: bool)
      requires Valid()
      modifies this
      ensures Valid() && db == WithSettled(old(db), MarkSent(id, attempt, at))
      ensures changed == Holds(old(db).outbox, id, attempt)
    {
      SettleKeeps(db, MarkSent(id, attempt, at));
      changed := SetSent(id, attempt, at);
    }

    method MarkOutboxPending(id: nat, attempt: nat, at: Time, attention: bool) returns (changed: bool)
      requires Valid()
      modifies this
      ensures Valid() && db == WithSettled(old(db), MarkPending(id, attempt, at, attention))
      ensures changed == Holds(old(db).outbox, id, attempt)
    {
      SettleKeeps(db, MarkPending(id, attempt, at, attention));
      changed := SetPending(id, attempt, at, attention);
    }

    /** The statements; a settled store is valid if it was. */
    method SetSent(id: nat, attempt: nat, at: Time) returns (changed: bool)
      modifies this
      ensures db == WithSettled(old(db), MarkSent(id, attempt, at)) && changed == Holds(old(db).outbox, id, attempt)
    {
      changed := Holds(db.outbox, id, attempt);
      if changed {
        var row := db.outbox[id];
        db := db.(outbox := db.outbox[id := row.(status := Sent, sentAt := Some(at), needsAttention := false)]);
      }
    }

    method SetPending(id: nat, attempt: nat, at: Time, attention: bool) returns (changed: bool)
      modifies this
      ensures db == WithSettled(old(db), MarkPending(id, attempt, at, attention))
      ensures changed == Holds(old(db).outbox, id, attempt)
    {
      changed := Holds(db.outbox, id, attempt);
      if changed {
        var row := db.outbox[id];
        db := db.(outbox := db.outbox[id := row.(status := Pending, attemptedAt := Some(at),
                                                 needsAttention := attention)]);
      }
    }
  }
}
