/** How long a lease runs: claiming, reassigning and heartbeats set its end, nothing else
    moves it, and fenced operations answer to it exactly. */
module WorkplanTerms {
  import opened Records
  import opened Workplan
  import opened WorkplanEffects
  import opened WorkplanFencing
  import opened WorkplanGrowth
  import opened WorkplanInvariant
  import opened WorkplanLease
  import opened WorkplanRuns
  import opened Wrappers

  /** The open claim on `c` is `id` of `owner`, and it runs until `end`. */
  predicate RunsUntil(t: Tables, c: CardId, id: ClaimId, owner: Actor, end: Time) {
    c in t.cards && c in t.open && t.open[c].id == id && t.open[c].owner == owner && t.open[c].expiresAt == end
  }

  // ---------------------------------------------------------------- its start

  /** A claim starts a lease of its length. */
  lemma ClaimStartsTerm(t: Tables, c: CardId, k: Command, actor: Actor, now: Time)
    requires Inv(t) && k.TakeClaim? && Perform(t, Call(c, k, actor, now)).1 == Performed
    ensures RunsUntil(Perform(t, Call(c, k, actor, now)).0, c, k.claimId, actor, now + k.leaseSeconds)
  {
    ClaimEffect(t, c, k, actor, now);
  }

  /** So does a reassignment, for the new owner. */
  lemma ReassignStartsTerm(t: Tables, c: CardId, r: Command, actor: Actor, now: Time)
    requires r.Reassign? && Perform(t, Call(c, r, actor, now)).1 == Performed
    ensures RunsUntil(Perform(t, Call(c, r, actor, now)).0, c, r.claimId, r.newOwner, now + r.leaseSeconds)
  {
    ReassignEffect(t, c, r, actor, now);
  }

  /** A heartbeat renews the same claim under the same token, for its length from now on. */
  lemma HeartbeatRenewsTerm(t: Tables, c: CardId, token: nat, seconds: int, actor: Actor, now: Time)
    requires Perform(t, Call(c, Heartbeat(token, seconds), actor, now)).1 == Performed
    ensures var u := Perform(t, Call(c, Heartbeat(token, seconds), actor, now)).0;
      && c in t.open && u.cards == t.cards && RunsUntil(u, c, t.open[c].id, actor, now + seconds)
      && u.open[c].token == token
  {
    HeartbeatEffect(t, c, token, seconds, actor, now);
  }

  // --------------------------------------------------------------- its course

  /** The operations that end the claim or set another end. */
  predicate MovesTerm(cmd: Command) {
    cmd.Heartbeat? || cmd.Reassign? || (cmd.ByCoordinator? && !cmd.decision.Integrate?)
  }

  predicate KeepsTerm(turn: Turn, c: CardId) {
    turn.Operates? && turn.call.card == c ==> !MovesTerm(turn.call.command)
  }

  predicate AllKeepTerm(turns: seq<Turn>, c: CardId) {
    turns == [] || (KeepsTerm(turns[0], c) && AllKeepTerm(turns[1..], c))
  }

  /** The update leaves the open claim's identity and end alone. */
  predicate DeltaKeepsTerm(t: Tables, c: CardId, d: Delta) {
    c in t.open ==> d.claim.Some? && d.claim.value.id == t.open[c].id && d.claim.value.owner == t.open[c].owner
                    && d.claim.value.expiresAt == t.open[c].expiresAt
  }

  lemma CommandKeepsTerm(t: Tables, c: CardId, cmd: Command, actor: Actor, now: Time)
    requires !MovesTerm(cmd)
    ensures var r := ChangeOf(t, c, cmd, actor, now); r.Update? ==> DeltaKeepsTerm(t, c, r.delta)
  {
  }

  lemma PreflightKeepsTerm(t: Tables, c: CardId, now: Time)
    ensures var r := PreflightChange(t, c, now); r.Update? ==> DeltaKeepsTerm(t, c, r.delta)
  {
  }

  lemma NoticeKeepsTerm(t: Tables, c: CardId, delivery: string)
    ensures var r := NoticeChange(t, c, Notice(delivery), WEBHOOK_ACTOR); r.Update? ==> DeltaKeepsTerm(t, c, r.delta)
  {
  }

  lemma CommitKeepsTerm(t: Tables, e: CardId, change: Change, now: Time, c: CardId, id: ClaimId, owner: Actor,
                        end: Time)
    requires RunsUntil(t, c, id, owner, end) && (e == c && change.Update? ==> DeltaKeepsTerm(t, c, change.delta))
    ensures RunsUntil(Commit(t, e, change, now), c, id, owner, end)
  {
  }

  lemma PerformKeepsTerm(t: Tables, call: Call, c: CardId, id: ClaimId, owner: Actor, end: Time)
    requires RunsUntil(t, c, id, owner, end) && (call.card == c ==> !MovesTerm(call.command))
    ensures RunsUntil(Perform(t, call).0, c, id, owner, end)
  {
    var e, now := call.card, call.now;
    PreflightKeepsTerm(t, e, now);
    CommitKeepsTerm(t, e, PreflightChange(t, e, now), now, c, id, owner, end);
    if e == c { CommandKeepsTerm(t, c, call.command, call.actor, now); }
    CommitKeepsTerm(t, e, ChangeOf(t, e, call.command, call.actor, now), now, c, id, owner, end);
  }

  lemma DeliveryKeepsTerm(t: Tables, delivery: string, row: Delivery, subject: Option<CardId>, protectedChange: bool,
                          now: Time, c: CardId, id: ClaimId, owner: Actor, end: Time)
    requires RunsUntil(t, c, id, owner, end)
    ensures RunsUntil(DeliverNotice(t, delivery, row, subject, protectedChange, now), c, id, owner, end)
  {
    if subject.Some? {
      var v := t.(inbox := t.inbox[delivery := row]);
      NoticeKeepsTerm(v, subject.value, delivery);
      var change := NoticeChange(v, subject.value, Notice(delivery), WEBHOOK_ACTOR);
      CommitKeepsTerm(v, subject.value, change, now, c, id, owner, end);
    }
  }

  lemma OutsideKeepsTerm(t: Tables, tx: Transaction, c: CardId, id: ClaimId, owner: Actor, end: Time)
    requires RunsUntil(t, c, id, owner, end) && !tx.OnCard?
    ensures RunsUntil(Exec(t, tx), c, id, owner, end)
  {
    if tx.Deliver? {
      DeliveryKeepsTerm(t, tx.delivery, tx.row, tx.subject, tx.protectedChange, tx.now, c, id, owner, end);
    } else {
      ExecElsewhere(t, tx);
    }
  }

  lemma TurnKeepsTerm(t: Tables, turn: Turn, c: CardId, id: ClaimId, owner: Actor, end: Time)
    requires RunsUntil(t, c, id, owner, end) && KeepsTerm(turn, c)
    ensures RunsUntil(Take(t, turn), c, id, owner, end)
  {
    match turn
    case Operates(call) => PerformKeepsTerm(t, call, c, id, owner, end);
    case Commits(tx) => if !tx.OnCard? { OutsideKeepsTerm(t, tx, c, id, owner, end); }
  }

  /** No run without a heartbeat, a reassignment or an ending of the claim moves its end. */
  lemma {:induction false} TermStands(t: Tables, turns: seq<Turn>, c: CardId, id: ClaimId, owner: Actor, end: Time)
    requires RunsUntil(t, c, id, owner, end) && AllKeepTerm(turns, c)
    ensures RunsUntil(RunTurns(t, turns), c, id, owner, end)
    decreases |turns|
  {
    if turns != [] {
      TurnKeepsTerm(t, turns[0], c, id, owner, end);
      TermStands(Take(t, turns[0]), turns[1..], c, id, owner, end);
    }
  }

  // ------------------------------------------------------------------ its end

  /** A fenced operation whose arguments are accepted is told that the lease has expired if
      and only if its clock has reached the end. */
  lemma ExpiryIff(t: Tables, call: Call, id: ClaimId, owner: Actor, end: Time)
    requires RunsUntil(t, call.card, id, owner, end)
    requires Presented(call.command).Some? && ArgumentError(t, call.card, call.command).None?
    ensures Perform(t, call).1 == Failed(FenceExpired) <==> call.now >= end
  {
    OnlyPreflightExpires(t, call.card, call.command, call.actor, call.now);
  }

  lemma OnlyPreflightExpires(t: Tables, c: CardId, cmd: Command, actor: Actor, now: Time)
    requires Presented(cmd).Some?
    ensures ChangeOf(t, c, cmd, actor, now) != Refuse(FenceExpired)
  {
  }

  /** So after a heartbeat at `now` for `seconds`, and any turns that keep the term, exactly
      the fenced operations from `now + seconds` on are expired. */
  lemma HeartbeatHolds(t: Tables, c: CardId, token: nat, seconds: int, actor: Actor, now: Time, turns: seq<Turn>,
                       last: Call)
    requires Perform(t, Call(c, Heartbeat(token, seconds), actor, now)).1 == Performed
    requires AllKeepTerm(turns, c) && last.card == c && Presented(last.command).Some?
    requires var u := RunTurns(Perform(t, Call(c, Heartbeat(token, seconds), actor, now)).0, turns);
      ArgumentError(u, c, last.command).None?
    ensures var u := RunTurns(Perform(t, Call(c, Heartbeat(token, seconds), actor, now)).0, turns);
      Perform(u, last).1 == Failed(FenceExpired) <==> last.now >= now + seconds
  {
    HeartbeatRenewsTerm(t, c, token, seconds, actor, now);
    TermHolds(Perform(t, Call(c, Heartbeat(token, seconds), actor, now)).0, t.open[c].id, actor, now + seconds, turns,
              last);
  }

  lemma ClaimHolds(t: Tables, c: CardId, k: Command, actor: Actor, now: Time, turns: seq<Turn>, last: Call)
    requires Inv(t) && k.TakeClaim? && Perform(t, Call(c, k, actor, now)).1 == Performed
    requires AllKeepTerm(turns, c) && last.card == c && Presented(last.command).Some?
    requires ArgumentError(RunTurns(Perform(t, Call(c, k, actor, now)).0, turns), c, last.command).None?
    ensures var u := RunTurns(Perform(t, Call(c, k, actor, now)).0, turns);
      Perform(u, last).1 == Failed(FenceExpired) <==> last.now >= now + k.leaseSeconds
  {
    ClaimStartsTerm(t, c, k, actor, now);
    TermHolds(Perform(t, Call(c, k, actor, now)).0, k.claimId, actor, now + k.leaseSeconds, turns, last);
  }

  lemma ReassignHolds(t: Tables, c: CardId, r: Command, actor: Actor, now: Time, turns: seq<Turn>, last: Call)
    requires r.Reassign? && Perform(t, Call(c, r, actor, now)).1 == Performed
    requires AllKeepTerm(turns, c) && last.card == c && Presented(last.command).Some?
    requires ArgumentError(RunTurns(Perform(t, Call(c, r, actor, now)).0, turns), c, last.command).None?
    ensures var u := RunTurns(Perform(t, Call(c, r, actor, now)).0, turns);
      Perform(u, last).1 == Failed(FenceExpired) <==> last.now >= now + r.leaseSeconds
  {
    ReassignStartsTerm(t, c, r, actor, now);
    TermHolds(Perform(t, Call(c, r, actor, now)).0, r.claimId, r.newOwner, now + r.leaseSeconds, turns, last);
  }

  lemma TermHolds(t: Tables, id: ClaimId, owner: Actor, end: Time, turns: seq<Turn>, last: Call)
    requires RunsUntil(t, last.card, id, owner, end) && AllKeepTerm(turns, last.card)
    requires Presented(last.command).Some? && ArgumentError(RunTurns(t, turns), last.card, last.command).None?
    ensures Perform(RunTurns(t, turns), last).1 == Failed(FenceExpired) <==> last.now >= end
  {
    TermStands(t, turns, last.card, id, owner, end);
    ExpiryIff(RunTurns(t, turns), last, id, owner, end);
  }
}
