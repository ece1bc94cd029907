/** Whole operations, with the expiry transaction in front of the fenced ones, and what
    an expired lease means for every later call. */
module WorkplanLease {
  import opened Records
  import opened Workplan
  import opened WorkplanFencing
  import opened WorkplanGrowth
  import opened WorkplanInvariant
  import opened WorkplanRuns
  import opened WorkplanSteps
  import opened Wrappers

  datatype Reply = Failed(code: ErrorCode) | Performed

  datatype Call = Call(card: CardId, command: Command, actor: Actor, now: Time)

  /** Argument checks that an operation makes before its expiry transaction. */
  function ArgumentError(t: Tables, c: CardId, cmd: Command): Option<ErrorCode> {
    match cmd
    case ByOwner(_, _, step) => if OwnerArgumentsOk(step) then None else Some(OwnerArgumentError(step))
    case Bind(_, _, repositoryId, worktreePath, branch, baseCommit) =>
      if repositoryId == "" || worktreePath == "" || branch == "" || baseCommit == "" then Some(InvalidWorktree)
      else None
    case Heartbeat(_, leaseSeconds) => if leaseSeconds <= 0 then Some(InvalidLease) else None
    case ByCoordinator(_, _, decision) => CoordinatorArgumentError(t, c, decision)
    case _ => None
  }

  function ReplyTo(change: Change): Reply {
    if change.Refuse? then Failed(change.code) else Performed
  }

  /** One operation at one reading of the clock. */
  function Perform(t: Tables, call: Call): (Tables, Reply) {
    var c, cmd, now := call.card, call.command, call.now;
    if Presented(cmd).Some? && ArgumentError(t, c, cmd).Some? then (t, Failed(ArgumentError(t, c, cmd).value))
    else if Presented(cmd).Some? && c !in t.cards then (t, Failed(CardNotFound))
    else if Presented(cmd).Some? && Expired(t, c, now) then
      (Commit(t, c, PreflightChange(t, c, now), now), Failed(FenceExpired))
    else
      var change := ChangeOf(t, c, cmd, call.actor, now);
      (Commit(t, c, change, now), ReplyTo(change))
  }

  /** The transactions an operation commits. */
  function Committed(t: Tables, call: Call): seq<Transaction> {
    var c, cmd, now := call.card, call.command, call.now;
    if Presented(cmd).Some? && (ArgumentError(t, c, cmd).Some? || c !in t.cards) then []
    else if Presented(cmd).Some? && Expired(t, c, now) then [OnCard(c, Preflight, call.actor, now)]
    else [OnCard(c, cmd, call.actor, now)]
  }

  /** An operation commits at most one transaction, so everything proved of runs of
      transactions holds of runs of operations. */
  lemma PerformIsRun(t: Tables, call: Call)
    ensures Perform(t, call).0 == Run(t, Committed(t, call))
    ensures |Committed(t, call)| <= 1
  {
    var txs := Committed(t, call);
    if txs != [] { assert Run(t, txs) == Run(Exec(t, txs[0]), []); }
  }

  // -------------------------------------------------------------------- turns

  /** What can happen to the store between two readings of it: a whole operation, or a
      webhook, outbox or backend transaction. */
  datatype Turn = Operates(call: Call) | Commits(tx: Transaction)

  function Take(t: Tables, turn: Turn): Tables {
    match turn
    case Operates(call) => Perform(t, call).0
    case Commits(tx) => if tx.OnCard? then t else Exec(t, tx)
  }

  function RunTurns(t: Tables, turns: seq<Turn>): Tables
    decreases |turns|
  {
    if turns == [] then t else RunTurns(Take(t, turns[0]), turns[1..])
  }

  function TakenTransactions(t: Tables, turn: Turn): seq<Transaction> {
    match turn
    case Operates(call) => Committed(t, call)
    case Commits(tx) => if tx.OnCard? then [] else [tx]
  }

  lemma TakeIsRun(t: Tables, turn: Turn)
    ensures Take(t, turn) == Run(t, TakenTransactions(t, turn)) && |TakenTransactions(t, turn)| <= 1
  {
    match turn
    case Operates(call) => PerformIsRun(t, call);
    case Commits(tx) => if !tx.OnCard? { assert Run(t, [tx]) == Run(Exec(t, tx), []); }
  }

  lemma RunAfterOne(t: Tables, first: seq<Transaction>, rest: seq<Transaction>)
    requires |first| <= 1
    ensures Run(t, first + rest) == Run(Run(t, first), rest)
  {
    if first == [] {
      assert first + rest == rest;
    } else {
      assert first[1..] == [] && (first + rest)[0] == first[0] && (first + rest)[1..] == rest;
      assert Run(t, first) == Run(Exec(t, first[0]), []);
    }
  }

  /** Operations and other transactions, in any interleaving, are a run of the
      transactions that they commit. */
  lemma {:induction false} TurnsAreRun(t: Tables, turns: seq<Turn>) returns (txs: seq<Transaction>)
    ensures RunTurns(t, turns) == Run(t, txs)
    decreases |turns|
  {
    if turns == [] {
      txs := [];
    } else {
      TakeIsRun(t, turns[0]);
      var first := TakenTransactions(t, turns[0]);
      var rest := TurnsAreRun(Take(t, turns[0]), turns[1..]);
      txs := first + rest;
      RunAfterOne(t, first, rest);
    }
  }

  lemma PerformKeeps(t: Tables, call: Call)
    requires Inv(t)
    ensures Inv(Perform(t, call).0)
  {
    PerformIsRun(t, call);
    RunKeeps(t, Committed(t, call));
  }

  lemma TakeKeeps(t: Tables, turn: Turn)
    requires Inv(t)
    ensures Inv(Take(t, turn))
  {
    TakeIsRun(t, turn);
    RunKeeps(t, TakenTransactions(t, turn));
  }

  /** Whatever fails leaves the tables as they were, except that a fenced operation on
      an expired claim has raised attention. */
  lemma FailureChangesNothing(t: Tables, call: Call)
    requires Perform(t, call).1.Failed?
    ensures Perform(t, call).0 == t || (Perform(t, call).1 == Failed(FenceExpired) && Expired(t, call.card, call.now))
  {
  }

  // -------------------------------------------------------------------- expiry

  function LeaseReceipts(log: seq<Receipt>): nat {
    if log == [] then 0
    else LeaseReceipts(log[..|log| - 1]) + (if log[|log| - 1].body.event.LeaseExpiredEvent? then 1 else 0)
  }

  lemma LeaseReceiptsAppend(log: seq<Receipt>, r: Receipt)
    ensures LeaseReceipts(log + [r]) == LeaseReceipts(log) + (if r.body.event.LeaseExpiredEvent? then 1 else 0)
  {
    assert (log + [r])[..|log|] == log;
  }

  predicate Transfers(cmd: Command) {
    cmd.Reassign? || (cmd.ByCoordinator? && (cmd.decision.Cancel? || cmd.decision.Requeue?))
  }

  /** The claim on `c` is still the same one, equally expired; its token changes only
      with its definition. */
  ghost predicate SameLease(t: Tables, u: Tables, c: CardId) {
    && c in t.open && c in u.open
    && u.open[c].id == t.open[c].id && u.open[c].owner == t.open[c].owner && u.open[c].expiresAt == t.open[c].expiresAt
  }

  /** Attention, once raised, stays, and each `lease_expired` receipt raised it. */
  ghost predicate AttentionCounted(t: Tables, u: Tables, c: CardId)
  {
    && c in t.cards && c in u.cards
    && (t.cards[c].attention ==> u.cards[c].attention)
    && LeaseReceipts(Log(u, c)) <=
       LeaseReceipts(Log(t, c)) + (if u.cards[c].attention && !t.cards[c].attention then 1 else 0)
  }

  /** No fenced operation gets past an expired lease. */
  lemma ExpiredRefuses(t: Tables, call: Call)
    requires Presented(call.command).Some? && Expired(t, call.card, call.now)
    ensures Perform(t, call).1.Failed?
  {
  }

  /** An update that leaves the open claim's lease alone and counts its expiry. */
  ghost predicate KeepsLease(t: Tables, c: CardId, d: Delta) {
    && c in t.cards && c in t.open && d.event.Some? && d.claim.Some?
    && d.claim.value.id == t.open[c].id && d.claim.value.owner == t.open[c].owner
    && d.claim.value.expiresAt == t.open[c].expiresAt
    && (t.cards[c].attention ==> d.card.attention)
    && (d.event.value.LeaseExpiredEvent? ==> d.card.attention && !t.cards[c].attention)
  }

  lemma KeptLeaseCommits(t: Tables, c: CardId, d: Delta, now: Time)
    requires KeepsLease(t, c, d)
    ensures var u := Apply(t, c, d, now); SameLease(t, u, c) && AttentionCounted(t, u, c) && u.open[c] == d.claim.value
  {
    var r := NextReceipt(Log(t, c), c, d.event.value, d.actor, Revision(t, c), d.card.revision, d.token, now);
    LeaseReceiptsAppend(Log(t, c), r);
  }

  /** The unfenced commands that neither close nor transfer an open claim. */
  lemma UnfencedKeepsLease(t: Tables, c: CardId, cmd: Command, actor: Actor, now: Time)
    requires Known(t, c) && c in t.cards && c in t.open
    requires Presented(cmd).None? && !Transfers(cmd)
    ensures var r := ChangeOf(t, c, cmd, actor, now);
      r.Update? ==> KeepsLease(t, c, r.delta) && (!cmd.Revalidate? ==> r.delta.claim == Some(t.open[c]))
  {
    assert Active(t.cards[c].status);
  }

  lemma PreflightKeepsLease(t: Tables, c: CardId, now: Time)
    ensures var r := PreflightChange(t, c, now);
      r.Update? ==> KeepsLease(t, c, r.delta) && r.delta.claim == Some(t.open[c])
  {
  }

  lemma CommitKeepsLease(t: Tables, c: CardId, change: Change, now: Time)
    requires c in t.cards && c in t.open && (change.Update? ==> KeepsLease(t, c, change.delta))
    ensures var u := Commit(t, c, change, now);
      && SameLease(t, u, c) && AttentionCounted(t, u, c)
      && u.open[c] == if change.Update? then change.delta.claim.value else t.open[c]
  {
    if change.Update? { KeptLeaseCommits(t, c, change.delta, now); }
  }

  lemma ExpiredOwnCard(t: Tables, call: Call)
    requires Known(t, call.card) && call.card in t.cards && Expired(t, call.card, call.now)
    requires !Transfers(call.command)
    ensures var u := Perform(t, call).0; var c := call.card;
      && SameLease(t, u, c) && AttentionCounted(t, u, c)
      && (!call.command.Revalidate? ==> u.open[c] == t.open[c])
  {
    var c, now := call.card, call.now;
    if Presented(call.command).Some? {
      PreflightKeepsLease(t, c, now);
      CommitKeepsLease(t, c, PreflightChange(t, c, now), now);
    } else {
      UnfencedKeepsLease(t, c, call.command, call.actor, now);
      CommitKeepsLease(t, c, ChangeOf(t, c, call.command, call.actor, now), now);
    }
  }

  /** The card, its claim and its ledger are untouched. */
  ghost predicate Untouched(t: Tables, u: Tables, c: CardId) {
    c in t.cards && c in t.open && c in u.cards && c in u.open
    && u.cards[c] == t.cards[c] && u.open[c] == t.open[c] && Log(u, c) == Log(t, c)
  }

  lemma CommitElsewhere(t: Tables, e: CardId, change: Change, now: Time, c: CardId)
    requires c in t.cards && c in t.open && c != e
    ensures Untouched(t, Commit(t, e, change, now), c)
  {
  }

  lemma ElsewhereKeepsLease(t: Tables, call: Call, c: CardId)
    requires c in t.cards && c in t.open && c != call.card
    ensures Untouched(t, Perform(t, call).0, c)
  {
    CommitElsewhere(t, call.card, PreflightChange(t, call.card, call.now), call.now, c);
    CommitElsewhere(t, call.card, ChangeOf(t, call.card, call.command, call.actor, call.now), call.now, c);
  }

  lemma NoticeKeepsLease(t: Tables, e: CardId, delivery: string, now: Time, c: CardId)
    requires c in t.cards && c in t.open
    ensures var u := Notified(t, e, delivery, now);
      SameLease(t, u, c) && AttentionCounted(t, u, c) && u.open[c] == t.open[c]
  {
    var change := NoticeChange(t, e, Notice(delivery), WEBHOOK_ACTOR);
    if e == c { CommitKeepsLease(t, c, change, now); } else { CommitElsewhere(t, e, change, now, c); }
  }

  lemma DeliveryKeepsLease(t: Tables, delivery: string, row: Delivery, subject: Option<CardId>, protectedChange: bool,
                           now: Time, c: CardId)
    requires c in t.cards && c in t.open
    ensures var u := DeliverNotice(t, delivery, row, subject, protectedChange, now);
      SameLease(t, u, c) && AttentionCounted(t, u, c) && u.open[c] == t.open[c]
  {
    if subject.Some? {
      NoticeKeepsLease(t.(inbox := t.inbox[delivery := row]), subject.value, delivery, now, c);
    }
  }

  /** A transaction of the webhook, the outbox or the backend. */
  lemma OutsideKeepsLease(t: Tables, tx: Transaction, c: CardId)
    requires c in t.cards && c in t.open && !tx.OnCard?
    ensures var u := Exec(t, tx); SameLease(t, u, c) && AttentionCounted(t, u, c) && u.open[c] == t.open[c]
  {
    if tx.Deliver? { DeliveryKeepsLease(t, tx.delivery, tx.row, tx.subject, tx.protectedChange, tx.now, c); }
    else { ExecElsewhere(t, tx); }
  }

  predicate Revalidates(turn: Turn, c: CardId) {
    turn.Operates? && turn.call.card == c && turn.call.command.Revalidate?
  }

  /** A turn after the expiry that does not move the card's ownership. */
  predicate QuietTurn(turn: Turn, c: CardId, expiry: Time) {
    turn.Operates? ==> turn.call.now >= expiry && (turn.call.card == c ==> !Transfers(turn.call.command))
  }

  lemma KnownTurn(t: Tables, turn: Turn, c: CardId)
    requires Known(t, c) && c in t.cards && c in t.open && QuietTurn(turn, c, t.open[c].expiresAt)
    ensures var u := Take(t, turn);
      && SameLease(t, u, c) && AttentionCounted(t, u, c)
      && (Revalidates(turn, c) || u.open[c] == t.open[c])
  {
    match turn
    case Operates(call) =>
      if call.card == c { ExpiredOwnCard(t, call); } else { ElsewhereKeepsLease(t, call, c); }
    case Commits(tx) => if !tx.OnCard? { OutsideKeepsLease(t, tx, c); }
  }

  /** Since `s`, the lease on `c` has been left alone and its expiry counted once; the
      token is the same one unless a revalidation was allowed. */
  ghost predicate Held(s: Tables, t: Tables, c: CardId, revalidated: bool) {
    SameLease(s, t, c) && AttentionCounted(s, t, c) && (revalidated || t.open[c] == s.open[c])
  }

  lemma HeldTurn(s: Tables, t: Tables, turn: Turn, c: CardId, revalidated: bool)
    requires Inv(t) && Held(s, t, c, revalidated) && QuietTurn(turn, c, s.open[c].expiresAt)
    requires revalidated || !Revalidates(turn, c)
    ensures Inv(Take(t, turn)) && Held(s, Take(t, turn), c, revalidated)
  {
    TakeKeeps(t, turn);
    InvKnown(t, c);
    KnownTurn(t, turn, c);
    HeldThrough(s, t, Take(t, turn), c, revalidated);
  }

  lemma HeldThrough(s: Tables, t: Tables, u: Tables, c: CardId, revalidated: bool)
    requires Held(s, t, c, revalidated) && SameLease(t, u, c) && AttentionCounted(t, u, c)
    requires revalidated || u.open[c] == t.open[c]
    ensures Held(s, u, c, revalidated)
  {
  }

  /** Every turn is quiet, the first and the rest. */
  predicate Quiet(turns: seq<Turn>, c: CardId, expiry: Time) {
    turns == [] || (QuietTurn(turns[0], c, expiry) && Quiet(turns[1..], c, expiry))
  }

  predicate NoRevalidation(turns: seq<Turn>, c: CardId) {
    turns == [] || (!Revalidates(turns[0], c) && NoRevalidation(turns[1..], c))
  }

  lemma {:induction false} HeldRun(s: Tables, t: Tables, turns: seq<Turn>, c: CardId, revalidated: bool)
    requires Inv(t) && Held(s, t, c, revalidated) && Quiet(turns, c, s.open[c].expiresAt)
    requires revalidated || NoRevalidation(turns, c)
    ensures Held(s, RunTurns(t, turns), c, revalidated)
    decreases |turns|
  {
    if turns != [] {
      HeldTurn(s, t, turns[0], c, revalidated);
      HeldRun(s, Take(t, turns[0]), turns[1..], c, revalidated);
    }
  }

  /** Once a lease has run out, then until someone reassigns, requeues or cancels the
      card, and whatever else happens to the store: the claim stays with its owner and
      stays expired, its token stays unless the card is revalidated, and all attempts
      together add at most one `lease_expired` receipt. */
  lemma ExpiredForEver(t: Tables, turns: seq<Turn>, c: CardId)
    requires Inv(t) && c in t.cards && c in t.open && Quiet(turns, c, t.open[c].expiresAt)
    ensures SameLease(t, RunTurns(t, turns), c) && AttentionCounted(t, RunTurns(t, turns), c)
    ensures NoRevalidation(turns, c) ==> RunTurns(t, turns).open[c] == t.open[c]
  {
    HeldRun(t, t, turns, c, true);
    if NoRevalidation(turns, c) { HeldRun(t, t, turns, c, false); }
  }

  /** After any such turns a fenced operation still fails, and at most one
      `lease_expired` receipt has been added. */
  lemma ExpiredNeverActs(t: Tables, turns: seq<Turn>, last: Call)
    requires Inv(t) && last.card in t.cards && last.card in t.open && Presented(last.command).Some?
    requires Quiet(turns, last.card, t.open[last.card].expiresAt) && last.now >= t.open[last.card].expiresAt
    ensures Perform(RunTurns(t, turns), last).1.Failed?
    ensures LeaseReceipts(Log(RunTurns(t, turns), last.card)) <= LeaseReceipts(Log(t, last.card)) + 1
  {
    ExpiredForEver(t, turns, last.card);
    HeldRefuses(t, RunTurns(t, turns), last);
  }

  lemma HeldRefuses(t: Tables, u: Tables, last: Call)
    requires SameLease(t, u, last.card) && AttentionCounted(t, u, last.card)
    requires Presented(last.command).Some? && last.now >= t.open[last.card].expiresAt
    ensures Perform(u, last).1.Failed?
    ensures LeaseReceipts(Log(u, last.card)) <= LeaseReceipts(Log(t, last.card)) + 1
  {
    ExpiredRefuses(u, last);
  }
}
