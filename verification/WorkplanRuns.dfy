/** Runs of the whole store, transaction by transaction in any interleaving, and what
    holds over all of them. */
module WorkplanRuns {
  import opened Outbox
  import opened Records
  import opened Workplan
  import opened WorkplanInvariant
  import opened WorkplanSteps
  import opened Wrappers

  datatype Transaction =
    | OnCard(card: CardId, command: Command, actor: Actor, now: Time)
    | Deliver(delivery: string, row: Delivery, subject: Option<CardId>, protectedChange: bool, now: Time)
    | EnqueueDocument(key: DedupeKey, payload: Projection, at: Time)
    | SettleOutbox(settlement: Settlement)
    | SwitchBackend(expectedEpoch: nat, backend: string, snapshot: string, actor: Actor, now: Time)

  const WEBHOOK_ACTOR := "linear:webhook:projection"

  /** A protected change freezes the card that it names. */
  function Notified(t: Tables, c: CardId, delivery: string, now: Time): Tables {
    Commit(t, c, NoticeChange(t, c, Notice(delivery), WEBHOOK_ACTOR), now)
  }

  lemma NotifiedIsCommand(t: Tables, c: CardId, delivery: string, now: Time)
    ensures Notified(t, c, delivery, now) == Commit(t, c, ChangeOf(t, c, Notice(delivery), WEBHOOK_ACTOR, now), now)
  {
  }

  /** The webhook transaction: a delivery id is recorded once. */
  function DeliverNotice(t: Tables, delivery: string, row: Delivery, subject: Option<CardId>,
                         protectedChange: bool, now: Time): Tables {
    if delivery in t.inbox then t
    else
      var u := t.(inbox := t.inbox[delivery := row]);
      if protectedChange && subject.Some? && subject.value != "" then
        Notified(u, subject.value, delivery, now)
      else u
  }

  function SwitchError(t: Tables, expectedEpoch: nat, backend: string, snapshot: string, actor: Actor)
    : Option<ErrorCode>
  {
    if backend !in {"remote", "filesystem"} then Some(InvalidBackend)
    else if !Fingerprint(snapshot) then Some(SnapshotRequired)
    else if !IsCoordinator(actor) then Some(CoordinatorRequired)
    else if expectedEpoch != t.epoch then Some(StaleEpoch)
    else if t.open != map[] then Some(ActiveClaims)
    else if backend == t.backend then Some(BackendUnchanged)
    else None
  }

  function Switched(t: Tables, backend: string, snapshot: string, actor: Actor, now: Time): Tables {
    var previous := if t.backendReceipts == [] then None else Some(t.backendReceipts[|t.backendReceipts| - 1].hash);
    var switch := BackendSwitch(t.epoch, t.epoch + 1, t.backend, backend, snapshot, actor, now, previous);
    var hash := BackendDigest(switch);
    t.(epoch := t.epoch + 1, backend := backend,
       backendReceipts := t.backendReceipts + [BackendReceipt(switch, hash)],
       outbox := Enqueue(t.outbox, BackendKey(hash), BackendActivity(t.epoch + 1, backend, snapshot, hash), now * 1000))
  }

  function Enqueued(t: Tables, key: DedupeKey, payload: Projection, at: Time): Tables {
    t.(outbox := Enqueue(t.outbox, key, payload, at))
  }

  function WithSettled(t: Tables, s: Settlement): Tables {
    t.(outbox := Settle(t.outbox, s))
  }

  function Exec(t: Tables, tx: Transaction): Tables {
    match tx
    case OnCard(c, command, actor, now) => Commit(t, c, ChangeOf(t, c, command, actor, now), now)
    case Deliver(delivery, row, subject, protectedChange, now) =>
      DeliverNotice(t, delivery, row, subject, protectedChange, now)
    case EnqueueDocument(key, payload, at) => Enqueued(t, key, payload, at)
    case SettleOutbox(settlement) => WithSettled(t, settlement)
    case SwitchBackend(epoch, backend, snapshot, actor, now) =>
      if SwitchError(t, epoch, backend, snapshot, actor).Some? then t else Switched(t, backend, snapshot, actor, now)
  }

  function Run(t: Tables, txs: seq<Transaction>): Tables
    decreases |txs|
  {
    if txs == [] then t else Run(Exec(t, txs[0]), txs[1..])
  }

  // ------------------------------------------------------------ invariant

  lemma EmptyInv()
    ensures Inv(EMPTY)
  {
  }

  lemma OutboxOnly(t: Tables, rows: seq<OutboxRow>)
    requires Inv(t) && UniqueKeys(rows) && OutboxKeys(t.outbox) <= OutboxKeys(rows)
    ensures Inv(t.(outbox := rows))
  {
    SameRowsInv(t, t.(outbox := rows));
    LogsKept(t, t.(outbox := rows));
  }

  lemma LogsKept(t: Tables, u: Tables)
    requires LogsInv(t) && u.cards == t.cards && u.receipts == t.receipts
    requires UniqueKeys(u.outbox) && OutboxKeys(t.outbox) <= OutboxKeys(u.outbox)
    ensures LogsInv(u)
  {
    forall e | e in u.cards ensures HistoryOk(e, u.cards[e], Log(u, e)) {
      assert HistoryOk(e, t.cards[e], Log(t, e));
    }
  }

  lemma SettleKeeps(t: Tables, s: Settlement)
    requires Inv(t)
    ensures Inv(WithSettled(t, s))
  {
    SettleSettles(t.outbox, s);
    SettledKeys(t.outbox, Settle(t.outbox, s));
    OutboxOnly(t, Settle(t.outbox, s));
  }

  lemma EnqueueKeeps(t: Tables, key: DedupeKey, payload: Projection, at: Time)
    requires Inv(t)
    ensures Inv(Enqueued(t, key, payload, at))
  {
    EnqueueKeys(t.outbox, key, payload, at);
    OutboxOnly(t, Enqueue(t.outbox, key, payload, at));
  }

  lemma InboxKeeps(t: Tables, inbox: map<string, Delivery>)
    requires Inv(t)
    ensures Inv(t.(inbox := inbox))
  {
    SameRowsInv(t, t.(inbox := inbox));
    LogsKept(t, t.(inbox := inbox));
  }

  lemma NotifiedKeeps(t: Tables, c: CardId, delivery: string, now: Time)
    requires Inv(t)
    ensures Inv(Notified(t, c, delivery, now))
  {
    CommandKeeps(t, c, Notice(delivery), WEBHOOK_ACTOR, now);
    NotifiedIsCommand(t, c, delivery, now);
  }

  lemma DeliverKeeps(t: Tables, delivery: string, row: Delivery, subject: Option<CardId>, protectedChange: bool,
                     now: Time)
    requires Inv(t)
    ensures Inv(DeliverNotice(t, delivery, row, subject, protectedChange, now))
  {
    var inbox := t.inbox[delivery := row];
    InboxKeeps(t, inbox);
    if subject.Some? { NotifiedKeeps(t.(inbox := inbox), subject.value, delivery, now); }
  }

  lemma SwitchKeeps(t: Tables, backend: string, snapshot: string, actor: Actor, now: Time)
    requires Inv(t)
    ensures Inv(Switched(t, backend, snapshot, actor, now))
  {
    var u := Switched(t, backend, snapshot, actor, now);
    var row := u.backendReceipts[|t.backendReceipts|];
    EnqueueKeys(t.outbox, BackendKey(row.hash), BackendActivity(t.epoch + 1, backend, snapshot, row.hash), now * 1000);
    SameRowsInv(t, u);
    LogsKept(t, u);
  }

  lemma ExecKeeps(t: Tables, tx: Transaction)
    requires Inv(t)
    ensures Inv(Exec(t, tx))
  {
    match tx
    case OnCard(c, command, actor, now) => CommandKeeps(t, c, command, actor, now);
    case Deliver(delivery, row, subject, protectedChange, now) =>
      DeliverKeeps(t, delivery, row, subject, protectedChange, now);
    case EnqueueDocument(key, payload, at) => EnqueueKeeps(t, key, payload, at);
    case SettleOutbox(settlement) => SettleKeeps(t, settlement);
    case SwitchBackend(epoch, backend, snapshot, actor, now) => SwitchKeeps(t, backend, snapshot, actor, now);
  }

  lemma {:induction false} RunKeeps(t: Tables, txs: seq<Transaction>)
    requires Inv(t)
    ensures Inv(Run(t, txs))
    decreases |txs|
  {
    if txs != [] {
      ExecKeeps(t, txs[0]);
      RunKeeps(Exec(t, txs[0]), txs[1..]);
    }
  }
}
