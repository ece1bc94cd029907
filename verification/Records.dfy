/** The rows of the workplan store. SHA-256 over canonical JSON is taken as an
    injective constructor, `Digest`. */
module Records {
  import opened Wrappers

  type CardId = string
  type ClaimId = string
  type Actor = string
  type Time = int

  datatype Status = Backlog | Ready | Claimed | InProgress | Review | Verifying | Blocked | Done | Cancelled

  predicate Active(status: Status) {
    status in {Claimed, InProgress, Review, Verifying, Blocked}
  }

  /** The frozen work definition; the fields no operation reads are one text. */
  datatype Definition = Definition(
    sourceRevision: string, worktreePath: string, branch: string, baseCommit: string,
    allowedOwnerNamespaces: seq<string>, otherFields: string)

  datatype Lineage = Lineage(repositoryId: string, branch: string, baseCommit: string, headCommit: string,
                             ancestry: DescendantEvidence)

  datatype DescendantEvidence = DescendantEvidence(
    baseCommit: string, headCommit: string, isDescendant: bool, verification: string)

  datatype MergeEvidence = MergeEvidence(
    reviewHead: string, integratedCommit: string, isAncestor: bool, verification: string)

  /** Kind and payload of a receipt. */
  datatype Event =
    | QualifyEvent(definitionHash: Digest, status: Status)
    | ClaimEvent(claimId: ClaimId, definitionHash: Digest, paths: set<string>)
    | LeaseExpiredEvent(claimId: ClaimId)
    | DefinitionChangedEvent(delivery: string)
    | BindEvent(repositoryId: string, worktreePath: string, branch: string, baseCommit: string)
    | CheckpointEvent(checkpoint: string, evidence: seq<string>, lineage: Lineage)
    | BlockEvent(reason: string, retainPaths: bool)
    | ResumeEvent
    | SubmitEvent(evidence: seq<string>, lineage: Lineage)
    | IntegrateEvent(integratedCommit: string, reviewHead: string, ancestry: MergeEvidence, evidence: seq<string>)
    | AcceptEvent(evidence: seq<string>)
    | CancelEvent(reason: string)
    | RequeueEvent(reason: string)
    | ReassignEvent(newOwner: Actor, reason: string, claimId: ClaimId)
    | RevalidateEvent(definitionHash: Digest, token: nat)

  datatype Digest =
    | DefinitionDigest(definition: Definition)
    | BundleDigest(bundle: Bundle)
    | ReceiptDigest(body: ReceiptBody)
    | BackendDigest(switch: BackendSwitch)

  datatype ReceiptBody = ReceiptBody(
    card: CardId, event: Event, actor: Actor, revisionFrom: nat, revisionTo: nat,
    token: Option<nat>, at: Time, previous: Option<Digest>)

  datatype Receipt = Receipt(body: ReceiptBody, hash: Digest)

  datatype Card = Card(
    title: string, status: Status, owner: Option<Actor>, revision: nat,
    definition: Definition, definitionHash: Digest, repositoryId: string, priority: int,
    generation: nat, attention: bool, revalidation: bool, integratedBy: Option<Actor>,
    integratedCommit: Option<string>, paths: set<string>, dependencies: set<CardId>)

  datatype Closing = Closing(at: Time, reason: string)

  datatype Claim = Claim(
    id: ClaimId, card: CardId, owner: Actor, token: nat, definitionHash: Digest,
    claimedAt: Time, heartbeatAt: Time, expiresAt: Time, closed: Option<Closing>)

  datatype Binding = Binding(
    card: CardId, token: nat, repositoryId: string, worktreePath: string, branch: string, baseCommit: string)

  datatype Bundle = Bundle(
    card: CardId, title: string, definition: Definition, definitionHash: Digest, repositoryId: string,
    paths: set<string>, dependencies: set<CardId>, claimId: ClaimId, owner: Actor, token: nat)

  datatype StoredBundle = StoredBundle(material: Bundle, hash: Digest)

  datatype BackendSwitch = BackendSwitch(
    epochFrom: nat, epochTo: nat, backendFrom: string, backendTo: string, snapshot: string,
    actor: Actor, at: Time, previous: Option<Digest>)

  datatype BackendReceipt = BackendReceipt(switch: BackendSwitch, hash: Digest)

  datatype Delivery = Delivery(eventTimestamp: Time, receivedAt: Time, payload: string)

  /** Outbox payloads: a receipt's public activity, a backend switch, or a document
      that the reconciler enqueued. */
  datatype Projection =
    | Activity(subject: CardId, event: Event, revision: nat, occurredAt: Time, actor: Actor, receiptHash: Digest)
    | BackendActivity(epoch: nat, backend: string, snapshot: string, receiptHash: Digest)
    | RepairDocument(subject: CardId, document: string)

  datatype DedupeKey = ReceiptKey(hash: Digest) | BackendKey(hash: Digest) | NamedKey(name: string)

  datatype RowStatus = Pending | Dispatching | Sent

  datatype OutboxRow = OutboxRow(
    key: DedupeKey, payload: Projection, status: RowStatus, attempts: nat, createdAt: Time,
    attemptedAt: Option<Time>, sentAt: Option<Time>, needsAttention: bool)

  /** One committed state of the database. Open claims are the rows that the partial
      unique index on `card_id` covers; reservations and receipts are grouped by card. */
  datatype Tables = Tables(
    cards: map<CardId, Card>,
    open: map<CardId, Claim>,
    closed: map<ClaimId, Claim>,
    reservations: map<CardId, map<string, nat>>,
    bindings: map<ClaimId, Binding>,
    bundles: map<(ClaimId, nat), StoredBundle>,
    receipts: map<CardId, seq<Receipt>>,
    outbox: seq<OutboxRow>,
    inbox: map<string, Delivery>,
    epoch: nat, backend: string, backendReceipts: seq<BackendReceipt>)

  const EMPTY := Tables(map[], map[], map[], map[], map[], map[], map[], [], map[], 1, "remote", [])

  function OpenClaim(t: Tables, c: CardId): Option<Claim> {
    if c in t.open then Some(t.open[c]) else None
  }

  function Rows(t: Tables, c: CardId): map<string, nat> {
    if c in t.reservations then t.reservations[c] else map[]
  }

  function Log(t: Tables, c: CardId): seq<Receipt> {
    if c in t.receipts then t.receipts[c] else []
  }

  function BindingOf(t: Tables, claim: Claim): Option<Binding> {
    if claim.id in t.bindings then Some(t.bindings[claim.id]) else None
  }

  function BundleOf(t: Tables, claim: Claim): Option<StoredBundle> {
    if (claim.id, claim.token) in t.bundles then Some(t.bundles[(claim.id, claim.token)]) else None
  }

  /** The columns that a claim bundle freezes. */
  function BundleMaterial(c: CardId, card: Card, claim: Claim): Bundle {
    Bundle(c, card.title, card.definition, card.definitionHash, card.repositoryId, card.paths,
           card.dependencies, claim.id, claim.owner, claim.token)
  }

  function Seal(material: Bundle): StoredBundle {
    StoredBundle(material, BundleDigest(material))
  }

  function OutboxKeys(rows: seq<OutboxRow>): set<DedupeKey> {
    set row | row in rows :: row.key
  }

  /** `INSERT OR IGNORE` on the unique dedupe key. */
  function Enqueue(rows: seq<OutboxRow>, key: DedupeKey, payload: Projection, at: Time): seq<OutboxRow> {
    if key in OutboxKeys(rows) then rows
    else rows + [OutboxRow(key, payload, Pending, 0, at, None, None, false)]
  }

  function NextReceipt(log: seq<Receipt>, c: CardId, event: Event, actor: Actor,
                       from: nat, to: nat, token: Option<nat>, now: Time): Receipt {
    var previous := if log == [] then None else Some(log[|log| - 1].hash);
    var body := ReceiptBody(c, event, actor, from, to, token, now, previous);
    Receipt(body, ReceiptDigest(body))
  }

  /** Appends one receipt to a card's ledger together with its outbox row. */
  function AppendReceipt(t: Tables, c: CardId, event: Event, actor: Actor,
                         from: nat, to: nat, token: Option<nat>, now: Time): Tables {
    var r := NextReceipt(Log(t, c), c, event, actor, from, to, token, now);
    t.(receipts := t.receipts[c := Log(t, c) + [r]],
       outbox := Enqueue(t.outbox, ReceiptKey(r.hash), Activity(c, event, to, now * 1000, actor, r.hash), now * 1000))
  }

  function Reserve(paths: set<string>, token: nat): map<string, nat> {
    map p | p in paths :: token
  }
}
