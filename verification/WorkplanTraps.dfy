/** Promises that a reader might expect and the code does not keep, with the exact
    conditions. */
module WorkplanTraps {
  import opened Paths
  import opened Records
  import opened Workplan
  import opened WorkplanFencing
  import opened WorkplanInvariant
  import opened WorkplanLease
  import opened WorkplanRuns
  import opened WorkplanSteps
  import opened WorkplanTheorems
  import opened Wrappers

  // ------------------------------------------------- progress without reservations

  predicate Unreserved(t: Tables, c: CardId) {
    c in t.cards && t.cards[c].status == InProgress && Rows(t, c) == map[]
  }

  /** A card enters progress without reservations exactly when a worktree is bound for
      the first time while the card is blocked with its paths released. */
  lemma UnreservedProgressIff(t: Tables, c: CardId, cmd: Command, actor: Actor, now: Time)
    requires Inv(t) && !Unreserved(t, c) && Succeeds(t, c, cmd, actor, now)
    ensures Unreserved(Commit(t, c, ChangeOf(t, c, cmd, actor, now), now), c) <==>
      && cmd.Bind? && c in t.cards && t.cards[c].status == Blocked && Rows(t, c) == map[]
      && BindingOf(t, t.open[c]) == None
  {
    InvKnown(t, c);
    UnreservedFor(t, c, cmd, actor, now);
  }

  lemma ReservedPaths(paths: set<string>, token: nat)
    requires paths != {}
    ensures Reserve(paths, token) != map[]
  {
    var p :| p in paths;
    assert p in Reserve(paths, token);
  }

  lemma OwnerNeverUnreserves(t: Tables, c: CardId, cmd: Command, actor: Actor, now: Time)
    requires Known(t, c) && !Unreserved(t, c) && cmd.ByOwner?
    ensures var r := OwnerChange(t, c, cmd, actor, now);
      r.Update? && r.delta.card.status == InProgress ==> r.delta.rows != map[]
  {
    if c in t.cards { ReservedPaths(t.cards[c].paths, cmd.token); }
  }

  lemma BindUnreservesIff(t: Tables, c: CardId, cmd: Command, actor: Actor, now: Time)
    requires Known(t, c) && !Unreserved(t, c) && cmd.Bind? && Succeeds(t, c, cmd, actor, now)
    ensures Unreserved(Commit(t, c, BindChange(t, c, cmd, actor, now), now), c) <==>
      t.cards[c].status == Blocked && Rows(t, c) == map[] && BindingOf(t, t.open[c]) == None
  {
  }

  lemma UnreservedFor(t: Tables, c: CardId, cmd: Command, actor: Actor, now: Time)
    requires Known(t, c) && !Unreserved(t, c) && Succeeds(t, c, cmd, actor, now)
    ensures Unreserved(Commit(t, c, ChangeOf(t, c, cmd, actor, now), now), c) <==>
      && cmd.Bind? && c in t.cards && t.cards[c].status == Blocked && Rows(t, c) == map[]
      && BindingOf(t, t.open[c]) == None
  {
    if cmd.Bind? {
      BindUnreservesIff(t, c, cmd, actor, now);
    } else {
      if cmd.ByOwner? { OwnerNeverUnreserves(t, c, cmd, actor, now); }
      OtherNeverUnreserves(t, c, cmd, actor, now);
    }
  }

  lemma OtherNeverUnreserves(t: Tables, c: CardId, cmd: Command, actor: Actor, now: Time)
    requires !Unreserved(t, c) && !cmd.Bind?
    requires cmd.ByOwner? ==>
      var r := OwnerChange(t, c, cmd, actor, now);
      r.Update? && r.delta.card.status == InProgress ==> r.delta.rows != map[]
    ensures !Unreserved(Commit(t, c, ChangeOf(t, c, cmd, actor, now), now), c)
  {
    var r := ChangeOf(t, c, cmd, actor, now);
    if r.Update? {
      if !cmd.ByOwner? { StaysInProgress(t, c, cmd, actor, now); }
      AppliedRows(t, c, r.delta, now);
    }
  }

  lemma AppliedRows(t: Tables, c: CardId, d: Delta, now: Time)
    ensures var u := Apply(t, c, d, now); c in u.cards && u.cards[c] == d.card && Rows(u, c) == d.rows
  {
  }

  /** Only owner steps and a binding move a card into progress. */
  lemma StaysInProgress(t: Tables, c: CardId, cmd: Command, actor: Actor, now: Time)
    requires !cmd.Bind? && !cmd.ByOwner?
    ensures var r := ChangeOf(t, c, cmd, actor, now);
      r.Update? && r.delta.card.status == InProgress ==>
        c in t.cards && t.cards[c].status == InProgress && r.delta.rows.Keys == Rows(t, c).Keys
  {
  }

  /** The owner's block that releases the paths, and its binding of the frozen worktree. */
  function ReleasingBlock(t: Tables, c: CardId, now: Time): Call
    requires c in t.cards && c in t.open
  {
    Call(c, ByOwner(t.cards[c].revision, t.open[c].token, Block("released", false)), t.open[c].owner, now)
  }

  function FrozenBind(t: Tables, c: CardId, now: Time): Call
    requires c in t.cards && c in t.open
  {
    var card := t.cards[c];
    Call(c, Bind(card.revision, t.open[c].token, card.repositoryId, card.definition.worktreePath,
                 card.definition.branch, card.definition.baseCommit), t.open[c].owner, now)
  }

  predicate Bindable(card: Card) {
    && !card.revalidation && card.definition.worktreePath != "" && WhitespaceFree(card.definition.branch)
    && WhitespaceFree(card.definition.baseCommit) && WhitespaceFree(card.repositoryId)
  }

  /** Every claimed, unbound card whose lease runs can be led there by two operations of
      its owner, both of which succeed. */
  lemma BlockThenBindLosesReservations(t: Tables, c: CardId, now: Time, later: Time)
    requires Inv(t) && c in t.cards && c in t.open && t.cards[c].status == Claimed
    requires now < t.open[c].expiresAt && later < t.open[c].expiresAt
    requires BindingOf(t, t.open[c]) == None && Bindable(t.cards[c])
    ensures var (u, blocked) := Perform(t, ReleasingBlock(t, c, now));
      && blocked == Performed && c in u.cards && c in u.open
      && var (v, bound) := Perform(u, FrozenBind(u, c, later));
         bound == Performed && Unreserved(v, c)
  {
    InvKnown(t, c);
    ReleasedByBlock(t, c, now);
    PerformKeeps(t, ReleasingBlock(t, c, now));
    var u := Perform(t, ReleasingBlock(t, c, now)).0;
    InvKnown(u, c);
    BindAfterRelease(u, c, later);
  }

  lemma BindAfterRelease(t: Tables, c: CardId, now: Time)
    requires Known(t, c) && c in t.cards && c in t.open && t.cards[c].status == Blocked && now < t.open[c].expiresAt
    requires Rows(t, c) == map[] && BindingOf(t, t.open[c]) == None && Bindable(t.cards[c])
    ensures var (v, reply) := Perform(t, FrozenBind(t, c, now)); reply == Performed && Unreserved(v, c)
  {
    var bind := FrozenBind(t, c, now);
    OwnerFenceHolds(t, c);
    var change := BindChange(t, c, bind.command, bind.actor, now);
    assert change.Update? && change.delta.card.status == InProgress && change.delta.rows == map[];
    AppliedRows(t, c, change.delta, now);
  }

  lemma OwnerFenceHolds(t: Tables, c: CardId)
    requires Known(t, c) && c in t.cards && c in t.open && !t.cards[c].revalidation
    ensures OwnerFence(t, c, t.cards[c], t.open[c].token, t.open[c].owner) == None
  {
  }

  lemma ReleasedByBlock(t: Tables, c: CardId, now: Time)
    requires Known(t, c) && c in t.cards && c in t.open && t.cards[c].status == Claimed && !t.cards[c].revalidation
    requires now < t.open[c].expiresAt
    ensures var (u, reply) := Perform(t, ReleasingBlock(t, c, now));
      && reply == Performed
      && c in u.cards && u.cards[c] == t.cards[c].(status := Blocked, revision := t.cards[c].revision + 1)
      && c in u.open && u.open[c] == t.open[c] && Rows(u, c) == map[]
      && BindingOf(u, u.open[c]) == BindingOf(t, t.open[c])
  {
    var block := ReleasingBlock(t, c, now);
    OwnerFenceHolds(t, c);
    var change := OwnerChange(t, c, block.command, block.actor, now);
    assert change.Update? && change.delta.card == t.cards[c].(status := Blocked, revision := t.cards[c].revision + 1);
    assert change.delta.claim == Some(t.open[c]) && change.delta.rows == map[];
    BindingKept(t, c, change.delta, now);
    AppliedRows(t, c, change.delta, now);
  }

  lemma BindingKept(t: Tables, c: CardId, d: Delta, now: Time)
    requires c in t.open && d.claim == Some(t.open[c]) && d.binding.None?
    ensures var u := Apply(t, c, d, now);
      c in u.open && u.open[c] == t.open[c] && BindingOf(u, u.open[c]) == BindingOf(t, t.open[c])
  {
  }

  // A store in which it happens.

  const WORK := Definition("r", "/w", "b", "c", ["codex"], "")

  function Qualification(repository: string): Call {
    Call("card", Qualify("title", ["a"], WORK, {}, 0, None, true, repository), "coordinator:", 0)
  }

  const CLAIM := Call("card", TakeClaim(1, DefinitionDigest(WORK), 60, "claim"), "codex", 0)

  lemma StripsNothing(s: string)
    requires s != "" && !IsSpace(s[0]) && !IsSpace(s[|s| - 1])
    ensures Strip(s) == s
  {
  }

  lemma OneSegment()
    ensures NormalizePath("a") == Accepted("a") && NormalizedPaths(["a"]) == {"a"}
  {
    assert Segments("a") == PushChar('a', Segments("a"[1..])) && "a"[1..] == "";
    assert Segments("") == [""] && ['a'] + "" == "a" && [""][1..] == [];
    assert PushChar('a', [""]) == [['a'] + ""] + [""][1..] == ["a"];
    StripsNothing("a");
    NormalizeAcceptsCanonical("a");
    assert NormalizePath(["a"][0]) == Accepted("a");
  }

  lemma WorkIsValid()
    ensures ValidDefinition(WORK) && WhitespaceFree("b") && WhitespaceFree("c")
  {
    StripsNothing("r");
    StripsNothing("/w");
    StripsNothing("b");
    StripsNothing("c");
  }

  lemma FingerprintHasNoSpace(s: string)
    requires Fingerprint(s)
    ensures WhitespaceFree(s)
  {
    assert s[..7] == "sha256:";
    forall i | 0 <= i < |s| ensures !IsSpace(s[i]) {
      if i < 7 { assert s[i] == s[..7][i]; } else { assert s[i] == s[7..][i - 7]; }
    }
  }

  /** Four operations on an empty store: qualify, claim, block with the paths released,
      bind. All succeed, and the card is in progress with nothing reserved. */
  lemma UnreservedFromEmpty(repository: string)
    requires Fingerprint(repository)
    ensures var (q, qualified) := Perform(EMPTY, Qualification(repository)); var (t, claimed) := Perform(q, CLAIM);
      && qualified == Performed && claimed == Performed && "card" in t.cards && "card" in t.open
      && var (u, blocked) := Perform(t, ReleasingBlock(t, "card", 0));
         && blocked == Performed && "card" in u.cards && "card" in u.open
         && var (v, bound) := Perform(u, FrozenBind(u, "card", 0));
            bound == Performed && Unreserved(v, "card")
  {
    EmptyInv();
    QualifiedFromEmpty(repository);
    PerformKeeps(EMPTY, Qualification(repository));
    var q := Perform(EMPTY, Qualification(repository)).0;
    ClaimedFromEmpty(q, repository);
    PerformKeeps(q, CLAIM);
    WorkIsValid();
    FingerprintHasNoSpace(repository);
    BlockThenBindLosesReservations(Perform(q, CLAIM).0, "card", 0, 0);
  }

  /** What the first qualification leaves. */
  predicate FirstReady(q: Tables, repository: string) {
    && "card" in q.cards && q.open == map[] && q.closed == map[] && q.bindings == map[]
    && var card := q.cards["card"];
       && card.status == Ready && card.revision == 1 && card.definition == WORK && !card.revalidation
       && card.definitionHash == DefinitionDigest(WORK) && card.repositoryId == repository
  }

  lemma QualifiedFromEmpty(repository: string)
    requires Fingerprint(repository)
    ensures var (q, reply) := Perform(EMPTY, Qualification(repository)); reply == Performed && FirstReady(q, repository)
  {
    var cmd := Qualification(repository).command;
    OneSegment();
    WorkIsValid();
    assert QualifyArgumentError(cmd).None? && QualifyError(EMPTY, "card", cmd, "coordinator:").None?;
  }

  /** What the first claim leaves. */
  predicate FirstClaimed(t: Tables, repository: string) {
    && "card" in t.cards && "card" in t.open && t.open["card"].expiresAt == 60 && t.bindings == map[]
    && var card := t.cards["card"];
       card.status == Claimed && card.definition == WORK && card.repositoryId == repository && !card.revalidation
  }

  lemma ClaimedFromEmpty(q: Tables, repository: string)
    requires Inv(q) && FirstReady(q, repository)
    ensures Perform(q, CLAIM).1 == Performed && FirstClaimed(Perform(q, CLAIM).0, repository)
  {
    CodexWorker();
    ClaimSucceedsIff(q, "card", CLAIM.command, "codex", 0);
    FirstClaimLands(q, repository);
  }

  lemma FirstClaimLands(q: Tables, repository: string)
    requires FirstReady(q, repository) && ClaimChange(q, "card", CLAIM.command, "codex", 0).Update?
    ensures Perform(q, CLAIM).1 == Performed && FirstClaimed(Perform(q, CLAIM).0, repository)
  {
    ClaimPerforms(q, "card", CLAIM.command, "codex", 0);
    ClaimLands(q, ClaimDelta(q, "card", CLAIM.command, "codex", 0), repository);
  }

  lemma ClaimPerforms(t: Tables, c: CardId, cmd: Command, actor: Actor, now: Time)
    requires cmd.TakeClaim? && ClaimChange(t, c, cmd, actor, now).Update?
    ensures c in t.cards
    ensures Perform(t, Call(c, cmd, actor, now)) ==
            (Commit(t, c, Update(ClaimDelta(t, c, cmd, actor, now)), now), Performed)
  {
  }

  lemma ClaimLands(q: Tables, d: Delta, repository: string)
    requires FirstReady(q, repository) && d == ClaimDelta(q, "card", CLAIM.command, "codex", 0)
    ensures FirstClaimed(Commit(q, "card", Update(d), 0), repository)
  {
  }

  lemma CodexWorker()
    ensures !IsCoordinator("codex") && Namespace("codex") == "codex"
  {
    assert "codex"[1..] == "odex" && "odex"[1..] == "dex" && "dex"[1..] == "ex" && "ex"[1..] == "x" && "x"[1..] == "";
    assert Namespace("x") == "x" && Namespace("ex") == "ex" && Namespace("dex") == "dex" && Namespace("odex") == "odex";
  }

  // ----------------------------------------------------------- pending revalidation

  /** The card's next work waits for a coordinator's revalidation. */
  predicate Frozen(t: Tables, c: CardId) {
    c in t.cards && t.cards[c].revalidation
  }

  lemma DeltaRevalidation(t: Tables, c: CardId, cmd: Command, actor: Actor, now: Time)
    requires Frozen(t, c)
    ensures var r := ChangeOf(t, c, cmd, actor, now);
      r.Update? ==> (r.delta.card.revalidation <==> !cmd.Revalidate?)
  {
  }

  /** One transaction on the card lifts the freeze if and only if it is a revalidation
      that succeeds. */
  lemma CommandKeepsFrozen(t: Tables, c: CardId, cmd: Command, actor: Actor, now: Time)
    requires Frozen(t, c)
    ensures Frozen(Commit(t, c, ChangeOf(t, c, cmd, actor, now), now), c) <==>
      !(cmd.Revalidate? && Succeeds(t, c, cmd, actor, now))
  {
    DeltaRevalidation(t, c, cmd, actor, now);
  }

  lemma OthersKeepFrozen(t: Tables, e: CardId, change: Change, now: Time, c: CardId)
    requires Frozen(t, c) && e != c
    ensures Frozen(Commit(t, e, change, now), c)
  {
  }

  /** The transactions that can lift the freeze of `c`. */
  predicate Lifts(tx: Transaction, c: CardId) {
    tx.OnCard? && tx.card == c && tx.command.Revalidate?
  }

  lemma ExecKeepsFrozen(t: Tables, tx: Transaction, c: CardId)
    requires Frozen(t, c) && !Lifts(tx, c)
    ensures Frozen(Exec(t, tx), c)
  {
    match tx
    case OnCard(e, cmd, actor, now) =>
      if e == c {
        CommandKeepsFrozen(t, c, cmd, actor, now);
      } else {
        OthersKeepFrozen(t, e, ChangeOf(t, e, cmd, actor, now), now, c);
      }
    case Deliver(delivery, row, subject, protectedChange, now) =>
      DeliveryKeepsFrozen(t, delivery, row, subject, protectedChange, now, c);
    case _ =>
  }

  lemma NotifiedKeepsFrozen(t: Tables, e: CardId, delivery: string, now: Time, c: CardId)
    requires Frozen(t, c)
    ensures Frozen(Notified(t, e, delivery, now), c)
  {
    if e != c { OthersKeepFrozen(t, e, NoticeChange(t, e, Notice(delivery), WEBHOOK_ACTOR), now, c); }
  }

  lemma DeliveryKeepsFrozen(t: Tables, delivery: string, row: Delivery, subject: Option<CardId>, protectedChange: bool,
                            now: Time, c: CardId)
    requires Frozen(t, c)
    ensures Frozen(DeliverNotice(t, delivery, row, subject, protectedChange, now), c)
  {
    if subject.Some? { NotifiedKeepsFrozen(t.(inbox := t.inbox[delivery := row]), subject.value, delivery, now, c); }
  }

  /** A pending revalidation survives every run of transactions, requeues and new claims
      included, in which no revalidation of the card is attempted. */
  lemma {:induction false} RevalidationSurvives(t: Tables, txs: seq<Transaction>, c: CardId)
    requires Frozen(t, c) && forall i | 0 <= i < |txs| :: !Lifts(txs[i], c)
    ensures Frozen(Run(t, txs), c)
    decreases |txs|
  {
    if txs != [] {
      ExecKeepsFrozen(t, txs[0], c);
      RevalidationSurvives(Exec(t, txs[0]), txs[1..], c);
    }
  }

  /** So until then no owner operation succeeds on the card, whoever holds it by then. */
  lemma FrozenClaimCannotAct(t: Tables, txs: seq<Transaction>, c: CardId, cmd: Command, actor: Actor, now: Time)
    requires Frozen(t, c) && (forall i | 0 <= i < |txs| :: !Lifts(txs[i], c)) && OwnerCommand(cmd)
    ensures !Succeeds(Run(t, txs), c, cmd, actor, now)
  {
    RevalidationSurvives(t, txs, c);
    FrozenRefuses(Run(t, txs), c, cmd, actor, now);
  }

  lemma FrozenRefuses(t: Tables, c: CardId, cmd: Command, actor: Actor, now: Time)
    requires Frozen(t, c) && OwnerCommand(cmd)
    ensures !Succeeds(t, c, cmd, actor, now)
  {
    assert OwnerFence(t, c, t.cards[c], Presented(cmd).value, actor).Some?;
  }
}
