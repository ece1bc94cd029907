/** Fencing: a token belongs to one claim and one owner for ever, and once a claim is
    closed, reassigned or revalidated its old token opens nothing again. */
module WorkplanFencing {
  import opened Records
  import opened Workplan
  import opened WorkplanGrowth
  import opened WorkplanInvariant
  import opened WorkplanRuns
  import opened Wrappers

  /** The commands that must present a token, and the token they present. */
  function Presented(cmd: Command): Option<nat> {
    match cmd
    case ByOwner(_, token, _) => Some(token)
    case Bind(_, token, _, _, _, _) => Some(token)
    case Heartbeat(token, _) => Some(token)
    case ByCoordinator(_, token, decision) => if Fenced(decision) then Some(token) else None
    case _ => None
  }

  predicate OwnerCommand(cmd: Command) {
    cmd.ByOwner? || cmd.Bind? || cmd.Heartbeat?
  }

  predicate Succeeds(t: Tables, c: CardId, cmd: Command, actor: Actor, now: Time) {
    !ChangeOf(t, c, cmd, actor, now).Refuse?
  }

  /** A token that no open claim carries and none will. */
  ghost predicate Dead(t: Tables, c: CardId, token: nat) {
    c in t.cards && (t.cards[c].generation > token || (t.cards[c].generation == token && c !in t.open))
  }

  /** Whoever succeeds with a token holds the card's open claim under it. */
  lemma SuccessNeedsFence(t: Tables, c: CardId, cmd: Command, actor: Actor, now: Time)
    requires Presented(cmd).Some? && Succeeds(t, c, cmd, actor, now)
    ensures c in t.cards && c in t.open
    ensures t.open[c].token == t.cards[c].generation == Presented(cmd).value
    ensures OwnerCommand(cmd) ==> t.open[c].owner == actor
    ensures BundleIntact(t, c, t.cards[c], t.open[c])
  {
    match cmd
    case ByOwner(_, token, step) => assert OwnerFence(t, c, t.cards[c], token, actor).None?;
    case Bind(_, token, _, _, _, _) => assert OwnerFence(t, c, t.cards[c], token, actor).None?;
    case Heartbeat(token, _) => assert OwnerFence(t, c, t.cards[c], token, actor).None?;
    case ByCoordinator(_, token, decision) => assert CoordinatorFence(t, c, t.cards[c], token).None?;
  }

  lemma DeadStaysDead(t: Tables, u: Tables, c: CardId, token: nat)
    requires Grows(t, u) && Dead(t, c, token)
    ensures Dead(u, c, token)
  {
    assert CardGrows(t, u, c);
  }

  /** No run brings a dead token back. */
  lemma DeadTokenNeverSucceeds(t: Tables, txs: seq<Transaction>, c: CardId, token: nat, cmd: Command, actor: Actor,
                               now: Time)
    requires Inv(t) && Dead(t, c, token) && Presented(cmd) == Some(token)
    ensures !Succeeds(Run(t, txs), c, cmd, actor, now)
  {
    var u := Run(t, txs);
    RunGrows(t, txs);
    DeadStaysDead(t, u, c, token);
    if Succeeds(u, c, cmd, actor, now) { SuccessNeedsFence(u, c, cmd, actor, now); }
  }

  /** The decisions that end the open claim's token. */
  predicate Ends(t: Tables, c: CardId, cmd: Command) {
    match cmd
    case ByCoordinator(_, _, decision) => !decision.Integrate?
    case Reassign(_, _, _, _, _) => true
    case Revalidate(_, _) => c in t.open
    case _ => false
  }

  /** Closing, reassigning or revalidating a claim kills its token and every older one. */
  lemma EndingKills(t: Tables, c: CardId, cmd: Command, actor: Actor, now: Time, token: nat)
    requires Ends(t, c, cmd) && Succeeds(t, c, cmd, actor, now)
    requires c in t.cards && token <= t.cards[c].generation
    ensures Dead(Commit(t, c, ChangeOf(t, c, cmd, actor, now), now), c, token)
  {
    var r := ChangeOf(t, c, cmd, actor, now);
    match cmd
    case ByCoordinator(_, _, decision) => assert r == CoordinatorChange(t, c, cmd, actor, now) && r.Update?;
    case Reassign(_, _, _, _, _) => assert r == ReassignChange(t, c, cmd, actor, now) && r.Update?;
    case Revalidate(_, _) => assert r == RevalidateChange(t, c, cmd, actor, now) && r.Update?;
  }

  /** Fencing over whole runs: after an ending decision, whatever happens next, nobody
      acts under a token that the card had reached by then. */
  lemma FencedForEver(t: Tables, c: CardId, ending: Command, judge: Actor, at: Time, txs: seq<Transaction>,
                      token: nat, cmd: Command, actor: Actor, now: Time)
    requires Inv(t) && c in t.cards
    requires Ends(t, c, ending) && Succeeds(t, c, ending, judge, at)
    requires token <= t.cards[c].generation && Presented(cmd) == Some(token)
    ensures !Succeeds(Run(Exec(t, OnCard(c, ending, judge, at)), txs), c, cmd, actor, now)
  {
    EndingKills(t, c, ending, judge, at, token);
    ExecKeeps(t, OnCard(c, ending, judge, at));
    DeadTokenNeverSucceeds(Exec(t, OnCard(c, ending, judge, at)), txs, c, token, cmd, actor, now);
  }

  /** One token, one owner: two owner commands that succeed on a card under the same
      token, however far apart in a run, come from the same actor. */
  lemma OneOwnerPerToken(t: Tables, txs: seq<Transaction>, u: Tables, c: CardId,
                         first: Command, actor: Actor, at: Time, second: Command, other: Actor, later: Time)
    requires Inv(t) && u == Run(t, txs)
    requires OwnerCommand(first) && OwnerCommand(second) && Presented(first) == Presented(second)
    requires Succeeds(t, c, first, actor, at) && Succeeds(u, c, second, other, later)
    ensures actor == other
    ensures c in t.open && c in u.open && u.open[c].id == t.open[c].id
  {
    RunBundles(t, txs);
    OwnersAgree(t, u, c, first, actor, at, second, other, later);
  }

  lemma RunBundles(t: Tables, txs: seq<Transaction>)
    requires Inv(t)
    ensures BundlesGrow(t, Run(t, txs)) && Minted(Run(t, txs).cards, Run(t, txs).bundles)
  {
    RunGrows(t, txs);
    RunKeeps(t, txs);
  }

  /** The actor owns the card's open claim under this token, and its bundle is intact. */
  predicate Holder(t: Tables, c: CardId, token: nat, actor: Actor) {
    && c in t.cards && c in t.open && t.open[c].token == token && t.open[c].owner == actor
    && BundleIntact(t, c, t.cards[c], t.open[c])
  }

  lemma HolderOf(t: Tables, c: CardId, cmd: Command, actor: Actor, now: Time)
    requires OwnerCommand(cmd) && Succeeds(t, c, cmd, actor, now)
    ensures Holder(t, c, Presented(cmd).value, actor)
  {
    SuccessNeedsFence(t, c, cmd, actor, now);
  }

  lemma OwnersAgree(t: Tables, u: Tables, c: CardId, first: Command, actor: Actor, at: Time,
                    second: Command, other: Actor, later: Time)
    requires BundlesGrow(t, u) && Minted(u.cards, u.bundles)
    requires OwnerCommand(first) && OwnerCommand(second) && Presented(first) == Presented(second)
    requires Succeeds(t, c, first, actor, at) && Succeeds(u, c, second, other, later)
    ensures actor == other && c in t.open && c in u.open && u.open[c].id == t.open[c].id
  {
    HolderOf(t, c, first, actor, at);
    HolderOf(u, c, second, other, later);
    SameTokenSameClaim(t, u, c);
  }

  /** Bundles are minted once per card and token and never change. */
  lemma SameTokenSameClaim(t: Tables, u: Tables, c: CardId)
    requires BundlesGrow(t, u) && Minted(u.cards, u.bundles)
    requires c in t.cards && c in t.open && BundleIntact(t, c, t.cards[c], t.open[c])
    requires c in u.cards && c in u.open && BundleIntact(u, c, u.cards[c], u.open[c])
    requires t.open[c].token == u.open[c].token
    ensures t.open[c].owner == u.open[c].owner && t.open[c].id == u.open[c].id
  {
    var k, j := (t.open[c].id, t.open[c].token), (u.open[c].id, u.open[c].token);
    assert k in t.bundles && t.bundles[k] == Seal(BundleMaterial(c, t.cards[c], t.open[c]));
    assert j in u.bundles && u.bundles[j] == Seal(BundleMaterial(c, u.cards[c], u.open[c]));
    assert k in u.bundles && u.bundles[k] == t.bundles[k];
    assert k == j;
  }
}
