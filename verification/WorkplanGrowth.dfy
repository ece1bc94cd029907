/** What no run ever takes back: generations, done cards, ledgers, bundles, closed claims. */
module WorkplanGrowth {
  import opened Outbox
  import opened Records
  import opened Workplan
  import opened WorkplanInvariant
  import opened WorkplanRuns
  import opened WorkplanSteps
  import opened Wrappers

  /** Under an unchanged generation a card keeps its open claim or loses it. */
  ghost predicate CardGrows(t: Tables, u: Tables, c: CardId)
    requires c in t.cards && c in u.cards
  {
    && t.cards[c].generation <= u.cards[c].generation
    && (t.cards[c].generation == u.cards[c].generation && c in u.open ==>
          c in t.open && u.open[c].id == t.open[c].id && u.open[c].owner == t.open[c].owner)
    && (t.cards[c].status == Done ==>
          u.cards[c].status == Done && u.cards[c].dependencies == t.cards[c].dependencies)
    && Log(t, c) <= Log(u, c)
  }

  ghost predicate BundlesGrow(t: Tables, u: Tables) {
    forall k | k in t.bundles :: k in u.bundles && u.bundles[k] == t.bundles[k]
  }

  ghost predicate Grows(t: Tables, u: Tables) {
    && (forall c | c in t.cards :: c in u.cards && CardGrows(t, u, c))
    && BundlesGrow(t, u)
  }

  lemma GrowsTransitive(t: Tables, u: Tables, w: Tables)
    requires Grows(t, u) && Grows(u, w)
    ensures Grows(t, w)
  {
    forall c | c in t.cards ensures c in w.cards && CardGrows(t, w, c) {
      assert CardGrows(t, u, c) && CardGrows(u, w, c);
    }
  }

  /** A bundle key is never taken twice: the store's immutability trigger and primary
      key have nothing to reject. */
  lemma MintKeyFresh(t: Tables, c: CardId, claim: Claim)
    requires RowsInv(t) && claim.token > Generation(t, c)
    requires SameClaim(t, c, claim) || FreshClaim(t, claim)
    ensures (claim.id, claim.token) !in t.bundles
  {
    forall k | k in t.bundles ensures k != (claim.id, claim.token) {
      var b := t.bundles[k].material;
      assert BundleKeyOk(t.cards, k, t.bundles[k]);
      assert BundleClaim(t.open, t.closed, b);
    }
  }

  lemma ApplyGrowsBundles(t: Tables, c: CardId, d: Delta, now: Time)
    requires RowsInv(t) && Admissible(t, c, d)
    ensures BundlesGrow(t, Apply(t, c, d, now))
  {
    if d.mint { MintKeyFresh(t, c, d.claim.value); }
    MintGrows(t.bundles, c, d.card, d.claim, d.mint);
    ApplyBundles(t, c, d, now);
  }

  lemma MintGrows(bundles: map<(ClaimId, nat), StoredBundle>, c: CardId, card: Card, claim: Option<Claim>, mint: bool)
    requires mint && claim.Some? ==> (claim.value.id, claim.value.token) !in bundles
    ensures var more := MintBundle(bundles, c, card, claim, mint);
      forall k | k in bundles :: k in more && more[k] == bundles[k]
  {
  }

  lemma ApplyBundles(t: Tables, c: CardId, d: Delta, now: Time)
    ensures Apply(t, c, d, now).bundles == MintBundle(t.bundles, c, d.card, d.claim, d.mint)
  {
  }

  lemma ApplyGrows(t: Tables, c: CardId, d: Delta, now: Time)
    requires RowsInv(t) && Admissible(t, c, d)
    ensures Grows(t, Apply(t, c, d, now))
  {
    ApplyGrowsBundles(t, c, d, now);
    ApplyGrowsCards(t, c, d, now);
  }

  lemma ApplyGrowsCards(t: Tables, c: CardId, d: Delta, now: Time)
    requires Admissible(t, c, d)
    ensures var u := Apply(t, c, d, now); forall e | e in t.cards :: e in u.cards && CardGrows(t, u, e)
  {
    forall e | e in t.cards ensures e in Apply(t, c, d, now).cards && CardGrows(t, Apply(t, c, d, now), e) {
      if e == c { ApplyGrowsOwn(t, c, d, now); } else { ApplyGrowsOther(t, c, d, now, e); }
    }
  }

  lemma ApplyGrowsOwn(t: Tables, c: CardId, d: Delta, now: Time)
    requires Admissible(t, c, d) && c in t.cards
    ensures CardGrows(t, Apply(t, c, d, now), c)
  {
    assert c !in t.open && d.claim.Some? ==> d.mint;
  }

  lemma ApplyGrowsOther(t: Tables, c: CardId, d: Delta, now: Time, e: CardId)
    requires e in t.cards && e != c
    ensures e in Apply(t, c, d, now).cards && CardGrows(t, Apply(t, c, d, now), e)
  {
  }

  lemma CommandAdmissible(t: Tables, c: CardId, cmd: Command, actor: Actor, now: Time)
    requires RowsInv(t)
    ensures var r := ChangeOf(t, c, cmd, actor, now); r.Update? ==> Admissible(t, c, r.delta)
  {
    InvKnown(t, c);
    if cmd.TakeClaim? || cmd.Reassign? { InvUnbound(t, cmd.claimId); }
    CommandSound(t, c, cmd, actor, now);
  }

  lemma ChangeGrows(t: Tables, c: CardId, change: Change, now: Time)
    requires RowsInv(t) && (change.Update? ==> Admissible(t, c, change.delta))
    ensures Grows(t, Commit(t, c, change, now))
  {
    if change.Update? { ApplyGrows(t, c, change.delta, now); } else { SameRowsGrow(t, t); }
  }

  lemma CommandGrows(t: Tables, c: CardId, cmd: Command, actor: Actor, now: Time)
    requires RowsInv(t)
    ensures Grows(t, Commit(t, c, ChangeOf(t, c, cmd, actor, now), now))
  {
    CommandAdmissible(t, c, cmd, actor, now);
    ChangeGrows(t, c, ChangeOf(t, c, cmd, actor, now), now);
  }

  lemma SameRowsGrow(t: Tables, u: Tables)
    requires u.cards == t.cards && u.open == t.open && u.bundles == t.bundles && u.receipts == t.receipts
    ensures Grows(t, u)
  {
  }

  lemma DeliverGrows(t: Tables, delivery: string, row: Delivery, c: CardId, now: Time)
    requires Inv(t)
    ensures var u := t.(inbox := t.inbox[delivery := row]);
      Grows(t, Notified(u, c, delivery, now))
  {
    var u := t.(inbox := t.inbox[delivery := row]);
    InboxKeeps(t, u.inbox);
    SameRowsGrow(t, u);
    CommandGrows(u, c, Notice(delivery), WEBHOOK_ACTOR, now);
    NotifiedIsCommand(u, c, delivery, now);
    GrowsTransitive(t, u, Notified(u, c, delivery, now));
  }

  predicate NamesCard(t: Tables, tx: Transaction) {
    tx.Deliver? && tx.delivery !in t.inbox && tx.protectedChange && tx.subject.Some? && tx.subject.value != ""
  }

  lemma ExecElsewhere(t: Tables, tx: Transaction)
    requires !tx.OnCard? && !NamesCard(t, tx)
    ensures var u := Exec(t, tx);
      u.cards == t.cards && u.open == t.open && u.bundles == t.bundles && u.receipts == t.receipts
  {
  }

  lemma ExecGrows(t: Tables, tx: Transaction)
    requires Inv(t)
    ensures Grows(t, Exec(t, tx))
  {
    if tx.OnCard? {
      CommandGrows(t, tx.card, tx.command, tx.actor, tx.now);
    } else if NamesCard(t, tx) {
      DeliverGrows(t, tx.delivery, tx.row, tx.subject.value, tx.now);
    } else {
      ExecElsewhere(t, tx);
      SameRowsGrow(t, Exec(t, tx));
    }
  }

  lemma {:induction false} RunGrows(t: Tables, txs: seq<Transaction>)
    requires Inv(t)
    ensures Grows(t, Run(t, txs))
    decreases |txs|
  {
    if txs == [] {
      SameRowsGrow(t, t);
    } else {
      var u := Exec(t, txs[0]);
      ExecKeeps(t, txs[0]);
      ExecGrows(t, txs[0]);
      RunGrows(u, txs[1..]);
      GrowsTransitive(t, u, Run(u, txs[1..]));
    }
  }
}
