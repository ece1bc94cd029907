/** What every transaction keeps: the rows of one card agree with each other, and the
    rows of different cards stay apart. */
module WorkplanInvariant {
  import opened Paths
  import opened Records
  import opened Workplan
  import opened Wrappers

  /** The rows about one card: its column values, open claim, reservations, the open
      claim's binding and current bundle. */
  datatype View = View(
    card: Card, claim: Option<Claim>, rows: map<string, nat>, binding: Option<Binding>, bundle: Option<StoredBundle>)

  function ViewOf(t: Tables, c: CardId): View
    requires c in t.cards
  {
    var claim := OpenClaim(t, c);
    View(t.cards[c], claim, Rows(t, c),
         if claim.Some? then BindingOf(t, claim.value) else None,
         if claim.Some? then BundleOf(t, claim.value) else None)
  }

  predicate ClaimAgrees(c: CardId, card: Card, claim: Claim) {
    && claim.card == c
    && card.owner == Some(claim.owner)
    && claim.token == card.generation >= 1
    && claim.definitionHash == card.definitionHash
    && claim.closed == None
    && !IsCoordinator(claim.owner)
    && Namespace(claim.owner) in card.definition.allowedOwnerNamespaces
  }

  predicate CardOk(c: CardId, card: Card, claim: Option<Claim>) {
    && card.paths != {}
    && card.definitionHash == DefinitionDigest(card.definition)
    && (Active(card.status) <==> claim.Some?)
    && (if claim.Some? then ClaimAgrees(c, card, claim.value) else card.owner == None)
  }

  /** All paths reserved or none, under the card's current token. */
  predicate RowsOk(card: Card, claim: Option<Claim>, rows: map<string, nat>) {
    && (rows == map[] || rows.Keys == card.paths)
    && (forall p | p in rows :: rows[p] == if claim.Some? then card.generation else 0)
    && (card.status in {Ready, Claimed} ==> rows.Keys == card.paths)
    && (card.status in {Backlog, Done, Cancelled} ==> rows == map[])
  }

  predicate BindingOk(c: CardId, card: Card, binding: Option<Binding>) {
    && (binding.Some? ==> binding.value.card == c && binding.value.token == card.generation
                          && binding.value.repositoryId == card.repositoryId)
    && (card.status in {Review, Verifying} ==> binding.Some?)
  }

  predicate BundleOk(c: CardId, card: Card, claim: Option<Claim>, bundle: Option<StoredBundle>) {
    claim.Some? ==> bundle == Some(Seal(BundleMaterial(c, card, claim.value)))
  }

  predicate ViewOk(c: CardId, v: View) {
    && CardOk(c, v.card, v.claim)
    && RowsOk(v.card, v.claim, v.rows)
    && BindingOk(c, v.card, v.binding)
    && BundleOk(c, v.card, v.claim, v.bundle)
  }

  predicate LedgerOk(c: CardId, log: seq<Receipt>, revision: nat) {
    && |log| == revision >= 1
    && forall i | 0 <= i < |log| :: ReceiptOk(c, log, i)
  }

  predicate ReceiptOk(c: CardId, log: seq<Receipt>, i: nat)
    requires i < |log|
  {
    var body := log[i].body;
    && log[i].hash == ReceiptDigest(body)
    && body.card == c && body.revisionFrom == i && body.revisionTo == i + 1
    && body.previous == if i == 0 then None else Some(log[i - 1].hash)
  }

  /** The last integration came after the last submission and reviewed its head. */
  predicate ReviewedLog(log: seq<Receipt>) {
    var i, s := LastIntegrate(log), LastSubmit(log);
    && 0 <= s < i
    && IntegrationRecorded(log)
    && log[i].body.event.reviewHead == log[s].body.event.lineage.headCommit
  }

  predicate HistoryOk(c: CardId, card: Card, log: seq<Receipt>) {
    && LedgerOk(c, log, card.revision)
    && (card.status in {Verifying, Done} ==> ReviewedLog(log))
  }

  ghost predicate KeysOk(t: Tables) {
    && t.open.Keys <= t.cards.Keys
    && t.reservations.Keys <= t.cards.Keys
    && (forall c | c in t.reservations :: t.reservations[c] != map[])
  }

  ghost predicate CardsOk(t: Tables) {
    forall c | c in t.cards :: ViewOk(c, ViewOf(t, c))
  }

  ghost predicate HistoriesOk(t: Tables) {
    forall c | c in t.cards :: HistoryOk(c, t.cards[c], Log(t, c))
  }

  predicate Apart(left: map<string, nat>, right: map<string, nat>) {
    forall p, q | p in left && q in right :: !Overlaps(p, q)
  }

  ghost predicate Exclusive(reservations: map<CardId, map<string, nat>>) {
    forall c, e | c in reservations && e in reservations && c != e :: Apart(reservations[c], reservations[e])
  }

  predicate IdUsed(open: map<CardId, Claim>, closed: map<ClaimId, Claim>, id: ClaimId) {
    id in closed || exists d | d in open :: open[d].id == id
  }

  ghost predicate ClaimsApart(open: map<CardId, Claim>, closed: map<ClaimId, Claim>, bindings: map<ClaimId, Binding>) {
    && (forall c, e | c in open && e in open && c != e :: open[c].owner != open[e].owner && open[c].id != open[e].id)
    && (forall c | c in open :: open[c].id !in closed)
    && (forall k | k in closed :: closed[k].id == k && closed[k].closed.Some?)
    && (forall k | k in bindings :: IdUsed(open, closed, k))
  }

  predicate Qualified(status: Status) {
    status == Ready || Active(status) || status == Done
  }

  ghost predicate Ordered(t: Tables) {
    forall c | c in t.cards && Qualified(t.cards[c].status) :: DependenciesDone(t, t.cards[c].dependencies)
  }

  /** The claim, open or closed, that a bundle was stored for. */
  predicate BundleClaim(open: map<CardId, Claim>, closed: map<ClaimId, Claim>, b: Bundle) {
    || (b.claimId in closed && closed[b.claimId].owner == b.owner && closed[b.claimId].card == b.card)
    || (b.card in open && open[b.card].id == b.claimId && open[b.card].owner == b.owner)
  }

  predicate BundleKeyOk(cards: map<CardId, Card>, k: (ClaimId, nat), stored: StoredBundle) {
    var b := stored.material;
    && stored == Seal(b)
    && k == (b.claimId, b.token)
    && b.card in cards && 1 <= b.token <= cards[b.card].generation
  }

  ghost predicate Minted(cards: map<CardId, Card>, bundles: map<(ClaimId, nat), StoredBundle>) {
    && (forall k | k in bundles :: BundleKeyOk(cards, k, bundles[k]))
    && (forall k, j | k in bundles && j in bundles && k.1 == j.1
                      && bundles[k].material.card == bundles[j].material.card ::
          k == j)
  }

  ghost predicate BundlesClaimed(open: map<CardId, Claim>, closed: map<ClaimId, Claim>,
                                 bundles: map<(ClaimId, nat), StoredBundle>) {
    forall k | k in bundles :: BundleClaim(open, closed, bundles[k].material)
  }

  ghost predicate UniqueKeys(rows: seq<OutboxRow>) {
    forall i, j | 0 <= i < j < |rows| :: rows[i].key != rows[j].key
  }

  ghost predicate Announced(receipts: map<CardId, seq<Receipt>>, keys: set<DedupeKey>) {
    forall c, i | c in receipts && 0 <= i < |receipts[c]| :: ReceiptKey(receipts[c][i].hash) in keys
  }

  /** The tables other than receipts and outbox. */
  ghost predicate RowsInv(t: Tables) {
    && KeysOk(t) && CardsOk(t)
    && Exclusive(t.reservations)
    && ClaimsApart(t.open, t.closed, t.bindings)
    && Ordered(t)
    && Minted(t.cards, t.bundles) && BundlesClaimed(t.open, t.closed, t.bundles)
  }

  ghost predicate LogsInv(t: Tables) {
    && t.receipts.Keys == t.cards.Keys
    && HistoriesOk(t)
    && UniqueKeys(t.outbox) && Announced(t.receipts, OutboxKeys(t.outbox))
  }

  ghost predicate Inv(t: Tables) {
    RowsInv(t) && LogsInv(t)
  }

  // ------------------------------------------------- one update, in general

  /** The card's rows after the update. */
  ghost function NextView(t: Tables, c: CardId, d: Delta): View {
    View(d.card, d.claim, d.rows,
         if d.claim.None? then None
         else if d.binding.Some? then d.binding else BindingOf(t, d.claim.value),
         if d.claim.None? then None
         else if d.mint then Some(Seal(BundleMaterial(c, d.card, d.claim.value)))
         else BundleOf(t, d.claim.value))
  }

  ghost function NextLog(t: Tables, c: CardId, d: Delta, now: Time): seq<Receipt> {
    if d.event.None? then Log(t, c)
    else Log(t, c) + [NextReceipt(Log(t, c), c, d.event.value, d.actor, Revision(t, c), d.card.revision, d.token, now)]
  }

  function Generation(t: Tables, c: CardId): nat {
    if c in t.cards then t.cards[c].generation else 0
  }

  ghost predicate SameClaim(t: Tables, c: CardId, claim: Claim) {
    c in t.open && claim.id == t.open[c].id && claim.owner == t.open[c].owner
  }

  ghost predicate FreshClaim(t: Tables, claim: Claim) {
    !ClaimIdUsed(t, claim.id) && !HoldsClaim(t, claim.owner)
  }

  ghost predicate RowsAdmissible(t: Tables, c: CardId, rows: map<string, nat>) {
    rows.Keys <= Rows(t, c).Keys || !Conflicts(t, c, rows.Keys)
  }

  /** What the checks of every transaction establish about the rest of the tables. */
  ghost predicate Admissible(t: Tables, c: CardId, d: Delta) {
    && RowsAdmissible(t, c, d.rows)
    && (d.claim.Some? ==> SameClaim(t, c, d.claim.value) || (FreshClaim(t, d.claim.value) && d.mint))
    && (Qualified(d.card.status) ==> DependenciesDone(t, d.card.dependencies))
    && (c in t.cards && t.cards[c].status == Done ==>
          d.card.status == Done && d.card.dependencies == t.cards[c].dependencies)
    && d.card.generation >= Generation(t, c)
    && (d.mint ==> d.claim.Some? && d.claim.value.token == d.card.generation > Generation(t, c))
    && (d.binding.Some? ==> d.claim.Some?)
    && (d.event.None? ==> c in t.cards)
  }

  lemma StoreView(t: Tables, c: CardId, d: Delta, now: Time)
    requires Admissible(t, c, d)
    ensures ViewOf(Store(t, c, d, now), c) == NextView(t, c, d)
  {
  }

  lemma StoreOtherView(t: Tables, c: CardId, d: Delta, now: Time, e: CardId)
    requires e in t.cards && e != c
    requires e in t.open && d.claim.Some? ==> t.open[e].id != d.claim.value.id
    ensures ViewOf(Store(t, c, d, now), e) == ViewOf(t, e)
  {
  }

  lemma OtherIds(t: Tables, c: CardId, claim: Claim)
    requires ClaimsApart(t.open, t.closed, t.bindings)
    requires SameClaim(t, c, claim) || FreshClaim(t, claim)
    ensures forall e | e in t.open && e != c :: t.open[e].id != claim.id && t.open[e].owner != claim.owner
  {
  }

  lemma CardsKept(t: Tables, c: CardId, d: Delta, now: Time)
    requires CardsOk(t) && ClaimsApart(t.open, t.closed, t.bindings)
    requires Admissible(t, c, d) && ViewOk(c, NextView(t, c, d))
    ensures CardsOk(Store(t, c, d, now))
  {
    if d.claim.Some? { OtherIds(t, c, d.claim.value); }
    StoreView(t, c, d, now);
    CardsKeptFor(t, c, d, now, Store(t, c, d, now));
  }

  lemma CardsKeptFor(t: Tables, c: CardId, d: Delta, now: Time, u: Tables)
    requires CardsOk(t) && u == Store(t, c, d, now)
    requires forall e | e in t.open && e != c && d.claim.Some? :: t.open[e].id != d.claim.value.id
    requires ViewOk(c, ViewOf(u, c))
    ensures CardsOk(u)
  {
    forall e | e in u.cards ensures ViewOk(e, ViewOf(u, e)) {
      if e != c { StoreOtherView(t, c, d, now, e); }
    }
  }

  lemma ExclusiveKept(r: map<CardId, map<string, nat>>, c: CardId, rows: map<string, nat>)
    requires Exclusive(r)
    requires (c in r && rows.Keys <= r[c].Keys) || (forall e | e in r && e != c :: Apart(rows, r[e]))
    ensures Exclusive(SetRows(r, c, rows))
  {
    forall e | e in r && e != c ensures Apart(rows, r[e]) && Apart(r[e], rows) {
    }
  }

  lemma AdmissibleRowsApart(t: Tables, c: CardId, rows: map<string, nat>)
    requires Exclusive(t.reservations) && RowsAdmissible(t, c, rows)
    ensures forall e | e in t.reservations && e != c :: Apart(rows, t.reservations[e])
  {
    forall e | e in t.reservations && e != c ensures Apart(rows, t.reservations[e]) {
      if rows.Keys <= Rows(t, c).Keys {
        assert c in t.reservations ==> Apart(t.reservations[c], t.reservations[e]);
      } else {
        assert !Touches(rows.Keys, t.reservations[e]);
      }
    }
  }

  lemma ClaimsApartKept(open: map<CardId, Claim>, closed: map<ClaimId, Claim>, bindings: map<ClaimId, Binding>,
                        c: CardId, claim: Option<Claim>, closing: Closing, binding: Option<Binding>)
    requires ClaimsApart(open, closed, bindings)
    requires claim.Some? ==>
               || (c in open && claim.value.id == open[c].id && claim.value.owner == open[c].owner)
               || (!IdUsed(open, closed, claim.value.id) && forall e | e in open :: open[e].owner != claim.value.owner)
    ensures ClaimsApart(SetClaim(open, c, claim), CloseReplaced(open, closed, c, claim, closing),
                        SetBinding(bindings, claim, binding))
  {
    var open', closed' := SetClaim(open, c, claim), CloseReplaced(open, closed, c, claim, closing);
    forall k | k in bindings ensures IdUsed(open', closed', k) {
      if k !in closed {
        var e :| e in open && open[e].id == k;
        if e != c { assert e in open' && open'[e].id == k; }
        else if claim.Some? && claim.value.id == k { assert c in open' && open'[c].id == k; }
      }
    }
    if binding.Some? && claim.Some? {
      assert c in open' && open'[c].id == claim.value.id;
    }
  }

  lemma OrderedKept(t: Tables, c: CardId, d: Delta, now: Time)
    requires Ordered(t) && Admissible(t, c, d)
    ensures Ordered(Store(t, c, d, now))
  {
    var u := Store(t, c, d, now);
    forall e | e in u.cards && Qualified(u.cards[e].status) ensures DependenciesDone(u, u.cards[e].dependencies) {
      assert DependenciesDone(t, u.cards[e].dependencies);
    }
  }

  lemma MintedKept(cards: map<CardId, Card>, bundles: map<(ClaimId, nat), StoredBundle>,
                   c: CardId, card: Card, claim: Option<Claim>, mint: bool)
    requires Minted(cards, bundles)
    requires c in cards ==> card.generation >= cards[c].generation
    requires mint ==> claim.Some? && claim.value.token == card.generation >= 1
    requires mint && c in cards ==> card.generation > cards[c].generation
    ensures Minted(cards[c := card], MintBundle(bundles, c, card, claim, mint))
  {
    var bundles' := MintBundle(bundles, c, card, claim, mint);
    forall k | k in bundles' ensures BundleKeyOk(cards[c := card], k, bundles'[k]) {
      assert k in bundles ==> BundleKeyOk(cards, k, bundles[k]);
    }
    forall k, j | k in bundles' && j in bundles' && bundles'[k].material.card == bundles'[j].material.card && k.1 == j.1
      ensures k == j
    {
      assert k in bundles ==> BundleKeyOk(cards, k, bundles[k]);
      assert j in bundles ==> BundleKeyOk(cards, j, bundles[j]);
    }
  }

  lemma BundlesClaimedKept(open: map<CardId, Claim>, closed: map<ClaimId, Claim>,
                           bundles: map<(ClaimId, nat), StoredBundle>, c: CardId, card: Card,
                           claim: Option<Claim>, mint: bool, closing: Closing)
    requires BundlesClaimed(open, closed, bundles)
    requires c in open ==> open[c].card == c
    requires forall e | e in open :: open[e].id !in closed
    requires claim.Some? && c in open && claim.value.id == open[c].id ==> claim.value.owner == open[c].owner
    ensures BundlesClaimed(SetClaim(open, c, claim), CloseReplaced(open, closed, c, claim, closing),
                           MintBundle(bundles, c, card, claim, mint))
  {
    var open', closed' := SetClaim(open, c, claim), CloseReplaced(open, closed, c, claim, closing);
    forall k | k in bundles ensures BundleClaim(open', closed', bundles[k].material) {
      assert BundleClaim(open, closed, bundles[k].material);
    }
  }

  lemma EnqueueKeys(rows: seq<OutboxRow>, key: DedupeKey, payload: Projection, at: Time)
    requires UniqueKeys(rows)
    ensures UniqueKeys(Enqueue(rows, key, payload, at))
    ensures OutboxKeys(Enqueue(rows, key, payload, at)) == OutboxKeys(rows) + {key}
  {
    var more := Enqueue(rows, key, payload, at);
    if key !in OutboxKeys(rows) {
      forall i | 0 <= i < |rows| ensures rows[i].key != key {
        assert rows[i] in rows;
      }
      assert more[|rows|] in more && more[|rows|].key == key;
      forall k | k in OutboxKeys(rows) ensures k in OutboxKeys(more) {
        var r :| r in rows && r.key == k;
        assert r in more;
      }
    }
  }

  lemma ReservationsPart(t: Tables, c: CardId, d: Delta, now: Time)
    requires Exclusive(t.reservations) && RowsAdmissible(t, c, d.rows)
    ensures Exclusive(Store(t, c, d, now).reservations)
  {
    AdmissibleRowsApart(t, c, d.rows);
    ExclusiveKept(t.reservations, c, d.rows);
  }

  lemma ClaimsPart(t: Tables, c: CardId, d: Delta, now: Time)
    requires ClaimsApart(t.open, t.closed, t.bindings)
    requires d.claim.Some? ==> SameClaim(t, c, d.claim.value) || FreshClaim(t, d.claim.value)
    ensures var u := Store(t, c, d, now); ClaimsApart(u.open, u.closed, u.bindings)
  {
    ClaimsApartKept(t.open, t.closed, t.bindings, c, d.claim, Closing(now, d.closeReason), d.binding);
  }

  lemma BundlesPart(t: Tables, c: CardId, d: Delta, now: Time)
    requires Minted(t.cards, t.bundles) && BundlesClaimed(t.open, t.closed, t.bundles)
    requires ClaimsApart(t.open, t.closed, t.bindings) && Admissible(t, c, d)
    requires c in t.open ==> t.open[c].card == c
    ensures var u := Store(t, c, d, now); Minted(u.cards, u.bundles) && BundlesClaimed(u.open, u.closed, u.bundles)
  {
    MintedKept(t.cards, t.bundles, c, d.card, d.claim, d.mint);
    BundlesClaimedPart(t, c, d, now);
  }

  lemma BundlesClaimedPart(t: Tables, c: CardId, d: Delta, now: Time)
    requires BundlesClaimed(t.open, t.closed, t.bundles) && ClaimsApart(t.open, t.closed, t.bindings)
    requires d.claim.Some? ==> SameClaim(t, c, d.claim.value) || FreshClaim(t, d.claim.value)
    requires c in t.open ==> t.open[c].card == c
    ensures var u := Store(t, c, d, now); BundlesClaimed(u.open, u.closed, u.bundles)
  {
    BundlesClaimedKept(t.open, t.closed, t.bundles, c, d.card, d.claim, d.mint, Closing(now, d.closeReason));
  }

  lemma HistoriesPart(t: Tables, c: CardId, d: Delta, now: Time)
    requires t.receipts.Keys == t.cards.Keys && HistoriesOk(t) && (d.event.None? ==> c in t.cards)
    requires HistoryOk(c, d.card, NextLog(t, c, d, now))
    ensures var w := Apply(t, c, d, now); HistoriesOk(w) && w.receipts.Keys == w.cards.Keys
  {
    var w := Apply(t, c, d, now);
    forall e | e in w.cards ensures HistoryOk(e, w.cards[e], Log(w, e)) {
      if e != c { assert HistoryOk(e, t.cards[e], Log(t, e)); }
    }
  }

  lemma OutboxPart(t: Tables, c: CardId, d: Delta, now: Time)
    requires UniqueKeys(t.outbox) && Announced(t.receipts, OutboxKeys(t.outbox))
    ensures var w := Apply(t, c, d, now); UniqueKeys(w.outbox) && Announced(w.receipts, OutboxKeys(w.outbox))
  {
    if d.event.Some? {
      var r := NextReceipt(Log(t, c), c, d.event.value, d.actor, Revision(t, c), d.card.revision, d.token, now);
      EnqueueKeys(t.outbox, ReceiptKey(r.hash),
                  Activity(c, d.event.value, d.card.revision, now * 1000, d.actor, r.hash), now * 1000);
    }
  }

  ghost predicate SameRows(u: Tables, w: Tables) {
    && u.cards == w.cards && u.open == w.open && u.closed == w.closed && u.reservations == w.reservations
    && u.bindings == w.bindings && u.bundles == w.bundles
  }

  lemma SameRowsSameView(u: Tables, w: Tables, e: CardId)
    requires SameRows(u, w) && e in u.cards
    ensures ViewOf(w, e) == ViewOf(u, e)
  {
  }

  lemma SameRowsCardsOk(u: Tables, w: Tables)
    requires SameRows(u, w) && CardsOk(u)
    ensures CardsOk(w)
  {
    forall e | e in w.cards ensures ViewOk(e, ViewOf(w, e)) {
      SameRowsSameView(u, w, e);
    }
  }

  lemma SameRowsInv(u: Tables, w: Tables)
    requires SameRows(u, w) && RowsInv(u)
    ensures RowsInv(w)
  {
    SameRowsCardsOk(u, w);
    forall e | e in w.cards && Qualified(w.cards[e].status) ensures DependenciesDone(w, w.cards[e].dependencies) {
      assert DependenciesDone(u, u.cards[e].dependencies);
    }
  }

  lemma OpenCard(t: Tables, c: CardId)
    requires KeysOk(t) && CardsOk(t)
    ensures c in t.open ==> t.open[c].card == c
  {
    if c in t.open { assert ViewOk(c, ViewOf(t, c)); }
  }

  lemma StoreKeepsRows(t: Tables, c: CardId, d: Delta, now: Time)
    requires RowsInv(t) && Admissible(t, c, d) && ViewOk(c, NextView(t, c, d))
    ensures RowsInv(Store(t, c, d, now))
  {
    StoreKeepsCards(t, c, d, now);
    StoreKeepsClaims(t, c, d, now);
  }

  lemma StoreKeepsCards(t: Tables, c: CardId, d: Delta, now: Time)
    requires RowsInv(t) && Admissible(t, c, d) && ViewOk(c, NextView(t, c, d))
    ensures var u := Store(t, c, d, now); CardsOk(u) && Ordered(u)
  {
    CardsKept(t, c, d, now);
    OrderedKept(t, c, d, now);
  }

  lemma StoreKeepsClaims(t: Tables, c: CardId, d: Delta, now: Time)
    requires RowsInv(t) && Admissible(t, c, d)
    ensures var u := Store(t, c, d, now);
      && KeysOk(u) && Exclusive(u.reservations) && ClaimsApart(u.open, u.closed, u.bindings)
      && Minted(u.cards, u.bundles) && BundlesClaimed(u.open, u.closed, u.bundles)
  {
    KeysPart(t, c, d, now);
    ReservationsPart(t, c, d, now);
    ClaimsPart(t, c, d, now);
    OpenCard(t, c);
    BundlesPart(t, c, d, now);
  }

  lemma KeysPart(t: Tables, c: CardId, d: Delta, now: Time)
    requires KeysOk(t)
    ensures KeysOk(Store(t, c, d, now))
  {
  }

  lemma ApplyKeepsLogs(t: Tables, c: CardId, d: Delta, now: Time)
    requires LogsInv(t) && (d.event.None? ==> c in t.cards)
    requires HistoryOk(c, d.card, NextLog(t, c, d, now))
    ensures LogsInv(Apply(t, c, d, now))
  {
    HistoriesPart(t, c, d, now);
    OutboxPart(t, c, d, now);
  }

  lemma ApplySameRows(t: Tables, c: CardId, d: Delta, now: Time)
    ensures SameRows(Store(t, c, d, now), Apply(t, c, d, now))
  {
  }

  lemma ApplyKeepsRows(t: Tables, c: CardId, d: Delta, now: Time)
    requires RowsInv(t) && Admissible(t, c, d) && ViewOk(c, NextView(t, c, d))
    ensures RowsInv(Apply(t, c, d, now))
  {
    StoreKeepsRows(t, c, d, now);
    ApplySameRows(t, c, d, now);
    SameRowsInv(Store(t, c, d, now), Apply(t, c, d, now));
  }

  lemma ApplyKeeps(t: Tables, c: CardId, d: Delta, now: Time)
    requires Inv(t) && Admissible(t, c, d) && ViewOk(c, NextView(t, c, d))
    requires HistoryOk(c, d.card, NextLog(t, c, d, now))
    ensures Inv(Apply(t, c, d, now))
  {
    ApplyKeepsRows(t, c, d, now);
    ApplyKeepsLogs(t, c, d, now);
  }
}
