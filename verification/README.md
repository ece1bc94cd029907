# Verified models of the Meta-Harness control plane

This project models the stateful cores of Meta-Harness and proves what they promise, over all
inputs, runs and crashes. Each core is given twice: as transition functions on values, about which
the theorems are proved, and as classes and loops in the source's own form, whose methods are
proved to leave exactly the state and reply that those functions specify. `dafny verify
dfyconfig.toml` checks everything.

* **Workplan gateway** (`Paths`, `Records`, `Workplan*`, `Outbox`, `Gateway`). Cards, claims, path
  reservations, worktree bindings, immutable bundles, receipts and the projection outbox under
  fenced, leased claims. `WorkplanInvariant.Inv` is kept by every transaction; the theorems about
  fencing, exclusive file ownership, agreement of the tables, dependency order, review evidence,
  receipt chains and lease expiry follow from it and from what no run takes back.
  `WorkplanAcceptance`, `WorkplanEffects` and `WorkplanTerms` say for each operation exactly when it
  is performed, what it then does field by field, and how long a lease runs.
* **Linear projection** (`Dispatcher*`, `Markers`, `MarkerRendering`, `LinearAdapter`). Leased outbox
  rows become marked comments. Dispatches may die before or after posting, acknowledgements may be
  lost, other comments and gateway transactions interleave with them; no receipt is posted twice,
  a post whose reply was lost is found again, and a tracker that accepts gets every row in reach.
* **Blueprint store** (`Blueprints`, `BlueprintTheorems`, `BlueprintLineage`, `BlueprintEditing`,
  `BlueprintStore.dfy`). Every operation is a list of atomic file actions and a crash keeps a prefix.
  The files are related to a store whose publish is one action; what was written is what the next
  publish freezes.
* **Lineage manager** (`Boundaries`, `Lineages`, `LineageAncestry`, `LineageRecovery`,
  `LineageTheorems`, `LineageRecoveryTheorems`, `LineageEffects`, `LineageManager`). Git is an append-only map from
  commits to parent, tree and changed paths. Live operations and replay of their receipts are shown
  to be one transition system.
* **Section budgets and live context** (`SectionBudgets`, `LiveContext`, `LiveTexts`).
  Largest-remainder allocation, and context assembly as a noninterference property and as a layout
  in which every draft is said.
* **Task executor** (`Execution`, `ExecutionTheorems`, `ExecutionTrace`, `TaskExecutor`). The attempt
  loop for every behaviour of router, workers, verifiers and judge, over a shared budget, and its
  routing, escalations and stop read off the attempts.
* **Policy evolver** (`Policies`, `Evolution`, `EvolutionTheorems`, `EvolutionAcceptance`,
  `PolicyEvolver`). Staged validation, activation and rollback, determined by the history; activation
  is characterised by the candidate's own fields.

## Reading the model

* SHA-256 over canonical JSON and the other content hashes are injective constructors.
* The claims table is split along its partial unique index into open and closed claims; reservations
  and receipts are grouped by card; a card's paths and dependencies are fields of its row.
* The clock is read once per operation and, like generated claim ids, is a parameter. An id that is
  already used gives the integrity error of the primary key.
* Card, claim and outbox times, revisions and tokens are unbounded integers, as in the source.
* Checks that a transaction makes between two writes are made before the first write; the rollback
  makes the two orders equal. `integrate` reads the last submit receipt and transacts in one step.
* Cost, wall time, scores and fractions are reals; rounding is not modelled.

Four promises that a reader might expect do not hold. For each, the exact condition is proved and a
reachable failure is exhibited: a card can be in progress without reservations
(`UnreservedProgressIff`, `UnreservedFromEmpty`); a failed worktree add that precedes a later
receipt makes the log unrecoverable for good (`RecoveryRebuilds`, `GapNeverRecovers`,
`FailedAddLosesTheLog`); a fork that crashed after its first file refuses to be repeated
(`ForkSucceedsIff`, `CrashedForkBlocksItself`, `CrashedForkExample`); the reported cost of a task
leaves out the attempt that its budget stopped (`ReportedCostOmitsTheStoppedAttempt`,
`OmittedCostExample`). Three more surprises are stated as they are: a pending revalidation survives
requeue and a new claim, an issue that outgrew the comment scan never receives its comment, and the
root policy can never be restored by rollback.

## Model

| member | source | states |
|---|---|---|
| Paths.OverlapsIffSharedFile | development/remote_workplan/gateway.py:108-109 | two normalized paths overlap if and only if some file lies under both, so the string test is exactly shared file ownership |
| Paths.NormalizeAcceptsCanonical | development/remote_workplan/gateway.py:90-105 | a path is accepted if and only if it is repository-relative without traversal; the accepted form is canonical, is accepted again unchanged, and the checks after normalization never fire |
| WorkplanSteps.CommandKeeps | development/remote_workplan/gateway.py:345-827 | every transaction on a card, by any actor at any time, keeps the whole store invariant |
| WorkplanRuns.RunKeeps | development/remote_workplan/gateway.py:345-862 | so does every run of card, webhook, outbox and backend transactions in any interleaving |
| WorkplanLease.PerformIsRun | development/remote_workplan/gateway.py:410-425 | an operation commits at most one transaction, the separate expiry transaction included |
| WorkplanLease.TurnsAreRun | development/remote_workplan/gateway.py:410-425 | any interleaving of operations with webhook, outbox and backend transactions is a run of the transactions that they commit, so everything proved of runs holds of operations |
| WorkplanLease.FailureChangesNothing | development/remote_workplan/store.py:229-240 | an operation that fails leaves the tables alone, except that a fenced one on an expired claim may have raised attention |
| WorkplanTheorems.FilesHaveOneCard | development/remote_workplan/gateway.py:373-377 | in every reachable state no file lies under reserved paths of two cards |
| WorkplanTheorems.ReservationsAllOrNone | development/remote_workplan/gateway.py:552-561 | a card reserves all of its paths or none: all when ready or claimed, none in backlog, done or cancelled |
| WorkplanTheorems.TablesAgree | development/remote_workplan/gateway.py:239-277 | active status, open claim, card owner, tokens of claim, card, reservations and binding, and the stored bundle agree in every reachable state |
| WorkplanTheorems.ClaimSucceedsIff | development/remote_workplan/gateway.py:485-529 | exactly when a claim succeeds; its dependency, conflict and lost-reservation errors are unreachable, and its integrity error means a reused claim id |
| WorkplanTheorems.OwnerErrors | development/remote_workplan/gateway.py:266-277 | an owner operation never meets an invalid claim bundle |
| WorkplanTheorems.CoordinatorErrors | development/remote_workplan/gateway.py:629-648 | a coordinator decision never meets an invalid bundle, self approval or a missing integration receipt |
| WorkplanTheorems.ProgressMatchesBinding | development/remote_workplan/gateway.py:454-483 | a checkpoint or submission succeeds only from the bound worktree, whose repository, branch and base are those of the frozen definition, with evidence that the head descends from that base |
| WorkplanTheorems.ReviewBeforeAcceptance | development/remote_workplan/gateway.py:670-685 | a verifying or done card was last integrated after its last submission, at the submitted head, whatever detours it took |
| WorkplanTheorems.LedgerCountsRevisions | development/remote_workplan/gateway.py:279-312 | a card has one receipt per revision, gap-free from 0, each naming its predecessor hash |
| WorkplanTheorems.HeadDeterminesChain | development/remote_workplan/gateway.py:285-301 | two valid receipt chains with the same head hash are the same chain of the same card |
| WorkplanTheorems.ReceiptsAreUniqueAndAnnounced | development/remote_workplan/gateway.py:302-312 | receipt hashes never collide across cards or revisions and each receipt has exactly one outbox row |
| WorkplanTheorems.DependenciesDoneInOrder | development/remote_workplan/gateway.py:507-510 | over any run the done cards admit an order in which each follows all its dependencies, and later runs only extend it |
| WorkplanTheorems.DoneCardsAcyclic | development/remote_workplan/gateway.py:368-372 | following dependencies from a done card meets done cards only and never returns to it |
| WorkplanTheorems.DependenciesPrecedeWork | development/remote_workplan/gateway.py:368-372 | ready, active and done cards have all dependencies done, and these stay done for ever |
| WorkplanGrowth.MintKeyFresh | development/remote_workplan/store.py:110-121 | the bundle table never sees a repeated key, so its primary key and immutability triggers have nothing to reject |
| WorkplanGrowth.RunGrows | development/remote_workplan/store.py:118-139 | over any run generations never fall, done is absorbing, ledgers only extend and bundles never change |
| WorkplanFencing.SuccessNeedsFence | development/remote_workplan/gateway.py:427-447 | an owner, integrate or accept transaction succeeds only under the current token of the open claim, by its owner, with the bundle intact |
| WorkplanFencing.DeadTokenNeverSucceeds | development/remote_workplan/gateway.py:427-447 | a dead token never again lets anybody act on the card, whatever run follows |
| WorkplanFencing.EndingKills | development/remote_workplan/gateway.py:649-755 | closing, reassigning or revalidating kills every token that the card had reached |
| WorkplanFencing.FencedForEver | development/remote_workplan/gateway.py:629-755 | after a close, reassignment or revalidation no owner, integrate or accept call under an earlier token ever succeeds |
| WorkplanFencing.OneOwnerPerToken | development/remote_workplan/gateway.py:512-516 | two owner operations that succeed under the same token of a card, however far apart in a run, have the same actor and claim |
| WorkplanLease.ExpiredRefuses | development/remote_workplan/gateway.py:410-425 | no fenced operation gets past an expired lease |
| WorkplanLease.ExpiredForEver | development/remote_workplan/gateway.py:410-425 | until an ownership transfer, and whatever operations and webhook, outbox or backend transactions interleave, an expired claim keeps its owner and expiry, and its token unless revalidated; all attempts add at most one lease_expired receipt |
| WorkplanLease.ExpiredNeverActs | development/remote_workplan/gateway.py:531-606 | so with a non-decreasing clock an expired claim never heartbeats, progresses, integrates or is accepted again |
| WorkplanLease.PerformKeeps | development/remote_workplan/gateway.py:410-425 | every whole operation keeps the store invariant |
| WorkplanTraps.UnreservedProgressIff | development/remote_workplan/gateway.py:576-593 | a card enters progress without reservations exactly when a worktree is first bound while the card is blocked with its paths released |
| WorkplanTraps.BlockThenBindLosesReservations | development/remote_workplan/gateway.py:560-593 | every claimed, unbound, unfrozen card whose lease runs and whose frozen identifiers are free of white space is led there by its owner's releasing block and binding, two operations that both succeed |
| WorkplanTraps.UnreservedFromEmpty | development/remote_workplan/gateway.py:345-595 | and it happens: on an empty store qualify, claim, releasing block and bind all succeed and leave a card in progress without reservations |
| WorkplanTraps.FrozenClaimCannotAct | development/remote_workplan/gateway.py:436-437 | after any run without a revalidation of the frozen card, no owner operation on it succeeds, whoever claimed it in between |
| WorkplanTraps.RevalidationSurvives | development/remote_workplan/gateway.py:519-745 | a pending revalidation survives every run of transactions of any kind, requeues and new claims included, in which no revalidation of the card is attempted |
| WorkplanTraps.CommandKeepsFrozen | development/remote_workplan/gateway.py:729-755 | a transaction on the card lifts the freeze if and only if it is a revalidation that succeeds |
| WorkplanAcceptance.QualifyIff | development/remote_workplan/gateway.py:345-408 | a qualification is performed exactly by a coordinator who presents well-formed paths and definition, ready only with done dependencies and free paths, for a new card or, at its revision, one in backlog or ready |
| WorkplanAcceptance.ClaimIff | development/remote_workplan/gateway.py:485-529 | a claim is performed exactly on a ready card at the presented revision and definition, for a worker of an allowed namespace who holds nothing, a positive lease and an unused claim id |
| WorkplanAcceptance.ProgressIff | development/remote_workplan/gateway.py:531-565 | a checkpoint, block, resume or submission is performed exactly for the unexpired holder at the revision of an unfrozen card whose status and evidence fit the step |
| WorkplanAcceptance.BindIff | development/remote_workplan/gateway.py:567-595 | a binding is performed exactly for the unexpired holder at the revision of an unfrozen card, with the frozen worktree, repository, branch and base, unless another binding is in place |
| WorkplanAcceptance.HeartbeatIff | development/remote_workplan/gateway.py:597-606 | a heartbeat is performed exactly for the unexpired holder of an unfrozen card and a positive lease |
| WorkplanAcceptance.DecisionIff | development/remote_workplan/gateway.py:629-693 | integrate, accept, cancel and requeue are performed exactly for a coordinator at the card's revision when token, lease, status, evidence and submitted head fit the decision |
| WorkplanAcceptance.ReassignIff | development/remote_workplan/gateway.py:695-727 | a reassignment is performed exactly by a coordinator at the revision of a claimed card, to an allowed worker who holds nothing, for a positive lease and an unused claim id, while nobody took a path |
| WorkplanAcceptance.RevalidateIff | development/remote_workplan/gateway.py:729-755 | a revalidation is performed exactly by a coordinator at the card's revision with a valid definition that still allows the holder |
| WorkplanEffects.QualifyEffect | development/remote_workplan/gateway.py:380-408 | a performed qualification writes the presented definition, keeps what it does not present, reserves every path when ready, adds one receipt and touches no other card |
| WorkplanEffects.ClaimEffect | development/remote_workplan/gateway.py:512-529 | a performed claim gives the card, all its paths and the claim to its actor under the next token |
| WorkplanEffects.ProgressEffect | development/remote_workplan/gateway.py:544-565 | a performed owner step moves the status as its name says, keeps claim and owner, and keeps, releases or retakes the paths |
| WorkplanEffects.BindEffect | development/remote_workplan/gateway.py:576-595 | a performed binding repeats the one in place and changes nothing, or is the first and puts the card in progress |
| WorkplanEffects.DecisionEffect | development/remote_workplan/gateway.py:649-693 | integration records merger and commit; acceptance, cancellation and requeue close the claim with their reason, and only a requeue keeps the paths, for nobody |
| WorkplanEffects.ReassignEffect | development/remote_workplan/gateway.py:705-727 | a performed reassignment closes the claim and opens one of the new owner under the next token, with all paths |
| WorkplanEffects.RevalidateEffect | development/remote_workplan/gateway.py:735-755 | a performed revalidation freezes the new definition, lifts the freeze and moves an open claim, its paths and the card to the next token |
| WorkplanEffects.BindingsStay | development/remote_workplan/gateway.py:585-745 | only a binding adds a binding, and only a revalidation touches one: it moves the open claim's to the new token and keeps what it binds |
| WorkplanEffects.DeliveryEffect | development/remote_workplan/gateway.py:813-827 | a new delivery is recorded and freezes the named card on a protected change if it is claimed and not frozen yet; a known delivery changes nothing |
| WorkplanTerms.HeartbeatRenewsTerm | development/remote_workplan/gateway.py:597-606 | a performed heartbeat keeps the claim's id, owner and token and moves its end to its own clock plus its seconds |
| WorkplanTerms.TermStands | development/remote_workplan/gateway.py:410-606 | no run of turns without a heartbeat, a reassignment or an ending of the claim moves the end of its lease |
| WorkplanTerms.HeartbeatHolds | development/remote_workplan/gateway.py:410-425 | so after a heartbeat and any such turns, a fenced call whose arguments are accepted is told that the lease expired if and only if its clock has reached that end |
| WorkplanTerms.ClaimHolds | development/remote_workplan/gateway.py:512-529 | the same after a claim |
| WorkplanTerms.ReassignHolds | development/remote_workplan/gateway.py:705-727 | the same for the new owner after a reassignment |
| Gateway.WorkplanGateway.ExpiryPreflight | development/remote_workplan/gateway.py:410-425 | the expiry transaction raises attention and its receipt at most once, reports expiry, and otherwise changes nothing |
| Gateway.WorkplanGateway.QualifyCard | development/remote_workplan/gateway.py:345-408 | qualify leaves exactly the tables and reply of the specified operation |
| Gateway.WorkplanGateway.TakeClaimOn | development/remote_workplan/gateway.py:485-529 | claim leaves exactly the specified tables and reply |
| Gateway.WorkplanGateway.TransitionOwner | development/remote_workplan/gateway.py:531-565 | checkpoint, block, resume and submit leave exactly the specified tables and reply, a preflight commit before a failure included |
| Gateway.WorkplanGateway.BindWorktree | development/remote_workplan/gateway.py:567-595 | bind leaves exactly the specified tables and reply; an equal rebinding changes nothing |
| Gateway.WorkplanGateway.HeartbeatClaim | development/remote_workplan/gateway.py:597-606 | heartbeat leaves exactly the tables and reply of the operation that `WorkplanAcceptance.HeartbeatIff` and `WorkplanTerms.HeartbeatRenewsTerm` describe field by field |
| Gateway.WorkplanGateway.TransitionCoordinator | development/remote_workplan/gateway.py:629-693 | integrate, accept, cancel and requeue leave exactly the specified tables and reply |
| Gateway.WorkplanGateway.ReassignCard | development/remote_workplan/gateway.py:695-727 | reassign leaves exactly the specified tables and reply |
| Gateway.WorkplanGateway.RevalidateDefinition | development/remote_workplan/gateway.py:729-755 | revalidate leaves exactly the specified tables and reply |
| Gateway.WorkplanGateway.RecordWebhook | development/remote_workplan/gateway.py:813-827 | a delivery is recorded once, freezes the named card on a protected change, and reports insertion and reordering |
| Gateway.WorkplanGateway.ClaimOutbox | development/remote_workplan/gateway.py:834-844 | lease expiry is reclaimed, then the first pending rows are granted under fresh attempt numbers |
| Gateway.WorkplanGateway.FindConflict | development/remote_workplan/gateway.py:373-377 | the nested loops find a conflict if and only if some path overlaps another card's reservation |
| Gateway.WorkplanGateway.FindUnmet | development/remote_workplan/gateway.py:368-372 | the loop reports whether some dependency is missing or not done |
| Outbox.SettleSettles | development/remote_workplan/gateway.py:834-862 | leasing and marking never change a key or payload, never lower an attempt number and never touch a sent row |
| Outbox.GrantedHold | development/remote_workplan/gateway.py:839-844 | every granted item names a row that is now dispatching under exactly its attempt number |
| Outbox.GrantedOnce | development/remote_workplan/gateway.py:839-844 | at most the limit is granted, in row order, no row twice |
| Outbox.LeaseGrantsIff | development/remote_workplan/gateway.py:834-844 | a lease hands out exactly the first rows, up to its limit, that are pending or whose earlier lease ran out, under their next attempt number; the other run-out leases are pending again and no other row changes |
| Outbox.GrantRows | development/remote_workplan/gateway.py:839-844 | the granting loop computes the specified rows and items |
| Markers.MarkerNamesKey | development/remote_workplan/linear.py:462-469 | a projected body shows a marker exactly where its own marker's text shows it; for a key without angle brackets, if and only if it was written for the sought key, character by character |
| MarkerRendering.MarkerKeyInjective | development/remote_workplan/linear.py:455-463 | receipts and repairs never share a marker key, and no two rows of a kind do |
| MarkerRendering.TrackerScan | development/remote_workplan/linear.py:387-409 | after any history, the scan that any row makes over the comment texts of its issue is the abstract scan: comment by comment, the text shows the row's marker if and only if the comment was written for that row, whatever the issue id looks like |
| DispatcherTheorems.RepairNamesSubject | development/remote_workplan/linear.py:762-764 | a repair's key names its own subject, followed by a revision and a version that hold no bracket and one colon |
| Markers.MarkerAfterPrefix | development/remote_workplan/linear.py:463-469 | among keys with a common start, however that start looks, only the same key's marker is shown |
| Dispatcher.HasCommentMarker | development/remote_workplan/linear.py:387-409 | the paged scan reports found, absent or too long exactly as the newest pages it may read determine |
| DispatcherTheorems.HistoryKeeps | development/remote_workplan/linear.py:652-695 | every history of dispatches, crashes, lost acknowledgements, other comments and gateway transactions keeps the projection invariant |
| DispatcherTheorems.MarkersAreUnique | development/remote_workplan/linear.py:459-478 | no two comments of the whole tracker ever carry the same marker |
| DispatcherTheorems.ReceiptProjectedOnce | development/remote_workplan/linear.py:652-695 | each receipt has one outbox row, is projected at most once, only to its own card with its own revision, and has been projected when the row is sent |
| DispatcherTheorems.UnsafeNeverSent | development/remote_workplan/linear.py:500-528 | a backend switch, or an activity with a non-public card or actor, is never sent |
| DispatcherTheorems.SentForEver | development/remote_workplan/gateway.py:846-862 | over any history rows keep key and payload, attempts never fall and sent is terminal |
| DispatcherTheorems.SupersededChangesNothing | development/remote_workplan/gateway.py:846-862 | a dispatcher holding a superseded attempt number can never settle the row |
| DispatcherRetries.LostReplyIsRecovered | development/remote_workplan/linear.py:459-478 | after a post whose reply was lost to a crash or a missing acknowledgement, whatever happens in between, the next delivery of the row's later lease posts nothing and sends the row, provided the issue gained fewer comments than the scan reads |
| DispatcherRetries.FlightKeeps | development/remote_workplan/gateway.py:834-844 | over any history every queued item still holds its row under the attempt it was leased with, and no row is queued twice |
| DispatcherRetries.HistoryOnlyAdds | development/remote_workplan/linear.py:466-478 | no history changes or removes a comment |
| DispatcherDelivery.NextRowIsDelivered | development/remote_workplan/linear.py:459-478 | after any history, delivering the next leased row with an issue in reach of the scan to a tracker that accepts leaves exactly one more comment with its marker on its issue, unless it shows one already, and the row sent |
| DispatcherDelivery.DispatchDelivers | development/remote_workplan/linear.py:652-695 | after any history, what a dispatch leases is all sent and shown on its issues when the tracker accepts everything and no issue outgrows the scan |
| DispatcherDelivery.UnheardDelivery | development/remote_workplan/linear.py:680-689 | a comment that the tracker took without acknowledging is on its issue and the row is pending again |
| DispatcherDelivery.RefusedDelivery | development/remote_workplan/linear.py:667-679 | a tracker that refuses the scan or the post keeps its comments, and the row is pending again with the tracker's word on attention |
| DispatcherDelivery.BlockedDelivery | development/remote_workplan/linear.py:404-409 | a row that must not leave, or whose issue is beyond the scan, is pending again and needs attention |
| DispatcherDelivery.ProjectedIff | development/remote_workplan/linear.py:500-528 | of the rows that the gateway and the reconciler write, exactly the activities of public cards by public actors and the repairs are projected, each to its subject under its own key |
| DispatcherTheorems.OutgrownNeverSent | development/remote_workplan/linear.py:404-409 | once an issue has outgrown the scan bound without showing the row's marker, no history of scans within that bound ever sends the row |
| LinearAdapter.LinearProjectionAdapter.ProjectLeased | development/remote_workplan/linear.py:459-478 | validate, scan and post leave exactly the comments and outcome that the theorems of `DispatcherDelivery` describe |
| LinearAdapter.LinearProjectionAdapter.Dispatch | development/remote_workplan/linear.py:652-695 | a dispatch, crashed anywhere, is exactly the specified happenings; an uncrashed one reports how many leased rows are sent, pending and in need of attention, and every leased row is sent when all are in reach and accepted |
| BlueprintTheorems.CompleteStep | src/metaharness/blueprints/store.py:575-632 | each step of completing an intent is possible, changes nothing that the files stand for, and leaves the rest of the same plan |
| BlueprintTheorems.PublishCommitsAtIntent | src/metaharness/blueprints/store.py:530-632 | creating the intent is the whole publish, every later action is a stutter, a refusal writes nothing and no reconciliation error can occur |
| BlueprintTheorems.RetryCompletes | src/metaharness/blueprints/store.py:546-573 | retrying an interrupted publish with its revision, unless archived, ends in the state of one uninterrupted publish |
| BlueprintTheorems.RetryAfterCompletion | src/metaharness/blueprints/store.py:555-560 | retrying a finished publish finds no draft and changes nothing |
| BlueprintTheorems.RunDiskOk | src/metaharness/blueprints/store.py:317-632 | every operation, cut after any file action, keeps every shelf consistent |
| BlueprintTheorems.RefinesAtomicStore | src/metaharness/blueprints/store.py:530-632 | every run, crashed anywhere, is state by state a run of the same operations over a store whose publish is one action; an operation that the crash budget covers is uncut and answered alike there unless a publish is pending, what succeeds here succeeded there, what fails changes neither store, and only a crashed publish may be done there |
| BlueprintTheorems.VersionsAreImmutable | src/metaharness/blueprints/store.py:227-252 | no version is ever changed, removed or reused, through crashes, deletion and recreation; the version numbers are exactly 1..latest, with latest+1 only as the target of a pending intent |
| BlueprintTheorems.PendingSurvives | src/metaharness/blueprints/store.py:530-632 | no operation other than the retry itself moves a pending publish or changes the version it will end in |
| BlueprintTheorems.InterruptedPublishIsNeverLost | src/metaharness/blueprints/store.py:530-632 | over any run a committed publish ends in its version |
| BlueprintLineage.SourceChainsEnd | src/metaharness/blueprints/store.py:677-699 | following source references from any published version ends, dangles nowhere and never returns |
| BlueprintLineage.RunLineage | src/metaharness/blueprints/store.py:384-503 | over any run published versions stay in an order in which every source precedes its forks |
| BlueprintLineage.ForkSucceedsIff | src/metaharness/blueprints/store.py:415-427 | a fork goes through exactly when its source exists and its target has no catalog |
| BlueprintLineage.CrashedForkBlocksItself | src/metaharness/blueprints/store.py:422-444 | a fork that dies after its first file blocks every fork of its target through any run of operations and crashes that does not delete the target; deleting it at once restores the shelf |
| BlueprintLineage.CrashedForkExample | src/metaharness/blueprints/store.py:422-444 | and it happens: create, publish, and a fork that dies after its first file; the same fork is refused as already existing |
| BlueprintLineage.CatalogBlocksForks | src/metaharness/blueprints/store.py:677-699 | so does any existing catalog file, and the refused fork writes nothing |
| BlueprintLineage.ArchiveRefusedIff | src/metaharness/blueprints/store.py:326-334 | an archive is refused exactly when the catalog shows no version; spuriously so exactly while a first publish is committed but incomplete |
| BlueprintEditing.CreateWrites | src/metaharness/blueprints/store.py:360-444 | an uninterrupted creation succeeds exactly where there is room and without source lineage, and leaves a first draft with the given name, body, base and owner |
| BlueprintEditing.CreateFromWrites | src/metaharness/blueprints/store.py:446-459 | a draft from a version holds that version's name, body and lineage, exactly when the version exists and there is room |
| BlueprintEditing.ForkWrites | src/metaharness/blueprints/store.py:677-699 | a fork holds the body of its source under its own name if it has one, and names its source |
| BlueprintEditing.UpdateWrites | src/metaharness/blueprints/store.py:467-503 | an update succeeds exactly at the draft's revision while nothing is pending or archived, and then the draft has the given name and body, the old source, base, owner and creation date, and the next revision |
| BlueprintEditing.DeleteRemoves | src/metaharness/blueprints/store.py:505-526 | a deletion removes the draft, and the catalog entry exactly of what was never published |
| BlueprintEditing.PublishFreezes | src/metaharness/blueprints/store.py:530-573 | a publish without pending intent succeeds exactly at the draft's revision, freezes its content under the next number and removes the draft |
| BlueprintEditing.UpdateThenPublish | src/metaharness/blueprints/store.py:467-573 | update, then publish at the next revision, gives a version with the updated name and body and the old source |
| BlueprintEditing.CreateThenPublish | src/metaharness/blueprints/store.py:360-573 | create, then publish, gives a version with the created name and body |
| BlueprintEditing.ForkThenPublish | src/metaharness/blueprints/store.py:530-699 | fork, then publish, gives version 1 with the body of the source, naming it |
| BlueprintEditing.ArchiveMarks | src/metaharness/blueprints/store.py:326-334 | an archive keeps the first date and changes only the catalog entry |
| BlueprintEditing.RenameNames | src/metaharness/blueprints/store.py:317-325 | a rename is refused exactly without an unarchived catalog and changes only the displayed name |
| BlueprintFiles.BlueprintStore.Write | src/metaharness/blueprints/store.py:190-252 | one atomic file action happens unless the process is dead |
| BlueprintFiles.BlueprintStore.Publish | src/metaharness/blueprints/store.py:530-573 | publish leaves exactly the prefix of its plan that the crash budget allows, with the right reply |
| BlueprintFiles.BlueprintStore.CompleteIntent | src/metaharness/blueprints/store.py:575-632 | so does completing an intent |
| BlueprintFiles.BlueprintStore.NewDraft | src/metaharness/blueprints/store.py:384-444 | so does creating a draft, catalog first |
| BlueprintFiles.BlueprintStore.CreateOriginal | src/metaharness/blueprints/store.py:360-382 | create refuses source lineage and otherwise leaves its specified prefix |
| BlueprintFiles.BlueprintStore.CreateDraftFromVersion | src/metaharness/blueprints/store.py:446-459 | so does a draft from a version |
| BlueprintFiles.BlueprintStore.ForkDraft | src/metaharness/blueprints/store.py:677-699 | so does a fork |
| BlueprintFiles.BlueprintStore.UpdateDraft | src/metaharness/blueprints/store.py:467-503 | so does an update; what that is, is `BlueprintEditing.UpdateWrites` |
| BlueprintFiles.BlueprintStore.DeleteDraft | src/metaharness/blueprints/store.py:505-526 | so does a deletion, draft before unpublished catalog |
| BlueprintFiles.BlueprintStore.EditCatalog | src/metaharness/blueprints/store.py:317-344 | so do rename, archive and restore |
| Boundaries.NarrowerInside | src/metaharness/discovery/lineage.py:143-182 | a path inside a boundary that passed the containment test lies inside the wider boundary |
| Boundaries.NarrowerTransitive | src/metaharness/discovery/lineage.py:175-183 | boundary containment composes along a parent chain |
| LineageAncestry.ReplayKeepsAncestry | src/metaharness/discovery/lineage.py:624-799 | replay accepts only receipts that keep exact ancestry, narrowing boundaries and unambiguous names |
| LineageAncestry.BoundariesOnlyNarrow | src/metaharness/discovery/lineage.py:661-690 | along any parent chain boundaries only narrow and the youngest head reaches the oldest baseline by exact parent steps |
| LineageAncestry.DescendantsStayInside | src/metaharness/discovery/lineage.py:184-211 | below a restricted ancestor every descendant is restricted and inside it |
| LineageAncestry.FreshNamesAreFree | src/metaharness/discovery/lineage.py:279-282 | the branch and worktree collision guards are unreachable for a new lineage id |
| LineageTheorems.CreateReplays | src/metaharness/discovery/lineage.py:312-348 | what create does to its registry is what replay does with its receipt |
| LineageTheorems.CommitReplays | src/metaharness/discovery/lineage.py:442-460 | what a commit does to its registry is what replay does with its receipt |
| LineageTheorems.NamesNeverRefuse | src/metaharness/discovery/lineage.py:279-282 | no live creation is refused for its branch or worktree name |
| LineageTheorems.LivesKeep | src/metaharness/discovery/lineage.py:235-622 | any life of a manager, with failed operations, disturbed worktrees and restarts, keeps replay equal to the live registry |
| LineageTheorems.ReplayRebuildsLife | src/metaharness/discovery/lineage.py:543-622 | replaying a life's receipts rebuilds every head, tree, sequence, boundary and quarantine |
| LineageTheorems.RecoveryRebuilds | src/metaharness/discovery/lineage.py:543-622 | a fresh manager recovers a life's log exactly when no failed worktree add precedes a later receipt, and then no other error is reachable |
| LineageTheorems.NoFailuresNoGaps | src/metaharness/discovery/lineage.py:312-330 | a life in which every worktree add succeeds can always be recovered |
| LineageTheorems.GapNeverRecovers | src/metaharness/discovery/lineage.py:312-330 | a gap left by a failed add is permanent: no later recovery ever succeeds |
| LineageTheorems.FailedAddLosesTheLog | src/metaharness/discovery/lineage.py:310-330 | and it happens: in any world that has the baseline, one failed and one successful creation leave a log that nothing done later makes recoverable |
| LineageRecoveryTheorems.UndisturbedRecovery | src/metaharness/discovery/lineage.py:604-611 | with untouched worktrees recovery quarantines nothing and rebuilds the live registry, exactly unless a failed add precedes a receipt; failed adds behind the log give their numbers back |
| LineageRecoveryTheorems.SecondRecoveryAddsNothing | src/metaharness/discovery/lineage.py:543-622 | recovering an accepted log with its own quarantine receipts gives the same registry and adds nothing |
| LineageRecoveryTheorems.RecoveryIgnoresOrder | src/metaharness/discovery/lineage.py:569-580 | the order in which receipts are handed in does not matter |
| LineageRecoveryTheorems.AcceptedLogsAreSound | src/metaharness/discovery/lineage.py:624-799 | every log that recovery accepts, whoever wrote it, satisfies the ancestry invariant |
| LineageRecoveryTheorems.RecoveredAreConfirmed | src/metaharness/discovery/lineage.py:801-857 | after any recovery, whatever the log and the worktrees, a lineage that is not quarantined has a registered worktree inside the root, clean, on its branch, at its recorded head |
| LineageRecoveryTheorems.SweepConfirms | src/metaharness/discovery/lineage.py:604-611 | a lineage that the sweep leaves trusted is confirmed, unchanged, and shares its real path with no other trusted lineage |
| LineageRecoveryTheorems.CommitsStayInside | src/metaharness/discovery/lineage.py:152-173 | a lineage's own commits change nothing outside the boundary of any of its ancestors |
| LineageEffects.CreateSucceedsIff | src/metaharness/discovery/lineage.py:235-330 | in any life of a manager a creation succeeds exactly for a fresh id with a known baseline or a trusted parent of its campaign, a well-formed boundary no wider than the parent's, and a worktree that git adds |
| LineageEffects.CreateStarts | src/metaharness/discovery/lineage.py:250-348 | the new lineage starts at the baseline or the parent's head, with the boundary requested or inherited, in a clean worktree on its own branch; nothing else changes |
| LineageEffects.CommitSucceedsIff | src/metaharness/discovery/lineage.py:362-460 | a commit succeeds exactly for a trusted lineage whose worktree stands at its head with nothing outside the boundary modified or staged, when git leaves it clean |
| LineageEffects.CommitAdvancesTo | src/metaharness/discovery/lineage.py:405-460 | the commit is a child of the old head; worktree and lineage move to it, the lineage only when the worktree is clean |
| LineageEffects.RecoveryTrustsIff | src/metaharness/discovery/lineage.py:801-857 | after any accepted recovery exactly those lineages are trusted that the log left trusted, whose worktree is positively theirs, and whose real path no trusted lineage of a smaller id occupies |
| LineageEffects.LaterReceiptIff | src/metaharness/discovery/lineage.py:716-799 | replay applies a later receipt exactly when it keeps the lineage's identity and, for a commit, follows its head; it moves that lineage only |
| LineageManager.LineageWorkspaceManager.CreateLineage | src/metaharness/discovery/lineage.py:235-348 | create leaves exactly the specified manager, world and reply, the spent sequence number of a failed add included |
| LineageManager.LineageWorkspaceManager.CommitLineage | src/metaharness/discovery/lineage.py:362-460 | checkpoint and commit_child leave exactly the specified manager, world and reply |
| LineageManager.LineageWorkspaceManager.ResolveChildBoundary | src/metaharness/discovery/lineage.py:184-211 | the loop inherits or narrows the parent boundary exactly as specified |
| LineageManager.LineageWorkspaceManager.CheckOrder | src/metaharness/discovery/lineage.py:569-580 | the scan reports the first duplicate sequence or id, else a gap |
| LineageManager.LineageWorkspaceManager.ReplayLog | src/metaharness/discovery/lineage.py:601-602 | the replay loop stops at the first refused receipt, keeping what was applied |
| LineageManager.LineageWorkspaceManager.SweepWorktrees | src/metaharness/discovery/lineage.py:604-611 | the anomaly loop quarantines exactly the specified lineages with consecutive receipts |
| LineageManager.LineageWorkspaceManager.RecoverLog | src/metaharness/discovery/lineage.py:543-622 | recover leaves exactly the specified manager and reply, poisoned when replay fails midway |
| SectionBudgets.ApportionmentIsUnique | src/metaharness/context/assembly.py:86-108 | the largest-remainder rule determines the allocation: any two that satisfy it are equal |
| SectionBudgets.LeftoverFits | src/metaharness/context/assembly.py:101-106 | the leftover never exceeds the number of non-zero remainders, so extras go to non-zero remainders only |
| SectionBudgets.AllocateSectionBudgets | src/metaharness/context/assembly.py:86-108 | for any section list, tier and budget the allocation sums to the budget, is each quota or one more, and favours larger remainders, earlier first |
| SectionBudgets.ArrangeIndices | src/metaharness/context/assembly.py:102-105 | the indices are arranged by decreasing remainder, then by position, each once |
| LiveContext.EnforceTrust | src/metaharness/context/live.py:248-293 | the trust loop reports the first violation in source order |
| LiveContext.AcceptedDrafts | src/metaharness/context/live.py:248-293 | accepted drafts have distinct ids and only instruction-trust drafts sit in instruction slots or speak as the system |
| LiveContext.GroupingIsMaximal | src/metaharness/context/live.py:183-195 | grouping flattens back to the rendered items in order and no two neighbouring groups could be merged |
| LiveContext.MaximalGroupingIsUnique | src/metaharness/context/live.py:183-195 | any maximal grouping of the items is this one |
| LiveContext.GroupMessages | src/metaharness/context/live.py:183-195 | the loop computes the specified grouping |
| LiveContext.AssembleLive | src/metaharness/context/live.py:212-462 | assembly returns exactly the first violation or the specified surfaces, with the apportioned section budgets |
| LiveContext.Noninterference | src/metaharness/context/live.py:309-427 | drafts that differ anywhere outside instructions yield the same system messages and system prompt when both assemble |
| LiveContext.LiveNoninterference | src/metaharness/context/live.py:212-462 | the same for whole assemblies, each with the budgets of its own sections |
| LiveTexts.EveryDraftIsSaid | src/metaharness/context/live.py:183-427 | a successful assembly says every draft: its redacted text, as its share of the budget shows it, stands once, in order and under its role in the messages, plain neighbours of a role in one message, and once in the flat or the system prompt |
| Execution.Budget.Charge | src/metaharness/core/budget.py:36-40 | a charge always counts and reports truthfully whether a cap is passed |
| ExecutionTheorems.VerifyMoney | src/metaharness/core/executor.py:327-465 | an attempt stops exactly at the charge that passes a cap; a malfunctioning worker keeps exactly its own failure, budget stop or not, and only its own spend is charged |
| ExecutionTheorems.EveryExecution | src/metaharness/core/executor.py:199-604 | every execution, for every behaviour of router, worker and verifiers, ends in a state satisfying the loop invariant |
| ExecutionTheorems.EscalationsAreBounded | src/metaharness/core/executor.py:552-595 | escalations equal the excluded tiers and are at most two; a pinned worker excludes none |
| ExecutionTheorems.TimeoutsAreRetriedOnce | src/metaharness/core/executor.py:552-585 | unless the worker is pinned, a tier with a way up times out at most twice and its first timeout is retried on that very tier; a pinned worker is bounded by the task's attempts only |
| ExecutionTheorems.VerdictIsTheLastAttempts | src/metaharness/core/executor.py:600-604 | all attempts but the last failed, the verdict is the last attempt's, and no attempt at all means failure |
| ExecutionTheorems.CapsAreOvershotByOneCharge | src/metaharness/core/executor.py:356-459 | starting within the caps, only the last charge can pass them |
| ExecutionTheorems.ReportedCostOmitsTheStoppedAttempt | src/metaharness/core/executor.py:365-497 | the reported cost is the sum over attempts without exactly the one that the budget stopped |
| ExecutionTheorems.StoppedAtOnce | src/metaharness/core/executor.py:365-381 | a first attempt whose charge passes a cap ends the task with that one attempt, charged but reported as cost 0 |
| ExecutionTheorems.OmittedCostExample | src/metaharness/core/executor.py:365-381 | and it happens: a task capped at 1 runs an attempt for 2 and reports 0 |
| ExecutionTrace.EveryAttemptIsRouted | src/metaharness/core/executor.py:199-320 | every attempt was routed with exactly the tiers forbidden that earlier attempts barred, or all but one for the retry of a first timeout, was authorized, and is graded on its own work |
| ExecutionTrace.EscalationsAreExact | src/metaharness/core/executor.py:552-595 | the escalations are exactly the attempts of an unpinned task, a budget stop aside, that failed on a tier with a way up, unexplored without a timeout or at a repeated timeout, and the excluded tiers are theirs |
| ExecutionTrace.BarredTiersStayBarred | src/metaharness/core/executor.py:552-595 | no later attempt is on the tier of such an attempt |
| ExecutionTrace.StopsForAReason | src/metaharness/core/executor.py:515-604 | the loop goes on after an attempt if and only if it failed within the budget and not by the worker's contract, the scores have not levelled off, an attempt is left, and the next is routed and authorized |
| ExecutionTrace.GradeMeans | src/metaharness/core/executor.py:320-465 | what grades an attempt: forgery, a worker error, the budget, the executed artifact, the checks, or the judge where nothing else decides |
| TaskExecutor.VerifyAttempt | src/metaharness/core/executor.py:320-465 | verification, charge, execution and judge compute the specified finding and budget |
| TaskExecutor.HasPlateaued | src/metaharness/core/budget.py:86-92 | the plateau test compares the best of the window with the score before it |
| TaskExecutor.Execute | src/metaharness/core/executor.py:199-604 | the loop computes exactly the outcome that the theorems of `ExecutionTheorems` and `ExecutionTrace` are about, and leaves its budget |
| Policies.ChangesAddUp | src/metaharness/discovery/policy.py:274-282 | field changes between policies obey the triangle inequality |
| Policies.ValidatePolicy | src/metaharness/discovery/policy.py:571-642 | the stages leave exactly the receipts that `EvolutionAcceptance.ValidationFollowsStages` describes |
| Policies.FailedStage | src/metaharness/discovery/evolution.py:484-513 | the loop finds a fault if and only if the receipts are not four ordered PASSED ones, at the first gap |
| Policies.OwnReceiptsFailHonestly | src/metaharness/discovery/evolution.py:484-513 | on the validator's own receipts the stage found is the stage that failed; mismatch branches never fire |
| EvolutionAcceptance.ChangedIsDiffering | src/metaharness/discovery/policy.py:274-282 | the number of changed fields is the number of top-level positions in which two policies differ, and no field escapes (`FieldsDetermine`) |
| EvolutionAcceptance.ValidationFollowsStages | src/metaharness/discovery/policy.py:571-642 | validation writes one receipt per stage in order, PASSED exactly where the stage's condition on the snapshot's fields holds, and stops after the first that fails |
| EvolutionTheorems.HistoryDeterminesController | src/metaharness/discovery/evolution.py:528-677 | replaying the history rows gives the active policy, the activation receipts and the known snapshots |
| EvolutionTheorems.RejectionsOnlyRecord | src/metaharness/discovery/evolution.py:549-562 | a rejection changes nothing but the history |
| EvolutionTheorems.WalkNeverFails | src/metaharness/discovery/evolution.py:618-634 | the ancestor walk ends at the root and its error branches are unreachable |
| EvolutionTheorems.DriftIsBounded | src/metaharness/discovery/policy.py:361-369 | a known policy at depth d differs from the root in at most 3 * d top-level fields |
| EvolutionTheorems.ActivePolicyDrift | src/metaharness/discovery/policy.py:361-369 | so does the active policy after any calls |
| EvolutionTheorems.RollbackSucceedsIff | src/metaharness/discovery/evolution.py:636-677 | a rollback succeeds exactly for a proper ancestor other than the root; its lookup errors are unreachable |
| EvolutionTheorems.RootIsNeverRestored | src/metaharness/discovery/evolution.py:618-650 | the root has no activation row, so once left it is never active again |
| EvolutionAcceptance.ActivatedIff | src/metaharness/discovery/evolution.py:528-604 | a candidate is activated if and only if the sequence number is new, its hash seals its body, its fractions, diversity floor and envelope are within bounds, it changes at most three fields of the active policy that it names, in the same campaign, and the simulation passed |
| EvolutionAcceptance.ConsiderDecides | src/metaharness/discovery/evolution.py:528-604 | considering any other candidate than the active policy under a new sequence number adds exactly one row, which names the first stage that its fields fail; an activation makes it current and nothing else changes the policy |
| EvolutionAcceptance.RollbackRestores | src/metaharness/discovery/evolution.py:636-677 | a rollback that goes through records its row and restores exactly the named ancestor; any other changes nothing |
| PolicyEvolver.SearchPolicyEvolver.ConsiderCandidate | src/metaharness/discovery/evolution.py:528-604 | consider leaves exactly the controller that `EvolutionAcceptance.ConsiderDecides` describes, and its reply |
| PolicyEvolver.SearchPolicyEvolver.ActivatedAncestors | src/metaharness/discovery/evolution.py:618-634 | the walk collects exactly the activated proper ancestors |
| PolicyEvolver.SearchPolicyEvolver.RollBackTo | src/metaharness/discovery/evolution.py:636-677 | rollback leaves exactly the specified controller and reply |

## Left out

- Credentials, scopes and their issue and revocation: an operation takes an already authorised actor; only the coordinator prefix is checked.
- The authority grant, card priority ordering, the plane, frozen-axes, acceptance-command and declared-hash fields of a definition, and the normal form of its worktree path: validation of single fields.
- Error texts and the current revision that an error carries; replies of the gateway operations beyond success or error code.
- HMAC verification of webhooks, secret patterns in activity payloads and redaction rules: the first is authentication, the second could only keep more rows unsent, the third is an arbitrary function in `Services`.
- The issue update that precedes a repair's revision comment: its failures are the link's refusals; drift detection and attention records of the reconciler are not modelled.
- Comments written by others are taken to carry no idempotency marker, comments are never deleted, and dispatches do not overlap; without the last a marker check and its post can race.
- Outbox rows whose key the reconciler did not build: `enqueue_projection_outbox` takes any key, and the reconciler is its only caller.
- Comment pages that change between two page reads: one scan sees one state of the issue.
- Directory creation, fsync, temporary files, symlink checks, file locks and malformed records of the blueprint store: file actions are atomic, operations on one id do not overlap, and records parse.
- `fork_snapshot`, whose source comes from an external catalog that promises nothing about lineage.
- Blueprint content, owner and slug validation beyond the source lineage.
- `LineageTheorems.LivesKeep`: receipts are taken as intact; the self-hash revalidation and the path form of recorded prefixes are not part of this model, and live boundaries are compared as sets because receipts sort them.
- Malformed commit ids from git, custom receipt-id sources of a live manager, and filesystem escapes of derived worktree paths.
- Wording of quarantine reasons, and failures to list worktrees or read their status.
- `LiveContext.AssembleLive`: manifest entries, compression receipts, envelope hashes and the duplicate and provenance checks of tool-schema drafts are not part of this model; schemas enter as a token count.
- Playbook hints, reflections, advice texts, provenance events, tracing, capability tokens beyond granted or denied, and the capability matrix: the loop's decisions do not depend on them.
- `verify_output`, the judge's prompt and the router's choice among allowed tiers are arbitrary answers, with the two facts the loop relies on: an erroneous result fails and an excluded tier is never returned.
- `Policies.ValidatePolicy`: the verdict of the simulation stage on a population window is an input, so parent selection and the window's budgets are not modelled.
- `score_window`, `is_stagnant`, `propose_child` and the root's bootstrap activation receipt: pure helpers without bearing on the controller's state.
- `PolicyEvolver.SearchPolicyEvolver.ConsiderCandidate`: considering the active policy itself is the error of a row naming itself as parent, as in the code, where the type's validator raises it.
