/** The write-ahead intent makes publishing atomic: whatever crashes, the files always
    stand for a state of a store whose publish is one action. */
module BlueprintTheorems {
  import opened Blueprints
  import opened Wrappers

  // ---------------------------------------------------------------- invariant

  function Latest(s: Shelf): nat {
    if s.catalog.Some? && s.catalog.value.latest.Some? then s.catalog.value.latest.value else 0
  }

  /** Versions are exactly `1..latest`; a pending intent may add its own target. */
  ghost predicate Contiguous(s: Shelf) {
    && (forall n | n in s.versions :: s.versions[n].number == n)
    && (s.catalog.Some? && s.catalog.value.latest.Some? ==> s.catalog.value.latest.value >= 1)
    && (if s.intent.None? then forall n :: n in s.versions <==> 1 <= n <= Latest(s)
        else forall n | n != s.intent.value.version.number :: n in s.versions <==> 1 <= n <= Latest(s))
  }

  predicate PendingOk(s: Shelf) {
    s.intent.Some? ==>
      var i := s.intent.value; var target := i.version.number;
      && i.expected >= 1 && target >= 1 && (Latest(s) == target || Latest(s) == target - 1)
      && (target in s.versions ==> s.versions[target] == i.version)
      && (Latest(s) == target ==> target in s.versions)
      && (if s.draft.Some? then s.draft.value.revision == i.expected && s.draft.value.content == i.version.content
          else Latest(s) == target)
  }

  ghost predicate ShelfOk(s: Shelf) {
    && Contiguous(s) && PendingOk(s)
    && (s.catalog.None? ==> s.draft.None? && s.intent.None?)
    && (s.draft.Some? ==> s.draft.value.revision >= 1)
    && (s.draft.Some? && s.draft.value.base.Some? ==> s.draft.value.base.value in s.versions)
  }

  ghost predicate DiskOk(disk: Disk) {
    forall id | id in disk :: ShelfOk(disk[id])
  }

  /** What the files stand for: a pending intent counts as published. */
  function Abs(s: Shelf): Shelf {
    if s.intent.None? || s.catalog.None? then s
    else
      var v := s.intent.value.version;
      Shelf(Some(s.catalog.value.(latest := Some(v.number))), None, None, s.versions[v.number := v])
  }

  function AbsDisk(disk: Disk): Disk {
    map id | id in disk :: Abs(disk[id])
  }

  /** Publishing as a single action. */
  function Published(s: Shelf, now: Time): Shelf {
    if s.catalog.None? || s.draft.None? then s
    else
      var number := NextNumber(s.catalog.value);
      Shelf(Some(s.catalog.value.(latest := Some(number))), None, None,
            s.versions[number := Version(s.draft.value.content, number, now)])
  }

  // --------------------------------------------------------------- completing

  /** The next action of a pending publish changes nothing that the files stand for,
      and the plan made after it is the rest of the plan made before it. */
  lemma CompleteStep(s: Shelf)
    requires ShelfOk(s) && s.intent.Some?
    ensures var plan := CompletePlan(s, s.catalog.value, s.intent.value);
      && plan.error.None? && plan.actions != []
      && var a := plan.actions[0]; var u := Do(s, a);
         && Possible(s, a) && ShelfOk(u) && Abs(u) == Abs(s)
         && (u.versions == s.versions || u.versions == Abs(s).versions)
         && (if |plan.actions| == 1 then u == Abs(s) && u.intent.None?
             else u.intent == s.intent && CompletePlan(u, u.catalog.value, u.intent.value).actions == plan.actions[1..])
  {
    var v := s.intent.value.version;
    var u := Do(s, CompletePlan(s, s.catalog.value, s.intent.value).actions[0]);
    if v.number in s.versions { assert s.versions[v.number := v] == s.versions; }
  }

  /** Any prefix of a pending publish: the intent is still there or the work is done. */
  lemma {:induction false} CompletePrefix(s: Shelf, budget: nat)
    requires ShelfOk(s) && s.intent.Some?
    ensures var plan := CompletePlan(s, s.catalog.value, s.intent.value); var u := Execute(s, plan.actions, budget);
      && ShelfOk(u) && Abs(u) == Abs(s) && u.catalog.Some?
      && (u.versions == s.versions || u.versions == Abs(s).versions)
      && (if budget < |plan.actions| then u.intent == s.intent else u == Abs(s) && u.intent.None?)
    decreases budget
  {
    CompleteStep(s);
    var plan := CompletePlan(s, s.catalog.value, s.intent.value);
    if budget > 0 {
      var u := Do(s, plan.actions[0]);
      if |plan.actions| > 1 {
        CompletePrefix(u, budget - 1);
      } else {
        assert plan.actions[1..] == [];
      }
    }
  }

  /** A first intent is consistent with its draft and catalog. */
  lemma IntentFits(s: Shelf, expected: int, now: Time)
    requires ShelfOk(s) && s.intent.None? && s.catalog.Some? && s.draft.Some? && s.draft.value.revision == expected
    ensures var u := s.(intent := Some(NewIntent(s.catalog.value, s.draft.value, expected, now)));
      ShelfOk(u) && Abs(u) == Published(s, now)
  {
  }

  // ------------------------------------------------------------------ publish

  const PUBLISH_ERRORS := {InvalidRevision, NotFound, Archived, IntentRevisionMismatch, RevisionConflict}

  /** Publishing commits when its intent file appears. Creating that file is the whole
      transition; every later action, now or in a retry, changes nothing that the files
      stand for; an uninterrupted publish leaves exactly what they stand for. None of
      the reconciliation errors can occur, and a refusal writes nothing. */
  lemma PublishCommitsAtIntent(s: Shelf, expected: int, now: Time, budget: nat)
    requires ShelfOk(s)
    ensures var plan := PublishPlan(s, expected, now); var u := Execute(s, plan.actions, budget);
      && ShelfOk(u)
      && (plan.error.Some? ==> plan.error.value in PUBLISH_ERRORS && plan.actions == [])
      && Abs(u) == (if plan.error.Some? || s.intent.Some? || budget == 0 then Abs(s) else Published(s, now))
      && (plan.error.None? && budget >= |plan.actions| ==> u == Abs(u) && u.intent.None?)
      && (plan.error.None? && 0 < budget < |plan.actions| ==> u.intent.Some? && u.intent.value.expected == expected)
      && (u.versions == s.versions || u.versions == Abs(u).versions)
  {
    if expected >= 1 && s.catalog.Some? && s.catalog.value.archivedAt.None? {
      if s.intent.Some? {
        if s.intent.value.expected == expected { CompletePrefix(s, budget); }
      } else if s.draft.Some? && s.draft.value.revision == expected {
        FirstPublish(s, expected, now, budget);
      }
    }
  }

  lemma FirstPublish(s: Shelf, expected: int, now: Time, budget: nat)
    requires ShelfOk(s) && expected >= 1 && s.intent.None?
    requires s.catalog.Some? && s.catalog.value.archivedAt.None? && s.draft.Some? && s.draft.value.revision == expected
    ensures var plan := PublishPlan(s, expected, now); var u := Execute(s, plan.actions, budget);
      && plan.error.None? && ShelfOk(u)
      && Abs(u) == (if budget == 0 then s else Published(s, now))
      && (budget >= |plan.actions| ==> u == Abs(u) && u.intent.None?)
      && (0 < budget < |plan.actions| ==> u.intent.Some? && u.intent.value.expected == expected)
      && (u.versions == s.versions || u.versions == Abs(u).versions)
  {
    IntentFits(s, expected, now);
    var intent := NewIntent(s.catalog.value, s.draft.value, expected, now);
    var u := s.(intent := Some(intent));
    var rest := CompletePlan(u, u.catalog.value, intent);
    CompleteStep(u);
    assert PublishPlan(s, expected, now) == Attempt([CreateIntent(intent)] + rest.actions, rest.error);
    assert ([CreateIntent(intent)] + rest.actions)[1..] == rest.actions;
    if budget > 0 { CompletePrefix(u, budget - 1); }
  }

  /** Retrying with the same revision finishes the publish that the crash interrupted,
      whatever happened to the rest of the shelf in between. */
  lemma RetryCompletes(s: Shelf, now: Time, budget: nat)
    requires ShelfOk(s) && s.intent.Some? && s.catalog.value.archivedAt.None?
    ensures var plan := PublishPlan(s, s.intent.value.expected, now);
      && plan.error.None?
      && (budget >= |plan.actions| ==> Execute(s, plan.actions, budget) == Abs(s))
      && Abs(Execute(s, plan.actions, budget)) == Abs(s)
  {
    CompletePrefix(s, budget);
    CompleteStep(s);
  }

  /** Retrying after the publish itself finished finds no draft and changes nothing. */
  lemma RetryAfterCompletion(s: Shelf, expected: int, now: Time, again: Time, budget: nat)
    requires ShelfOk(s) && s.intent.None? && PublishPlan(s, expected, now).error.None?
    requires budget >= |PublishPlan(s, expected, now).actions|
    ensures PublishPlan(Execute(s, PublishPlan(s, expected, now).actions, budget), expected, again) == Raise(NotFound)
  {
    FirstPublish(s, expected, now, budget);
  }

  // -------------------------------------------------------- other operations

  lemma TwoActions(s: Shelf, actions: seq<Action>, budget: nat)
    requires |actions| <= 2
    ensures Execute(s, actions, budget) ==
      if actions == [] || budget == 0 then s
      else if |actions| == 1 || budget == 1 then Do(s, actions[0])
      else Do(Do(s, actions[0]), actions[1])
  {
    if |actions| == 2 && budget > 1 {
      assert actions[1..] == [actions[1]] && actions[1..][1..] == [];
      assert Execute(Do(Do(s, actions[0]), actions[1]), [], budget - 2) == Do(Do(s, actions[0]), actions[1]);
    } else if |actions| == 1 {
      assert actions[1..] == [];
    }
  }

  /** A new draft never appears beside a pending publish, and its catalog comes first. */
  lemma NewDraftKeeps(s: Shelf, content: Content, owner: string, base: Option<nat>, now: Time, newOnly: bool,
                      budget: nat)
    requires ShelfOk(s)
    ensures var plan := NewDraftPlan(s, content, owner, base, now, newOnly); var u := Execute(s, plan.actions, budget);
      && ShelfOk(u) && u.versions == s.versions && (plan.actions != [] ==> u.intent.None? && s.intent.None?)
  {
    TwoActions(s, NewDraftPlan(s, content, owner, base, now, newOnly).actions, budget);
  }

  lemma DeleteKeeps(s: Shelf, budget: nat)
    requires ShelfOk(s)
    ensures var plan := DeletePlan(s); var u := Execute(s, plan.actions, budget);
      && ShelfOk(u) && u.versions == s.versions && (plan.actions != [] ==> u.intent.None? && s.intent.None?)
  {
    TwoActions(s, DeletePlan(s).actions, budget);
  }

  /** Archiving, restoring and renaming move through a pending publish untouched. */
  lemma CatalogEditKeeps(s: Shelf, entry: Entry, budget: nat)
    requires ShelfOk(s) && s.catalog.Some? && entry.latest == s.catalog.value.latest
    ensures var u := Execute(s, [ReplaceCatalog(entry)], budget);
      && ShelfOk(u) && u.versions == s.versions && u.intent == s.intent
      && Abs(u) == (if budget == 0 then Abs(s)
                    else Do(Abs(s), ReplaceCatalog(entry.(latest := Abs(s).catalog.value.latest))))
  {
    TwoActions(s, [ReplaceCatalog(entry)], budget);
  }

  predicate CatalogEdit(op: Op) {
    op.Archive? || op.Restore? || op.Rename?
  }

  lemma EditPlan(disk: Disk, id: Id, op: Op)
    requires CatalogEdit(op)
    ensures var s := ShelfOf(disk, id); var actions := Plan(disk, id, op).actions;
      actions == [] || (s.catalog.Some? && actions[0].ReplaceCatalog? && actions == [ReplaceCatalog(actions[0].entry)]
                        && actions[0].entry.latest == s.catalog.value.latest)
  {
  }

  /** Every operation, cut anywhere, keeps the shelf consistent and its versions. */
  lemma PerformKeeps(disk: Disk, id: Id, op: Op, budget: nat)
    requires ShelfOk(ShelfOf(disk, id))
    ensures var s := ShelfOf(disk, id); var u := Execute(s, Plan(disk, id, op).actions, budget);
      ShelfOk(u) && (u.versions == s.versions || (op.Publish? && u.versions == Abs(u).versions))
  {
    var s := ShelfOf(disk, id);
    match op
    case Create(content, owner, base, now) => NewDraftKeeps(s, content, owner, base, now, false, budget);
    case CreateFrom(version, owner, now) =>
      if version in s.versions {
        NewDraftKeeps(s, s.versions[version].content, owner, Some(version), now, false, budget);
      }
    case Fork(source, owner, name, now) =>
      var original := VersionAt(disk, source);
      if original.Some? {
        NewDraftKeeps(s, ForkedContent(original.value, source, name), owner, None, now, true, budget);
      }
    case Update(content, expected, now) => TwoActions(s, UpdatePlan(s, content, expected, now).actions, budget);
    case Delete => DeleteKeeps(s, budget);
    case Publish(expected, now) => PublishCommitsAtIntent(s, expected, now, budget);
    case _ =>
      EditPlan(disk, id, op);
      var actions := Plan(disk, id, op).actions;
      if actions != [] { CatalogEditKeeps(s, actions[0].entry, budget); }
  }

  lemma PerformDiskOk(disk: Disk, id: Id, op: Op, budget: nat)
    requires DiskOk(disk)
    ensures DiskOk(Perform(disk, id, op, budget).0)
  {
    PerformKeeps(disk, id, op, budget);
  }

  lemma {:induction false} RunDiskOk(disk: Disk, tries: seq<Try>)
    requires DiskOk(disk)
    ensures DiskOk(Run(disk, tries))
    decreases |tries|
  {
    if tries != [] {
      PerformDiskOk(disk, tries[0].id, tries[0].op, tries[0].budget);
      RunDiskOk(Perform(disk, tries[0].id, tries[0].op, tries[0].budget).0, tries[1..]);
    }
  }

  // --------------------------------------------------------------- refinement

  /** The plan of the atomic store: publishing is one action. */
  datatype AtomicStep = Plain(action: Action) | PublishNow(now: Time)

  function DoAtomic(s: Shelf, step: AtomicStep): Shelf {
    match step
    case Plain(a) => Do(s, a)
    case PublishNow(now) => Published(s, now)
  }

  function Plainly(actions: seq<Action>): (steps: seq<AtomicStep>)
    ensures |steps| == |actions| && forall i | 0 <= i < |actions| :: steps[i] == Plain(actions[i])
  {
    seq(|actions|, i requires 0 <= i < |actions| => Plain(actions[i]))
  }

  function AtomicPlan(disk: Disk, id: Id, op: Op): seq<AtomicStep> {
    if op.Publish? then
      if PublishPlan(ShelfOf(disk, id), op.expected, op.now).error.Some? then [] else [PublishNow(op.now)]
    else Plainly(Plan(disk, id, op).actions)
  }

  function ExecuteAtomic(s: Shelf, steps: seq<AtomicStep>, cut: nat): Shelf
    decreases |steps|
  {
    if steps == [] || cut == 0 then s else ExecuteAtomic(DoAtomic(s, steps[0]), steps[1..], cut - 1)
  }

  function PerformAtomic(disk: Disk, id: Id, op: Op, cut: nat): Disk {
    var steps := AtomicPlan(disk, id, op);
    if steps == [] || cut == 0 then disk else disk[id := ExecuteAtomic(ShelfOf(disk, id), steps, cut)]
  }

  /** The same operations in the same order, each cut where `cuts` says. */
  function RunAtomic(disk: Disk, tries: seq<Try>, cuts: seq<nat>): Disk
    requires |tries| == |cuts|
    decreases |tries|
  {
    if tries == [] then disk
    else RunAtomic(PerformAtomic(disk, tries[0].id, tries[0].op, cuts[0]), tries[1..], cuts[1..])
  }

  lemma AbsUpdate(disk: Disk, id: Id, s: Shelf)
    ensures AbsDisk(disk[id := s]) == AbsDisk(disk)[id := Abs(s)]
    ensures ShelfOf(AbsDisk(disk), id) == Abs(ShelfOf(disk, id))
    ensures id in disk && Abs(s) == Abs(disk[id]) ==> AbsDisk(disk[id := s]) == AbsDisk(disk)
  {
    if id in disk && Abs(s) == Abs(disk[id]) { assert AbsDisk(disk)[id := Abs(disk[id])] == AbsDisk(disk); }
  }

  lemma {:induction false} PlainExecute(s: Shelf, actions: seq<Action>, budget: nat)
    ensures ExecuteAtomic(s, Plainly(actions), budget) == Execute(s, actions, budget)
    decreases |actions|
  {
    if actions != [] && budget > 0 {
      PlainExecute(Do(s, actions[0]), actions[1..], budget - 1);
      assert Plainly(actions)[1..] == Plainly(actions[1..]);
    }
  }

  lemma AbsKeepsVersions(s: Shelf)
    requires ShelfOk(s)
    ensures forall n | n in s.versions :: n in Abs(s).versions && Abs(s).versions[n] == s.versions[n]
  {
  }

  /** A first publish is accepted by the atomic store as well, as its one action. */
  lemma AtomicPublish(disk: Disk, id: Id, op: Op)
    requires op.Publish? && ShelfOf(disk, id).intent.None?
    requires PublishPlan(ShelfOf(disk, id), op.expected, op.now).error.None?
    ensures AtomicPlan(AbsDisk(disk), id, op) == [PublishNow(op.now)] && ShelfOf(AbsDisk(disk), id) == ShelfOf(disk, id)
  {
    AbsUpdate(disk, id, ShelfOf(disk, id));
  }

  /** Where the atomic run of an operation is cut: as the budget says, except that a first
      publish is done by its first file and a pending one is done already. */
  function CutOf(disk: Disk, t: Try): nat {
    var plan, pending := Plan(disk, t.id, t.op), ShelfOf(disk, t.id).intent.Some?;
    if plan.actions == [] || t.budget == 0 || (t.op.Publish? && pending) then 0
    else if t.op.Publish? || pending then 1
    else t.budget
  }

  lemma PublishRefines(disk: Disk, id: Id, op: Op, budget: nat)
    requires DiskOk(disk) && op.Publish?
    ensures AbsDisk(Perform(disk, id, op, budget).0) ==
            PerformAtomic(AbsDisk(disk), id, op, CutOf(disk, Try(id, op, budget)))
  {
    var s := ShelfOf(disk, id);
    var plan := PublishPlan(s, op.expected, op.now);
    PublishCommitsAtIntent(s, op.expected, op.now, budget);
    AbsUpdate(disk, id, Execute(s, plan.actions, budget));
    if plan.error.None? && s.intent.None? && budget > 0 {
      AtomicPublish(disk, id, op);
      OneAtomicStep(s, PublishNow(op.now));
    }
  }

  /** With no publish pending, the shelf is its own abstraction and so is every cut of
      an operation other than publish. */
  lemma SettledRefines(disk: Disk, id: Id, op: Op, budget: nat)
    requires DiskOk(disk) && !op.Publish? && ShelfOf(disk, id).intent.None? && Plan(disk, id, op).actions != []
    ensures AbsDisk(Perform(disk, id, op, budget).0) == PerformAtomic(AbsDisk(disk), id, op, budget)
  {
    var s := ShelfOf(disk, id);
    var plan := Plan(disk, id, op);
    var u := Execute(s, plan.actions, budget);
    AbsUpdate(disk, id, u);
    NoIntentAppears(disk, id, op, budget);
    SamePlan(disk, id, op);
    PlainExecute(s, plan.actions, budget);
  }

  lemma NoIntentAppears(disk: Disk, id: Id, op: Op, budget: nat)
    requires DiskOk(disk) && !op.Publish? && ShelfOf(disk, id).intent.None?
    ensures Execute(ShelfOf(disk, id), Plan(disk, id, op).actions, budget).intent.None?
  {
    TwoActions(ShelfOf(disk, id), Plan(disk, id, op).actions, budget);
  }

  /** No publish is pending on the shelf or, for a fork, on the shelf of its source. */
  predicate Quiet(disk: Disk, id: Id, op: Op) {
    ShelfOf(disk, id).intent.None? && (op.Fork? ==> ShelfOf(disk, op.source.id).intent.None?)
  }

  lemma SamePlan(disk: Disk, id: Id, op: Op)
    requires DiskOk(disk) && ShelfOf(disk, id).intent.None?
    requires Plan(disk, id, op).actions != [] || Quiet(disk, id, op)
    ensures Plan(AbsDisk(disk), id, op) == Plan(disk, id, op)
  {
    AbsUpdate(disk, id, ShelfOf(disk, id));
    if op.Fork? {
      AbsUpdate(disk, op.source.id, ShelfOf(disk, op.source.id));
      AbsKeepsVersions(ShelfOf(disk, op.source.id));
    }
  }

  lemma OneAtomicStep(s: Shelf, step: AtomicStep)
    ensures ExecuteAtomic(s, [step], 1) == DoAtomic(s, step)
  {
    assert [step][1..] == [];
  }

  /** While a publish is pending, the operations that write at all are catalog edits, and
      the atomic store makes the same edit. */
  lemma PendingOnlyEdits(disk: Disk, id: Id, op: Op)
    requires ShelfOf(disk, id).intent.Some? && !op.Publish? && Plan(disk, id, op).actions != []
    ensures CatalogEdit(op)
  {
  }

  lemma AtomicEdit(disk: Disk, id: Id, op: Op)
    requires DiskOk(disk) && ShelfOf(disk, id).intent.Some? && CatalogEdit(op) && Plan(disk, id, op).actions != []
    ensures var s := ShelfOf(disk, id); var actions := Plan(disk, id, op).actions;
      && actions[0].ReplaceCatalog?
      && AtomicPlan(AbsDisk(disk), id, op) ==
         [Plain(ReplaceCatalog(actions[0].entry.(latest := Some(s.intent.value.version.number))))]
  {
    AbsUpdate(disk, id, ShelfOf(disk, id));
  }

  lemma PendingRefines(disk: Disk, id: Id, op: Op, budget: nat)
    requires DiskOk(disk) && !op.Publish? && ShelfOf(disk, id).intent.Some?
    ensures AbsDisk(Perform(disk, id, op, budget).0) ==
            PerformAtomic(AbsDisk(disk), id, op, CutOf(disk, Try(id, op, budget)))
  {
    var s := ShelfOf(disk, id);
    var actions := Plan(disk, id, op).actions;
    if actions != [] && budget > 0 {
      PendingOnlyEdits(disk, id, op);
      EditPlan(disk, id, op);
      CatalogEditKeeps(s, actions[0].entry, budget);
      AtomicEdit(disk, id, op);
      AbsUpdate(disk, id, Execute(s, actions, budget));
      OneAtomicStep(Abs(s), AtomicPlan(AbsDisk(disk), id, op)[0]);
    }
  }

  lemma PerformRefines(disk: Disk, id: Id, op: Op, budget: nat)
    requires DiskOk(disk)
    ensures AbsDisk(Perform(disk, id, op, budget).0) ==
            PerformAtomic(AbsDisk(disk), id, op, CutOf(disk, Try(id, op, budget)))
  {
    if op.Publish? {
      PublishRefines(disk, id, op, budget);
    } else if ShelfOf(disk, id).intent.Some? {
      PendingRefines(disk, id, op, budget);
    } else if Plan(disk, id, op).actions != [] && budget > 0 {
      SettledRefines(disk, id, op, budget);
    }
  }

  // ------------------------------------------------------------------ replies

  function AtomicReply(disk: Disk, id: Id, op: Op, cut: nat): Reply {
    var error := Plan(disk, id, op).error;
    if cut < |AtomicPlan(disk, id, op)| then Crashed else if error.Some? then Failed(error.value) else Succeeded
  }

  /** A retry that finds its publish pending completes it: the atomic store has it already. */
  predicate Completes(disk: Disk, t: Try) {
    && t.op.Publish? && t.id in disk && disk[t.id].intent.Some?
    && t.op.expected == disk[t.id].intent.value.expected
    && Perform(disk, t.id, t.op, t.budget).0 == disk[t.id := Abs(disk[t.id])]
  }

  /** How the atomic store's reply to the same operation explains the one given here.
      An operation that the budget covers is uncut there and answered alike when no
      publish is pending. What succeeds here succeeds there or was done there before; what
      fails here changes nothing on either side; only a publish that crashes here may be
      done there. */
  predicate Explains(disk: Disk, t: Try) {
    var (after, reply) := Perform(disk, t.id, t.op, t.budget);
    var answer := AtomicReply(AbsDisk(disk), t.id, t.op, CutOf(disk, t));
    && (Quiet(disk, t.id, t.op) && !reply.Crashed? ==> answer == reply)
    && (reply.Succeeded? ==> answer.Succeeded? || Completes(disk, t))
    && (reply.Failed? ==> after == disk && PerformAtomic(AbsDisk(disk), t.id, t.op, CutOf(disk, t)) == AbsDisk(disk))
    && (reply.Crashed? ==> answer.Crashed? || t.op.Publish?)
  }

  lemma ErrorsWriteNothing(disk: Disk, id: Id, op: Op)
    requires DiskOk(disk) && Plan(disk, id, op).error.Some?
    ensures Plan(disk, id, op).actions == []
  {
    if op.Publish? { PublishCommitsAtIntent(ShelfOf(disk, id), op.expected, op.now, 0); }
  }

  /** A refused operation writes nothing, and the atomic run skips it or refuses it too. */
  lemma RefusalExplains(disk: Disk, t: Try)
    requires DiskOk(disk) && Plan(disk, t.id, t.op).error.Some?
    ensures Explains(disk, t)
  {
    ErrorsWriteNothing(disk, t.id, t.op);
    if Quiet(disk, t.id, t.op) { SamePlan(disk, t.id, t.op); }
  }

  lemma FirstPublishExplains(disk: Disk, t: Try)
    requires DiskOk(disk) && t.op.Publish? && Plan(disk, t.id, t.op).error.None? && ShelfOf(disk, t.id).intent.None?
    ensures Explains(disk, t)
  {
    AtomicPublish(disk, t.id, t.op);
    SamePlan(disk, t.id, t.op);
  }

  lemma RetryExplains(disk: Disk, t: Try)
    requires DiskOk(disk) && t.op.Publish? && Plan(disk, t.id, t.op).error.None? && ShelfOf(disk, t.id).intent.Some?
    ensures Explains(disk, t)
  {
    if t.budget >= |Plan(disk, t.id, t.op).actions| { CoveredRetry(disk, t); }
  }

  lemma CoveredRetry(disk: Disk, t: Try)
    requires DiskOk(disk) && t.op.Publish? && Plan(disk, t.id, t.op).error.None? && ShelfOf(disk, t.id).intent.Some?
    requires t.budget >= |Plan(disk, t.id, t.op).actions|
    ensures Completes(disk, t)
  {
    var s := disk[t.id];
    PublishCommitsAtIntent(s, t.op.expected, t.op.now, t.budget);
    assert Execute(s, PublishPlan(s, t.op.expected, t.op.now).actions, t.budget) == Abs(s);
    CompleteStep(s);
  }

  lemma EditExplains(disk: Disk, t: Try)
    requires DiskOk(disk) && !t.op.Publish? && Plan(disk, t.id, t.op).error.None?
    requires ShelfOf(disk, t.id).intent.Some? && Plan(disk, t.id, t.op).actions != []
    ensures Explains(disk, t)
  {
    PendingOnlyEdits(disk, t.id, t.op);
    EditPlan(disk, t.id, t.op);
    AtomicEdit(disk, t.id, t.op);
    EditAccepted(disk, t.id, t.op);
  }

  /** The atomic store accepts the catalog edits that are accepted while a publish is pending. */
  lemma EditAccepted(disk: Disk, id: Id, op: Op)
    requires DiskOk(disk) && ShelfOf(disk, id).intent.Some? && CatalogEdit(op) && Plan(disk, id, op).error.None?
    ensures Plan(AbsDisk(disk), id, op).error.None?
    ensures Plan(disk, id, op).actions == [] ==> Plan(AbsDisk(disk), id, op).actions == []
  {
    AbsUpdate(disk, id, ShelfOf(disk, id));
  }

  lemma IdleIsEdit(disk: Disk, id: Id, op: Op)
    requires DiskOk(disk) && ShelfOf(disk, id).intent.Some? && !op.Publish? && Plan(disk, id, op).error.None?
    ensures CatalogEdit(op)
  {
  }

  lemma IdleExplains(disk: Disk, t: Try)
    requires DiskOk(disk) && !t.op.Publish? && Plan(disk, t.id, t.op) == Attempt([], None)
    requires ShelfOf(disk, t.id).intent.Some?
    ensures Explains(disk, t)
  {
    IdleIsEdit(disk, t.id, t.op);
    EditAccepted(disk, t.id, t.op);
  }

  lemma SettledExplains(disk: Disk, t: Try)
    requires DiskOk(disk) && !t.op.Publish? && ShelfOf(disk, t.id).intent.None?
    requires Plan(disk, t.id, t.op).error.None? && Plan(disk, t.id, t.op).actions != []
    ensures Explains(disk, t)
  {
    SamePlan(disk, t.id, t.op);
  }

  lemma NoopExplains(disk: Disk, t: Try)
    requires DiskOk(disk) && ShelfOf(disk, t.id).intent.None? && Plan(disk, t.id, t.op) == Attempt([], None)
    ensures Explains(disk, t)
  {
    SamePlan(disk, t.id, t.op);
  }

  lemma PerformExplains(disk: Disk, t: Try)
    requires DiskOk(disk)
    ensures Explains(disk, t)
  {
    var plan, pending := Plan(disk, t.id, t.op), ShelfOf(disk, t.id).intent.Some?;
    if plan.error.Some? {
      RefusalExplains(disk, t);
    } else if t.op.Publish? {
      if pending { RetryExplains(disk, t); } else { FirstPublishExplains(disk, t); }
    } else if plan.actions == [] {
      if pending { IdleExplains(disk, t); } else { NoopExplains(disk, t); }
    } else {
      if pending { EditExplains(disk, t); } else { SettledExplains(disk, t); }
    }
  }

  function CutsOf(disk: Disk, tries: seq<Try>): (cuts: seq<nat>)
    ensures |cuts| == |tries|
    decreases |tries|
  {
    if tries == [] then []
    else [CutOf(disk, tries[0])] + CutsOf(Perform(disk, tries[0].id, tries[0].op, tries[0].budget).0, tries[1..])
  }

  /** Every reply of a run is explained by the atomic run. */
  predicate AllExplained(disk: Disk, tries: seq<Try>)
    decreases |tries|
  {
    tries == []
    || (Explains(disk, tries[0])
        && AllExplained(Perform(disk, tries[0].id, tries[0].op, tries[0].budget).0, tries[1..]))
  }

  /** The crash-prone store refines the store whose publish is one action: every run,
      crashed anywhere, is a run of the same operations over that store, state by state,
      and that store's replies explain the ones given. */
  lemma {:induction false} RefinesAtomicStore(disk: Disk, tries: seq<Try>)
    requires DiskOk(disk)
    ensures AbsDisk(Run(disk, tries)) == RunAtomic(AbsDisk(disk), tries, CutsOf(disk, tries))
    ensures AllExplained(disk, tries)
    decreases |tries|
  {
    if tries != [] {
      var t := tries[0];
      var next := Perform(disk, t.id, t.op, t.budget).0;
      PerformRefines(disk, t.id, t.op, t.budget);
      PerformExplains(disk, t);
      PerformDiskOk(disk, t.id, t.op, t.budget);
      RefinesAtomicStore(next, tries[1..]);
      assert CutsOf(disk, tries)[1..] == CutsOf(next, tries[1..]);
    }
  }

  // ----------------------------------------------------------- over whole runs

  ghost predicate VersionsGrow(before: Disk, after: Disk) {
    forall ref: Ref | VersionAt(before, ref).Some? :: VersionAt(after, ref) == VersionAt(before, ref)
  }

  lemma VersionsKept(disk: Disk, id: Id, op: Op, budget: nat)
    requires DiskOk(disk)
    ensures var s := ShelfOf(disk, id); var u := Execute(s, Plan(disk, id, op).actions, budget);
      forall n | n in s.versions :: n in u.versions && u.versions[n] == s.versions[n]
  {
    var s := ShelfOf(disk, id);
    PerformKeeps(disk, id, op, budget);
    if op.Publish? {
      PublishCommitsAtIntent(s, op.expected, op.now, budget);
      AbsKeepsVersions(s);
    }
  }

  lemma PerformGrows(disk: Disk, id: Id, op: Op, budget: nat)
    requires DiskOk(disk)
    ensures VersionsGrow(disk, Perform(disk, id, op, budget).0)
  {
    VersionsKept(disk, id, op, budget);
    var after := Perform(disk, id, op, budget).0;
    forall ref: Ref | VersionAt(disk, ref).Some? ensures VersionAt(after, ref) == VersionAt(disk, ref) {
      if ref.id != id { assert ShelfOf(after, ref.id) == ShelfOf(disk, ref.id); }
    }
  }

  /** The version files are exactly `1..latest`, and `latest + 1` at most while it is the
      target of a pending intent. */
  ghost predicate ExactNumbers(s: Shelf) {
    && (forall n | 1 <= n <= Latest(s) :: n in s.versions)
    && (forall n | n in s.versions :: s.versions[n].number == n)
    && (forall n | n in s.versions ::
          1 <= n <= Latest(s) || (n == Latest(s) + 1 && s.intent.Some? && s.intent.value.version == s.versions[n]))
  }

  /** No version is ever changed, removed or reused, through crashes, retries, deletion
      and recreation, and every shelf's version numbers stay exact. */
  lemma {:induction false} VersionsAreImmutable(disk: Disk, tries: seq<Try>)
    requires DiskOk(disk)
    ensures VersionsGrow(disk, Run(disk, tries))
    ensures forall id | id in Run(disk, tries) :: ExactNumbers(Run(disk, tries)[id])
    decreases |tries|
  {
    RunDiskOk(disk, tries);
    forall id | id in Run(disk, tries) ensures ExactNumbers(Run(disk, tries)[id]) {
      NumbersExact(Run(disk, tries)[id]);
    }
    if tries != [] {
      var next := Perform(disk, tries[0].id, tries[0].op, tries[0].budget).0;
      PerformGrows(disk, tries[0].id, tries[0].op, tries[0].budget);
      PerformDiskOk(disk, tries[0].id, tries[0].op, tries[0].budget);
      VersionsAreImmutable(next, tries[1..]);
    }
  }

  lemma NumbersExact(s: Shelf)
    requires ShelfOk(s)
    ensures ExactNumbers(s)
  {
  }

  /** The pending publish of `s` still stands for the same version in `u`, as an intent
      or, after its own retry, as the finished publish. */
  predicate Pending(s: Shelf, u: Shelf, own: bool, op: Op)
    requires s.intent.Some?
  {
    && Abs(u).versions == Abs(s).versions && Abs(u).draft.None?
    && Abs(s).catalog.Some? && Abs(u).catalog.Some? && Abs(u).catalog.value.latest == Abs(s).catalog.value.latest
    && (u.intent == s.intent || (own && op.Publish? && op.expected == s.intent.value.expected && u == Abs(s)))
  }

  /** While a publish is pending, no operation but its own retry moves it on, and none
      changes the version that it will end in. */
  lemma PendingSurvives(disk: Disk, id: Id, other: Id, op: Op, budget: nat)
    requires DiskOk(disk) && id in disk && disk[id].intent.Some?
    ensures Pending(disk[id], ShelfOf(Perform(disk, other, op, budget).0, id), other == id, op)
  {
    PerformedShelf(disk, id, other, op, budget);
    if other == id {
      if op.Publish? {
        PendingRetry(disk[id], op.expected, op.now, budget);
      } else {
        PendingEdits(disk, id, op, budget);
      }
    }
  }

  lemma PendingRetry(s: Shelf, expected: int, now: Time, budget: nat)
    requires ShelfOk(s) && s.intent.Some?
    ensures Pending(s, Execute(s, PublishPlan(s, expected, now).actions, budget), true, Op.Publish(expected, now))
  {
    PublishCommitsAtIntent(s, expected, now, budget);
    if PublishPlan(s, expected, now).error.None? { CompletePrefix(s, budget); }
  }

  lemma PendingEdits(disk: Disk, id: Id, op: Op, budget: nat)
    requires DiskOk(disk) && id in disk && disk[id].intent.Some? && !op.Publish?
    ensures Pending(disk[id], Execute(disk[id], Plan(disk, id, op).actions, budget), true, op)
  {
    var actions := Plan(disk, id, op).actions;
    if actions != [] {
      PendingOnlyEdits(disk, id, op);
      EditPlan(disk, id, op);
      CatalogEditKeeps(disk[id], actions[0].entry, budget);
    }
  }

  lemma PerformedShelf(disk: Disk, id: Id, other: Id, op: Op, budget: nat)
    requires id in disk
    ensures ShelfOf(Perform(disk, other, op, budget).0, id) ==
            if other == id then Execute(disk[id], Plan(disk, id, op).actions, budget) else disk[id]
  {
  }

  /** A pending publish survives any run of other operations on its shelf and elsewhere;
      retried with its revision, unless archived, it ends in its version. */
  lemma {:induction false} InterruptedPublishIsNeverLost(disk: Disk, id: Id, tries: seq<Try>)
    requires DiskOk(disk) && id in disk && disk[id].intent.Some?
    ensures var v := disk[id].intent.value.version; var end := ShelfOf(Run(disk, tries), id);
      && v.number in Abs(end).versions && Abs(end).versions[v.number] == v
      && (end.intent == disk[id].intent || (v.number in end.versions && end.versions[v.number] == v))
    decreases |tries|
  {
    if tries != [] {
      var t := tries[0];
      var next := Perform(disk, t.id, t.op, t.budget).0;
      PerformDiskOk(disk, t.id, t.op, t.budget);
      PendingSurvives(disk, id, t.id, t.op, t.budget);
      var ref := Ref(id, disk[id].intent.value.version.number);
      if id in next && next[id].intent.Some? {
        InterruptedPublishIsNeverLost(next, id, tries[1..]);
      } else {
        assert VersionAt(next, ref) == Some(disk[id].intent.value.version);
        RunDiskOk(next, tries[1..]);
        VersionsAreImmutable(next, tries[1..]);
        var end := ShelfOf(Run(next, tries[1..]), id);
        assert VersionAt(Run(next, tries[1..]), ref) == VersionAt(next, ref);
        AbsKeepsVersions(end);
      }
    }
  }
}
