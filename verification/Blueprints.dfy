/** Blueprint files on disk. Every operation is a list of atomic file actions; a crash
    keeps some prefix of the list. */
module Blueprints {
  import opened Wrappers

  type Id = string
  type Time = int

  datatype Ref = Ref(id: Id, version: nat)

  /** Editable content; `source` is the version a fork came from. */
  datatype Content = Content(name: string, source: Option<Ref>, body: string)

  datatype Draft = Draft(content: Content, revision: nat, base: Option<nat>, owner: string, createdAt: Time,
                         updatedAt: Time)

  datatype Version = Version(content: Content, number: nat, publishedAt: Time)

  datatype Entry = Entry(name: string, archivedAt: Option<Time>, latest: Option<nat>)

  datatype Intent = Intent(expected: int, version: Version)

  /** The files of one blueprint id. */
  datatype Shelf = Shelf(catalog: Option<Entry>, draft: Option<Draft>, intent: Option<Intent>,
                         versions: map<nat, Version>)

  const EMPTY_SHELF := Shelf(None, None, None, map[])

  type Disk = map<Id, Shelf>

  function ShelfOf(disk: Disk, id: Id): Shelf {
    if id in disk then disk[id] else EMPTY_SHELF
  }

  function VersionAt(disk: Disk, ref: Ref): Option<Version> {
    var versions := ShelfOf(disk, ref.id).versions;
    if ref.version in versions then Some(versions[ref.version]) else None
  }

  datatype Action =
    | CreateCatalog(entry: Entry)
    | ReplaceCatalog(entry: Entry)
    | RemoveCatalog
    | CreateDraft(draft: Draft)
    | ReplaceDraft(draft: Draft)
    | RemoveDraft
    | CreateIntent(intent: Intent)
    | RemoveIntent
    | CreateVersion(version: Version)

  /** A create never overwrites. */
  predicate Possible(s: Shelf, a: Action) {
    match a
    case CreateCatalog(_) => s.catalog.None?
    case ReplaceCatalog(_) => true
    case RemoveCatalog => s.catalog.Some?
    case CreateDraft(_) => s.draft.None?
    case ReplaceDraft(_) => true
    case RemoveDraft => s.draft.Some?
    case CreateIntent(_) => s.intent.None?
    case RemoveIntent => s.intent.Some?
    case CreateVersion(v) => v.number !in s.versions
  }

  function Do(s: Shelf, a: Action): Shelf {
    match a
    case CreateCatalog(entry) => s.(catalog := Some(entry))
    case ReplaceCatalog(entry) => s.(catalog := Some(entry))
    case RemoveCatalog => s.(catalog := None)
    case CreateDraft(draft) => s.(draft := Some(draft))
    case ReplaceDraft(draft) => s.(draft := Some(draft))
    case RemoveDraft => s.(draft := None)
    case CreateIntent(intent) => s.(intent := Some(intent))
    case RemoveIntent => s.(intent := None)
    case CreateVersion(v) => s.(versions := s.versions[v.number := v])
  }

  datatype Error =
    | NotFound | AlreadyExists | Archived | InvalidRevision | RevisionConflict | PublishPending
    | UnverifiedSource | Unpublished | IntentRevisionMismatch | CatalogVersionMismatch
    | DraftRevisionMismatch | DraftContentMismatch | VersionContentMismatch

  datatype Op =
    | Create(content: Content, owner: string, base: Option<nat>, now: Time)
    | CreateFrom(version: nat, owner: string, now: Time)
    | Fork(source: Ref, owner: string, name: Option<string>, now: Time)
    | Update(content: Content, expected: int, now: Time)
    | Delete
    | Publish(expected: int, now: Time)
    | Archive(at: Time)
    | Restore
    | Rename(display: string)

  /** The writes an operation makes, and the error it raises after them. */
  datatype Attempt = Attempt(actions: seq<Action>, error: Option<Error>)

  function Raise(error: Error): Attempt {
    Attempt([], Some(error))
  }

  function NewDraftPlan(s: Shelf, content: Content, owner: string, base: Option<nat>, now: Time, newOnly: bool)
    : Attempt
  {
    if s.intent.Some? then Raise(PublishPending)
    else if s.catalog.Some? && s.catalog.value.archivedAt.Some? then Raise(Archived)
    else if newOnly && (s.catalog.Some? || s.draft.Some?) then Raise(AlreadyExists)
    else if s.draft.Some? then Raise(AlreadyExists)
    else if base.Some? && (s.catalog.None? || base.value !in s.versions) then Raise(NotFound)
    else
      var draft := Draft(content, 1, base, owner, now, now);
      var catalog := if s.catalog.None? then [CreateCatalog(Entry(content.name, None, None))] else [];
      Attempt(catalog + [CreateDraft(draft)], None)
  }

  predicate CatalogAgrees(entry: Entry, target: nat) {
    entry.latest == Some(target) || entry.latest == (if target <= 1 then None else Some(target - 1))
  }

  /** Completing a durable intent: snapshot, catalog, draft, intent, in that order, each
      only where it is still missing. */
  function CompletePlan(s: Shelf, entry: Entry, intent: Intent): Attempt {
    var v := intent.version;
    if !CatalogAgrees(entry, v.number) then Raise(CatalogVersionMismatch)
    else if s.draft.Some? && s.draft.value.revision != intent.expected then Raise(DraftRevisionMismatch)
    else if s.draft.Some? && s.draft.value.content != v.content then Raise(DraftContentMismatch)
    else if v.number in s.versions && s.versions[v.number] != v then Raise(VersionContentMismatch)
    else
      Attempt(SnapshotActions(s, v) + CatalogActions(entry, v)
              + (if s.draft.Some? then [RemoveDraft] else []) + [RemoveIntent],
              None)
  }

  function SnapshotActions(s: Shelf, v: Version): seq<Action> {
    if v.number in s.versions then [] else [CreateVersion(v)]
  }

  function CatalogActions(entry: Entry, v: Version): seq<Action> {
    if entry.latest == Some(v.number) then [] else [ReplaceCatalog(entry.(latest := Some(v.number)))]
  }

  function NextNumber(entry: Entry): nat {
    (if entry.latest.Some? then entry.latest.value else 0) + 1
  }

  function NewIntent(entry: Entry, draft: Draft, expected: int, now: Time): Intent {
    Intent(expected, Version(draft.content, NextNumber(entry), now))
  }

  function PublishPlan(s: Shelf, expected: int, now: Time): Attempt {
    if expected < 1 then Raise(InvalidRevision)
    else if s.catalog.None? then Raise(NotFound)
    else if s.catalog.value.archivedAt.Some? then Raise(Archived)
    else if s.intent.Some? then
      if s.intent.value.expected != expected then Raise(IntentRevisionMismatch)
      else CompletePlan(s, s.catalog.value, s.intent.value)
    else if s.draft.None? then Raise(NotFound)
    else if s.draft.value.revision != expected then Raise(RevisionConflict)
    else
      var intent := NewIntent(s.catalog.value, s.draft.value, expected, now);
      var rest := CompletePlan(s.(intent := Some(intent)), s.catalog.value, intent);
      Attempt([CreateIntent(intent)] + rest.actions, rest.error)
  }

  function UpdatePlan(s: Shelf, content: Content, expected: int, now: Time): Attempt {
    if expected < 1 then Raise(InvalidRevision)
    else if s.intent.Some? then Raise(PublishPending)
    else if s.catalog.None? then Raise(NotFound)
    else if s.catalog.value.archivedAt.Some? then Raise(Archived)
    else if s.draft.None? then Raise(NotFound)
    else if s.draft.value.revision != expected then Raise(RevisionConflict)
    else
      var d := s.draft.value;
      Attempt([ReplaceDraft(d.(content := content.(source := d.content.source), revision := d.revision + 1,
                               updatedAt := now))],
              None)
  }

  function DeletePlan(s: Shelf): Attempt {
    if s.catalog.None? then Raise(NotFound)
    else if s.catalog.value.archivedAt.Some? then Raise(Archived)
    else if s.intent.Some? then Raise(PublishPending)
    else if s.draft.None? && s.catalog.value.latest.Some? then Raise(NotFound)
    else
      Attempt((if s.draft.Some? then [RemoveDraft] else [])
              + (if s.catalog.value.latest.None? then [RemoveCatalog] else []), None)
  }

  function ForkedContent(original: Version, source: Ref, name: Option<string>): Content {
    original.content.(source := Some(source), name := if name.Some? then name.value else original.content.name)
  }

  function Plan(disk: Disk, id: Id, op: Op): Attempt {
    var s := ShelfOf(disk, id);
    match op
    case Create(content, owner, base, now) =>
      if content.source.Some? then Raise(UnverifiedSource) else NewDraftPlan(s, content, owner, base, now, false)
    case CreateFrom(version, owner, now) =>
      if version !in s.versions then Raise(NotFound)
      else NewDraftPlan(s, s.versions[version].content, owner, Some(version), now, false)
    case Fork(source, owner, name, now) =>
      var original := VersionAt(disk, source);
      if original.None? then Raise(NotFound)
      else NewDraftPlan(s, ForkedContent(original.value, source, name), owner, None, now, true)
    case Update(content, expected, now) => UpdatePlan(s, content, expected, now)
    case Delete => DeletePlan(s)
    case Publish(expected, now) => PublishPlan(s, expected, now)
    case Archive(at) =>
      if s.catalog.None? then Raise(NotFound)
      else if s.catalog.value.latest.None? then Raise(Unpublished)
      else if s.catalog.value.archivedAt.Some? then Attempt([], None)
      else Attempt([ReplaceCatalog(s.catalog.value.(archivedAt := Some(at)))], None)
    case Restore =>
      if s.catalog.None? then Raise(NotFound)
      else Attempt([ReplaceCatalog(s.catalog.value.(archivedAt := None))], None)
    case Rename(display) =>
      if s.catalog.None? then Raise(NotFound)
      else if s.catalog.value.archivedAt.Some? then Raise(Archived)
      else Attempt([ReplaceCatalog(s.catalog.value.(name := display))], None)
  }

  // ----------------------------------------------------------------- crashes

  /** The first `budget` actions. */
  function Execute(s: Shelf, actions: seq<Action>, budget: nat): Shelf
    decreases |actions|
  {
    if actions == [] || budget == 0 then s else Execute(Do(s, actions[0]), actions[1..], budget - 1)
  }

  datatype Reply = Succeeded | Failed(error: Error) | Crashed

  /** An operation whose process dies after `budget` file actions. */
  function Perform(disk: Disk, id: Id, op: Op, budget: nat): (Disk, Reply) {
    var plan := Plan(disk, id, op);
    var after := if plan.actions == [] || budget == 0 then disk
                 else disk[id := Execute(ShelfOf(disk, id), plan.actions, budget)];
    (after, if budget < |plan.actions| then Crashed else if plan.error.Some? then Failed(plan.error.value)
     else Succeeded)
  }

  datatype Try = Try(id: Id, op: Op, budget: nat)

  function Run(disk: Disk, tries: seq<Try>): Disk
    decreases |tries|
  {
    if tries == [] then disk
    else Run(Perform(disk, tries[0].id, tries[0].op, tries[0].budget).0, tries[1..])
  }
}
