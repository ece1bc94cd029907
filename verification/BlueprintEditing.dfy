/** What each operation does to a blueprint when no crash interrupts it, and exactly when
    it does it: drafts keep what was written, and publishing freezes it. */
module BlueprintEditing {
  import opened Blueprints
  import opened BlueprintTheorems
  import opened Wrappers

  /** The shelf of `id`, and only that shelf, is now `s`. */
  ghost predicate OnlyShelfBecomes(before: Disk, after: Disk, id: Id, s: Shelf) {
    ShelfOf(after, id) == s && forall e | e != id :: ShelfOf(after, e) == ShelfOf(before, e)
  }

  predicate Unarchived(s: Shelf) {
    s.catalog.Some? && s.catalog.value.archivedAt.None?
  }

  /** No archived catalog stands in the way of a new draft, and nothing is in its place. */
  predicate RoomForDraft(s: Shelf) {
    s.intent.None? && s.draft.None? && (s.catalog.Some? ==> Unarchived(s))
  }

  /** The shelf with a first draft, and with a catalog entry for it if it had none. */
  function WithDraft(s: Shelf, name: string, source: Option<Ref>, body: string, base: Option<nat>, owner: string,
                     now: Time)
    : Shelf
  {
    s.(catalog := if s.catalog.Some? then s.catalog else Some(Entry(name, None, None)),
       draft := Some(Draft(Content(name, source, body), 1, base, owner, now, now)))
  }

  // ------------------------------------------------------------------ drafting

  lemma PlannedDraft(disk: Disk, id: Id, content: Content, owner: string, base: Option<nat>, now: Time, newOnly: bool,
                     budget: nat)
    requires budget >= 2
    ensures var s := ShelfOf(disk, id); var plan := NewDraftPlan(s, content, owner, base, now, newOnly);
      && (plan.error.None? <==> RoomForDraft(s) && (newOnly ==> s.catalog.None?)
                                && (base.Some? ==> s.catalog.Some? && base.value in s.versions))
      && |plan.actions| <= 2
      && (plan.error.None? ==>
            Execute(s, plan.actions, budget) ==
            WithDraft(s, content.name, content.source, content.body, base, owner, now))
      && (plan.error.Some? ==> plan.actions == [])
  {
    var s := ShelfOf(disk, id);
    TwoActions(s, NewDraftPlan(s, content, owner, base, now, newOnly).actions, budget);
  }

  /** A covered operation that makes no draft writes nothing. */
  lemma PerformedPlan(disk: Disk, id: Id, op: Op, budget: nat)
    requires budget >= |Plan(disk, id, op).actions|
    ensures var (after, reply) := Perform(disk, id, op, budget); var plan := Plan(disk, id, op);
      && (reply == Succeeded <==> plan.error.None?) && reply != Crashed
      && OnlyShelfBecomes(disk, after, id, Execute(ShelfOf(disk, id), plan.actions, budget))
  {
  }

  /** An original draft is created exactly where there is room for it, without lineage and
      from an existing version if any, and holds what was given. */
  lemma CreateWrites(disk: Disk, id: Id, content: Content, owner: string, base: Option<nat>, now: Time, budget: nat)
    requires budget >= 2
    ensures var s := ShelfOf(disk, id);
      var (after, reply) := Perform(disk, id, Create(content, owner, base, now), budget);
      && reply != Crashed
      && (reply == Succeeded <==> content.source.None? && RoomForDraft(s)
                                  && (base.Some? ==> s.catalog.Some? && base.value in s.versions))
      && OnlyShelfBecomes(disk, after, id, if reply == Succeeded then
                            WithDraft(s, content.name, None, content.body, base, owner, now) else s)
  {
    PlannedDraft(disk, id, content, owner, base, now, false, budget);
    PerformedPlan(disk, id, Create(content, owner, base, now), budget);
  }

  /** A draft from a version holds that version's content, lineage included. */
  lemma CreateFromWrites(disk: Disk, id: Id, version: nat, owner: string, now: Time, budget: nat)
    requires DiskOk(disk) && budget >= 2
    ensures var s := ShelfOf(disk, id);
      var (after, reply) := Perform(disk, id, CreateFrom(version, owner, now), budget);
      && reply != Crashed
      && (reply == Succeeded <==> version in s.versions && RoomForDraft(s) && s.catalog.Some?)
      && OnlyShelfBecomes(disk, after, id, if reply == Succeeded then
                            var c := s.versions[version].content;
                            WithDraft(s, c.name, c.source, c.body, Some(version), owner, now) else s)
  {
    var s := ShelfOf(disk, id);
    if version in s.versions {
      PlannedDraft(disk, id, s.versions[version].content, owner, Some(version), now, false, budget);
    }
    PerformedPlan(disk, id, CreateFrom(version, owner, now), budget);
  }

  /** A fork holds the body of the version it names, under its own name if it has one, and
      records where it comes from. */
  lemma ForkWrites(disk: Disk, id: Id, source: Ref, owner: string, name: Option<string>, now: Time, budget: nat)
    requires DiskOk(disk) && budget >= 2
    ensures var s := ShelfOf(disk, id); var (after, reply) := Perform(disk, id, Fork(source, owner, name, now), budget);
      && reply != Crashed
      && (reply == Succeeded <==> VersionAt(disk, source).Some? && s.catalog.None?)
      && OnlyShelfBecomes(disk, after, id, if reply == Succeeded then
                            var c := VersionAt(disk, source).value.content;
                            var title := if name.Some? then name.value else c.name;
                            WithDraft(s, title, Some(source), c.body, None, owner, now)
                          else s)
  {
    var original := VersionAt(disk, source);
    if original.Some? {
      PlannedDraft(disk, id, ForkedContent(original.value, source, name), owner, None, now, true, budget);
    }
    PerformedPlan(disk, id, Fork(source, owner, name, now), budget);
  }

  /** An update replaces name and body, keeps lineage, base, owner and date of the draft,
      and is accepted exactly at the draft's revision while nothing is pending or archived. */
  lemma UpdateWrites(disk: Disk, id: Id, content: Content, expected: int, now: Time, budget: nat)
    requires DiskOk(disk) && budget >= 1
    ensures var s := ShelfOf(disk, id); var (after, reply) := Perform(disk, id, Update(content, expected, now), budget);
      && reply != Crashed
      && (reply == Succeeded <==>
            Unarchived(s) && s.intent.None? && s.draft.Some? && s.draft.value.revision == expected)
      && OnlyShelfBecomes(disk, after, id, if reply == Succeeded then
                            var d := s.draft.value;
                            var updated := Content(content.name, d.content.source, content.body);
                            s.(draft := Some(Draft(updated, expected + 1, d.base, d.owner, d.createdAt, now)))
                          else s)
  {
    var s := ShelfOf(disk, id);
    TwoActions(s, Plan(disk, id, Update(content, expected, now)).actions, budget);
    PerformedPlan(disk, id, Update(content, expected, now), budget);
  }

  /** A deletion removes the draft, and the catalog entry of what was never published. */
  lemma DeleteRemoves(disk: Disk, id: Id, budget: nat)
    requires DiskOk(disk) && budget >= 2
    ensures var s := ShelfOf(disk, id); var (after, reply) := Perform(disk, id, Delete, budget);
      && reply != Crashed
      && (reply == Succeeded <==>
            Unarchived(s) && s.intent.None? && (s.draft.Some? || s.catalog.value.latest.None?))
      && OnlyShelfBecomes(disk, after, id, if reply == Succeeded then
                            s.(draft := None, catalog := if s.catalog.value.latest.Some? then s.catalog else None)
                          else s)
  {
    var s := ShelfOf(disk, id);
    TwoActions(s, Plan(disk, id, Delete).actions, budget);
    PerformedPlan(disk, id, Delete, budget);
  }

  // ------------------------------------------------------------------- catalog

  /** Archiving needs a published version, keeps the first date, and touches only the
      catalog entry. */
  lemma ArchiveMarks(disk: Disk, id: Id, at: Time, budget: nat)
    requires budget >= 1
    ensures var s := ShelfOf(disk, id); var (after, reply) := Perform(disk, id, Archive(at), budget);
      && reply != Crashed && (reply == Succeeded <==> s.catalog.Some? && s.catalog.value.latest.Some?)
      && OnlyShelfBecomes(disk, after, id, if reply == Succeeded then
                            var e := s.catalog.value;
                            var date := if e.archivedAt.Some? then e.archivedAt else Some(at);
                            s.(catalog := Some(Entry(e.name, date, e.latest)))
                          else s)
  {
    TwoActions(ShelfOf(disk, id), Plan(disk, id, Archive(at)).actions, budget);
    PerformedPlan(disk, id, Archive(at), budget);
  }

  lemma RestoreClears(disk: Disk, id: Id, budget: nat)
    requires budget >= 1
    ensures var s := ShelfOf(disk, id); var (after, reply) := Perform(disk, id, Restore, budget);
      && reply != Crashed && (reply == Succeeded <==> s.catalog.Some?)
      && OnlyShelfBecomes(disk, after, id, if reply == Succeeded then
                            s.(catalog := Some(Entry(s.catalog.value.name, None, s.catalog.value.latest))) else s)
  {
    TwoActions(ShelfOf(disk, id), Plan(disk, id, Restore).actions, budget);
    PerformedPlan(disk, id, Restore, budget);
  }

  lemma RenameNames(disk: Disk, id: Id, display: string, budget: nat)
    requires budget >= 1
    ensures var s := ShelfOf(disk, id); var (after, reply) := Perform(disk, id, Rename(display), budget);
      && reply != Crashed && (reply == Succeeded <==> Unarchived(s))
      && OnlyShelfBecomes(disk, after, id, if reply == Succeeded then
                            s.(catalog := Some(Entry(display, None, s.catalog.value.latest))) else s)
  {
    TwoActions(ShelfOf(disk, id), Plan(disk, id, Rename(display)).actions, budget);
    PerformedPlan(disk, id, Rename(display), budget);
  }

  // ---------------------------------------------------------------- publishing

  /** The number of the next version. */
  function NextVersion(s: Shelf): nat {
    Latest(s) + 1
  }

  /** A publish that nothing interrupts is accepted exactly at the draft's revision, freezes
      the draft's content under the next number, makes it the latest and removes the draft. */
  lemma PublishFreezes(disk: Disk, id: Id, expected: int, now: Time, budget: nat)
    requires DiskOk(disk) && budget >= 5 && ShelfOf(disk, id).intent.None?
    ensures var s := ShelfOf(disk, id); var (after, reply) := Perform(disk, id, Op.Publish(expected, now), budget);
      && reply != Crashed
      && (reply == Succeeded <==> Unarchived(s) && s.draft.Some? && s.draft.value.revision == expected)
      && OnlyShelfBecomes(disk, after, id, if reply == Succeeded then
                            var n := NextVersion(s);
                            Shelf(Some(Entry(s.catalog.value.name, None, Some(n))), None, None,
                                  s.versions[n := Version(s.draft.value.content, n, now)])
                          else s)
  {
    var s := ShelfOf(disk, id);
    PublishCommitsAtIntent(s, expected, now, budget);
    PerformedPlan(disk, id, Op.Publish(expected, now), budget);
  }

  // --------------------------------------------------------------- round trips

  /** Whatever draft a shelf holds, publishing its revision makes its content the next
      version. */
  lemma PublishedDraft(disk: Disk, id: Id, d: Draft, now: Time, budget: nat)
    requires DiskOk(disk) && budget >= 5
    requires var s := ShelfOf(disk, id); s.intent.None? && Unarchived(s) && s.draft == Some(d)
    ensures var (after, reply) := Perform(disk, id, Op.Publish(d.revision, now), budget);
      var n := NextVersion(ShelfOf(disk, id));
      && reply == Succeeded && VersionAt(after, Ref(id, n)) == Some(Version(d.content, n, now))
      && ShelfOf(after, id).draft.None? && Latest(ShelfOf(after, id)) == n
  {
    PublishFreezes(disk, id, d.revision, now, budget);
  }

  /** What an update wrote is what the next publish freezes. */
  lemma UpdateThenPublish(disk: Disk, id: Id, content: Content, expected: int, now: Time, at: Time, budget: nat)
    requires DiskOk(disk) && budget >= 5 && Perform(disk, id, Update(content, expected, now), budget).1 == Succeeded
    ensures var written := Perform(disk, id, Update(content, expected, now), budget).0;
      var (after, reply) := Perform(written, id, Op.Publish(expected + 1, at), budget);
      var s := ShelfOf(disk, id); var n := NextVersion(s);
      && s.draft.Some? && reply == Succeeded
      && VersionAt(after, Ref(id, n)) ==
         Some(Version(Content(content.name, s.draft.value.content.source, content.body), n, at))
  {
    UpdateWrites(disk, id, content, expected, now, budget);
    PerformDiskOk(disk, id, Update(content, expected, now), budget);
    var written := Perform(disk, id, Update(content, expected, now), budget).0;
    PublishedDraft(written, id, ShelfOf(written, id).draft.value, at, budget);
  }

  /** What was created is what the first publish freezes. */
  lemma CreateThenPublish(disk: Disk, id: Id, content: Content, owner: string, base: Option<nat>, now: Time, at: Time,
                          budget: nat)
    requires DiskOk(disk) && budget >= 5 && Perform(disk, id, Create(content, owner, base, now), budget).1 == Succeeded
    ensures var written := Perform(disk, id, Create(content, owner, base, now), budget).0;
      var (after, reply) := Perform(written, id, Op.Publish(1, at), budget);
      var n := NextVersion(ShelfOf(disk, id));
      && reply == Succeeded
      && VersionAt(after, Ref(id, n)) == Some(Version(Content(content.name, None, content.body), n, at))
  {
    CreateWrites(disk, id, content, owner, base, now, budget);
    PerformDiskOk(disk, id, Create(content, owner, base, now), budget);
    var written := Perform(disk, id, Create(content, owner, base, now), budget).0;
    PublishedDraft(written, id, ShelfOf(written, id).draft.value, at, budget);
  }

  /** A published fork holds the body of its source and names it. */
  lemma ForkThenPublish(disk: Disk, id: Id, source: Ref, owner: string, name: Option<string>, now: Time, at: Time,
                        budget: nat)
    requires DiskOk(disk) && budget >= 5 && Perform(disk, id, Fork(source, owner, name, now), budget).1 == Succeeded
    ensures var written := Perform(disk, id, Fork(source, owner, name, now), budget).0;
      var (after, reply) := Perform(written, id, Op.Publish(1, at), budget);
      && VersionAt(disk, source).Some? && reply == Succeeded
      && var c := VersionAt(disk, source).value.content;
         VersionAt(after, Ref(id, 1)) ==
         Some(Version(Content(if name.Some? then name.value else c.name, Some(source), c.body), 1, at))
  {
    ForkWrites(disk, id, source, owner, name, now, budget);
    PerformDiskOk(disk, id, Fork(source, owner, name, now), budget);
    var written := Perform(disk, id, Fork(source, owner, name, now), budget).0;
    PublishedDraft(written, id, ShelfOf(written, id).draft.value, at, budget);
  }
}
