/** The store object. Its process dies when `budget` file actions have been made; every
    method is proved to leave the prefix of its plan that this allows. */
module BlueprintFiles {
  import opened Blueprints
  import opened BlueprintTheorems
  import opened Wrappers

  /** The disk after the first `k` actions on one shelf. */
  function Written(disk: Disk, id: Id, actions: seq<Action>, k: nat): Disk {
    if actions == [] || k == 0 then disk else disk[id := Execute(ShelfOf(disk, id), actions, k)]
  }

  lemma {:induction false} ExecuteNext(s: Shelf, actions: seq<Action>, k: nat)
    requires k < |actions|
    ensures Execute(s, actions, k + 1) == Do(Execute(s, actions, k), actions[k])
    decreases k
  {
    if k == 0 {
      assert Execute(Do(s, actions[0]), actions[1..], 0) == Do(s, actions[0]);
    } else {
      ExecuteNext(Do(s, actions[0]), actions[1..], k - 1);
    }
  }

  lemma {:induction false} ExecuteWhole(s: Shelf, actions: seq<Action>, k: nat)
    requires k >= |actions|
    ensures Execute(s, actions, k) == Execute(s, actions, |actions|)
    decreases |actions|
  {
    if actions != [] { ExecuteWhole(Do(s, actions[0]), actions[1..], k - 1); }
  }

  class BlueprintStore {
    var disk: Disk
    var budget: nat

    constructor (budget: nat)
      ensures Valid() && disk == map[] && this.budget == budget
    {
      disk, this.budget := map[], budget;
    }

    /** Every shelf is consistent, whatever crashed. */
    ghost predicate Valid()
      reads this
    {
      DiskOk(disk)
    }

    /** `done` of the planned actions are on disk. */
    ghost predicate At(d0: Disk, id: Id, actions: seq<Action>, b0: nat, done: nat)
      reads this
    {
      && done <= |actions| && done <= b0 && budget == b0 - done
      && disk == Written(d0, id, actions, done)
    }

    lemma Finished(d0: Disk, id: Id, op: Op, b0: nat, done: nat)
      requires At(d0, id, Plan(d0, id, op).actions, b0, done)
      requires done == |Plan(d0, id, op).actions| || done == b0
      ensures disk == Perform(d0, id, op, b0).0
    {
      if done == |Plan(d0, id, op).actions| { ExecuteWhole(ShelfOf(d0, id), Plan(d0, id, op).actions, b0); }
    }

    /** One atomic create, replace or unlink, unless the process dies first. */
    method Write(id: Id, a: Action, ghost d0: Disk, ghost actions: seq<Action>, ghost b0: nat, ghost done: nat)
      returns (alive: bool)
      requires At(d0, id, actions, b0, done) && done < |actions| && actions[done] == a
      modifies this
      ensures alive == (done < b0)
      ensures At(d0, id, actions, b0, if alive then done + 1 else done)
    {
      if budget == 0 {
        return false;
      }
      ExecuteNext(ShelfOf(d0, id), actions, done);
      budget := budget - 1;
      disk := disk[id := Do(ShelfOf(disk, id), a)];
      alive := true;
    }

    method Publish(id: Id, expected: int, now: Time) returns (reply: Reply)
      requires Valid()
      modifies this
      ensures Valid() && (disk, reply) == Perform(old(disk), id, Op.Publish(expected, now), old(budget))
    {
      PerformDiskOk(disk, id, Op.Publish(expected, now), budget);
      ghost var d0, b0, actions := disk, budget, Plan(disk, id, Op.Publish(expected, now)).actions;
      ghost var done := 0;
      if expected < 1 {
        return Failed(InvalidRevision);
      }
      var s := ShelfOf(disk, id);
      if s.catalog.None? {
        return Failed(NotFound);
      }
      if s.catalog.value.archivedAt.Some? {
        return Failed(Archived);
      }
      var intent;
      if s.intent.Some? {
        intent := s.intent.value;
        if intent.expected != expected {
          return Failed(IntentRevisionMismatch);
        }
      } else {
        if s.draft.None? {
          return Failed(NotFound);
        }
        if s.draft.value.revision != expected {
          return Failed(RevisionConflict);
        }
        intent := NewIntent(s.catalog.value, s.draft.value, expected, now);
        var alive := Write(id, CreateIntent(intent), d0, actions, b0, done);
        if !alive {
          return Crashed;
        }
        done := 1;
        assert Execute(s, actions, 1) == Do(s, actions[0]) by { ExecuteNext(s, actions, 0); }
      }
      reply, done := CompleteIntent(id, intent, d0, actions, b0, done);
      Finished(d0, id, Op.Publish(expected, now), b0, done);
    }

    /** Completes a durable intent, step by missing step. */
    method CompleteIntent(id: Id, intent: Intent, ghost d0: Disk, ghost actions: seq<Action>, ghost b0: nat,
                          ghost start: nat)
      returns (reply: Reply, ghost done: nat)
      requires At(d0, id, actions, b0, start)
      requires ShelfOf(disk, id).catalog.Some? && ShelfOf(disk, id).intent == Some(intent)
      requires actions[start..] == CompletePlan(ShelfOf(disk, id), ShelfOf(disk, id).catalog.value, intent).actions
      modifies this
      ensures At(d0, id, actions, b0, done)
      ensures var plan := CompletePlan(old(ShelfOf(disk, id)), old(ShelfOf(disk, id)).catalog.value, intent);
        if plan.error.Some? then reply == Failed(plan.error.value) && done == |actions|
        else if b0 < |actions| then reply == Crashed && done == b0
        else reply == Succeeded && done == |actions|
    {
      done := start;
      var s := ShelfOf(disk, id);
      var entry, v := s.catalog.value, intent.version;
      var error := CheckIntent(s, entry, intent);
      if error.Some? {
        return Failed(error.value), done;
      }
      ghost var tail := (if s.draft.Some? then [RemoveDraft] else []) + [RemoveIntent];
      assert actions[done..] == SnapshotActions(s, v) + (CatalogActions(entry, v) + tail);
      var alive;
      alive, done := RecordVersion(id, s, entry, v, d0, actions, b0, done, tail);
      if !alive {
        return Crashed, done;
      }
      alive, done := ClearDraft(id, s, d0, actions, b0, done);
      reply := if alive then Succeeded else Crashed;
    }

    method RecordVersion(id: Id, s: Shelf, entry: Entry, v: Version, ghost d0: Disk, ghost actions: seq<Action>,
                         ghost b0: nat, ghost start: nat, ghost rest: seq<Action>)
      returns (alive: bool, ghost done: nat)
      requires At(d0, id, actions, b0, start)
      requires actions[start..] == SnapshotActions(s, v) + (CatalogActions(entry, v) + rest)
      modifies this
      ensures At(d0, id, actions, b0, done)
      ensures if alive then actions[done..] == rest else done == b0 < |actions|
    {
      done, alive := start, true;
      if v.number !in s.versions {
        alive := WriteNext(id, CreateVersion(v), d0, actions, b0, done, CatalogActions(entry, v) + rest);
        if !alive {
          return;
        }
        done := done + 1;
      }
      if entry.latest != Some(v.number) {
        alive := WriteNext(id, ReplaceCatalog(entry.(latest := Some(v.number))), d0, actions, b0, done, rest);
        if !alive {
          return;
        }
        done := done + 1;
      }
    }

    method ClearDraft(id: Id, s: Shelf, ghost d0: Disk, ghost actions: seq<Action>, ghost b0: nat, ghost start: nat)
      returns (alive: bool, ghost done: nat)
      requires At(d0, id, actions, b0, start)
      requires actions[start..] == (if s.draft.Some? then [RemoveDraft] else []) + [RemoveIntent]
      modifies this
      ensures At(d0, id, actions, b0, done)
      ensures if alive then done == |actions| else done == b0 < |actions|
    {
      done, alive := start, true;
      if s.draft.Some? {
        alive := WriteNext(id, RemoveDraft, d0, actions, b0, done, [RemoveIntent]);
        if !alive {
          return;
        }
        done := done + 1;
      }
      alive := WriteNext(id, RemoveIntent, d0, actions, b0, done, []);
      if !alive {
        return;
      }
      done := done + 1;
    }

    static method CheckIntent(s: Shelf, entry: Entry, intent: Intent) returns (error: Option<Error>)
      ensures error == CompletePlan(s, entry, intent).error
    {
      var v := intent.version;
      if !CatalogAgrees(entry, v.number) {
        return Some(CatalogVersionMismatch);
      }
      if s.draft.Some? {
        if s.draft.value.revision != intent.expected {
          return Some(DraftRevisionMismatch);
        }
        if s.draft.value.content != v.content {
          return Some(DraftContentMismatch);
        }
      }
      if v.number in s.versions && s.versions[v.number] != v {
        return Some(VersionContentMismatch);
      }
      error := None;
    }

    /** A write that is followed by `rest`. */
    method WriteNext(id: Id, a: Action, ghost d0: Disk, ghost actions: seq<Action>, ghost b0: nat, ghost done: nat,
                     ghost rest: seq<Action>)
      returns (alive: bool)
      requires At(d0, id, actions, b0, done) && actions[done..] == [a] + rest
      modifies this
      ensures alive == (done < b0) && done < |actions|
      ensures At(d0, id, actions, b0, if alive then done + 1 else done)
      ensures actions[done + 1..] == rest
    {
      assert actions[done..][0] == a && actions[done..][1..] == rest;
      assert actions[done + 1..] == actions[done..][1..];
      alive := Write(id, a, d0, actions, b0, done);
    }

    /** Shared by create, create-from-version and fork. */
    method NewDraft(id: Id, content: Content, owner: string, base: Option<nat>, now: Time, newOnly: bool)
      returns (reply: Reply)
      modifies this
      ensures var plan := NewDraftPlan(old(ShelfOf(disk, id)), content, owner, base, now, newOnly);
        && disk == Written(old(disk), id, plan.actions, old(budget))
        && reply == if old(budget) < |plan.actions| then Crashed
                    else if plan.error.Some? then Failed(plan.error.value) else Succeeded
    {
      var s := ShelfOf(disk, id);
      ghost var d0, b0, actions := disk, budget, NewDraftPlan(s, content, owner, base, now, newOnly).actions;
      ghost var done := 0;
      if s.intent.Some? {
        return Failed(PublishPending);
      }
      if s.catalog.Some? && s.catalog.value.archivedAt.Some? {
        return Failed(Archived);
      }
      if newOnly && (s.catalog.Some? || s.draft.Some?) {
        return Failed(AlreadyExists);
      }
      if s.draft.Some? {
        return Failed(AlreadyExists);
      }
      if s.catalog.Some? {
        if base.Some? && base.value !in s.versions {
          return Failed(NotFound);
        }
      } else {
        if base.Some? {
          return Failed(NotFound);
        }
        var alive := Write(id, CreateCatalog(Entry(content.name, None, None)), d0, actions, b0, done);
        if !alive {
          return Crashed;
        }
        done := 1;
      }
      var alive := Write(id, CreateDraft(Draft(content, 1, base, owner, now, now)), d0, actions, b0, done);
      if !alive {
        return Crashed;
      }
      ExecuteWhole(s, actions, b0);
      reply := Succeeded;
    }

    method CreateOriginal(id: Id, content: Content, owner: string, base: Option<nat>, now: Time) returns (reply: Reply)
      requires Valid()
      modifies this
      ensures Valid() && (disk, reply) == Perform(old(disk), id, Create(content, owner, base, now), old(budget))
    {
      PerformDiskOk(disk, id, Create(content, owner, base, now), budget);
      if content.source.Some? {
        return Failed(UnverifiedSource);
      }
      reply := NewDraft(id, content, owner, base, now, false);
    }

    method CreateDraftFromVersion(id: Id, version: nat, owner: string, now: Time) returns (reply: Reply)
      requires Valid()
      modifies this
      ensures Valid() && (disk, reply) == Perform(old(disk), id, CreateFrom(version, owner, now), old(budget))
    {
      PerformDiskOk(disk, id, CreateFrom(version, owner, now), budget);
      var original := VersionAt(disk, Ref(id, version));
      if original.None? {
        return Failed(NotFound);
      }
      reply := NewDraft(id, original.value.content, owner, Some(version), now, false);
    }

    method ForkDraft(source: Ref, id: Id, owner: string, name: Option<string>, now: Time) returns (reply: Reply)
      requires Valid()
      modifies this
      ensures Valid() && (disk, reply) == Perform(old(disk), id, Fork(source, owner, name, now), old(budget))
    {
      PerformDiskOk(disk, id, Fork(source, owner, name, now), budget);
      var original := VersionAt(disk, source);
      if original.None? {
        return Failed(NotFound);
      }
      reply := NewDraft(id, ForkedContent(original.value, source, name), owner, None, now, true);
    }

    method UpdateDraft(id: Id, content: Content, expected: int, now: Time) returns (reply: Reply)
      requires Valid()
      modifies this
      ensures Valid() && (disk, reply) == Perform(old(disk), id, Update(content, expected, now), old(budget))
    {
      PerformDiskOk(disk, id, Update(content, expected, now), budget);
      ghost var d0, b0, actions := disk, budget, Plan(disk, id, Update(content, expected, now)).actions;
      if expected < 1 {
        return Failed(InvalidRevision);
      }
      var s := ShelfOf(disk, id);
      if s.intent.Some? {
        return Failed(PublishPending);
      }
      if s.catalog.None? {
        return Failed(NotFound);
      }
      if s.catalog.value.archivedAt.Some? {
        return Failed(Archived);
      }
      if s.draft.None? {
        return Failed(NotFound);
      }
      var current := s.draft.value;
      if current.revision != expected {
        return Failed(RevisionConflict);
      }
      var kept := content.(source := current.content.source);
      var updated := Draft(kept, current.revision + 1, current.base, current.owner, current.createdAt, now);
      var alive := Write(id, ReplaceDraft(updated), d0, actions, b0, 0);
      if !alive {
        return Crashed;
      }
      Finished(d0, id, Update(content, expected, now), b0, 1);
      reply := Succeeded;
    }

    method DeleteDraft(id: Id) returns (reply: Reply)
      requires Valid()
      modifies this
      ensures Valid() && (disk, reply) == Perform(old(disk), id, Delete, old(budget))
    {
      PerformDiskOk(disk, id, Delete, budget);
      ghost var d0, b0, actions := disk, budget, Plan(disk, id, Delete).actions;
      ghost var done := 0;
      var s := ShelfOf(disk, id);
      if s.catalog.None? {
        return Failed(NotFound);
      }
      var entry := s.catalog.value;
      if entry.archivedAt.Some? {
        return Failed(Archived);
      }
      if s.intent.Some? {
        return Failed(PublishPending);
      }
      if s.draft.Some? {
        var alive := Write(id, RemoveDraft, d0, actions, b0, done);
        if !alive {
          return Crashed;
        }
        done := 1;
      } else if entry.latest.Some? {
        return Failed(NotFound);
      }
      if entry.latest.None? {
        var alive := Write(id, RemoveCatalog, d0, actions, b0, done);
        if !alive {
          Finished(d0, id, Delete, b0, done);
          return Crashed;
        }
        done := done + 1;
      }
      Finished(d0, id, Delete, b0, done);
      reply := Succeeded;
    }

    method EditCatalog(id: Id, op: Op) returns (reply: Reply)
      requires Valid() && (op.Archive? || op.Restore? || op.Rename?)
      modifies this
      ensures Valid() && (disk, reply) == Perform(old(disk), id, op, old(budget))
    {
      PerformDiskOk(disk, id, op, budget);
      ghost var d0, b0, actions := disk, budget, Plan(disk, id, op).actions;
      var s := ShelfOf(disk, id);
      if s.catalog.None? {
        return Failed(NotFound);
      }
      var entry := s.catalog.value;
      match op {
        case Archive(at) =>
          if entry.latest.None? {
            return Failed(Unpublished);
          }
          if entry.archivedAt.Some? {
            return Succeeded;
          }
          entry := entry.(archivedAt := Some(at));
        case Restore => entry := entry.(archivedAt := None);
        case Rename(display) =>
          if entry.archivedAt.Some? {
            return Failed(Archived);
          }
          entry := entry.(name := display);
      }
      var alive := Write(id, ReplaceCatalog(entry), d0, actions, b0, 0);
      if !alive {
        return Crashed;
      }
      Finished(d0, id, op, b0, 1);
      reply := Succeeded;
    }
  }
}
