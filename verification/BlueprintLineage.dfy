/** Fork lineage: every `source` names a version published earlier, so following sources
    ends; and what a crash inside a fork leaves behind. */
module BlueprintLineage {
  import opened Blueprints
  import opened BlueprintTheorems
  import opened Wrappers

  /** The versions on disk in the order in which they were published. */
  ghost predicate PublishOrder(disk: Disk, order: seq<Ref>) {
    && (forall ref: Ref :: VersionAt(disk, ref).Some? <==> ref in order)
    && (forall i, j | 0 <= i < j < |order| :: order[i] != order[j])
    && (forall i | 0 <= i < |order| :: SourceAmong(VersionAt(disk, order[i]).value.content, order[..i]))
  }

  predicate SourceAmong(content: Content, refs: seq<Ref>) {
    content.source.Some? ==> content.source.value in refs
  }

  /** Unpublished content on a shelf also names published versions. */
  predicate Sourced(s: Shelf, refs: seq<Ref>) {
    && (s.draft.Some? ==> SourceAmong(s.draft.value.content, refs))
    && (s.intent.Some? ==> SourceAmong(s.intent.value.version.content, refs))
  }

  ghost predicate LineageOk(disk: Disk, order: seq<Ref>) {
    && PublishOrder(disk, order)
    && forall id | id in disk :: Sourced(disk[id], order)
  }

  /** Content that an action brings to the shelf as a draft or as an intent. */
  predicate ActionSourced(a: Action, refs: seq<Ref>) {
    match a
    case CreateDraft(d) => SourceAmong(d.content, refs)
    case ReplaceDraft(d) => SourceAmong(d.content, refs)
    case CreateIntent(i) => SourceAmong(i.version.content, refs)
    case CreateVersion(v) => SourceAmong(v.content, refs)
    case _ => true
  }

  ghost predicate AllSourced(actions: seq<Action>, refs: seq<Ref>) {
    forall i | 0 <= i < |actions| :: ActionSourced(actions[i], refs)
  }

  lemma {:induction false} ExecuteSourced(s: Shelf, actions: seq<Action>, budget: nat, refs: seq<Ref>)
    requires Sourced(s, refs) && AllSourced(actions, refs)
    ensures Sourced(Execute(s, actions, budget), refs)
    decreases |actions|
  {
    if actions != [] && budget > 0 {
      assert ActionSourced(actions[0], refs);
      forall i | 0 <= i < |actions[1..]| ensures ActionSourced(actions[1..][i], refs) {
        assert actions[1..][i] == actions[i + 1];
      }
      ExecuteSourced(Do(s, actions[0]), actions[1..], budget - 1, refs);
    }
  }

  lemma VersionSourced(disk: Disk, order: seq<Ref>, ref: Ref)
    requires PublishOrder(disk, order) && VersionAt(disk, ref).Some?
    ensures SourceAmong(VersionAt(disk, ref).value.content, order)
  {
    var i :| 0 <= i < |order| && order[i] == ref;
    assert SourceAmong(VersionAt(disk, order[i]).value.content, order[..i]);
  }

  lemma NewDraftSourced(s: Shelf, content: Content, owner: string, base: Option<nat>, now: Time, newOnly: bool,
                        refs: seq<Ref>)
    requires SourceAmong(content, refs)
    ensures AllSourced(NewDraftPlan(s, content, owner, base, now, newOnly).actions, refs)
  {
  }

  lemma CompletionSourced(s: Shelf, entry: Entry, intent: Intent, refs: seq<Ref>)
    requires SourceAmong(intent.version.content, refs)
    ensures AllSourced(CompletePlan(s, entry, intent).actions, refs)
  {
  }

  lemma PublishSourced(s: Shelf, expected: int, now: Time, refs: seq<Ref>)
    requires Sourced(s, refs)
    ensures AllSourced(PublishPlan(s, expected, now).actions, refs)
  {
    if s.catalog.Some? {
      var entry := s.catalog.value;
      if s.intent.Some? {
        CompletionSourced(s, entry, s.intent.value, refs);
      } else if s.draft.Some? {
        var intent := NewIntent(entry, s.draft.value, expected, now);
        CompletionSourced(s.(intent := Some(intent)), entry, intent, refs);
      }
    }
  }

  /** Only a fork introduces lineage, and it names a version that exists. */
  lemma PlanSourced(disk: Disk, id: Id, op: Op, order: seq<Ref>)
    requires LineageOk(disk, order)
    ensures AllSourced(Plan(disk, id, op).actions, order)
  {
    var s := ShelfOf(disk, id);
    assert Sourced(s, order);
    match op
    case Create(content, owner, base, now) =>
      if content.source.None? { NewDraftSourced(s, content, owner, base, now, false, order); }
    case CreateFrom(version, owner, now) =>
      if version in s.versions {
        assert VersionAt(disk, Ref(id, version)) == Some(s.versions[version]);
        VersionSourced(disk, order, Ref(id, version));
        NewDraftSourced(s, s.versions[version].content, owner, Some(version), now, false, order);
      }
    case Fork(source, owner, name, now) =>
      var original := VersionAt(disk, source);
      if original.Some? {
        assert source in order;
        NewDraftSourced(s, ForkedContent(original.value, source, name), owner, None, now, true, order);
      }
    case Publish(expected, now) => PublishSourced(s, expected, now, order);
    case _ =>
  }

  lemma AppendedOrder(disk: Disk, order: seq<Ref>, id: Id, s: Shelf, v: Version)
    requires LineageOk(disk, order) && Sourced(s, order) && SourceAmong(v.content, order)
    requires v.number !in ShelfOf(disk, id).versions && s.versions == ShelfOf(disk, id).versions[v.number := v]
    ensures LineageOk(disk[id := s], order + [Ref(id, v.number)])
  {
    var after, added, longer := disk[id := s], Ref(id, v.number), order + [Ref(id, v.number)];
    assert VersionAt(disk, added).None?;
    forall ref: Ref ensures VersionAt(after, ref) == (if ref == added then Some(v) else VersionAt(disk, ref)) {
      if ref.id != id { assert ShelfOf(after, ref.id) == ShelfOf(disk, ref.id); }
    }
    forall i | 0 <= i < |longer| ensures SourceAmong(VersionAt(after, longer[i]).value.content, longer[..i]) {
      if i < |order| {
        assert longer[..i] == order[..i] && longer[i] == order[i];
        assert SourceAmong(VersionAt(disk, order[i]).value.content, order[..i]);
      } else {
        assert longer[..i] == order;
      }
    }
    forall e | e in after ensures Sourced(after[e], longer) {
      if e != id { assert Sourced(disk[e], order); }
    }
  }

  lemma SameOrder(disk: Disk, order: seq<Ref>, id: Id, s: Shelf)
    requires LineageOk(disk, order) && Sourced(s, order) && s.versions == ShelfOf(disk, id).versions
    ensures LineageOk(disk[id := s], order)
  {
    var after := disk[id := s];
    forall ref: Ref ensures VersionAt(after, ref) == VersionAt(disk, ref) {
      if ref.id != id { assert ShelfOf(after, ref.id) == ShelfOf(disk, ref.id); }
    }
  }

  /** The version that a publish adds is the one its intent or its draft describes. */
  lemma AddedVersion(s: Shelf, expected: int, now: Time, budget: nat, order: seq<Ref>)
    requires ShelfOk(s) && Sourced(s, order)
    ensures var u := Execute(s, PublishPlan(s, expected, now).actions, budget);
      u.versions == s.versions ||
      exists v: Version ::
        v.number !in s.versions && u.versions == s.versions[v.number := v] && SourceAmong(v.content, order)
  {
    var u := Execute(s, PublishPlan(s, expected, now).actions, budget);
    PublishCommitsAtIntent(s, expected, now, budget);
    if s.intent.Some? {
      var v := s.intent.value.version;
      if v.number in s.versions { assert s.versions[v.number := v] == s.versions; }
    }
    if u.versions != s.versions {
      if s.intent.Some? {
        var v := s.intent.value.version;
        assert u.versions == s.versions[v.number := v];
      } else {
        var v := NewIntent(s.catalog.value, s.draft.value, expected, now).version;
        assert u.versions == s.versions[v.number := v];
      }
    }
  }

  lemma PerformLineage(disk: Disk, order: seq<Ref>, id: Id, op: Op, budget: nat) returns (longer: seq<Ref>)
    requires DiskOk(disk) && LineageOk(disk, order)
    ensures order <= longer && LineageOk(Perform(disk, id, op, budget).0, longer)
  {
    var s := ShelfOf(disk, id);
    var actions := Plan(disk, id, op).actions;
    var u := Execute(s, actions, budget);
    longer := order;
    if actions != [] && budget > 0 {
      PlanSourced(disk, id, op, order);
      ExecuteSourced(s, actions, budget, order);
      PerformKeeps(disk, id, op, budget);
      if u.versions == s.versions {
        SameOrder(disk, order, id, u);
      } else {
        AddedVersion(s, op.expected, op.now, budget, order);
        var v: Version :|
          v.number !in s.versions && u.versions == s.versions[v.number := v] && SourceAmong(v.content, order);
        AppendedOrder(disk, order, id, u, v);
        longer := order + [Ref(id, v.number)];
      }
    }
  }

  lemma {:induction false} RunLineage(disk: Disk, order: seq<Ref>, tries: seq<Try>) returns (longer: seq<Ref>)
    requires DiskOk(disk) && LineageOk(disk, order)
    ensures order <= longer && LineageOk(Run(disk, tries), longer)
    decreases |tries|
  {
    longer := order;
    if tries != [] {
      var t := tries[0];
      longer := PerformLineage(disk, order, t.id, t.op, t.budget);
      PerformDiskOk(disk, t.id, t.op, t.budget);
      longer := RunLineage(Perform(disk, t.id, t.op, t.budget).0, longer, tries[1..]);
    }
  }

  /** `chain[i + 1]` is the source of the version that `chain[i]` names. */
  ghost predicate SourceChain(disk: Disk, chain: seq<Ref>) {
    forall i | 0 <= i < |chain| - 1 ::
      VersionAt(disk, chain[i]).Some? && VersionAt(disk, chain[i]).value.content.source == Some(chain[i + 1])
  }

  /** A chain that starts at position `at` of the publish order has at most `at + 1`
      entries, and every one of them exists. */
  lemma {:induction false} ChainDescends(disk: Disk, order: seq<Ref>, chain: seq<Ref>, at: nat)
    requires PublishOrder(disk, order) && SourceChain(disk, chain)
    requires chain != [] && at < |order| && order[at] == chain[0]
    ensures |chain| <= at + 1
    ensures forall i | 0 <= i < |chain| :: chain[i] in order[..at + 1]
    decreases |chain|
  {
    if |chain| > 1 {
      assert SourceAmong(VersionAt(disk, order[at]).value.content, order[..at]);
      var next :| 0 <= next < at && order[next] == chain[1];
      forall i | 0 <= i < |chain[1..]| - 1
        ensures VersionAt(disk, chain[1..][i]).Some?
                && VersionAt(disk, chain[1..][i]).value.content.source == Some(chain[1..][i + 1])
      {
        assert chain[1..][i] == chain[i + 1];
      }
      ChainDescends(disk, order, chain[1..], next);
      forall i | 0 <= i < |chain| ensures chain[i] in order[..at + 1] {
        if i > 0 { assert chain[1..][i - 1] == chain[i]; }
        else { assert order[..at + 1][at] == chain[0]; }
      }
    }
  }

  /** Following `source` from any published version ends: no chain is longer than the
      number of versions, no reference dangles, and no chain returns to a version. */
  lemma SourceChainsEnd(tries: seq<Try>, chain: seq<Ref>) returns (versions: seq<Ref>)
    requires chain != [] && VersionAt(Run(map[], tries), chain[0]).Some? && SourceChain(Run(map[], tries), chain)
    ensures forall ref: Ref :: VersionAt(Run(map[], tries), ref).Some? <==> ref in versions
    ensures |chain| <= |versions|
    ensures forall i | 0 <= i < |chain| :: VersionAt(Run(map[], tries), chain[i]).Some?
    ensures |chain| > 1 ==> chain[|chain| - 1] != chain[0]
  {
    versions := RunLineage(map[], [], tries);
    var disk := Run(map[], tries);
    var at :| 0 <= at < |versions| && versions[at] == chain[0];
    ChainDescends(disk, versions, chain, at);
    if |chain| > 1 { ChainTailLower(disk, versions, chain, at); }
  }

  lemma ChainTailLower(disk: Disk, order: seq<Ref>, chain: seq<Ref>, at: nat)
    requires PublishOrder(disk, order) && SourceChain(disk, chain)
    requires |chain| > 1 && at < |order| && order[at] == chain[0]
    ensures chain[|chain| - 1] != chain[0]
  {
    assert SourceAmong(VersionAt(disk, order[at]).value.content, order[..at]);
    var next :| 0 <= next < at && order[next] == chain[1];
    forall i | 0 <= i < |chain[1..]| - 1
      ensures VersionAt(disk, chain[1..][i]).Some?
              && VersionAt(disk, chain[1..][i]).value.content.source == Some(chain[1..][i + 1])
    {
      assert chain[1..][i] == chain[i + 1];
    }
    ChainDescends(disk, order, chain[1..], next);
    assert chain[1..][|chain| - 2] == chain[|chain| - 1];
  }

  // -------------------------------------------------------------------- traps

  /** A fork goes through exactly when its source exists and nothing of its target does. */
  lemma ForkSucceedsIff(disk: Disk, id: Id, op: Op)
    requires DiskOk(disk) && op.Fork?
    ensures Plan(disk, id, op).error.None? <==>
      VersionAt(disk, op.source).Some? && ShelfOf(disk, id).catalog.None?
  {
  }

  predicate Deletes(t: Try, id: Id) {
    t.id == id && t.op.Delete?
  }

  lemma CatalogSurvives(disk: Disk, t: Try, id: Id)
    requires ShelfOf(disk, id).catalog.Some? && !Deletes(t, id)
    ensures ShelfOf(Perform(disk, t.id, t.op, t.budget).0, id).catalog.Some?
  {
    if t.id == id { KeepsCatalog(disk, t); }
  }

  ghost predicate CatalogStays(actions: seq<Action>) {
    forall i | 0 <= i < |actions| :: !actions[i].RemoveCatalog?
  }

  lemma {:induction false} ExecuteKeepsCatalog(s: Shelf, actions: seq<Action>, budget: nat)
    requires s.catalog.Some? && CatalogStays(actions)
    ensures Execute(s, actions, budget).catalog.Some?
    decreases |actions|
  {
    if actions != [] && budget > 0 { ExecuteKeepsCatalog(Do(s, actions[0]), actions[1..], budget - 1); }
  }

  lemma CompletionStays(s: Shelf, entry: Entry, intent: Intent)
    ensures CatalogStays(CompletePlan(s, entry, intent).actions)
  {
  }

  lemma PublishStays(s: Shelf, expected: int, now: Time)
    ensures CatalogStays(PublishPlan(s, expected, now).actions)
  {
    if s.catalog.Some? {
      var entry := s.catalog.value;
      if s.intent.Some? {
        CompletionStays(s, entry, s.intent.value);
      } else if s.draft.Some? {
        var intent := NewIntent(entry, s.draft.value, expected, now);
        CompletionStays(s.(intent := Some(intent)), entry, intent);
      }
    }
  }

  lemma KeepsCatalog(disk: Disk, t: Try)
    requires ShelfOf(disk, t.id).catalog.Some? && !t.op.Delete?
    ensures Execute(ShelfOf(disk, t.id), Plan(disk, t.id, t.op).actions, t.budget).catalog.Some?
  {
    if t.op.Publish? { PublishStays(ShelfOf(disk, t.id), t.op.expected, t.op.now); }
    ExecuteKeepsCatalog(ShelfOf(disk, t.id), Plan(disk, t.id, t.op).actions, t.budget);
  }

  /** Once a target's catalog file exists, no run in which the target is not deleted lets
      a fork of it through, whatever else is tried and wherever it crashes. */
  lemma {:induction false} CatalogBlocksForks(disk: Disk, id: Id, tries: seq<Try>, again: Op)
    requires ShelfOf(disk, id).catalog.Some? && again.Fork?
    requires forall i | 0 <= i < |tries| :: !Deletes(tries[i], id)
    ensures var later := Run(disk, tries);
      ShelfOf(later, id).catalog.Some? && Plan(later, id, again).error.Some? && Plan(later, id, again).actions == []
    decreases |tries|
  {
    if tries != [] {
      CatalogSurvives(disk, tries[0], id);
      CatalogBlocksForks(Perform(disk, tries[0].id, tries[0].op, tries[0].budget).0, id, tries[1..], again);
    }
  }

  /** A fork that dies after its first file leaves a catalog without a draft. From then
      on every repeated fork of that target is refused, through any run of operations and
      crashes, until the target is deleted; deleting it at once restores what was there. */
  lemma CrashedForkBlocksItself(disk: Disk, id: Id, op: Op, tries: seq<Try>, again: Op)
    requires DiskOk(disk) && op.Fork? && again.Fork? && Plan(disk, id, op).error.None?
    requires forall i | 0 <= i < |tries| :: !Deletes(tries[i], id)
    ensures var (left, reply) := Perform(disk, id, op, 1);
      && reply == Crashed
      && ShelfOf(left, id).catalog.Some? && ShelfOf(left, id).draft.None?
      && Plan(Run(left, tries), id, again).error.Some? && Plan(Run(left, tries), id, again).actions == []
      && (VersionAt(left, again.source).Some? ==> Plan(left, id, again) == Raise(AlreadyExists))
      && Plan(left, id, Delete) == Attempt([RemoveCatalog], None)
      && ShelfOf(Perform(left, id, Delete, 1).0, id) == ShelfOf(disk, id)
  {
    CrashedForkLeaves(disk, id, op, again);
    CatalogBlocksForks(Perform(disk, id, op, 1).0, id, tries, again);
  }

  lemma CrashedForkLeaves(disk: Disk, id: Id, op: Op, again: Op)
    requires DiskOk(disk) && op.Fork? && again.Fork? && Plan(disk, id, op).error.None?
    ensures var (left, reply) := Perform(disk, id, op, 1);
      && reply == Crashed
      && ShelfOf(left, id).catalog.Some? && ShelfOf(left, id).draft.None?
      && (VersionAt(left, again.source).Some? ==> Plan(left, id, again) == Raise(AlreadyExists))
      && Plan(left, id, Delete) == Attempt([RemoveCatalog], None)
      && ShelfOf(Perform(left, id, Delete, 1).0, id) == ShelfOf(disk, id)
  {
    var s := ShelfOf(disk, id);
    var actions := Plan(disk, id, op).actions;
    TwoActions(s, actions, 1);
    var left := Perform(disk, id, op, 1).0;
    TwoActions(ShelfOf(left, id), [RemoveCatalog], 1);
  }

  const CREATION := Try("source", Create(Content("name", None, "body"), "owner", None, 0), 2)
  const PUBLICATION := Try("source", Op.Publish(1, 0), 5)
  const COPYING := Fork(Ref("source", 1), "owner", None, 0)

  const DRAFTED := Shelf(Some(Entry("name", None, None)),
                         Some(Draft(Content("name", None, "body"), 1, None, "owner", 0, 0)), None, map[])

  lemma CreationLeaves()
    ensures Perform(map[], CREATION.id, CREATION.op, CREATION.budget).0 == map["source" := DRAFTED]
  {
    TwoActions(EMPTY_SHELF, Plan(map[], "source", CREATION.op).actions, 2);
  }

  lemma PublicationLeaves(disk: Disk)
    requires disk == map["source" := DRAFTED]
    ensures var after := Perform(disk, PUBLICATION.id, PUBLICATION.op, PUBLICATION.budget).0;
      "copy" !in after && VersionAt(after, Ref("source", 1)).Some?
  {
    PublishCommitsAtIntent(DRAFTED, 1, 0, 5);
    assert Published(DRAFTED, 0).versions.Keys == {1};
  }

  /** It happens: create a blueprint, publish it, and let a fork of it die after its first
      file. */
  lemma CrashedForkExample()
    ensures var disk := Run(map[], [CREATION, PUBLICATION]);
      && Plan(disk, "copy", COPYING).error.None?
      && Plan(Perform(disk, "copy", COPYING, 1).0, "copy", COPYING) == Raise(AlreadyExists)
  {
    CreationLeaves();
    PublicationLeaves(map["source" := DRAFTED]);
    TwoTries(map[], CREATION, PUBLICATION);
    RunDiskOk(map[], [CREATION, PUBLICATION]);
    ForkOfPublished(Run(map[], [CREATION, PUBLICATION]), "copy", COPYING);
  }

  lemma ForkOfPublished(disk: Disk, id: Id, op: Op)
    requires DiskOk(disk) && op.Fork? && id !in disk && VersionAt(disk, op.source).Some?
    ensures Plan(disk, id, op).error.None?
    ensures Plan(Perform(disk, id, op, 1).0, id, op) == Raise(AlreadyExists)
  {
    ForkSucceedsIff(disk, id, op);
    CrashedForkLeaves(disk, id, op, op);
    PerformGrows(disk, id, op, 1);
  }

  lemma TwoTries(disk: Disk, t: Try, u: Try)
    ensures Run(disk, [t, u]) == Perform(Perform(disk, t.id, t.op, t.budget).0, u.id, u.op, u.budget).0
  {
    var next := Perform(disk, t.id, t.op, t.budget).0;
    assert [t, u][1..] == [u] && [u][1..] == [];
    assert Run(disk, [t, u]) == Run(next, [u]);
    assert Run(next, [u]) == Run(Perform(next, u.id, u.op, u.budget).0, []);
  }

  /** An archive is refused exactly when the catalog file shows no version. That includes
      a blueprint whose first publish is committed but not yet completed. */
  lemma ArchiveRefusedIff(disk: Disk, id: Id, at: Time)
    requires DiskOk(disk) && ShelfOf(disk, id).catalog.Some?
    ensures Plan(disk, id, Archive(at)).error.Some? <==> ShelfOf(disk, id).catalog.value.latest.None?
    ensures Plan(disk, id, Archive(at)).error.Some? && Plan(AbsDisk(disk), id, Archive(at)).error.None? <==>
      ShelfOf(disk, id).intent.Some? && ShelfOf(disk, id).catalog.value.latest.None?
  {
    AbsUpdate(disk, id, ShelfOf(disk, id));
    PublishedInAbstract(ShelfOf(disk, id));
    ArchiveNeedsVersion(disk, id, at);
    ArchiveNeedsVersion(AbsDisk(disk), id, at);
  }

  lemma ArchiveNeedsVersion(disk: Disk, id: Id, at: Time)
    ensures var catalog := ShelfOf(disk, id).catalog;
      Plan(disk, id, Archive(at)).error.Some? <==> catalog.None? || catalog.value.latest.None?
  {
  }

  lemma PublishedInAbstract(s: Shelf)
    requires ShelfOk(s) && s.catalog.Some?
    ensures Abs(s).catalog.Some?
    ensures Abs(s).catalog.value.latest.Some? <==> s.intent.Some? || s.catalog.value.latest.Some?
  {
  }
}
