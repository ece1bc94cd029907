/** Rebuilding a manager from the durable receipt log. */
module LineageRecovery {
  import opened Lineages
  import opened Wrappers

  // ------------------------------------------------------------------ sorting

  /** `sorted(receipts, key=sequence)`: stable insertion, first receipt first. */
  function Insert(r: Receipt, s: seq<Receipt>): seq<Receipt> {
    if s == [] || r.sequence < s[0].sequence then [r] + s else [s[0]] + Insert(r, s[1..])
  }

  function SortBySequence(log: seq<Receipt>): seq<Receipt> {
    if log == [] then [] else Insert(log[|log| - 1], SortBySequence(log[..|log| - 1]))
  }

  predicate Ascending(s: seq<Receipt>) {
    forall i, j | 0 <= i < j < |s| :: s[i].sequence <= s[j].sequence
  }

  lemma {:induction false} InsertPermutes(r: Receipt, s: seq<Receipt>)
    ensures multiset(Insert(r, s)) == multiset(s) + multiset{r}
  {
    if s != [] && s[0].sequence <= r.sequence {
      InsertPermutes(r, s[1..]);
      assert s == [s[0]] + s[1..];
    }
  }

  /** Everything in the result is `r` or was there before. */
  lemma InsertMembers(r: Receipt, s: seq<Receipt>, x: Receipt)
    requires x in Insert(r, s)
    ensures x == r || x in s
  {
    InsertPermutes(r, s);
    assert x in multiset(Insert(r, s));
    assert x in multiset(s) + multiset{r};
  }

  lemma {:induction false} InsertAscends(r: Receipt, s: seq<Receipt>)
    requires Ascending(s)
    ensures Ascending(Insert(r, s))
  {
    if s != [] && s[0].sequence <= r.sequence {
      InsertAscends(r, s[1..]);
      var rest := Insert(r, s[1..]);
      forall j | 0 <= j < |rest| ensures s[0].sequence <= rest[j].sequence {
        InsertMembers(r, s[1..], rest[j]);
      }
    }
  }

  lemma {:induction false} InsertLast(r: Receipt, s: seq<Receipt>)
    requires forall i | 0 <= i < |s| :: s[i].sequence <= r.sequence
    ensures Insert(r, s) == s + [r]
  {
    if s != [] { InsertLast(r, s[1..]); }
  }

  lemma {:induction false} SortSorts(log: seq<Receipt>)
    ensures Ascending(SortBySequence(log)) && multiset(SortBySequence(log)) == multiset(log)
    ensures |SortBySequence(log)| == |log|
  {
    if log != [] {
      var most, r := log[..|log| - 1], log[|log| - 1];
      SortSorts(most);
      InsertAscends(r, SortBySequence(most));
      InsertPermutes(r, SortBySequence(most));
      assert log == most + [r];
    }
    assert |multiset(SortBySequence(log))| == |multiset(log)|;
  }

  lemma {:induction false} SortedAlready(log: seq<Receipt>)
    requires Ascending(log)
    ensures SortBySequence(log) == log
  {
    if log != [] {
      var most, r := log[..|log| - 1], log[|log| - 1];
      SortedAlready(most);
      InsertLast(r, most);
      assert log == most + [r];
    }
  }

  // ------------------------------------------------------------- order checks

  /** The first receipt that repeats a sequence number or an id. */
  function RepeatError(s: seq<Receipt>, sequences: set<nat>, ids: set<ReceiptId>): Option<Error> {
    if s == [] then None
    else if s[0].sequence in sequences then Some(DuplicateSequence)
    else if s[0].id in ids then Some(DuplicateReceiptId)
    else RepeatError(s[1..], sequences + {s[0].sequence}, ids + {s[0].id})
  }

  predicate Numbered(s: seq<Receipt>) {
    forall i | 0 <= i < |s| :: s[i].sequence == i
  }

  function OrderError(ordered: seq<Receipt>): Option<Error> {
    var repeated := RepeatError(ordered, {}, {});
    if repeated.Some? then repeated else if !Numbered(ordered) then Some(SequenceGap) else None
  }

  function NextGenerated(log: seq<Receipt>): nat {
    if log == [] then 0
    else
      var rest, last := NextGenerated(log[..|log| - 1]), log[|log| - 1].id;
      if last.Generated? && last.n >= rest then last.n + 1 else rest
  }

  // ---------------------------------------------------------------- anomalies

  /** Why a worktree cannot be confirmed to be its lineage's; wording abbreviated. */
  function Detect(s: LineageState, id: Id, site: Site, claimed: map<string, Id>): (Option<string>, map<string, Id>) {
    if site.Missing? then (Some("missing"), claimed)
    else if site.linked then (Some("symlink"), claimed)
    else if !site.inside then (Some("outside workspace root"), claimed)
    else if site.realPath in claimed then (Some("claimed by another lineage"), claimed)
    else
      var reason :=
        if !site.registered then Some("not a registered worktree")
        else if site.dirty != {} then Some("dirty")
        else if site.head.None? then Some("unreadable head")
        else if site.head.value != s.head then Some("head mismatch")
        else if site.ref.None? then Some("detached")
        else if site.ref.value != "refs/heads/" + s.branch then Some("wrong branch")
        else None;
      (reason, claimed[site.realPath := id])
  }

  function QuarantineReceipt(id: nat, lineage: Id, s: LineageState, reason: string, sequence: nat): Receipt {
    Receipt(Generated(id), s.campaign, lineage, None, Quarantined, s.parent, Some(s.parentCommit), Some(s.tree), None,
            s.branch, s.path, sequence, reason, s.boundary)
  }

  function Quarantine(m: Manager, id: Id, reason: string): (Manager, Receipt)
    requires id in m.reg.lineages
  {
    var s := m.reg.lineages[id];
    (Manager(m.reg.(lineages := m.reg.lineages[id := s.(quarantine := Some(reason), sequence := m.nextSequence)]),
             m.nextSequence + 1, m.nextReceipt + 1, m.poisoned),
     QuarantineReceipt(m.nextReceipt, id, s, reason, m.nextSequence))
  }

  /** Cross-check every live lineage, in the given order, against its worktree. */
  function Sweep(m: Manager, w: World, ids: seq<Id>, claimed: map<string, Id>): (Manager, seq<Receipt>)
    requires forall i | 0 <= i < |ids| :: ids[i] in m.reg.lineages
    decreases |ids|
  {
    if ids == [] then (m, [])
    else
      var id := ids[0];
      var s := m.reg.lineages[id];
      if s.quarantine.Some? then Sweep(m, w, ids[1..], claimed)
      else
        var (reason, more) := Detect(s, id, SiteAt(w, s.path), claimed);
        if reason.None? then Sweep(m, w, ids[1..], more)
        else
          var (next, receipt) := Quarantine(m, id, reason.value);
          var (last, receipts) := Sweep(next, w, ids[1..], more);
          (last, [receipt] + receipts)
  }

  // ------------------------------------------------------------- string order

  predicate Leq(a: string, b: string) {
    a == "" || (b != "" && (a[0] < b[0] || (a[0] == b[0] && Leq(a[1..], b[1..]))))
  }

  lemma {:induction false} LeqTotal(a: string, b: string)
    ensures Leq(a, b) || Leq(b, a)
    ensures Leq(a, b) && Leq(b, a) ==> a == b
    decreases a
  {
    if a != "" && b != "" && a[0] == b[0] {
      LeqTotal(a[1..], b[1..]);
      assert a == [a[0]] + a[1..] && b == [b[0]] + b[1..];
    }
  }

  lemma {:induction false} LeqTransitive(a: string, b: string, c: string)
    requires Leq(a, b) && Leq(b, c)
    ensures Leq(a, c)
    decreases a
  {
    if a != "" && a[0] == b[0] && b[0] == c[0] { LeqTransitive(a[1..], b[1..], c[1..]); }
  }

  predicate Least(id: Id, ids: set<Id>) {
    id in ids && forall e | e in ids :: Leq(id, e)
  }

  lemma {:induction false} LeastExists(ids: set<Id>)
    requires ids != {}
    ensures exists id :: Least(id, ids)
    decreases ids
  {
    var id :| id in ids;
    var rest := ids - {id};
    LeqTotal(id, id);
    if rest == {} {
      forall e | e in ids ensures Leq(id, e) { assert e !in rest; }
      assert Least(id, ids);
    } else {
      LeastExists(rest);
      var other :| Least(other, rest);
      LeqTotal(id, other);
      if Leq(other, id) {
        assert Least(other, ids);
      } else {
        forall e | e in rest ensures Leq(id, e) { LeqTransitive(id, other, e); }
        assert Least(id, ids);
      }
    }
  }

  /** `sorted(lineages)`. */
  ghost function SortedIds(ids: set<Id>): seq<Id>
  {
    if ids == {} then []
    else
      var least := LeastOf(ids);
      [least] + SortedIds(ids - {least})
  }

  ghost function LeastOf(ids: set<Id>): (id: Id)
    requires ids != {}
    ensures Least(id, ids)
  {
    LeastExists(ids);
    var id :| Least(id, ids);
    id
  }

  /** Every id once. */
  lemma {:induction false} SortedIdsMembers(ids: set<Id>)
    ensures forall e | e in SortedIds(ids) :: e in ids
    ensures forall i, j | 0 <= i < j < |SortedIds(ids)| :: SortedIds(ids)[i] != SortedIds(ids)[j]
    decreases ids
  {
    if ids != {} { SortedIdsMembers(ids - {LeastOf(ids)}); }
  }

  lemma SortedIdsStep(ids: set<Id>, id: Id)
    requires Least(id, ids)
    ensures SortedIds(ids) == [id] + SortedIds(ids - {id})
  {
    LeqTotal(id, LeastOf(ids));
  }

  // ------------------------------------------------------------------ recover

  /** Sweeps every lineage, least id first. */
  ghost function SweepAll(m: Manager, w: World): (Manager, seq<Receipt>) {
    SortedIdsMembers(m.reg.lineages.Keys);
    Sweep(m, w, SortedIds(m.reg.lineages.Keys), map[])
  }

  ghost function Recover(m: Manager, w: World, root: string, receipts: seq<Receipt>)
    : (Manager, Result<seq<Receipt>, Error>)
  {
    if m.poisoned then (m, Err(Poisoned))
    else if exists i | 0 <= i < |receipts| :: !Constructible(receipts[i]) then (m, Err(InvalidReceipt))
    else
      SortSorts(receipts);
      var ordered := SortBySequence(receipts);
      var error := OrderError(ordered);
      if error.Some? then (m, Err(error.value))
      else
        SortedConstructible(receipts);
        var (reg, refused) := Replay(m.reg, w.git, root, ordered);
        var counted := Manager(reg, |ordered|, NextGenerated(ordered), false);
        if refused.Some? then (counted.(poisoned := true), Err(refused.value))
        else
          var (swept, found) := SweepAll(counted, w);
          (swept, Ok(found))
  }

  lemma SortedConstructible(log: seq<Receipt>)
    requires AllConstructible(log)
    ensures AllConstructible(SortBySequence(log))
  {
    SortSorts(log);
    var s := SortBySequence(log);
    forall i | 0 <= i < |s| ensures Constructible(s[i]) {
      assert s[i] in multiset(s);
    }
  }
}
