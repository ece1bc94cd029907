/** Assembling the live context: trust checks, per-section fitting, message grouping. */
module LiveContext {
  import opened SectionBudgets
  import opened Wrappers

  datatype Role = System | User | Assistant | ToolRole

  datatype Trust = Instruction | VerifiedFact | GeneratedSummary | UntrustedEvidence

  datatype Source = EvaluatorReceipt | OtherSource(name: string)

  datatype Draft = Draft(
    section: SectionType, source: Source, stableId: string, trust: Trust, content: string,
    role: Option<Role>, toolCallId: Option<string>, toolCalls: Option<seq<string>>)

  /** The text services: redaction, head/tail digest, canonical JSON of tool calls. */
  datatype Services = Services(redact: string -> string, digest: (string, nat) -> string, encode: seq<string> -> string)

  datatype Transport = Chat | Cli

  datatype Violation = DuplicateId | SlotNeedsInstruction | ReceiptAsInstruction | SystemRoleDenied | BothSchemas
                     | NegativeBudgetTokens | OverBudget

  predicate InstructionSlot(s: SectionType) {
    s.SystemInstructions? || s.ResponseContract? || s.ToolSchemas?
  }

  predicate Protected(s: SectionType) {
    s.SystemInstructions? || s.ResponseContract?
  }

  // -------------------------------------------------------------------- trust

  function DraftViolation(seen: set<string>, d: Draft): Option<Violation> {
    if d.stableId in seen then Some(DuplicateId)
    else if InstructionSlot(d.section) && d.trust != Instruction then Some(SlotNeedsInstruction)
    else if d.source.EvaluatorReceipt? && d.trust == Instruction then Some(ReceiptAsInstruction)
    else if d.role == Some(System) && !(d.trust == Instruction && InstructionSlot(d.section)) then
      Some(SystemRoleDenied)
    else None
  }

  function FirstViolation(drafts: seq<Draft>, seen: set<string>): Option<Violation> {
    if drafts == [] then None
    else
      var v := DraftViolation(seen, drafts[0]);
      if v.Some? then v else FirstViolation(drafts[1..], seen + {drafts[0].stableId})
  }

  method EnforceTrust(drafts: seq<Draft>) returns (violation: Option<Violation>)
    ensures violation == FirstViolation(drafts, {})
  {
    var seen: set<string>, i := {}, 0;
    assert drafts[0..] == drafts;
    while i < |drafts|
      invariant i <= |drafts|
      invariant FirstViolation(drafts, {}) == FirstViolation(drafts[i..], seen)
    {
      var d := drafts[i];
      assert drafts[i..][0] == d && drafts[i..][1..] == drafts[i + 1..];
      if d.stableId in seen {
        return Some(DuplicateId);
      }
      if InstructionSlot(d.section) && d.trust != Instruction {
        return Some(SlotNeedsInstruction);
      }
      if d.source.EvaluatorReceipt? && d.trust == Instruction {
        return Some(ReceiptAsInstruction);
      }
      if d.role == Some(System) && !(d.trust == Instruction && InstructionSlot(d.section)) {
        return Some(SystemRoleDenied);
      }
      seen, i := seen + {d.stableId}, i + 1;
    }
    assert drafts[i..] == [];
    violation := None;
  }

  /** Accepted drafts have distinct ids, and only instructions speak as the system. */
  lemma {:induction false} AcceptedDrafts(drafts: seq<Draft>, seen: set<string>)
    requires FirstViolation(drafts, seen).None?
    ensures forall i | 0 <= i < |drafts| :: drafts[i].stableId !in seen
    ensures forall i, j | 0 <= i < j < |drafts| :: drafts[i].stableId != drafts[j].stableId
    ensures forall i | 0 <= i < |drafts| && drafts[i].role == Some(System) :: drafts[i].trust == Instruction
    ensures forall i | 0 <= i < |drafts| && InstructionSlot(drafts[i].section) :: drafts[i].trust == Instruction
    decreases |drafts|
  {
    if drafts != [] {
      AcceptedDrafts(drafts[1..], seen + {drafts[0].stableId});
      assert forall i | 1 <= i < |drafts| :: drafts[i] == drafts[1..][i - 1];
    }
  }

  // ------------------------------------------------------------------ fitting

  function Tokens(text: string): nat {
    |text| / 4 + 1
  }

  /** Redact first, then fit to the section's budget. */
  function Fitted(sv: Services, content: string, budget: int, section: SectionType): string {
    var redacted := sv.redact(content);
    if Tokens(redacted) <= budget then redacted
    else if budget <= 0 && !Protected(section) && redacted != "" then ""
    else sv.digest(redacted, if budget * 4 >= 1 then budget * 4 else 1)
  }

  datatype Item = Item(role: Role, merge: bool, text: string, toolCalls: Option<seq<string>>,
                       toolCallId: Option<string>)

  predicate Truthy(calls: Option<seq<string>>) {
    calls.Some? && calls.value != []
  }

  /** System and user text turns merge; structured turns stay discrete. */
  predicate Mergeable(d: Draft, role: Role) {
    (role == System || role == User) && !Truthy(d.toolCalls) && (d.toolCallId.None? || d.toolCallId.value == "")
  }

  function RedactAll(sv: Services, calls: seq<string>): seq<string> {
    seq(|calls|, i requires 0 <= i < |calls| => sv.redact(calls[i]))
  }

  function ItemOf(sv: Services, d: Draft, budget: int): Item {
    var role := if d.role.Some? then d.role.value else User;
    Item(role, Mergeable(d, role), Fitted(sv, d.content, budget, d.section),
         if d.toolCalls.Some? then Some(RedactAll(sv, d.toolCalls.value)) else None,
         if d.toolCallId.Some? then Some(sv.redact(d.toolCallId.value)) else None)
  }

  function Items(sv: Services, drafts: seq<Draft>, budgets: seq<int>): seq<Item>
    requires |budgets| == |drafts|
  {
    seq(|drafts|, i requires 0 <= i < |drafts| => ItemOf(sv, drafts[i], budgets[i]))
  }

  // ----------------------------------------------------------------- grouping

  datatype Group = Group(role: Role, merge: bool, items: seq<Item>)

  predicate Joins(groups: seq<Group>, item: Item) {
    groups != [] && item.merge && groups[|groups| - 1].merge && groups[|groups| - 1].role == item.role
  }

  function AddItem(groups: seq<Group>, item: Item): seq<Group> {
    if Joins(groups, item) then
      var last := groups[|groups| - 1];
      groups[..|groups| - 1] + [last.(items := last.items + [item])]
    else groups + [Group(item.role, item.merge, [item])]
  }

  function Grouped(items: seq<Item>): seq<Group> {
    if items == [] then [] else AddItem(Grouped(items[..|items| - 1]), items[|items| - 1])
  }

  function Flatten(groups: seq<Group>): seq<Item> {
    if groups == [] then [] else Flatten(groups[..|groups| - 1]) + groups[|groups| - 1].items
  }

  /** A group is one structured turn, or mergeable turns of one role. */
  predicate Coherent(g: Group) {
    && g.items != []
    && (!g.merge ==> |g.items| == 1)
    && forall i | 0 <= i < |g.items| :: g.items[i].role == g.role && g.items[i].merge == g.merge
  }

  /** No two neighbours could have been one group. */
  predicate Maximal(groups: seq<Group>) {
    && (forall k | 0 <= k < |groups| :: Coherent(groups[k]))
    && forall k | 0 <= k < |groups| - 1 ::
         !(groups[k].merge && groups[k + 1].merge && groups[k].role == groups[k + 1].role)
  }

  /** Grouping loses nothing, keeps the order and merges as far as it can. */
  lemma {:induction false} GroupingIsMaximal(items: seq<Item>)
    ensures Maximal(Grouped(items)) && Flatten(Grouped(items)) == items
    decreases |items|
  {
    if items != [] {
      var most, item := items[..|items| - 1], items[|items| - 1];
      GroupingIsMaximal(most);
      AddMaximal(Grouped(most), item);
      assert items == most + [item];
    }
  }

  lemma AddMaximal(groups: seq<Group>, item: Item)
    requires Maximal(groups)
    ensures Maximal(AddItem(groups, item)) && Flatten(AddItem(groups, item)) == Flatten(groups) + [item]
  {
    var after := AddItem(groups, item);
    if Joins(groups, item) {
      var n := |groups| - 1;
      assert after[..n] == groups[..n];
      assert Coherent(groups[n]);
      assert Coherent(after[n]);
    } else {
      assert after[..|groups|] == groups;
      assert Coherent(after[|groups|]);
    }
  }

  /** That determines it: any maximal grouping of the same items is this one. */
  lemma {:induction false} MaximalGroupingIsUnique(groups: seq<Group>)
    requires Maximal(groups)
    ensures groups == Grouped(Flatten(groups))
    decreases |Flatten(groups)|
  {
    if groups != [] {
      var last := groups[|groups| - 1];
      assert Coherent(last);
      if |last.items| == 1 { FreshLast(groups); } else { ShorterLast(groups); }
    }
  }

  lemma FreshLast(groups: seq<Group>)
    requires Maximal(groups) && groups != [] && |groups[|groups| - 1].items| == 1
    ensures groups == Grouped(Flatten(groups))
    decreases |Flatten(groups)|, 0
  {
    var n := |groups| - 1;
    var last := groups[n];
    assert Coherent(last);
    var front := Flatten(groups[..n]);
    assert last.items == [last.items[0]] && Flatten(groups) == front + [last.items[0]];
    assert (front + [last.items[0]])[..|front|] == front;
    MaximalGroupingIsUnique(groups[..n]);
    assert groups == groups[..n] + [last];
    if n > 0 { assert groups[..n][n - 1] == groups[n - 1]; }
  }

  /** Taking the last item off a longer last group. */
  lemma ShorterLast(groups: seq<Group>)
    requires Maximal(groups) && groups != [] && |groups[|groups| - 1].items| > 1
    ensures groups == Grouped(Flatten(groups))
    decreases |Flatten(groups)|, 0
  {
    var n := |groups| - 1;
    var last := groups[n];
    assert Coherent(last);
    var m := |last.items| - 1;
    var item, less := last.items[m], last.(items := last.items[..m]);
    var shorter := groups[..n] + [less];
    assert shorter[..n] == groups[..n];
    assert Coherent(less);
    assert Maximal(shorter);
    assert last.items == last.items[..m] + [item];
    assert Flatten(shorter) + [item] == Flatten(groups);
    assert (Flatten(shorter) + [item])[..|Flatten(shorter)|] == Flatten(shorter);
    MaximalGroupingIsUnique(shorter);
    assert AddItem(shorter, item) == groups;
  }

  method GroupMessages(items: seq<Item>) returns (groups: seq<Group>)
    ensures groups == Grouped(items)
  {
    groups := [];
    for i := 0 to |items|
      invariant groups == Grouped(items[..i])
    {
      var item := items[i];
      assert items[..i + 1][..i] == items[..i];
      if groups != [] && item.merge && groups[|groups| - 1].merge && groups[|groups| - 1].role == item.role {
        var last := groups[|groups| - 1];
        groups := groups[..|groups| - 1] + [last.(items := last.items + [item])];
      } else {
        groups := groups + [Group(item.role, item.merge, [item])];
      }
    }
    assert items[..|items|] == items;
  }

  // ---------------------------------------------------------------- surfaces

  datatype Message = Message(role: Role, content: string, toolCalls: Option<seq<string>>, toolCallId: Option<string>)

  function JoinTexts(items: seq<Item>): string {
    if items == [] then ""
    else if |items| == 1 then items[0].text
    else items[0].text + "\n\n" + JoinTexts(items[1..])
  }

  function Rendered(g: Group): Message {
    Message(g.role, JoinTexts(g.items), if g.items == [] then None else g.items[0].toolCalls,
            if g.items == [] then None else g.items[0].toolCallId)
  }

  function RenderAll(groups: seq<Group>): (messages: seq<Message>)
    ensures |messages| == |groups|
  {
    if groups == [] then [] else RenderAll(groups[..|groups| - 1]) + [Rendered(groups[|groups| - 1])]
  }

  function OfRole(items: seq<Item>, system: bool): seq<Item> {
    if items == [] then []
    else
      var rest, last := OfRole(items[..|items| - 1], system), items[|items| - 1];
      if last.role.System? == system then rest + [last] else rest
  }

  datatype Assembly = Assembly(messages: seq<Message>, prompt: string, systemPrompt: string)

  function MessageTokens(sv: Services, m: Message): nat {
    Tokens(m.content)
    + (if m.toolCalls.Some? then Tokens(sv.encode(m.toolCalls.value)) else 0)
    + (if m.toolCallId.Some? then Tokens(m.toolCallId.value) else 0)
  }

  function AllTokens(sv: Services, messages: seq<Message>): nat {
    if messages == [] then 0
    else AllTokens(sv, messages[..|messages| - 1]) + MessageTokens(sv, messages[|messages| - 1])
  }

  function Surfaces(items: seq<Item>): Assembly {
    Assembly(RenderAll(Grouped(items)), JoinTexts(OfRole(items, false)), JoinTexts(OfRole(items, true)))
  }

  function Transmitted(sv: Services, a: Assembly, transport: Transport, schemaTokens: nat): nat {
    match transport
    case Chat => AllTokens(sv, a.messages) + schemaTokens
    case Cli => Tokens(a.prompt) + Tokens(a.systemPrompt)
  }

  /** The assembly for given section budgets, or the first violation in source order. */
  function AssembleWith(sv: Services, drafts: seq<Draft>, budgets: seq<int>, transport: Transport, budget: int,
                        bothSchemas: bool, schemaTokens: nat): Result<Assembly, Violation>
    requires |budgets| == |drafts|
  {
    var violation := FirstViolation(drafts, {});
    if violation.Some? then Err(violation.value)
    else if bothSchemas then Err(BothSchemas)
    else if budget < 0 then Err(NegativeBudgetTokens)
    else
      var a := Surfaces(Items(sv, drafts, budgets));
      if Transmitted(sv, a, transport, schemaTokens) > budget then Err(OverBudget) else Ok(a)
  }

  function SectionsOf(drafts: seq<Draft>): seq<SectionType> {
    seq(|drafts|, i requires 0 <= i < |drafts| => drafts[i].section)
  }

  /** The largest-remainder budgets of a section list. */
  ghost predicate Budgets(sections: seq<SectionType>, budget: int, tier: Tier, a: seq<int>) {
    && |a| == |sections|
    && (budget >= 0 && sections != [] ==>
          var w := WeightsOf(tier, sections);
          Sum(w) > 0 && Apportions(Quotas(budget, w), Remainders(budget, w), budget, a))
  }

  lemma BudgetsAreDetermined(sections: seq<SectionType>, budget: nat, tier: Tier, a: seq<int>, b: seq<int>)
    requires Budgets(sections, budget, tier, a) && Budgets(sections, budget, tier, b)
    ensures a == b
  {
    if sections != [] {
      var w := WeightsOf(tier, sections);
      ApportionmentIsUnique(Quotas(budget, w), Remainders(budget, w), budget, a, b);
    }
  }

  method AssembleLive(sv: Services, drafts: seq<Draft>, transport: Transport, budget: int, tier: Tier,
                      bothSchemas: bool, schemaTokens: nat)
    returns (r: Result<Assembly, Violation>)
    ensures forall budgets | Budgets(SectionsOf(drafts), budget, tier, budgets) ::
      r == AssembleWith(sv, drafts, budgets, transport, budget, bothSchemas, schemaTokens)
    ensures r.Ok? ==> Assembles(sv, drafts, transport, budget, tier, bothSchemas, schemaTokens, r)
  {
    var violation := EnforceTrust(drafts);
    if violation.Some? {
      return Err(violation.value);
    }
    if bothSchemas {
      return Err(BothSchemas);
    }
    var shares := AllocateSectionBudgets(SectionsOf(drafts), budget, tier);
    if shares.Err? {
      return Err(NegativeBudgetTokens);
    }
    var budgets := shares.value;
    assert Budgets(SectionsOf(drafts), budget, tier, budgets);
    var a := BuildSurfaces(sv, drafts, budgets);
    r := if Transmitted(sv, a, transport, schemaTokens) > budget then Err(OverBudget) else Ok(a);
    OneResult(sv, drafts, transport, budget, tier, bothSchemas, schemaTokens, budgets);
  }

  lemma OneResult(sv: Services, drafts: seq<Draft>, transport: Transport, budget: nat, tier: Tier,
                  schemas: bool, schemaTokens: nat, budgets: seq<int>)
    requires Budgets(SectionsOf(drafts), budget, tier, budgets)
    ensures forall other | Budgets(SectionsOf(drafts), budget, tier, other) :: other == budgets
  {
    forall other | Budgets(SectionsOf(drafts), budget, tier, other) ensures other == budgets {
      BudgetsAreDetermined(SectionsOf(drafts), budget, tier, budgets, other);
    }
  }

  /** Redacts, fits and groups; every surface is derived from the same items. */
  method BuildSurfaces(sv: Services, drafts: seq<Draft>, budgets: seq<int>) returns (a: Assembly)
    requires |budgets| == |drafts|
    ensures a == Surfaces(Items(sv, drafts, budgets))
  {
    var items: seq<Item> := [];
    for i := 0 to |drafts|
      invariant |items| == i && forall k | 0 <= k < i :: items[k] == ItemOf(sv, drafts[k], budgets[k])
    {
      items := items + [ItemOf(sv, drafts[i], budgets[i])];
    }
    assert items == Items(sv, drafts, budgets);
    var groups := GroupMessages(items);
    a := Assembly(RenderAll(groups), JoinTexts(OfRole(items, false)), JoinTexts(OfRole(items, true)));
  }

  // ---------------------------------------------------------- noninterference

  /** Two draft lists of the same shape that agree wherever either is an instruction.
      Elsewhere everything may differ: content, role, tool calls, ids, trust below
      instruction. */
  predicate SameInstructions(left: seq<Draft>, right: seq<Draft>) {
    && |left| == |right|
    && forall i | 0 <= i < |left| ::
         && left[i].section == right[i].section
         && (left[i].trust == Instruction || right[i].trust == Instruction ==> left[i] == right[i])
  }

  function SystemGroups(groups: seq<Group>): seq<Group> {
    if groups == [] then []
    else
      var rest, last := SystemGroups(groups[..|groups| - 1]), groups[|groups| - 1];
      if last.role.System? then rest + [last] else rest
  }

  function SystemMessages(messages: seq<Message>): seq<Message> {
    if messages == [] then []
    else
      var rest, last := SystemMessages(messages[..|messages| - 1]), messages[|messages| - 1];
      if last.role.System? then rest + [last] else rest
  }

  predicate SystemAlike(left: seq<Item>, right: seq<Item>) {
    && |left| == |right|
    && forall i | 0 <= i < |left| :: left[i].role.System? || right[i].role.System? ==> left[i] == right[i]
  }

  /** The open end of the grouping, as far as the system is concerned. */
  function SystemEnd(groups: seq<Group>): Option<Group> {
    if groups != [] && groups[|groups| - 1].role.System? then Some(groups[|groups| - 1]) else None
  }

  lemma AddSystemItem(groups: seq<Group>, item: Item)
    ensures !item.role.System? ==> SystemGroups(AddItem(groups, item)) == SystemGroups(groups)
                                   && SystemEnd(AddItem(groups, item)).None?
    ensures item.role.System? && Joins(groups, item) ==>
      SystemGroups(groups) != []
      && SystemGroups(AddItem(groups, item)) == AddItem(SystemGroups(groups), item)
    ensures item.role.System? && !Joins(groups, item) ==>
      SystemGroups(AddItem(groups, item)) == SystemGroups(groups) + [Group(System, item.merge, [item])]
  {
    var after := AddItem(groups, item);
    if Joins(groups, item) { assert after[..|groups| - 1] == groups[..|groups| - 1]; }
    else { assert after[..|groups|] == groups; }
  }

  lemma {:induction false} SystemGroupsAlike(left: seq<Item>, right: seq<Item>)
    requires SystemAlike(left, right)
    ensures SystemGroups(Grouped(left)) == SystemGroups(Grouped(right))
    ensures SystemEnd(Grouped(left)) == SystemEnd(Grouped(right))
    decreases |left|
  {
    if left != [] {
      var n := |left| - 1;
      SystemGroupsAlike(left[..n], right[..n]);
      SystemStep(Grouped(left[..n]), Grouped(right[..n]), left[n], right[n]);
    }
  }

  lemma SystemStep(left: seq<Group>, right: seq<Group>, a: Item, b: Item)
    requires SystemGroups(left) == SystemGroups(right) && SystemEnd(left) == SystemEnd(right)
    requires a.role.System? || b.role.System? ==> a == b
    ensures SystemGroups(AddItem(left, a)) == SystemGroups(AddItem(right, b))
    ensures SystemEnd(AddItem(left, a)) == SystemEnd(AddItem(right, b))
  {
    AddSystemItem(left, a);
    AddSystemItem(right, b);
  }

  lemma {:induction false} RenderedSystem(groups: seq<Group>)
    ensures SystemMessages(RenderAll(groups)) == RenderAll(SystemGroups(groups))
    decreases |groups|
  {
    if groups != [] {
      var n := |groups| - 1;
      RenderedSystem(groups[..n]);
      assert RenderAll(groups)[..n] == RenderAll(groups[..n]);
      var rest := SystemGroups(groups[..n]);
      assert (rest + [groups[n]])[..|rest|] == rest;
    }
  }

  lemma {:induction false} SystemItemsAlike(left: seq<Item>, right: seq<Item>)
    requires SystemAlike(left, right)
    ensures OfRole(left, true) == OfRole(right, true)
    decreases |left|
  {
    if left != [] { SystemItemsAlike(left[..|left| - 1], right[..|right| - 1]); }
  }

  lemma SurfacesAlike(left: seq<Item>, right: seq<Item>)
    requires SystemAlike(left, right)
    ensures SystemMessages(Surfaces(left).messages) == SystemMessages(Surfaces(right).messages)
    ensures Surfaces(left).systemPrompt == Surfaces(right).systemPrompt
  {
    SystemGroupsAlike(left, right);
    RenderedSystem(Grouped(left));
    RenderedSystem(Grouped(right));
    SystemItemsAlike(left, right);
  }

  lemma ItemsAlike(sv: Services, left: seq<Draft>, right: seq<Draft>, budgets: seq<int>)
    requires |budgets| == |left| && SameInstructions(left, right)
    requires FirstViolation(left, {}).None? && FirstViolation(right, {}).None?
    ensures SystemAlike(Items(sv, left, budgets), Items(sv, right, budgets))
  {
    var l, r := Items(sv, left, budgets), Items(sv, right, budgets);
    AcceptedDrafts(left, {});
    AcceptedDrafts(right, {});
    forall i | 0 <= i < |l| ensures l[i].role.System? || r[i].role.System? ==> l[i] == r[i] {
      assert l[i].role.System? ==> left[i].role == Some(System);
      assert r[i].role.System? ==> right[i].role == Some(System);
    }
  }

  lemma AssembledIs(sv: Services, drafts: seq<Draft>, budgets: seq<int>, transport: Transport, budget: int,
                    schemas: bool, schemaTokens: nat)
    requires |budgets| == |drafts| && AssembleWith(sv, drafts, budgets, transport, budget, schemas, schemaTokens).Ok?
    ensures FirstViolation(drafts, {}).None? && budget >= 0
    ensures AssembleWith(sv, drafts, budgets, transport, budget, schemas, schemaTokens).value ==
      Surfaces(Items(sv, drafts, budgets))
  {
  }

  /** Whatever is not an instruction cannot influence one byte of what the model reads as
      the system: neither its content nor its role, calls or ids. */
  lemma Noninterference(sv: Services, left: seq<Draft>, right: seq<Draft>, budgets: seq<int>,
                        transport: Transport, budget: int, schemas: bool, tokensLeft: nat, tokensRight: nat)
    requires |budgets| == |left| && SameInstructions(left, right)
    requires AssembleWith(sv, left, budgets, transport, budget, schemas, tokensLeft).Ok?
    requires AssembleWith(sv, right, budgets, transport, budget, schemas, tokensRight).Ok?
    ensures var a := AssembleWith(sv, left, budgets, transport, budget, schemas, tokensLeft).value;
      var b := AssembleWith(sv, right, budgets, transport, budget, schemas, tokensRight).value;
      SystemMessages(a.messages) == SystemMessages(b.messages) && a.systemPrompt == b.systemPrompt
  {
    AssembledIs(sv, left, budgets, transport, budget, schemas, tokensLeft);
    AssembledIs(sv, right, budgets, transport, budget, schemas, tokensRight);
    ItemsAlike(sv, left, right, budgets);
    SurfacesAlike(Items(sv, left, budgets), Items(sv, right, budgets));
  }

  /** The results that a live assembly can have: its budgets are the apportioned ones. */
  ghost predicate Assembles(sv: Services, drafts: seq<Draft>, transport: Transport, budget: int, tier: Tier,
                            schemas: bool, schemaTokens: nat, r: Result<Assembly, Violation>)
  {
    exists budgets ::
      Budgets(SectionsOf(drafts), budget, tier, budgets)
      && r == AssembleWith(sv, drafts, budgets, transport, budget, schemas, schemaTokens)
  }

  /** A successful assembly is the surfaces of some apportioned items. */
  lemma AssemblesSurfaces(sv: Services, drafts: seq<Draft>, transport: Transport, budget: int, tier: Tier,
                          schemas: bool, schemaTokens: nat, r: Result<Assembly, Violation>)
    returns (budgets: seq<int>)
    requires Assembles(sv, drafts, transport, budget, tier, schemas, schemaTokens, r) && r.Ok?
    ensures Budgets(SectionsOf(drafts), budget, tier, budgets) && budget >= 0 && FirstViolation(drafts, {}).None?
    ensures r.value == Surfaces(Items(sv, drafts, budgets))
  {
    budgets :| Budgets(SectionsOf(drafts), budget, tier, budgets)
               && r == AssembleWith(sv, drafts, budgets, transport, budget, schemas, schemaTokens);
    AssembledIs(sv, drafts, budgets, transport, budget, schemas, schemaTokens);
  }

  /** The same for whole assemblies, each with the budgets that its own sections get. */
  lemma LiveNoninterference(sv: Services, left: seq<Draft>, right: seq<Draft>, transport: Transport, budget: int,
                            tier: Tier, schemas: bool, tokensLeft: nat, tokensRight: nat,
                            a: Result<Assembly, Violation>, b: Result<Assembly, Violation>)
    requires SameInstructions(left, right) && a.Ok? && b.Ok?
    requires Assembles(sv, left, transport, budget, tier, schemas, tokensLeft, a)
    requires Assembles(sv, right, transport, budget, tier, schemas, tokensRight, b)
    ensures SystemMessages(a.value.messages) == SystemMessages(b.value.messages)
    ensures a.value.systemPrompt == b.value.systemPrompt
  {
    var x := AssemblesSurfaces(sv, left, transport, budget, tier, schemas, tokensLeft, a);
    var y := AssemblesSurfaces(sv, right, transport, budget, tier, schemas, tokensRight, b);
    assert SectionsOf(left) == SectionsOf(right);
    BudgetsAreDetermined(SectionsOf(left), budget, tier, x, y);
    ItemsAlike(sv, left, right, x);
    SurfacesAlike(Items(sv, left, x), Items(sv, right, x));
  }
}
