/** What an assembled context says: every draft's text, once, in order and in full. */
module LiveTexts {
  import opened SectionBudgets
  import opened Wrappers
  import opened LiveContext

  /** Where the i-th part starts when parts are separated by a blank line. */
  function Offset(parts: seq<string>, i: nat): nat
    requires i <= |parts|
  {
    if i == 0 then 0 else Offset(parts, i - 1) + |parts[i - 1]| + 2
  }

  /** The text holds exactly these parts, one after the other, a blank line between two. */
  ghost predicate Holds(text: string, parts: seq<string>) {
    && (parts == [] ==> text == "")
    && (parts != [] ==> |text| + 2 == Offset(parts, |parts|))
    && (forall i | 0 <= i < |parts| :: HasPart(text, parts, i))
    && forall i | 1 <= i < |parts| :: HasGap(text, parts, i)
  }

  predicate HasPart(text: string, parts: seq<string>, i: nat)
    requires i < |parts|
  {
    Offset(parts, i) + |parts[i]| <= |text| && text[Offset(parts, i)..][..|parts[i]|] == parts[i]
  }

  predicate HasGap(text: string, parts: seq<string>, i: nat)
    requires 1 <= i < |parts|
  {
    Offset(parts, i) <= |text| && text[..Offset(parts, i)][Offset(parts, i) - 2..] == "\n\n"
  }

  /** How a section's text is shown under its budget of tokens. */
  predicate ShownAs(sv: Services, d: Draft, budget: int, text: string) {
    var redacted := sv.redact(d.content);
    && (Tokens(redacted) <= budget ==> text == redacted)
    && (budget <= 0 ==> text == if Protected(d.section) || redacted == "" then sv.digest(redacted, 1) else "")
    && (0 < budget < Tokens(redacted) ==> text == sv.digest(redacted, budget * 4))
  }

  function RoleOf(d: Draft): Role {
    if d.role.Some? then d.role.value else User
  }

  /** A turn of plain text: the system's or the user's, without calls and call id. */
  predicate Plain(d: Draft) {
    && RoleOf(d) in {System, User}
    && (d.toolCalls.None? || d.toolCalls.value == [])
    && (d.toolCallId.None? || d.toolCallId.value == "")
  }

  /** The message says what drafts `from` to `to` say, and nothing else. */
  ghost predicate Says(sv: Services, drafts: seq<Draft>, texts: seq<string>, from: nat, to: nat, m: Message)
    requires from < to <= |drafts| == |texts|
  {
    var first := drafts[from];
    && Holds(m.content, texts[from..to])
    && (forall i | from <= i < to :: RoleOf(drafts[i]) == m.role)
    && (to - from > 1 ==> forall i | from <= i < to :: Plain(drafts[i]))
    && m.toolCalls.Some? == first.toolCalls.Some?
    && (first.toolCalls.Some? ==> m.toolCalls.value == RedactAll(sv, first.toolCalls.value))
    && m.toolCallId == (if first.toolCallId.Some? then Some(sv.redact(first.toolCallId.value)) else None)
  }

  /** The messages are the drafts cut into runs: none lost, none twice, plain neighbours of
      one role never apart. */
  ghost predicate CutInto(sv: Services, drafts: seq<Draft>, texts: seq<string>, cuts: seq<nat>, messages: seq<Message>)
    requires |texts| == |drafts|
  {
    && |cuts| == |messages| + 1 && cuts[0] == 0 && cuts[|messages|] == |drafts|
    && (forall k | 0 <= k < |messages| :: Slice(sv, drafts, texts, cuts, k, messages[k]))
    && forall k | 1 <= k < |messages| :: 0 < cuts[k] < |drafts| && Apart(drafts, cuts[k])
  }

  ghost predicate Slice(sv: Services, drafts: seq<Draft>, texts: seq<string>, cuts: seq<nat>, k: nat, m: Message)
    requires |texts| == |drafts| && k + 1 < |cuts|
  {
    cuts[k] < cuts[k + 1] <= |drafts| && Says(sv, drafts, texts, cuts[k], cuts[k + 1], m)
  }

  predicate Apart(drafts: seq<Draft>, i: nat)
    requires 0 < i < |drafts|
  {
    !(Plain(drafts[i - 1]) && Plain(drafts[i]) && RoleOf(drafts[i - 1]) == RoleOf(drafts[i]))
  }

  /** `picked` lists the drafts that do, or do not, speak as the system, in order. */
  ghost predicate Picks(drafts: seq<Draft>, system: bool, picked: seq<nat>) {
    && (forall p | 0 <= p < |picked| :: picked[p] < |drafts|)
    && (forall p, q | 0 <= p < q < |picked| :: picked[p] < picked[q])
    && forall i | 0 <= i < |drafts| :: i in picked <==> RoleOf(drafts[i]).System? == system
  }

  function Pick(texts: seq<string>, picked: seq<nat>): seq<string>
    requires forall p | 0 <= p < |picked| :: picked[p] < |texts|
  {
    seq(|picked|, p requires 0 <= p < |picked| => texts[picked[p]])
  }

  // ------------------------------------------------------------------ joining

  function TextsOf(items: seq<Item>): seq<string> {
    seq(|items|, i requires 0 <= i < |items| => items[i].text)
  }

  lemma {:induction false} OffsetShifts(parts: seq<string>, i: nat)
    requires 1 <= i <= |parts|
    ensures Offset(parts, i) == |parts[0]| + 2 + Offset(parts[1..], i - 1)
    decreases i
  {
    if i > 1 {
      OffsetShifts(parts, i - 1);
      assert parts[1..][i - 2] == parts[i - 1];
    }
  }

  lemma {:induction false} JoinHolds(items: seq<Item>)
    ensures Holds(JoinTexts(items), TextsOf(items))
    decreases |items|
  {
    var parts, text := TextsOf(items), JoinTexts(items);
    if |items| == 1 {
      assert Offset(parts, 1) == |text| + 2;
    } else if |items| > 1 {
      var rest, later := TextsOf(items[1..]), JoinTexts(items[1..]);
      JoinHolds(items[1..]);
      assert rest == parts[1..];
      OffsetShifts(parts, |parts|);
      forall i | 0 <= i < |parts| ensures HasPart(text, parts, i) {
        if i > 0 {
          OffsetShifts(parts, i);
          assert HasPart(later, rest, i - 1);
          assert text[Offset(parts, i)..] == later[Offset(rest, i - 1)..];
        }
      }
      forall i | 1 <= i < |parts| ensures HasGap(text, parts, i) {
        OffsetShifts(parts, i);
        GapShifts(text, parts, later, i);
      }
    }
  }

  lemma GapShifts(text: string, parts: seq<string>, later: string, i: nat)
    requires 1 <= i < |parts| && text == parts[0] + "\n\n" + later
    requires i > 1 ==> HasGap(later, parts[1..], i - 1)
    requires Offset(parts, i) == |parts[0]| + 2 + Offset(parts[1..], i - 1)
    ensures HasGap(text, parts, i)
  {
    var at := Offset(parts, i);
    if i > 1 {
      var before := Offset(parts[1..], i - 1);
      assert text[..at] == parts[0] + "\n\n" + later[..before];
      assert text[..at][at - 2..] == later[..before][before - 2..];
    }
  }

  // ------------------------------------------------------------------ cutting

  function Cut(groups: seq<Group>, k: nat): nat
    requires k <= |groups|
  {
    |Flatten(groups[..k])|
  }

  lemma {:induction false} GroupIsCut(groups: seq<Group>, k: nat)
    requires k < |groups|
    ensures Cut(groups, k) + |groups[k].items| == Cut(groups, k + 1) <= |Flatten(groups)|
    ensures Flatten(groups)[Cut(groups, k)..Cut(groups, k + 1)] == groups[k].items
    decreases |groups|
  {
    var n := |groups| - 1;
    assert groups[..k + 1][..k] == groups[..k];
    if k == n {
      assert groups[..k + 1] == groups;
    } else {
      GroupIsCut(groups[..n], k);
      assert groups[..n][..k] == groups[..k] && groups[..n][..k + 1] == groups[..k + 1];
    }
  }

  lemma {:induction false} RenderedAt(groups: seq<Group>, k: nat)
    requires k < |groups|
    ensures RenderAll(groups)[k] == Rendered(groups[k])
    decreases |groups|
  {
    if k < |groups| - 1 { RenderedAt(groups[..|groups| - 1], k); }
  }

  function Cuts(groups: seq<Group>): seq<nat> {
    seq(|groups| + 1, k requires 0 <= k <= |groups| => Cut(groups, k))
  }

  /** The items are the drafts, each with its text, its turn and its redacted extras. */
  ghost predicate ItemsFit(sv: Services, drafts: seq<Draft>, texts: seq<string>, items: seq<Item>) {
    && |items| == |drafts| == |texts|
    && forall i | 0 <= i < |drafts| :: ItemFits(sv, drafts[i], texts[i], items[i])
  }

  predicate ItemFits(sv: Services, d: Draft, text: string, item: Item) {
    && item.text == text && item.role == RoleOf(d) && item.merge == Plain(d)
    && item.toolCalls == (if d.toolCalls.Some? then Some(RedactAll(sv, d.toolCalls.value)) else None)
    && item.toolCallId == (if d.toolCallId.Some? then Some(sv.redact(d.toolCallId.value)) else None)
  }

  lemma GroupSays(sv: Services, drafts: seq<Draft>, texts: seq<string>, items: seq<Item>, from: nat, to: nat, g: Group)
    requires ItemsFit(sv, drafts, texts, items) && Coherent(g)
    requires from + |g.items| == to <= |items| && items[from..to] == g.items
    ensures Says(sv, drafts, texts, from, to, Rendered(g))
  {
    JoinHolds(g.items);
    assert TextsOf(g.items) == texts[from..to] by {
      forall i | 0 <= i < |g.items| ensures g.items[i].text == texts[from + i] {
        assert g.items[i] == items[from + i];
      }
    }
    forall i | from <= i < to ensures RoleOf(drafts[i]) == g.role && Plain(drafts[i]) == g.merge {
      assert g.items[i - from] == items[i];
    }
    assert g.items[0] == items[from];
  }

  lemma MessagesAreCuts(sv: Services, drafts: seq<Draft>, texts: seq<string>, items: seq<Item>)
    requires ItemsFit(sv, drafts, texts, items)
    ensures CutInto(sv, drafts, texts, Cuts(Grouped(items)), RenderAll(Grouped(items)))
  {
    var groups := Grouped(items);
    var messages, cuts := RenderAll(groups), Cuts(groups);
    GroupingIsMaximal(items);
    assert groups[..|groups|] == groups;
    forall k | 0 <= k < |groups| ensures Slice(sv, drafts, texts, cuts, k, messages[k]) {
      assert Coherent(groups[k]);
      GroupIsCut(groups, k);
      RenderedAt(groups, k);
      GroupSays(sv, drafts, texts, items, cuts[k], cuts[k + 1], groups[k]);
    }
    forall k | 1 <= k < |groups| ensures 0 < cuts[k] < |drafts| && Apart(drafts, cuts[k]) {
      CutIsApart(sv, drafts, texts, items, groups, k);
    }
  }

  /** A cut has the last item of one group before it and the first of the next after it. */
  lemma AroundCut(groups: seq<Group>, k: nat)
    requires 1 <= k < |groups| && groups[k - 1].items != [] && groups[k].items != []
    ensures 0 < Cut(groups, k) < |Flatten(groups)|
    ensures Flatten(groups)[Cut(groups, k) - 1] == groups[k - 1].items[|groups[k - 1].items| - 1]
    ensures Flatten(groups)[Cut(groups, k)] == groups[k].items[0]
  {
    var all, i := Flatten(groups), Cut(groups, k);
    var left, right := groups[k - 1].items, groups[k].items;
    GroupIsCut(groups, k - 1);
    GroupIsCut(groups, k);
    assert all[i - |left|..i][|left| - 1] == all[i - 1];
    assert all[i..i + |right|][0] == all[i];
  }

  lemma CutIsApart(sv: Services, drafts: seq<Draft>, texts: seq<string>, items: seq<Item>, groups: seq<Group>, k: nat)
    requires ItemsFit(sv, drafts, texts, items) && Maximal(groups) && Flatten(groups) == items && 1 <= k < |groups|
    ensures 0 < Cut(groups, k) < |drafts| && Apart(drafts, Cut(groups, k))
  {
    assert Coherent(groups[k - 1]) && Coherent(groups[k]);
    AroundCut(groups, k);
    var i := Cut(groups, k);
    assert ItemFits(sv, drafts[i - 1], texts[i - 1], items[i - 1]) && ItemFits(sv, drafts[i], texts[i], items[i]);
    var j := k - 1;
    assert !(groups[j].merge && groups[j + 1].merge && groups[j].role == groups[j + 1].role);
  }

  // ------------------------------------------------------------------ prompts

  lemma {:induction false} PromptPicks(sv: Services, drafts: seq<Draft>, texts: seq<string>, items: seq<Item>,
                                       system: bool)
    returns (picked: seq<nat>)
    requires ItemsFit(sv, drafts, texts, items)
    ensures Picks(drafts, system, picked) && TextsOf(OfRole(items, system)) == Pick(texts, picked)
    decreases |drafts|
  {
    picked := [];
    if drafts != [] {
      var n := |drafts| - 1;
      picked := PromptPicks(sv, drafts[..n], texts[..n], items[..n], system);
      var before := picked;
      assert Pick(texts, before) == Pick(texts[..n], before);
      assert forall i | 0 <= i < n :: drafts[..n][i] == drafts[i];
      assert ItemFits(sv, drafts[n], texts[n], items[n]);
      if RoleOf(drafts[n]).System? == system {
        picked := before + [n];
        assert Pick(texts, picked) == Pick(texts, before) + [texts[n]];
        assert TextsOf(OfRole(items, system)) == TextsOf(OfRole(items[..n], system)) + [items[n].text];
        assert picked[|before|] == n;
        forall i | 0 <= i <= n ensures i in picked <==> RoleOf(drafts[i]).System? == system {
          if i < n { assert i in picked <==> i in before; }
        }
      }
    }
  }

  // ------------------------------------------------------------ whole assembly

  /** Each text is shown as its own section's budget allows. */
  ghost predicate Shown(sv: Services, drafts: seq<Draft>, budgets: seq<int>, texts: seq<string>) {
    && |drafts| == |budgets| == |texts|
    && forall i | 0 <= i < |drafts| :: ShownAs(sv, drafts[i], budgets[i], texts[i])
  }

  /** The flat prompt holds the texts of the drafts that do (not) speak as the system. */
  ghost predicate Prompts(drafts: seq<Draft>, texts: seq<string>, system: bool, prompt: string) {
    exists picked :: Picks(drafts, system, picked) && |texts| == |drafts| && Holds(prompt, Pick(texts, picked))
  }

  lemma ItemsShow(sv: Services, drafts: seq<Draft>, budgets: seq<int>)
    requires |budgets| == |drafts|
    ensures var items := Items(sv, drafts, budgets);
      ItemsFit(sv, drafts, TextsOf(items), items) && Shown(sv, drafts, budgets, TextsOf(items))
  {
    var items := Items(sv, drafts, budgets);
    var texts := TextsOf(items);
    forall i | 0 <= i < |drafts|
      ensures ItemFits(sv, drafts[i], texts[i], items[i]) && ShownAs(sv, drafts[i], budgets[i], texts[i])
    {
      assert items[i] == ItemOf(sv, drafts[i], budgets[i]);
    }
  }

  /** A successful assembly says every draft: its redacted text, as its section's share of the
      budget shows it, stands once and in order in the messages, under its own role, and once
      in the flat or in the system prompt; tool calls and call ids stay with their turn. */
  lemma EveryDraftIsSaid(sv: Services, drafts: seq<Draft>, transport: Transport, budget: int, tier: Tier,
                         schemas: bool, schemaTokens: nat, r: Result<Assembly, Violation>)
    returns (budgets: seq<int>, texts: seq<string>, cuts: seq<nat>)
    requires Assembles(sv, drafts, transport, budget, tier, schemas, schemaTokens, r) && r.Ok?
    ensures Budgets(SectionsOf(drafts), budget, tier, budgets) && Shown(sv, drafts, budgets, texts)
    ensures CutInto(sv, drafts, texts, cuts, r.value.messages)
    ensures Prompts(drafts, texts, false, r.value.prompt)
    ensures Prompts(drafts, texts, true, r.value.systemPrompt)
  {
    budgets := AssemblesSurfaces(sv, drafts, transport, budget, tier, schemas, schemaTokens, r);
    var items := Items(sv, drafts, budgets);
    texts, cuts := TextsOf(items), Cuts(Grouped(items));
    ItemsShow(sv, drafts, budgets);
    MessagesAreCuts(sv, drafts, texts, items);
    var flat := PromptPicks(sv, drafts, texts, items, false);
    JoinHolds(OfRole(items, false));
    var spoken := PromptPicks(sv, drafts, texts, items, true);
    JoinHolds(OfRole(items, true));
  }
}
