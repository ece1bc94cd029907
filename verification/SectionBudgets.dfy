/** Dividing a token budget over context sections by largest remainder. */
module SectionBudgets {
  import opened Wrappers

  datatype Tier = Small | Mid | Frontier

  datatype SectionType =
    | SystemInstructions | TaskContract | ToolSchemas | WorkflowState | PriorOutputs | Memory
    | PopulationFindings | VerifierFeedback | ResponseContract

  function Weight(tier: Tier, section: SectionType): (w: nat)
    ensures w > 0
  {
    match tier
    case Small =>
      (match section
       case SystemInstructions => 24 case TaskContract => 24 case ToolSchemas => 8 case WorkflowState => 10
       case PriorOutputs => 10 case Memory => 7 case PopulationFindings => 4 case VerifierFeedback => 8
       case ResponseContract => 5)
    case Mid =>
      (match section
       case SystemInstructions => 20 case TaskContract => 21 case ToolSchemas => 9 case WorkflowState => 10
       case PriorOutputs => 14 case Memory => 9 case PopulationFindings => 5 case VerifierFeedback => 7
       case ResponseContract => 5)
    case Frontier =>
      (match section
       case SystemInstructions => 16 case TaskContract => 18 case ToolSchemas => 10 case WorkflowState => 10
       case PriorOutputs => 18 case Memory => 11 case PopulationFindings => 7 case VerifierFeedback => 6
       case ResponseContract => 4)
  }

  function Sum(s: seq<int>): int {
    if s == [] then 0 else Sum(s[..|s| - 1]) + s[|s| - 1]
  }

  // ------------------------------------------------------------ specification

  function Quota(budget: nat, weights: seq<int>, i: nat): int
    requires i < |weights| && Sum(weights) > 0
  {
    budget * weights[i] / Sum(weights)
  }

  function Remainder(budget: nat, weights: seq<int>, i: nat): int
    requires i < |weights| && Sum(weights) > 0
  {
    budget * weights[i] % Sum(weights)
  }

  /** Larger remainders first, earlier sections first among equals. */
  predicate Precedes(remainders: seq<int>, i: nat, j: nat)
    requires i < |remainders| && j < |remainders|
  {
    remainders[i] > remainders[j] || (remainders[i] == remainders[j] && i < j)
  }

  function Quotas(budget: nat, weights: seq<int>): seq<int>
    requires Sum(weights) > 0
  {
    seq(|weights|, i requires 0 <= i < |weights| => Quota(budget, weights, i))
  }

  function Remainders(budget: nat, weights: seq<int>): seq<int>
    requires Sum(weights) > 0
  {
    seq(|weights|, i requires 0 <= i < |weights| => Remainder(budget, weights, i))
  }

  /** The whole budget, each section its quota or one more, and the extra units on the
      largest remainders, none of them zero. */
  ghost predicate Apportions(quotas: seq<int>, remainders: seq<int>, budget: nat, a: seq<int>) {
    && |a| == |quotas| == |remainders|
    && Sum(a) == budget
    && (forall i | 0 <= i < |a| :: a[i] == quotas[i] || (a[i] == quotas[i] + 1 && remainders[i] > 0))
    && (forall i, j | 0 <= i < |a| && 0 <= j < |a| && a[i] == quotas[i] + 1 && a[j] == quotas[j] ::
          Precedes(remainders, i, j))
  }

  lemma {:induction false} SumLess(a: seq<int>, b: seq<int>)
    requires |a| == |b| && forall i | 0 <= i < |a| :: a[i] <= b[i]
    ensures Sum(a) <= Sum(b)
    ensures (exists i | 0 <= i < |a| :: a[i] < b[i]) ==> Sum(a) < Sum(b)
    decreases |a|
  {
    if a != [] {
      var n := |a| - 1;
      SumLess(a[..n], b[..n]);
      if i :| 0 <= i < |a| && a[i] < b[i] { if i < n { assert a[..n][i] < b[..n][i]; } }
    }
  }

  /** If one apportionment favours `i`, the other cannot favour `j`. */
  lemma NeverBothWays(quotas: seq<int>, remainders: seq<int>, budget: nat, a: seq<int>, b: seq<int>, i: nat, j: nat)
    requires Apportions(quotas, remainders, budget, a) && Apportions(quotas, remainders, budget, b)
    requires i < |a| && j < |a| && a[i] > b[i]
    ensures b[j] <= a[j]
  {
    assert a[j] == quotas[j] ==> Precedes(remainders, i, j);
    assert b[j] == quotas[j] + 1 ==> Precedes(remainders, j, i);
  }

  /** The rule leaves no freedom: any two apportionments are the same list. */
  lemma ApportionmentIsUnique(quotas: seq<int>, remainders: seq<int>, budget: nat, a: seq<int>, b: seq<int>)
    requires Apportions(quotas, remainders, budget, a) && Apportions(quotas, remainders, budget, b)
    ensures a == b
  {
    if i :| 0 <= i < |a| && a[i] > b[i] {
      forall j | 0 <= j < |a| ensures b[j] <= a[j] { NeverBothWays(quotas, remainders, budget, a, b, i, j); }
      SumLess(b, a);
    } else {
      SumLess(a, b);
    }
  }

  // ------------------------------------------------------------------- sums

  lemma DivMod(x: int, d: int)
    requires d > 0
    ensures x == d * (x / d) + x % d && 0 <= x % d < d
  {
  }

  lemma SumAppend(s: seq<int>, x: int)
    ensures Sum(s + [x]) == Sum(s) + x
  {
    assert (s + [x])[..|s|] == s;
  }

  lemma {:induction false} SumNonNegative(s: seq<int>)
    requires forall i | 0 <= i < |s| :: s[i] >= 0
    ensures Sum(s) >= 0
    decreases |s|
  {
    if s != [] { SumNonNegative(s[..|s| - 1]); }
  }

  lemma {:induction false} SumUpdate(s: seq<int>, i: nat, x: int)
    requires i < |s|
    ensures Sum(s[i := x]) == Sum(s) - s[i] + x
    decreases |s|
  {
    var n := |s| - 1;
    if i == n {
      assert s[i := x][..n] == s[..n];
    } else {
      SumUpdate(s[..n], i, x);
      assert s[i := x][..n] == s[..n][i := x];
    }
  }

  /** `total * sum(quotas) + sum(remainders) == budget * sum(weights)`. */
  lemma {:induction false} Shares(budget: nat, weights: seq<int>, total: int, n: nat, quotas: seq<int>,
                                  remainders: seq<int>)
    requires total > 0 && n <= |weights| == |quotas| == |remainders|
    requires forall i | 0 <= i < |weights| ::
      quotas[i] == budget * weights[i] / total && remainders[i] == budget * weights[i] % total
    ensures total * Sum(quotas[..n]) + Sum(remainders[..n]) == budget * Sum(weights[..n])
    decreases n
  {
    if n > 0 {
      Shares(budget, weights, total, n - 1, quotas, remainders);
      var i := n - 1;
      DivMod(budget * weights[i], total);
      assert quotas[..n] == quotas[..i] + [quotas[i]] && remainders[..n] == remainders[..i] + [remainders[i]];
      assert weights[..n] == weights[..i] + [weights[i]];
      SumAppend(quotas[..i], quotas[i]);
      SumAppend(remainders[..i], remainders[i]);
      SumAppend(weights[..i], weights[i]);
      Distribute(total, Sum(quotas[..i]), quotas[i]);
      Distribute(budget, Sum(weights[..i]), weights[i]);
    }
  }

  lemma Distribute(k: int, a: int, b: int)
    ensures k * (a + b) == k * a + k * b
  {
  }

  function Positive(s: seq<int>): set<nat> {
    set i | 0 <= i < |s| && s[i] > 0
  }

  /** Remainders are below the total, so they sum to less than total per positive one. */
  lemma {:induction false} SumBound(s: seq<int>, total: int)
    requires total > 0 && forall i | 0 <= i < |s| :: 0 <= s[i] < total
    ensures Sum(s) <= (total - 1) * |Positive(s)|
    decreases |s|
  {
    if s == [] {
      assert Positive(s) == {};
    } else {
      var n := |s| - 1;
      SumBound(s[..n], total);
      if s[n] > 0 {
        assert Positive(s) == Positive(s[..n]) + {n};
        Distribute(total - 1, |Positive(s[..n])|, 1);
      } else {
        assert Positive(s) == Positive(s[..n]);
      }
    }
  }

  // ------------------------------------------------------------------- order

  function Members(order: seq<nat>): set<nat> {
    set i | 0 <= i < |order| :: order[i]
  }

  predicate Arranged(remainders: seq<int>, order: seq<nat>) {
    && (forall k | 0 <= k < |order| :: order[k] < |remainders|)
    && (forall k, m | 0 <= k < m < |order| :: Precedes(remainders, order[k], order[m]))
  }

  /** Inserts one index into the arranged ones. */
  method InsertIndex(remainders: seq<int>, order: seq<nat>, index: nat) returns (r: seq<nat>)
    requires Arranged(remainders, order) && index < |remainders| && index !in Members(order)
    ensures Arranged(remainders, r) && |r| == |order| + 1 && Members(r) == Members(order) + {index}
  {
    var k := |order|;
    while k > 0 && Precedes(remainders, index, order[k - 1])
      invariant 0 <= k <= |order|
      invariant forall m | k <= m < |order| :: Precedes(remainders, index, order[m])
    {
      k := k - 1;
    }
    r := order[..k] + [index] + order[k..];
    InsertedMembers(order, k, index);
    forall m | 0 <= m < k ensures Precedes(remainders, order[m], index) {
      assert order[m] in Members(order) && order[k - 1] in Members(order);
    }
    InsertedArranged(remainders, order, k, index);
  }

  lemma InsertedMembers(order: seq<nat>, k: nat, index: nat)
    requires k <= |order|
    ensures Members(order[..k] + [index] + order[k..]) == Members(order) + {index}
  {
    var r := order[..k] + [index] + order[k..];
    assert r[k] == index;
    forall x | x in Members(order) + {index} ensures x in Members(r) {
      if x != index {
        var m :| 0 <= m < |order| && order[m] == x;
        assert r[if m < k then m else m + 1] == x;
      }
    }
  }

  lemma InsertedArranged(remainders: seq<int>, order: seq<nat>, k: nat, index: nat)
    requires Arranged(remainders, order) && index < |remainders| && k <= |order|
    requires forall m | 0 <= m < k :: Precedes(remainders, order[m], index)
    requires forall m | k <= m < |order| :: Precedes(remainders, index, order[m])
    ensures Arranged(remainders, order[..k] + [index] + order[k..])
  {
    var r := order[..k] + [index] + order[k..];
    assert forall m | 0 <= m < |r| :: r[m] == if m < k then order[m] else if m == k then index else order[m - 1];
  }

  /** `sorted(range(n), key=(-remainder, index))`. */
  method ArrangeIndices(remainders: seq<int>) returns (order: seq<nat>)
    ensures Arranged(remainders, order) && |order| == |remainders|
    ensures forall i | 0 <= i < |remainders| :: i in Members(order)
  {
    order := [];
    var i := 0;
    while i < |remainders|
      invariant i <= |remainders| && |order| == i && Arranged(remainders, order)
      invariant forall j: nat :: j in Members(order) <==> j < i
    {
      order := InsertIndex(remainders, order, i);
      i := i + 1;
    }
  }

  lemma {:induction false} FewMembers(order: seq<nat>)
    ensures |Members(order)| <= |order|
    decreases |order|
  {
    if order == [] {
      assert Members(order) == {};
    } else {
      var n := |order| - 1;
      FewMembers(order[..n]);
      assert Members(order) == Members(order[..n]) + {order[n]};
    }
  }

  /** There are never more units left over than positive remainders to take them. */
  lemma LeftoverFits(remainders: seq<int>, order: seq<nat>, total: int, left: int)
    requires total > 0 && forall i | 0 <= i < |remainders| :: 0 <= remainders[i] < total
    requires Arranged(remainders, order) && |order| == |remainders|
    requires forall i | 0 <= i < |remainders| :: i in Members(order)
    requires Sum(remainders) == total * left
    ensures 0 <= left <= |order|
    ensures forall k | 0 <= k < left :: remainders[order[k]] > 0
  {
    SumNonNegative(remainders);
    Signs(total, left);
    assert Positive(remainders) <= Members(order);
    FewMembers(order);
    Subset(Positive(remainders), Members(order));
    NotTooMuch(remainders, total, left, |order|);
    forall k | 0 <= k < left ensures remainders[order[k]] > 0 {
      if remainders[order[k]] == 0 {
        PositiveComeFirst(remainders, order, k);
        NotTooMuch(remainders, total, left, k);
      }
    }
  }

  lemma Signs(total: int, left: int)
    requires total > 0 && total * left >= 0
    ensures left >= 0
  {
  }

  lemma Subset(a: set<nat>, b: set<nat>)
    requires a <= b
    ensures |a| <= |b|
  {
    assert b == a + (b - a);
  }

  lemma PositiveComeFirst(remainders: seq<int>, order: seq<nat>, k: nat)
    requires Arranged(remainders, order) && k < |order| && remainders[order[k]] == 0
    requires forall i | 0 <= i < |remainders| :: i in Members(order)
    ensures |Positive(remainders)| <= k
  {
    forall m | k <= m < |order| ensures remainders[order[m]] <= 0 {
      if m > k { assert Precedes(remainders, order[k], order[m]); }
    }
    forall i | i in Positive(remainders) ensures i in Members(order[..k]) {
      assert i in Members(order);
      var m :| 0 <= m < |order| && order[m] == i;
      assert order[..k][m] == i;
    }
    Subset(Positive(remainders), Members(order[..k]));
    FewMembers(order[..k]);
  }

  lemma NotTooMuch(remainders: seq<int>, total: int, left: int, k: nat)
    requires total > 0 && forall i | 0 <= i < |remainders| :: 0 <= remainders[i] < total
    requires |Positive(remainders)| <= k && Sum(remainders) == total * left
    ensures left <= k
  {
    SumBound(remainders, total);
    var p := |Positive(remainders)|;
    assert (total - 1) * p <= (total - 1) * k by { Monotone(total - 1, p, k); }
    assert (total - 1) * k <= total * k by { Distribute(k, total - 1, 1); }
    if left > k {
      Distribute(total, k, 1);
      Monotone(total, k + 1, left);
    }
  }

  lemma Monotone(k: int, a: int, b: int)
    requires k >= 0 && a <= b
    ensures k * a <= k * b
  {
  }

  // ---------------------------------------------------------------- algorithm

  /** Gives one unit to each of the first `left` indices of the order. */
  method SpreadLeftover(quotas: seq<int>, remainders: seq<int>, order: seq<nat>, left: nat) returns (a: seq<int>)
    requires |quotas| == |remainders| && Arranged(remainders, order) && left <= |order| == |quotas|
    requires forall i | 0 <= i < |remainders| :: i in Members(order)
    requires forall k | 0 <= k < left :: remainders[order[k]] > 0
    ensures |a| == |quotas| && Sum(a) == Sum(quotas) + left
    ensures forall i | 0 <= i < |a| :: a[i] == quotas[i] || (a[i] == quotas[i] + 1 && remainders[i] > 0)
    ensures forall i, j | 0 <= i < |a| && 0 <= j < |a| && a[i] == quotas[i] + 1 && a[j] == quotas[j] ::
      Precedes(remainders, i, j)
  {
    a := quotas;
    var k := 0;
    while k < left
      invariant k <= left && |a| == |quotas| && Sum(a) == Sum(quotas) + k
      invariant forall m | 0 <= m < k :: a[order[m]] == quotas[order[m]] + 1
      invariant forall i | 0 <= i < |a| :: a[i] == quotas[i] || exists m | 0 <= m < k :: order[m] == i
    {
      var index := order[k];
      forall m | 0 <= m < k ensures order[m] != index { assert Precedes(remainders, order[m], order[k]); }
      SumUpdate(a, index, a[index] + 1);
      a := a[index := a[index] + 1];
      assert order[k] == index;
      k := k + 1;
    }
    forall i, j | 0 <= i < |a| && 0 <= j < |a| && a[i] == quotas[i] + 1 && a[j] == quotas[j]
      ensures Precedes(remainders, i, j)
    {
      var m :| 0 <= m < left && order[m] == i;
      assert j in Members(order);
      var n :| 0 <= n < |order| && order[n] == j;
      assert n >= left;
    }
  }

  datatype Error = NegativeBudget

  function WeightsOf(tier: Tier, sections: seq<SectionType>): (w: seq<int>)
    ensures |w| == |sections| && forall i | 0 <= i < |w| :: w[i] > 0
  {
    seq(|sections|, i requires 0 <= i < |sections| => Weight(tier, sections[i]))
  }

  lemma {:induction false} PositiveSum(w: seq<int>)
    requires w != [] && forall i | 0 <= i < |w| :: w[i] > 0
    ensures Sum(w) > 0
    decreases |w|
  {
    if |w| > 1 { PositiveSum(w[..|w| - 1]); }
  }

  /** Allocates the whole budget of any section list at any tier. */
  method AllocateSectionBudgets(sections: seq<SectionType>, budget: int, tier: Tier)
    returns (r: Result<seq<int>, Error>)
    ensures r.Err? <==> budget < 0
    ensures r.Ok? && sections == [] ==> r.value == []
    ensures r.Ok? && sections != [] ==>
      var w := WeightsOf(tier, sections);
      Sum(w) > 0 && Apportions(Quotas(budget, w), Remainders(budget, w), budget, r.value)
  {
    if budget < 0 {
      return Err(NegativeBudget);
    }
    if sections == [] {
      return Ok([]);
    }
    var weights := WeightsOf(tier, sections);
    PositiveSum(weights);
    var quotas, remainders := Quotas(budget, weights), Remainders(budget, weights);
    var left := budget - Sum(quotas);
    var order := ArrangeIndices(remainders);
    Balance(budget, weights);
    LeftoverFits(remainders, order, Sum(weights), left);
    var a := SpreadLeftover(quotas, remainders, order, left);
    r := Ok(a);
  }

  /** The remainders are worth exactly the units that the quotas leave over. */
  lemma Balance(budget: nat, weights: seq<int>)
    requires Sum(weights) > 0
    ensures var quotas, remainders, total := Quotas(budget, weights), Remainders(budget, weights), Sum(weights);
      && Sum(remainders) == total * (budget - Sum(quotas))
      && forall i | 0 <= i < |remainders| :: 0 <= remainders[i] < total
  {
    var quotas, remainders, total := Quotas(budget, weights), Remainders(budget, weights), Sum(weights);
    Shares(budget, weights, total, |weights|, quotas, remainders);
    assert quotas[..|weights|] == quotas && remainders[..|weights|] == remainders && weights[..|weights|] == weights;
    Distribute(total, Sum(quotas), budget - Sum(quotas));
    forall i | 0 <= i < |remainders| ensures 0 <= remainders[i] < total { DivMod(budget * weights[i], total); }
  }
}
