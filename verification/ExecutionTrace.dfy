/** Every execution, read off its attempts: which tiers were barred when each was routed,
    why the loop went on after it, and why it stopped. */
module ExecutionTrace {
  import opened Execution
  import opened ExecutionTheorems
  import opened SectionBudgets
  import opened Wrappers

  // ------------------------------------------------------------- the reference

  /** Attempt `i` bars its tier from all later ones: a failure that neither the router's
      exploration nor a first timeout excuses, on a tier with a way up. */
  predicate Escalates(task: Task, o: Oracle, attempts: seq<Attempt>, i: nat)
    requires i < |attempts|
  {
    var a := attempts[i];
    && !task.pinned && NextTier(task.serving, a.tier).Some?
    && a.verification.verdict == Fail && !o.work(a.n).contextContract
    && (if TimedOut(a.verification) then Timeouts(attempts[..i], a.tier) > 0 && a.n < task.maxAttempts else !a.explored)
  }

  /** The tiers barred by a list of attempts, and how many of them barred one. */
  function Barred(task: Task, o: Oracle, attempts: seq<Attempt>): set<Tier> {
    if attempts == [] then {}
    else
      var n := |attempts| - 1;
      Barred(task, o, attempts[..n]) + (if Escalates(task, o, attempts, n) then {attempts[n].tier} else {})
  }

  function BarringAttempts(task: Task, o: Oracle, attempts: seq<Attempt>): nat {
    if attempts == [] then 0
    else
      var n := |attempts| - 1;
      BarringAttempts(task, o, attempts[..n]) + (if Escalates(task, o, attempts, n) then 1 else 0)
  }

  /** A first timeout on a tier is retried on that very tier, if an attempt is left. */
  function Retry(task: Task, attempts: seq<Attempt>): Option<Tier> {
    if task.pinned || attempts == [] then None
    else
      var n := |attempts| - 1;
      var a := attempts[n];
      var retried := TimedOut(a.verification) && Timeouts(attempts[..n], a.tier) == 0 && a.n < task.maxAttempts;
      if retried then Some(a.tier) else None
  }

  /** What the router is told not to pick after these attempts. */
  function Forbidden(task: Task, o: Oracle, attempts: seq<Attempt>): set<Tier> {
    var retry := Retry(task, attempts);
    Barred(task, o, attempts) + (if retry.Some? then TIERS - {retry.value} else {})
  }

  function Scores(attempts: seq<Attempt>): seq<real> {
    if attempts == [] then [] else Scores(attempts[..|attempts| - 1]) + [attempts[|attempts| - 1].verification.score]
  }

  /** What verifying this work can give, depending on what has been spent before. */
  ghost predicate Graded(task: Task, w: Work, n: nat, v: Verification) {
    exists spent :: Verify(task, w, n, spent).verification == v
  }

  /** Attempt `i` was routed and authorized as the router and the policy answered, given
      the attempts before it, and graded on its own work. */
  ghost predicate RoutedAt(task: Task, o: Oracle, attempts: seq<Attempt>, i: nat)
    requires i < |attempts|
  {
    && attempts[i].n == i + 1 && o.authorized(i + 1)
    && o.decide(i + 1, Forbidden(task, o, attempts[..i])) == Some(Decision(attempts[i].tier, attempts[i].explored))
    && attempts[i].cost == o.work(i + 1).spend.cost
    && Graded(task, o.work(i + 1), i + 1, attempts[i].verification)
  }

  /** Nothing about attempt `i` stopped the loop: it failed, not by the worker's contract,
      and the scores have not levelled off. */
  predicate GoesOn(o: Oracle, attempts: seq<Attempt>, i: nat)
    requires i < |attempts|
  {
    && attempts[i].verification.verdict == Fail && !o.work(attempts[i].n).contextContract
    && !Plateaued(Scores(attempts[..i + 1]))
  }

  /** The attempts whose outcome the loop has weighed: a budget stop cuts the last one. */
  function Weighed(s: State): seq<Attempt> {
    if s.overBudget && s.attempts != [] then s.attempts[..|s.attempts| - 1] else s.attempts
  }

  /** The next attempt is refused. */
  predicate Refused(task: Task, o: Oracle, attempts: seq<Attempt>) {
    var n := |attempts| + 1;
    o.decide(n, Forbidden(task, o, attempts)).None? || !o.authorized(n)
  }

  /** Why the loop has stopped. */
  predicate Stopped(task: Task, o: Oracle, s: State) {
    var n := |s.attempts|;
    || s.overBudget
    || (n > 0 && !GoesOn(o, s.attempts, n - 1))
    || n >= task.maxAttempts
    || Refused(task, o, s.attempts)
  }

  // ---------------------------------------------------------------- the invariant

  ghost predicate AllRouted(task: Task, o: Oracle, attempts: seq<Attempt>) {
    forall i | 0 <= i < |attempts| :: RoutedAt(task, o, attempts, i)
  }

  /** The first `n` attempts did not stop the loop. */
  ghost predicate WentOn(o: Oracle, attempts: seq<Attempt>, n: nat) {
    n <= |attempts| && forall i | 0 <= i < n :: GoesOn(o, attempts, i)
  }

  /** No tier is tried again after an attempt that barred it. */
  ghost predicate NeverAgain(task: Task, o: Oracle, attempts: seq<Attempt>) {
    forall i, j | 0 <= i < j < |attempts| && Escalates(task, o, attempts, i) :: attempts[j].tier != attempts[i].tier
  }

  ghost predicate Follows(task: Task, o: Oracle, s: State) {
    && AllRouted(task, o, s.attempts) && NeverAgain(task, o, s.attempts)
    && s.excluded == Barred(task, o, Weighed(s)) && s.escalations == BarringAttempts(task, o, Weighed(s))
    && (if s.done then WentOn(o, s.attempts, if s.attempts == [] then 0 else |s.attempts| - 1) && Stopped(task, o, s)
        else WentOn(o, s.attempts, |s.attempts|) && s.scores == Scores(s.attempts)
             && (s.n <= task.maxAttempts ==> s.forced == Retry(task, s.attempts)))
  }

  /** One more attempt leaves what was said about the earlier ones. */
  lemma EarlierStays(task: Task, o: Oracle, attempts: seq<Attempt>, a: Attempt, i: nat)
    requires i < |attempts|
    ensures var more := attempts + [a];
      && Escalates(task, o, more, i) == Escalates(task, o, attempts, i)
      && RoutedAt(task, o, more, i) == RoutedAt(task, o, attempts, i)
      && GoesOn(o, more, i) == GoesOn(o, attempts, i)
  {
    var more := attempts + [a];
    assert more[i] == attempts[i] && more[..i] == attempts[..i] && more[..i + 1] == attempts[..i + 1];
  }

  lemma OneMore(task: Task, o: Oracle, attempts: seq<Attempt>, a: Attempt)
    ensures var more, n := attempts + [a], |attempts|;
      && more[..n] == attempts && more[n] == a && more[..n + 1] == more
      && Scores(more) == Scores(attempts) + [a.verification.score]
      && var bars := Escalates(task, o, more, n);
         && Barred(task, o, more) == Barred(task, o, attempts) + (if bars then {a.tier} else {})
         && BarringAttempts(task, o, more) == BarringAttempts(task, o, attempts) + (if bars then 1 else 0)
  {
    var more, n := attempts + [a], |attempts|;
    assert more[..n] == attempts && more[..n + 1] == more;
  }

  /** A tier has timed out before exactly when it has been retried. */
  predicate RetriedMeans(s: State, t: Tier) {
    t in s.retried <==> Timeouts(s.attempts, t) > 0
  }

  lemma RetriedIff(task: Task, s: State, t: Tier)
    requires TimeoutsOk(task, s) && !s.done && !task.pinned
    ensures RetriedMeans(s, t)
  {
  }

  /** What concluding an attempt does to the routing state. */
  lemma ConcludeBars(task: Task, o: Oracle, s: State, d: Decision, w: Work, f: Finding)
    requires !s.done && s.n <= task.maxAttempts && w == o.work(s.n) && |s.attempts| == s.n - 1
    requires !task.pinned ==> RetriedMeans(s, d.tier)
    ensures var next := Conclude(task, s, d, w, f); var n := |s.attempts|;
      && |next.attempts| == n + 1
      && var bars := !f.stopped && Escalates(task, o, next.attempts, n);
         && next.excluded == s.excluded + (if bars then {d.tier} else {})
         && next.escalations == s.escalations + (if bars then 1 else 0)
  {
    ConcludeShape(task, s, d, w, f);
    OneMore(task, o, s.attempts, Attempt(s.n, d.tier, d.explored, f.verification, w.spend.cost));
  }

  lemma ConcludeForces(task: Task, s: State, d: Decision, w: Work, f: Finding)
    requires !s.done && |s.attempts| == s.n - 1 && (!task.pinned ==> RetriedMeans(s, d.tier))
    ensures var next := Conclude(task, s, d, w, f); !next.done ==> next.forced == Retry(task, next.attempts)
  {
    ConcludeShape(task, s, d, w, f);
    var a := Attempt(s.n, d.tier, d.explored, f.verification, w.spend.cost);
    assert (s.attempts + [a])[..|s.attempts|] == s.attempts;
  }

  /** Why the loop goes on or stops after an attempt. */
  lemma ConcludeGoesOn(task: Task, o: Oracle, s: State, d: Decision, w: Work, f: Finding)
    requires !s.done && !s.overBudget && w == o.work(s.n) && |s.attempts| == s.n - 1 && s.scores == Scores(s.attempts)
    ensures var next := Conclude(task, s, d, w, f);
      && |next.attempts| == |s.attempts| + 1 && next.overBudget == f.stopped
      && (next.done <==> f.stopped || !GoesOn(o, next.attempts, |s.attempts|))
      && (!next.done ==> next.scores == Scores(next.attempts))
  {
    var a := Attempt(s.n, d.tier, d.explored, f.verification, w.spend.cost);
    OneMore(Task(0, true, {}, None, Spent(0.0, 0, 0.0)), o, s.attempts, a);
    ConcludeMoney(task, s, d, w, f);
    if Continues(w, f) { FailureKeepsScores(task, Scored(s, d, w, f), d, f.verification); }
  }

  lemma FailureKeepsScores(task: Task, s: State, d: Decision, v: Verification)
    ensures var u := AfterFailure(task, s, d, v); u.scores == s.scores && u.done == s.done && u.n == s.n
  {
  }

  lemma ForbiddenIsExclusions(task: Task, o: Oracle, s: State)
    requires Follows(task, o, s) && !s.done && !s.overBudget && s.n <= task.maxAttempts
    ensures Exclusions(s) == Forbidden(task, o, s.attempts)
  {
  }

  lemma RoutedLast(task: Task, o: Oracle, s: State, a: Attempt)
    requires |s.attempts| == s.n - 1 && a.n == s.n && o.authorized(s.n) && a.cost == o.work(s.n).spend.cost
    requires o.decide(s.n, Forbidden(task, o, s.attempts)) == Some(Decision(a.tier, a.explored))
    requires Graded(task, o.work(s.n), s.n, a.verification)
    ensures RoutedAt(task, o, s.attempts + [a], |s.attempts|)
  {
    assert (s.attempts + [a])[..|s.attempts|] == s.attempts;
  }

  lemma MoreRouted(task: Task, o: Oracle, attempts: seq<Attempt>, a: Attempt)
    requires AllRouted(task, o, attempts) && RoutedAt(task, o, attempts + [a], |attempts|)
    ensures AllRouted(task, o, attempts + [a])
  {
    forall i | 0 <= i < |attempts| ensures RoutedAt(task, o, attempts + [a], i) {
      EarlierStays(task, o, attempts, a, i);
    }
  }

  lemma MoreWentOn(task: Task, o: Oracle, attempts: seq<Attempt>, a: Attempt)
    requires WentOn(o, attempts, |attempts|)
    ensures WentOn(o, attempts + [a], |attempts|)
    ensures GoesOn(o, attempts + [a], |attempts|) ==> WentOn(o, attempts + [a], |attempts| + 1)
  {
    forall i | 0 <= i < |attempts| ensures GoesOn(o, attempts + [a], i) {
      EarlierStays(task, o, attempts, a, i);
    }
  }

  lemma MoreNeverAgain(task: Task, o: Oracle, attempts: seq<Attempt>, a: Attempt)
    requires NeverAgain(task, o, attempts) && a.tier !in Barred(task, o, attempts)
    ensures NeverAgain(task, o, attempts + [a])
  {
    var more := attempts + [a];
    forall i, j | 0 <= i < j < |more| && Escalates(task, o, more, i) ensures more[j].tier != more[i].tier {
      EarlierStays(task, o, attempts, a, i);
      if j == |attempts| { BarredHolds(task, o, attempts, i); }
    }
  }

  lemma ConcludeFollows(task: Task, o: Oracle, s: State, d: Decision, f: Finding)
    requires StateOk(task, s) && Follows(task, o, s) && !s.done && s.n <= task.maxAttempts && d.tier !in s.excluded
    requires o.decide(s.n, Exclusions(s)) == Some(d) && o.authorized(s.n)
    requires Graded(task, o.work(s.n), s.n, f.verification)
    ensures Follows(task, o, Conclude(task, s, d, o.work(s.n), f))
  {
    var w := o.work(s.n);
    var a := Attempt(s.n, d.tier, d.explored, f.verification, w.spend.cost);
    if !task.pinned { RetriedIff(task, s, d.tier); }
    ForbiddenIsExclusions(task, o, s);
    RoutedLast(task, o, s, a);
    MoreRouted(task, o, s.attempts, a);
    MoreWentOn(task, o, s.attempts, a);
    MoreNeverAgain(task, o, s.attempts, a);
    ConcludeMoney(task, s, d, w, f);
    ConcludeVerdict(task, s, d, w, f);
    ConcludeBars(task, o, s, d, w, f);
    ConcludeForces(task, s, d, w, f);
    ConcludeGoesOn(task, o, s, d, w, f);
    FollowsFromParts(task, o, s, a, Conclude(task, s, d, w, f), f.stopped);
  }

  lemma FollowsFromParts(task: Task, o: Oracle, s: State, a: Attempt, next: State, stopped: bool)
    requires next.attempts == s.attempts + [a] && next.overBudget == stopped
    requires s.excluded == Barred(task, o, s.attempts) && s.escalations == BarringAttempts(task, o, s.attempts)
    requires AllRouted(task, o, next.attempts) && NeverAgain(task, o, next.attempts)
      && WentOn(o, next.attempts, |s.attempts|)
    requires GoesOn(o, next.attempts, |s.attempts|) ==> WentOn(o, next.attempts, |s.attempts| + 1)
    requires next.done <==> stopped || !GoesOn(o, next.attempts, |s.attempts|)
    requires !next.done ==> next.scores == Scores(next.attempts) && next.forced == Retry(task, next.attempts)
    requires var bars := !stopped && Escalates(task, o, next.attempts, |s.attempts|);
      && next.excluded == s.excluded + (if bars then {a.tier} else {})
      && next.escalations == s.escalations + (if bars then 1 else 0)
    ensures Follows(task, o, next)
  {
    OneMore(task, o, s.attempts, a);
  }

  lemma {:induction false} BarredHolds(task: Task, o: Oracle, attempts: seq<Attempt>, i: nat)
    requires i < |attempts| && Escalates(task, o, attempts, i)
    ensures attempts[i].tier in Barred(task, o, attempts)
  {
    var n := |attempts| - 1;
    if i < n {
      assert attempts == attempts[..n] + [attempts[n]];
      EarlierStays(task, o, attempts[..n], attempts[n], i);
      BarredHolds(task, o, attempts[..n], i);
    }
  }

  lemma StepFollows(task: Task, o: Oracle, s: State)
    requires RouterOk(o) && StateOk(task, s) && Follows(task, o, s) && !s.done && s.n <= task.maxAttempts
    ensures Follows(task, o, Step(task, o, s))
  {
    ForbiddenIsExclusions(task, o, s);
    var decision := o.decide(s.n, Exclusions(s));
    if decision.Some? && o.authorized(s.n) {
      ForcedTier(o, s);
      ConcludeFollows(task, o, s, decision.value, Verify(task, o.work(s.n), s.n, Total(task.spent, s.charges)));
    }
  }

  lemma {:induction false} LoopFollows(task: Task, o: Oracle, s: State)
    requires RouterOk(o) && StateOk(task, s) && Follows(task, o, s)
    ensures Follows(task, o, Loop(task, o, s))
    decreases task.maxAttempts + 1 - s.n
  {
    if !s.done && s.n <= task.maxAttempts {
      StepFollows(task, o, s);
      StepKeeps(task, o, s);
      StepAdvances(task, o, s);
      if Step(task, o, s).n > s.n { LoopFollows(task, o, Step(task, o, s)); }
    }
  }

  lemma ExecutionFollows(task: Task, o: Oracle)
    requires RouterOk(o) && !Exceeds(task, task.spent)
    ensures Follows(task, o, Loop(task, o, START)) && StateOk(task, Loop(task, o, START))
    ensures Loop(task, o, START).done || Loop(task, o, START).n > task.maxAttempts
  {
    EveryExecution(task, o);
    LoopFollows(task, o, START);
  }

  // ------------------------------------------------------------------- theorems

  /** What grades an attempt. A forged result and a worker's error speak for themselves; a
      budget stop hides everything else; otherwise the checks count, unless the artifact
      ran and was judged by that, and a judge decides only where nothing else did. */
  lemma GradeMeans(task: Task, w: Work, n: nat, spent: Spent)
    ensures var f := Verify(task, w, n, spent);
      var ran := w.executed.Some? && w.signature.SignedV2? && w.check.scorer != Schema;
      var own := if ran then w.executed.value.verification else None;
      var checked := if own.Some? then own.value else w.check;
      if w.signature.Forged? then f.verification == Verification(Fail, Disobeyed, 0.0, Authenticity)
      else if w.error then
        f.verification ==
        Verification(Fail, if w.timedOut && !w.schemaError then Timeout else OtherMode, 0.0, OtherScorer)
      else if f.stopped then f.verification == Verification(Fail, OverBudget, 0.0, BudgetScorer)
      else if checked.verdict.Unverified? && w.judged.Some? && w.judged.value.verification.Some? then
        f.verification == w.judged.value.verification.value
      else f.verification == checked
  {
  }

  /** Every attempt was routed with exactly the tiers forbidden that the earlier attempts
      had barred, or all but one for the retry of a first timeout, and authorized. */
  lemma EveryAttemptIsRouted(task: Task, o: Oracle, i: nat)
    requires RouterOk(o) && !Exceeds(task, task.spent) && i < |Loop(task, o, START).attempts|
    ensures RoutedAt(task, o, Loop(task, o, START).attempts, i)
  {
    ExecutionFollows(task, o);
  }

  /** A tier on which an attempt failed for good is never tried again. */
  lemma BarredTiersStayBarred(task: Task, o: Oracle, i: nat, j: nat)
    requires RouterOk(o) && !Exceeds(task, task.spent)
    requires i < j < |Loop(task, o, START).attempts| && !task.pinned
    requires var attempts := Loop(task, o, START).attempts; var a := attempts[i];
      && NextTier(task.serving, a.tier).Some?
      && (if TimedOut(a.verification) then Timeouts(attempts[..i], a.tier) > 0 else !a.explored)
    ensures Loop(task, o, START).attempts[j].tier != Loop(task, o, START).attempts[i].tier
  {
    ExecutionFollows(task, o);
    var attempts := Loop(task, o, START).attempts;
    VerdictIsTheLastAttempts(task, o);
    assert GoesOn(o, attempts, i);
    assert Escalates(task, o, attempts, i);
  }

  /** The escalations are exactly the attempts that barred their tier, among those whose
      outcome the loop has weighed; each barred another tier. */
  lemma EscalationsAreExact(task: Task, o: Oracle)
    requires RouterOk(o) && !Exceeds(task, task.spent)
    ensures var end := Loop(task, o, START);
      && end.excluded == Barred(task, o, Weighed(end))
      && end.escalations == BarringAttempts(task, o, Weighed(end)) == |end.excluded|
  {
    ExecutionFollows(task, o);
  }

  /** The loop goes on after an attempt if and only if it failed within the budget and not by
      the worker's contract, the scores have not levelled off, an attempt is left, and the
      next one is routed and authorized. */
  lemma StopsForAReason(task: Task, o: Oracle)
    requires RouterOk(o) && !Exceeds(task, task.spent)
    ensures var end := Loop(task, o, START);
      Stopped(task, o, end) && forall i | 0 <= i < |end.attempts| - 1 :: GoesOn(o, end.attempts, i)
  {
    ExecutionFollows(task, o);
    VerdictIsTheLastAttempts(task, o);
  }
}
