/** What holds of every execution, for every behaviour of router, workers, verifiers and
    judges. */
module ExecutionTheorems {
  import opened Execution
  import opened SectionBudgets
  import opened Wrappers

  function Timeouts(attempts: seq<Attempt>, t: Tier): nat {
    if attempts == [] then 0
    else
      var last := attempts[|attempts| - 1];
      Timeouts(attempts[..|attempts| - 1], t) + (if last.tier == t && TimedOut(last.verification) then 1 else 0)
  }

  function Costs(attempts: seq<Attempt>): real {
    if attempts == [] then 0.0 else Costs(attempts[..|attempts| - 1]) + attempts[|attempts| - 1].cost
  }

  lemma AppendCounts(attempts: seq<Attempt>, a: Attempt, t: Tier)
    ensures Timeouts(attempts + [a], t) ==
      Timeouts(attempts, t) + (if a.tier == t && TimedOut(a.verification) then 1 else 0)
    ensures Costs(attempts + [a]) == Costs(attempts) + a.cost
  {
    assert (attempts + [a])[..|attempts|] == attempts;
  }

  // ---------------------------------------------------------------- invariant

  /** Only tiers with a higher serving tier are excluded, each by one escalation. */
  predicate EscalationOk(task: Task, s: State) {
    && (forall t | t in s.excluded :: NextTier(task.serving, t).Some?)
    && s.escalations == |s.excluded|
    && (task.pinned ==> s.excluded == {} && s.forced.None?)
    && (s.forced.Some? ==> s.forced.value !in s.excluded && s.forced.value in s.retried)
  }

  predicate AttemptsOk(s: State) {
    && (forall i | 0 <= i < |s.attempts| :: s.attempts[i].n == i + 1)
    && (forall i | 0 <= i < |s.attempts| - 1 :: s.attempts[i].verification.verdict.Fail?)
    && s.n >= 1
    && (if s.done then s.n - 1 <= |s.attempts| <= s.n
        else |s.attempts| == s.n - 1 && s.verdict == Unverified
             && forall i | 0 <= i < |s.attempts| :: s.attempts[i].verification.verdict.Fail?)
    && (s.verdict == Pass ==> s.attempts != [] && s.attempts[|s.attempts| - 1].verification.verdict == Pass)
    && (s.done && s.attempts == [] ==> s.verdict == Fail)
  }

  /** How often a tier with a way up may have timed out. */
  function Allowed(task: Task, s: State, t: Tier): nat {
    if s.done || s.n > task.maxAttempts || t in s.excluded then 2 else if t in s.retried then 1 else 0
  }

  predicate TimeoutsOk(task: Task, s: State) {
    !task.pinned ==>
      && (forall t: Tier :: NextTier(task.serving, t).Some? ==> Timeouts(s.attempts, t) <= Allowed(task, s, t))
      && (forall t: Tier :: t !in s.retried && !s.done ==> Timeouts(s.attempts, t) == 0)
      && (forall t | t in s.retried :: Timeouts(s.attempts, t) > 0)
  }

  /** The first timeout of a tier is followed by one more attempt on that very tier. */
  predicate RetriedAt(attempts: seq<Attempt>, i: nat)
    requires i < |attempts|
  {
    var a := attempts[i];
    TimedOut(a.verification) && Timeouts(attempts[..i], a.tier) == 0 && i + 1 < |attempts| ==>
      attempts[i + 1].tier == a.tier
  }

  predicate RetriesOk(task: Task, s: State) {
    !task.pinned ==>
      && (forall i | 0 <= i < |s.attempts| :: RetriedAt(s.attempts, i))
      && (!s.done && s.n <= task.maxAttempts && s.attempts != [] ==>
            var last := s.attempts[|s.attempts| - 1];
            TimedOut(last.verification) && Timeouts(s.attempts[..|s.attempts| - 1], last.tier) == 0 ==>
              s.forced == Some(last.tier))
  }

  predicate MoneyOk(task: Task, s: State) {
    && (s.overBudget ==> s.done && s.attempts != [])
    && s.cost == Costs(if s.overBudget then s.attempts[..|s.attempts| - 1] else s.attempts)
    && (forall k | 0 <= k < |s.charges| :: !Exceeds(task, Total(task.spent, s.charges[..k])))
    && (s.overBudget <==> Exceeds(task, Total(task.spent, s.charges)))
  }

  ghost predicate StateOk(task: Task, s: State) {
    EscalationOk(task, s) && AttemptsOk(s) && TimeoutsOk(task, s) && RetriesOk(task, s) && MoneyOk(task, s)
  }

  // --------------------------------------------------------------------- step

  lemma ForcedTier(o: Oracle, s: State)
    requires RouterOk(o) && o.decide(s.n, Exclusions(s)).Some?
    ensures var t := o.decide(s.n, Exclusions(s)).value.tier;
      t !in s.excluded && (s.forced.Some? ==> t == s.forced.value)
  {
    var t := o.decide(s.n, Exclusions(s)).value.tier;
    assert t == Small || t == Mid || t == Frontier;
  }

  /** No charge is made once a cap is passed. */
  predicate Prudent(task: Task, spent: Spent, charges: seq<Spent>) {
    forall k | 0 <= k < |charges| :: !Exceeds(task, Total(spent, charges[..k]))
  }

  lemma OneCharge(spent: Spent, c: Spent)
    ensures Total(spent, [c]) == Plus(spent, c)
  {
    assert [c][..0] == [];
  }

  lemma MoreCharges(spent: Spent, charges: seq<Spent>, c: Spent)
    ensures Total(spent, charges + [c]) == Plus(Total(spent, charges), c)
  {
    assert (charges + [c])[..|charges|] == charges;
  }

  lemma PrudentMore(task: Task, spent: Spent, charges: seq<Spent>, c: Spent)
    requires Prudent(task, spent, charges) && !Exceeds(task, Total(spent, charges))
    ensures Prudent(task, spent, charges + [c])
  {
    forall k | 0 <= k < |charges + [c]| ensures !Exceeds(task, Total(spent, (charges + [c])[..k])) {
      assert (charges + [c])[..k] == charges[..k];
      assert charges[..|charges|] == charges;
    }
  }

  lemma GradeMoney(task: Task, v: Verification, w: Work, spent: Spent, charges: seq<Spent>)
    requires Prudent(task, spent, charges) && !Exceeds(task, Total(spent, charges))
    ensures var f := Grade(task, v, w, Total(spent, charges), charges);
      && Prudent(task, spent, f.charges) && (f.stopped <==> Exceeds(task, Total(spent, f.charges)))
      && (f.stopped ==> f.verification == BUDGET_FAILURE)
  {
    if w.judged.Some? {
      MoreCharges(spent, charges, w.judged.value.spend);
      PrudentMore(task, spent, charges, w.judged.value.spend);
    }
  }

  /** An attempt stops at the charge that passes a cap. A malfunctioning worker keeps its
      own failure, budget stop or not, and only its own spend is charged. */
  lemma VerifyMoney(task: Task, w: Work, n: nat, spent: Spent)
    requires !Exceeds(task, spent)
    ensures var f := Verify(task, w, n, spent);
      && Prudent(task, spent, f.charges) && (f.stopped <==> Exceeds(task, Total(spent, f.charges)))
      && (f.stopped && !Malfunctioned(w) ==> f.verification == BUDGET_FAILURE)
      && (f.stopped ==> f.verification.verdict == Fail)
      && (Malfunctioned(w) ==>
            f.verification == Checked(w) && f.verification.verdict == Fail && f.charges == [FirstCharge(w, n)])
  {
    var v, c := Checked(w), FirstCharge(w, n);
    OneCharge(spent, c);
    assert [c][..0] == [];
    assert Prudent(task, spent, [c]);
    if !Exceeds(task, Plus(spent, c)) {
      if Runs(w, v) {
        var e := Spent(0.0, 0, w.executed.value.wall);
        MoreCharges(spent, [c], e);
        PrudentMore(task, spent, [c], e);
        assert [c] + [e] == [c, e];
        if !Exceeds(task, Plus(Plus(spent, c), e)) {
          var ran := w.executed.value;
          GradeMoney(task, if ran.verification.Some? then ran.verification.value else v, w, spent, [c, e]);
        }
      } else {
        GradeMoney(task, v, w, spent, [c]);
      }
    }
  }

  predicate SameEscalation(s: State, u: State) {
    s.excluded == u.excluded && s.escalations == u.escalations && s.retried == u.retried && s.forced == u.forced
  }

  /** A further attempt follows only a failure that was neither final nor a budget stop. */
  predicate Continues(w: Work, f: Finding) {
    !f.stopped && f.verification.verdict.Fail? && !w.contextContract
  }

  /** The attempt is recorded, and the loop goes on only after a failure that was not final. */
  lemma ConcludeRecords(task: Task, s: State, d: Decision, w: Work, f: Finding)
    requires !s.done
    ensures var next := Conclude(task, s, d, w, f);
      && next.attempts == s.attempts + [Attempt(s.n, d.tier, d.explored, f.verification, w.spend.cost)]
      && (next.done || (next.n == s.n + 1 && Continues(w, f)))
  {
  }

  lemma ConcludeContinues(task: Task, s: State, d: Decision, w: Work, f: Finding)
    requires Continues(w, f)
    ensures SameEscalation(Conclude(task, s, d, w, f), AfterFailure(task, Scored(s, d, w, f), d, f.verification))
  {
  }

  lemma ConcludeStops(task: Task, s: State, d: Decision, w: Work, f: Finding)
    requires !Continues(w, f)
    ensures SameEscalation(Conclude(task, s, d, w, f), s.(forced := None))
  {
  }

  lemma ConcludeShape(task: Task, s: State, d: Decision, w: Work, f: Finding)
    requires !s.done
    ensures var next := Conclude(task, s, d, w, f); var quiet := s.(forced := None);
      && next.attempts == s.attempts + [Attempt(s.n, d.tier, d.explored, f.verification, w.spend.cost)]
      && (next.done || (next.n == s.n + 1 && Continues(w, f)))
      && SameEscalation(next, if Continues(w, f) then AfterFailure(task, quiet, d, f.verification) else quiet)
  {
    ConcludeRecords(task, s, d, w, f);
    if Continues(w, f) {
      ConcludeContinues(task, s, d, w, f);
      FailureIgnoresMoney(task, s.(forced := None), Scored(s, d, w, f), d, f.verification);
    } else {
      ConcludeStops(task, s, d, w, f);
    }
  }

  /** What a failure changes depends on the escalation state only. */
  lemma FailureIgnoresMoney(task: Task, s: State, u: State, d: Decision, v: Verification)
    requires SameEscalation(s, u) && s.n == u.n
    ensures SameEscalation(AfterFailure(task, s, d, v), AfterFailure(task, u, d, v))
  {
    assert SameEscalation(Escalate(task, s, d.tier), Escalate(task, u, d.tier));
  }

  lemma FailureKeeps(task: Task, s: State, d: Decision, v: Verification)
    requires EscalationOk(task, s) && d.tier !in s.excluded && s.forced.None?
    ensures EscalationOk(task, AfterFailure(task, s, d, v))
  {
    if !task.pinned { EscalateKeeps(task, s, d.tier); }
  }

  lemma EscalateKeeps(task: Task, s: State, tier: Tier)
    requires EscalationOk(task, s) && tier !in s.excluded && s.forced.None? && !task.pinned
    ensures EscalationOk(task, Escalate(task, s, tier))
  {
  }

  lemma EscalationStep(task: Task, s: State, d: Decision, w: Work, f: Finding)
    requires EscalationOk(task, s) && d.tier !in s.excluded && !s.done
    ensures EscalationOk(task, Conclude(task, s, d, w, f))
  {
    ConcludeShape(task, s, d, w, f);
    FailureKeeps(task, s.(forced := None), d, f.verification);
  }

  lemma ConcludeVerdict(task: Task, s: State, d: Decision, w: Work, f: Finding)
    requires !s.done
    ensures var u := Conclude(task, s, d, w, f);
      && (!u.done ==> u.n == s.n + 1 && u.verdict == s.verdict && f.verification.verdict == Fail)
      && (u.done ==> u.n == s.n
                     && u.verdict ==
                        if f.stopped || f.verification.verdict == Fail then s.verdict else f.verification.verdict)
  {
  }

  lemma AttemptsStep(task: Task, s: State, d: Decision, w: Work, f: Finding)
    requires AttemptsOk(s) && !s.done && (f.stopped ==> f.verification.verdict == Fail)
    ensures AttemptsOk(Conclude(task, s, d, w, f))
  {
    ConcludeVerdict(task, s, d, w, f);
    var u := Conclude(task, s, d, w, f);
    assert u.attempts == s.attempts + [Attempt(s.n, d.tier, d.explored, f.verification, w.spend.cost)];
  }

  /** Per tier: one more timeout is within what the next state allows. */
  lemma OneMoreTimeout(task: Task, s: State, d: Decision, v: Verification, t: Tier, count: nat)
    requires t in s.excluded && NextTier(task.serving, t).Some? ==> count <= 2
    requires t !in s.excluded && NextTier(task.serving, t).Some? ==> count <= (if t in s.retried then 1 else 0)
    requires (t in s.retried ==> count > 0) && (t !in s.retried ==> count == 0)
    requires !task.pinned && s.n <= task.maxAttempts && d.tier !in s.excluded
    ensures var u := AfterFailure(task, s, d, v); var after := count + (if d.tier == t && TimedOut(v) then 1 else 0);
      && (NextTier(task.serving, t).Some? ==>
            after <= (if s.n == task.maxAttempts || t in u.excluded then 2 else if t in u.retried then 1 else 0))
      && (t in u.retried ==> after > 0) && (t !in u.retried ==> after == 0)
  {
  }

  lemma TimeoutsStep(task: Task, s: State, d: Decision, w: Work, f: Finding)
    requires TimeoutsOk(task, s) && !s.done && s.n <= task.maxAttempts && d.tier !in s.excluded
    ensures TimeoutsOk(task, Conclude(task, s, d, w, f))
  {
    var next := Conclude(task, s, d, w, f);
    ConcludeShape(task, s, d, w, f);
    if !task.pinned {
      forall t: Tier
        ensures NextTier(task.serving, t).Some? ==> Timeouts(next.attempts, t) <= Allowed(task, next, t)
        ensures t !in next.retried && !next.done ==> Timeouts(next.attempts, t) == 0
        ensures t in next.retried ==> Timeouts(next.attempts, t) > 0
      {
        AppendCounts(s.attempts, Attempt(s.n, d.tier, d.explored, f.verification, w.spend.cost), t);
        OneMoreTimeout(task, s.(forced := None), d, f.verification, t, Timeouts(s.attempts, t));
      }
    }
  }

  lemma RetriesStep(task: Task, s: State, d: Decision, w: Work, f: Finding)
    requires RetriesOk(task, s) && TimeoutsOk(task, s) && !s.done && s.n <= task.maxAttempts
    requires s.forced.Some? ==> d.tier == s.forced.value
    ensures RetriesOk(task, Conclude(task, s, d, w, f))
  {
    var next := Conclude(task, s, d, w, f);
    var a := Attempt(s.n, d.tier, d.explored, f.verification, w.spend.cost);
    assert next.attempts == s.attempts + [a];
    if !task.pinned {
      forall i | 0 <= i < |next.attempts| ensures RetriedAt(next.attempts, i) {
        if i < |s.attempts| {
          assert RetriedAt(s.attempts, i);
          assert next.attempts[..i] == s.attempts[..i];
        }
      }
      assert next.attempts[..|s.attempts|] == s.attempts;
      if TimedOut(f.verification) && Timeouts(s.attempts, d.tier) == 0 { FirstTimeoutForces(task, s, d, w, f); }
    }
  }

  lemma FirstTimeoutForces(task: Task, s: State, d: Decision, w: Work, f: Finding)
    requires !task.pinned && TimeoutsOk(task, s) && !s.done && s.n <= task.maxAttempts
    requires TimedOut(f.verification) && Timeouts(s.attempts, d.tier) == 0
    requires d.tier in s.retried ==> Timeouts(s.attempts, d.tier) > 0
    ensures var next := Conclude(task, s, d, w, f);
      !next.done && next.n <= task.maxAttempts ==> next.forced == Some(d.tier)
  {
  }

  lemma {:induction false} TotalAppend(spent: Spent, first: seq<Spent>, more: seq<Spent>)
    ensures Total(spent, first + more) == Total(Total(spent, first), more)
    decreases |more|
  {
    if more == [] {
      assert first + more == first;
    } else {
      var n := |more| - 1;
      TotalAppend(spent, first, more[..n]);
      assert first + more == (first + more[..n]) + [more[n]];
      MoreCharges(spent, first + more[..n], more[n]);
    }
  }

  lemma PrudentAppend(task: Task, spent: Spent, first: seq<Spent>, more: seq<Spent>)
    requires Prudent(task, spent, first) && Prudent(task, Total(spent, first), more)
    ensures Prudent(task, spent, first + more)
  {
    forall k | 0 <= k < |first + more| ensures !Exceeds(task, Total(spent, (first + more)[..k])) {
      if k < |first| {
        assert (first + more)[..k] == first[..k];
      } else {
        assert (first + more)[..k] == first + more[..k - |first|];
        TotalAppend(spent, first, more[..k - |first|]);
      }
    }
  }

  lemma MoneyStep(task: Task, s: State, d: Decision, w: Work)
    requires MoneyOk(task, s) && !s.done
    ensures MoneyOk(task, Conclude(task, s, d, w, Verify(task, w, s.n, Total(task.spent, s.charges))))
  {
    var spent := Total(task.spent, s.charges);
    var f := Verify(task, w, s.n, spent);
    var a := Attempt(s.n, d.tier, d.explored, f.verification, w.spend.cost);
    VerifyMoney(task, w, s.n, spent);
    assert Prudent(task, task.spent, s.charges);
    TotalAppend(task.spent, s.charges, f.charges);
    PrudentAppend(task, task.spent, s.charges, f.charges);
    AppendCounts(s.attempts, a, d.tier);
    assert (s.attempts + [a])[..|s.attempts|] == s.attempts;
    ConcludeMoney(task, s, d, w, f);
  }

  lemma FailureKeepsMoney(task: Task, s: State, d: Decision, v: Verification)
    ensures var u := AfterFailure(task, s, d, v);
      u.attempts == s.attempts && u.charges == s.charges && u.cost == s.cost && u.overBudget == s.overBudget
  {
  }

  lemma ConcludeMoney(task: Task, s: State, d: Decision, w: Work, f: Finding)
    requires !s.done
    ensures var u := Conclude(task, s, d, w, f);
      && u.attempts == s.attempts + [Attempt(s.n, d.tier, d.explored, f.verification, w.spend.cost)]
      && u.charges == s.charges + f.charges
      && (if f.stopped then u.done && u.overBudget && u.cost == s.cost
          else u.cost == s.cost + w.spend.cost && u.overBudget == s.overBudget)
  {
    FailureKeepsMoney(task, Scored(s, d, w, f), d, f.verification);
  }

  lemma StepKeeps(task: Task, o: Oracle, s: State)
    requires RouterOk(o) && StateOk(task, s) && !s.done && s.n <= task.maxAttempts
    ensures StateOk(task, Step(task, o, s))
  {
    var decision := o.decide(s.n, Exclusions(s));
    if decision.Some? && o.authorized(s.n) {
      var w := o.work(s.n);
      var f := Verify(task, w, s.n, Total(task.spent, s.charges));
      ForcedTier(o, s);
      VerifyMoney(task, w, s.n, Total(task.spent, s.charges));
      EscalationStep(task, s, decision.value, w, f);
      AttemptsStep(task, s, decision.value, w, f);
      TimeoutsStep(task, s, decision.value, w, f);
      RetriesStep(task, s, decision.value, w, f);
      MoneyStep(task, s, decision.value, w);
    } else {
      AbortKeeps(task, s);
    }
  }

  lemma AbortKeeps(task: Task, s: State)
    requires StateOk(task, s) && !s.done && s.n <= task.maxAttempts
    ensures StateOk(task, s.(forced := None, done := true, verdict := Fail))
  {
    assert !task.pinned ==>
      forall t: Tier :: NextTier(task.serving, t).Some? ==> Timeouts(s.attempts, t) <= Allowed(task, s, t);
  }

  lemma {:induction false} LoopKeeps(task: Task, o: Oracle, s: State)
    requires RouterOk(o) && StateOk(task, s)
    ensures var end := Loop(task, o, s); StateOk(task, end) && (end.done || end.n > task.maxAttempts)
    decreases task.maxAttempts + 1 - s.n
  {
    if !s.done && s.n <= task.maxAttempts {
      StepKeeps(task, o, s);
      StepAdvances(task, o, s);
      if Step(task, o, s).n > s.n { LoopKeeps(task, o, Step(task, o, s)); }
    }
  }

  lemma StepAdvances(task: Task, o: Oracle, s: State)
    requires !s.done
    ensures Step(task, o, s).n > s.n || Step(task, o, s).done
  {
    var decision := o.decide(s.n, Exclusions(s));
    if decision.Some? && o.authorized(s.n) {
      ConcludeShape(task, s, decision.value, o.work(s.n), Verify(task, o.work(s.n), s.n, Total(task.spent, s.charges)));
    }
  }

  /** The state in which any execution ends. */
  lemma EveryExecution(task: Task, o: Oracle)
    requires RouterOk(o) && !Exceeds(task, task.spent)
    ensures var end := Loop(task, o, START); StateOk(task, end) && (end.done || end.n > task.maxAttempts)
  {
    LoopKeeps(task, o, START);
  }

  // ----------------------------------------------------------------- theorems

  /** Each escalation excludes one more tier; there are at most two, and a pinned worker
      is never escalated away from. */
  lemma EscalationsAreBounded(task: Task, o: Oracle)
    requires RouterOk(o) && !Exceeds(task, task.spent)
    ensures var end := Loop(task, o, START);
      && end.escalations == |end.excluded| <= 2
      && (task.pinned ==> end.escalations == 0)
      && (forall t | t in end.excluded :: NextTier(task.serving, t).Some?)
  {
    EveryExecution(task, o);
    var end := Loop(task, o, START);
    assert end.excluded <= {Small, Mid};
    SubsetSize(end.excluded, {Small, Mid});
  }

  lemma SubsetSize(a: set<Tier>, b: set<Tier>)
    requires a <= b
    ensures |a| <= |b|
  {
    assert b == a + (b - a);
  }

  /** A tier with a way up times out at most twice, and its first timeout is retried on
      that very tier before anything else is tried. A pinned worker has no such bound:
      it may time out on as many attempts as the task allows, and no tier on more. */
  lemma TimeoutsAreRetriedOnce(task: Task, o: Oracle, t: Tier, i: nat)
    requires RouterOk(o) && !Exceeds(task, task.spent)
    ensures var attempts := OutcomeOf(Loop(task, o, START)).attempts;
      && (!task.pinned && NextTier(task.serving, t).Some? ==> Timeouts(attempts, t) <= 2)
      && (!task.pinned && i < |attempts| ==> RetriedAt(attempts, i))
      && Timeouts(attempts, t) <= |attempts| <= task.maxAttempts
  {
    EveryExecution(task, o);
    LoopBounds(task, o, START);
    TimeoutsAreAttempts(Loop(task, o, START).attempts, t);
  }

  lemma {:induction false} TimeoutsAreAttempts(attempts: seq<Attempt>, t: Tier)
    ensures Timeouts(attempts, t) <= |attempts|
  {
    if attempts != [] { TimeoutsAreAttempts(attempts[..|attempts| - 1], t); }
  }

  /** The outcome's verdict is its last attempt's, every earlier attempt failed, and a
      task that was allowed an attempt but got none has failed. */
  lemma VerdictIsTheLastAttempts(task: Task, o: Oracle)
    requires RouterOk(o) && !Exceeds(task, task.spent)
    ensures var r := OutcomeOf(Loop(task, o, START)); var n := |r.attempts|;
      && n <= task.maxAttempts
      && (forall i | 0 <= i < n :: r.attempts[i].n == i + 1)
      && (forall i | 0 <= i < n - 1 :: r.attempts[i].verification.verdict == Fail)
      && (n > 0 ==> r.verdict == r.attempts[n - 1].verification.verdict)
      && (n == 0 && task.maxAttempts > 0 ==> r.verdict == Fail)
  {
    EveryExecution(task, o);
    LoopBounds(task, o, START);
    EndVerdict(task, Loop(task, o, START));
  }

  lemma EndVerdict(task: Task, s: State)
    requires AttemptsOk(s) && (s.done || s.n > task.maxAttempts)
    requires s.n <= task.maxAttempts + 1 && (s.done ==> s.n <= task.maxAttempts)
    ensures var r := OutcomeOf(s); var n := |r.attempts|;
      && n <= task.maxAttempts
      && (forall i | 0 <= i < n - 1 :: r.attempts[i].verification.verdict == Fail)
      && (n > 0 ==> r.verdict == r.attempts[n - 1].verification.verdict)
      && (n == 0 && task.maxAttempts > 0 ==> r.verdict == Fail)
  {
  }

  lemma {:induction false} LoopBounds(task: Task, o: Oracle, s: State)
    requires s.n <= task.maxAttempts + 1 && (s.done ==> s.n <= task.maxAttempts)
    ensures var end := Loop(task, o, s); end.n <= task.maxAttempts + 1 && (end.done ==> end.n <= task.maxAttempts)
    decreases task.maxAttempts + 1 - s.n
  {
    if !s.done && s.n <= task.maxAttempts {
      var next := Step(task, o, s);
      StepOnce(task, o, s);
      if next.n > s.n { LoopBounds(task, o, next); }
    }
  }

  lemma StepOnce(task: Task, o: Oracle, s: State)
    requires !s.done
    ensures var next := Step(task, o, s); if next.done then next.n == s.n else next.n == s.n + 1
  {
  }

  /** Starting within the caps, no charge is ever made beyond them: the caps can be
      overshot by the last charge only. */
  lemma CapsAreOvershotByOneCharge(task: Task, o: Oracle)
    requires RouterOk(o) && !Exceeds(task, task.spent)
    ensures Prudent(task, task.spent, Loop(task, o, START).charges)
  {
    EveryExecution(task, o);
  }

  /** The reported cost leaves out exactly the attempt that the budget stopped, although
      the budget was charged for it. */
  lemma ReportedCostOmitsTheStoppedAttempt(task: Task, o: Oracle)
    requires RouterOk(o) && !Exceeds(task, task.spent)
    ensures var end := Loop(task, o, START); var r := OutcomeOf(end);
      && (end.overBudget <==> Exceeds(task, Total(task.spent, end.charges)))
      && (end.overBudget ==> r.attempts != [])
      && r.cost == Costs(r.attempts) - (if end.overBudget then r.attempts[|r.attempts| - 1].cost else 0.0)
  {
    EveryExecution(task, o);
  }

  /** A first attempt whose charge passes a cap ends the task and costs nothing in its
      report, whatever was charged. */
  lemma StoppedAtOnce(task: Task, o: Oracle)
    requires task.maxAttempts >= 1 && o.decide(1, {}).Some? && o.authorized(1)
    requires Exceeds(task, Plus(task.spent, FirstCharge(o.work(1), 1)))
    ensures var r := OutcomeOf(Loop(task, o, START));
      && r.cost == 0.0 && |r.attempts| == 1 && r.attempts[0].cost == o.work(1).spend.cost
      && Loop(task, o, START).charges == [FirstCharge(o.work(1), 1)]
  {
    assert Exclusions(START) == {};
    var w := o.work(1);
    var next := Step(task, o, START);
    assert Total(task.spent, START.charges) == task.spent;
    assert Verify(task, w, 1, task.spent).stopped && Verify(task, w, 1, task.spent).charges == [FirstCharge(w, 1)];
    var charged := Charged(START, o.decide(1, {}).value, w, Verify(task, w, 1, task.spent));
    assert next == charged.(done := true, overBudget := true);
    assert Loop(task, o, START) == next;
  }

  /** It happens: a task that may spend 1 runs one attempt for 2 and reports 0. */
  lemma OmittedCostExample() returns (task: Task, o: Oracle)
    ensures RouterOk(o) && !Exceeds(task, task.spent)
    ensures var r := OutcomeOf(Loop(task, o, START)); r.cost == 0.0 && |r.attempts| == 1 && r.attempts[0].cost == 2.0
  {
    task := Task(1, false, {Small}, Some(Caps(Some(1.0), None, None)), Spent(0.0, 0, 0.0));
    var passed := Verification(Pass, NoMode, 1.0, OtherScorer);
    var w := Work(Spent(2.0, 0, 0.0), 0.0, false, false, false, false, NoRegistry, passed, None, None);
    o := Oracle((n, e) => if Small in e then None else Some(Decision(Small, false)), n => true, n => w);
    StoppedAtOnce(task, o);
  }
}
