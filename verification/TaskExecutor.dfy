/** The executor's loop, with its own variables and a shared budget object. */
module TaskExecutor {
  import opened Execution
  import opened ExecutionTheorems
  import opened Wrappers

  function Footprint(budget: Budget?): set<object> {
    if budget == null then {} else {budget}
  }

  predicate Holds(task: Task, budget: Budget?, spent: Spent)
    reads Footprint(budget)
  {
    if budget == null then task.caps.None? else task.caps == Some(budget.caps) && budget.spent == spent
  }

  /** `budget.charge`, when there is a budget. */
  method Charge(task: Task, budget: Budget?, c: Spent, ghost spent: Spent) returns (exceeded: bool)
    requires Holds(task, budget, spent)
    modifies Footprint(budget)
    ensures Holds(task, budget, Plus(spent, c)) && exceeded == Exceeds(task, Plus(spent, c))
  {
    exceeded := false;
    if budget != null {
      exceeded := budget.Charge(c);
    }
  }

  /** The judge slot, entered only without a deterministic verdict. */
  method GradeAttempt(task: Task, v: Verification, w: Work, budget: Budget?, ghost spent: Spent, charges: seq<Spent>)
    returns (verification: Verification, stopped: bool, made: seq<Spent>)
    requires Holds(task, budget, spent)
    modifies Footprint(budget)
    ensures Finding(verification, made, stopped) == Grade(task, v, w, spent, charges)
    ensures Holds(task, budget, if made == charges then spent else Plus(spent, made[|made| - 1]))
    ensures made == charges || (made != [] && made == charges + [made[|made| - 1]])
  {
    verification, stopped, made := v, false, charges;
    if v.verdict.Unverified? && w.judged.Some? {
      var judged := w.judged.value;
      made := charges + [judged.spend];
      stopped := Charge(task, budget, judged.spend, spent);
      if stopped {
        return BUDGET_FAILURE, true, made;
      }
      if judged.verification.Some? {
        verification := judged.verification.value;
      }
    }
  }

  /** Deterministic verification first, then the charge, then execution, then the judge. */
  method VerifyAttempt(task: Task, w: Work, n: nat, budget: Budget?, ghost spent: Spent)
    returns (verification: Verification, stopped: bool, made: seq<Spent>)
    requires Holds(task, budget, spent)
    modifies Footprint(budget)
    ensures Finding(verification, made, stopped) == Verify(task, w, n, spent)
    ensures Holds(task, budget, Total(spent, made))
  {
    verification := Checked(w);
    var wall := w.spend.wall + if n == 1 then w.evidenceWall else 0.0;
    var c := w.spend.(wall := wall);
    made := [c];
    OneCharge(spent, c);
    stopped := Charge(task, budget, c, spent);
    if stopped {
      if !Malfunctioned(w) {
        verification := BUDGET_FAILURE;
      }
      return;
    }
    ghost var now := Plus(spent, c);
    if Runs(w, verification) {
      var ran := w.executed.value;
      if ran.verification.Some? {
        verification := ran.verification.value;
      }
      var e := Spent(0.0, 0, ran.wall);
      MoreCharges(spent, made, e);
      assert made + [e] == [c, e];
      made := made + [e];
      stopped := Charge(task, budget, e, now);
      if stopped {
        return BUDGET_FAILURE, true, made;
      }
      now := Plus(now, e);
    }
    ghost var before := made;
    verification, stopped, made := GradeAttempt(task, verification, w, budget, now, made);
    if made != before { MoreCharges(spent, before, made[|made| - 1]); }
  }

  /** `plateaued`: the best of the last scores against the one before them. */
  method HasPlateaued(scores: seq<real>) returns (plateaued: bool)
    ensures plateaued == Plateaued(scores)
  {
    if |scores| < WINDOW + 1 {
      return false;
    }
    var recent := scores[|scores| - WINDOW..];
    var best, i := recent[0], 1;
    assert recent[..1] == [recent[0]];
    while i < |recent|
      invariant 1 <= i <= |recent| && best == Best(recent[..i])
    {
      assert recent[..i + 1][..i] == recent[..i];
      if recent[i] >= best {
        best := recent[i];
      }
      i := i + 1;
    }
    assert recent[..i] == recent;
    plateaued := best - scores[|scores| - WINDOW - 1] < MIN_DELTA;
  }

  /** Retry on the same tier, escalate, or leave the choice to the router. */
  method PlanRetry(task: Task, s: State, d: Decision, v: Verification) returns (next: State)
    ensures next == AfterFailure(task, s, d, v)
  {
    next := s;
    if task.pinned {
      return;
    }
    if TimedOut(v) {
      if d.tier !in s.retried {
        next := next.(retried := s.retried + {d.tier});
        if s.n < task.maxAttempts {
          next := next.(forced := Some(d.tier));
        }
      } else if s.n < task.maxAttempts && NextTier(task.serving, d.tier).Some? {
        next := next.(excluded := s.excluded + {d.tier}, escalations := s.escalations + 1);
      }
    } else if !d.explored && NextTier(task.serving, d.tier).Some? {
      next := next.(excluded := s.excluded + {d.tier}, escalations := s.escalations + 1);
    }
  }

  /** Records a graded attempt and decides how to go on. */
  method FinishTurn(task: Task, s: State, d: Decision, w: Work, f: Finding) returns (next: State)
    ensures next == Conclude(task, s, d, w, f)
  {
    var v := f.verification;
    next := s.(forced := None, attempts := s.attempts + [Attempt(s.n, d.tier, d.explored, v, w.spend.cost)],
               charges := s.charges + f.charges);
    if f.stopped {
      return next.(done := true, overBudget := true);
    }
    next := next.(cost := s.cost + w.spend.cost);
    if v.verdict.Pass? || v.verdict.Unverified? {
      return next.(verdict := v.verdict, done := true);
    }
    if w.contextContract {
      return next.(done := true);
    }
    next := next.(scores := s.scores + [v.score]);
    next := PlanRetry(task, next, d, v);
    var plateaued := HasPlateaued(s.scores + [v.score]);
    next := if plateaued then next.(done := true) else next.(n := next.n + 1);
  }

  /** One turn: route, authorize, run, verify, conclude. */
  method Turn(task: Task, o: Oracle, s: State, budget: Budget?) returns (next: State)
    requires !s.done && s.n <= task.maxAttempts
    requires Holds(task, budget, Total(task.spent, s.charges))
    modifies Footprint(budget)
    ensures next == Step(task, o, s)
    ensures Holds(task, budget, Total(task.spent, next.charges))
  {
    var decision := o.decide(s.n, Exclusions(s));
    if decision.None? || !o.authorized(s.n) {
      return s.(forced := None, done := true, verdict := Fail);
    }
    var d, w := decision.value, o.work(s.n);
    var v, stopped, made := VerifyAttempt(task, w, s.n, budget, Total(task.spent, s.charges));
    TotalAppend(task.spent, s.charges, made);
    ConcludeMoney(task, s, d, w, Finding(v, made, stopped));
    next := FinishTurn(task, s, d, w, Finding(v, made, stopped));
  }

  /** Runs one task to its outcome. */
  method Execute(task: Task, o: Oracle, budget: Budget?) returns (outcome: Outcome)
    requires Holds(task, budget, task.spent)
    modifies Footprint(budget)
    ensures outcome == OutcomeOf(Loop(task, o, START))
    ensures Holds(task, budget, Total(task.spent, Loop(task, o, START).charges))
  {
    var s := START;
    while !s.done && s.n <= task.maxAttempts
      invariant Loop(task, o, s) == Loop(task, o, START)
      invariant Holds(task, budget, Total(task.spent, s.charges))
      decreases !s.done, task.maxAttempts + 1 - s.n
    {
      LoopStep(task, o, s);
      StepOnce(task, o, s);
      s := Turn(task, o, s, budget);
    }
    var verdict := s.verdict;
    if verdict != Pass && s.attempts != [] {
      verdict := s.attempts[|s.attempts| - 1].verification.verdict;
    }
    outcome := Outcome(s.attempts, verdict, s.escalations, s.cost);
  }

  lemma LoopStep(task: Task, o: Oracle, s: State)
    requires !s.done && s.n <= task.maxAttempts
    ensures Loop(task, o, s) == Loop(task, o, Step(task, o, s))
  {
    StepOnce(task, o, s);
  }
}
