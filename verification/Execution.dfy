/** One task's attempt loop: routing, verification, budget stops, retries, escalation.
    The router's, worker's and verifiers' answers are inputs. */
module Execution {
  import opened SectionBudgets
  import opened Wrappers

  const TIERS: set<Tier> := {Small, Mid, Frontier}

  /** The next tier up whose pool serves. */
  function NextTier(serving: set<Tier>, t: Tier): Option<Tier> {
    match t
    case Small => if Mid in serving then Some(Mid) else if Frontier in serving then Some(Frontier) else None
    case Mid => if Frontier in serving then Some(Frontier) else None
    case Frontier => None
  }

  datatype Verdict = Pass | Fail | Unverified

  datatype Mode = NoMode | Timeout | OverBudget | Disobeyed | OtherMode

  datatype Scorer = Schema | Authenticity | BudgetScorer | OtherScorer

  datatype Verification = Verification(verdict: Verdict, mode: Mode, score: real, scorer: Scorer)

  const AUTHENTICITY_FAILURE := Verification(Fail, Disobeyed, 0.0, Authenticity)
  const BUDGET_FAILURE := Verification(Fail, OverBudget, 0.0, BudgetScorer)

  // ------------------------------------------------------------------- budget

  datatype Spent = Spent(cost: real, tokens: nat, wall: real)

  datatype Caps = Caps(cost: Option<real>, tokens: Option<nat>, wall: Option<real>)

  predicate Within(caps: Caps, s: Spent) {
    && (caps.cost.Some? ==> s.cost <= caps.cost.value)
    && (caps.tokens.Some? ==> s.tokens <= caps.tokens.value)
    && (caps.wall.Some? ==> s.wall <= caps.wall.value)
  }

  function Plus(s: Spent, c: Spent): Spent {
    Spent(s.cost + c.cost, s.tokens + c.tokens, s.wall + c.wall)
  }

  /** What has been spent after a list of charges. */
  function Total(start: Spent, charges: seq<Spent>): Spent {
    if charges == [] then start else Plus(Total(start, charges[..|charges| - 1]), charges[|charges| - 1])
  }

  class Budget {
    const caps: Caps
    var spent: Spent

    constructor (caps: Caps, spent: Spent)
      ensures this.caps == caps && this.spent == spent
    {
      this.caps, this.spent := caps, spent;
    }

    /** Charges always, and reports truthfully when a cap is passed. */
    method Charge(c: Spent) returns (exceeded: bool)
      modifies this
      ensures spent == Plus(old(spent), c) && exceeded == !Within(caps, spent)
    {
      spent := Spent(spent.cost + c.cost, spent.tokens + c.tokens, spent.wall + c.wall);
      exceeded := Check();
    }

    method Check() returns (exceeded: bool)
      ensures exceeded == !Within(caps, spent)
    {
      if caps.cost.Some? && spent.cost > caps.cost.value {
        return true;
      }
      if caps.tokens.Some? && spent.tokens > caps.tokens.value {
        return true;
      }
      if caps.wall.Some? && spent.wall > caps.wall.value {
        return true;
      }
      exceeded := false;
    }
  }

  // ------------------------------------------------------------------ plateau

  const WINDOW := 3
  const MIN_DELTA := 0.02

  function Best(scores: seq<real>): real
    requires scores != []
  {
    if |scores| == 1 || scores[|scores| - 1] >= Best(scores[..|scores| - 1]) then scores[|scores| - 1]
    else Best(scores[..|scores| - 1])
  }

  predicate Plateaued(scores: seq<real>) {
    |scores| >= WINDOW + 1
    && Best(scores[|scores| - WINDOW..]) - scores[|scores| - WINDOW - 1] < MIN_DELTA
  }

  // ------------------------------------------------------------------ answers

  datatype Decision = Decision(tier: Tier, explored: bool)

  /** `Forged` stands for a missing or wrong signature under a registry. */
  datatype Signature = NoRegistry | Forged | SignedV1 | SignedV2

  datatype Executed = Executed(wall: real, verification: Option<Verification>)

  /** A judge's own spend is charged before its verdict is read. */
  datatype Judged = Judged(spend: Spent, verification: Option<Verification>)

  datatype Work = Work(
    spend: Spent, evidenceWall: real, error: bool, schemaError: bool, timedOut: bool, contextContract: bool,
    signature: Signature, check: Verification, executed: Option<Executed>, judged: Option<Judged>)

  /** Everything that the loop asks of the outside, attempt by attempt. */
  datatype Oracle = Oracle(
    decide: (nat, set<Tier>) -> Option<Decision>, authorized: nat -> bool, work: nat -> Work)

  /** The router never returns an excluded tier. */
  ghost predicate RouterOk(o: Oracle) {
    forall n, e | o.decide(n, e).Some? :: o.decide(n, e).value.tier !in e
  }

  datatype Task = Task(maxAttempts: nat, pinned: bool, serving: set<Tier>, caps: Option<Caps>, spent: Spent)

  // ---------------------------------------------------------------- verifying

  /** A failed worker is never graded on its output. */
  function Checked(w: Work): Verification {
    if w.signature.Forged? then AUTHENTICITY_FAILURE
    else if w.error then
      var mode := if w.schemaError then OtherMode else if w.timedOut then Timeout else OtherMode;
      Verification(Fail, mode, 0.0, OtherScorer)
    else w.check
  }

  predicate Malfunctioned(w: Work) {
    w.signature.Forged? || w.error
  }

  predicate Runs(w: Work, v: Verification) {
    w.signature.SignedV2? && w.executed.Some? && !w.error && v.scorer != Schema
  }

  /** Verification of one attempt: its result, the charges it made, and whether the last
      of them passed a cap. */
  datatype Finding = Finding(verification: Verification, charges: seq<Spent>, stopped: bool)

  predicate Exceeds(task: Task, s: Spent) {
    task.caps.Some? && !Within(task.caps.value, s)
  }

  function FirstCharge(w: Work, n: nat): Spent {
    w.spend.(wall := w.spend.wall + if n == 1 then w.evidenceWall else 0.0)
  }

  function Grade(task: Task, v: Verification, w: Work, spent: Spent, charges: seq<Spent>): Finding {
    if !v.verdict.Unverified? || w.judged.None? then Finding(v, charges, false)
    else
      var c := w.judged.value.spend;
      if Exceeds(task, Plus(spent, c)) then Finding(BUDGET_FAILURE, charges + [c], true)
      else
        var judged := w.judged.value.verification;
        Finding(if judged.Some? then judged.value else v, charges + [c], false)
  }

  /** A malfunctioning worker keeps its own failure; any other budget stop is reported as
      one. Execution and judge run only while the budget lasts. */
  function Verify(task: Task, w: Work, n: nat, spent: Spent): Finding {
    var v, c := Checked(w), FirstCharge(w, n);
    var charged := Plus(spent, c);
    if Exceeds(task, charged) then Finding(if Malfunctioned(w) then v else BUDGET_FAILURE, [c], true)
    else if !Runs(w, v) then Grade(task, v, w, charged, [c])
    else
      var ran := w.executed.value;
      var e := Spent(0.0, 0, ran.wall);
      if Exceeds(task, Plus(charged, e)) then Finding(BUDGET_FAILURE, [c, e], true)
      else Grade(task, if ran.verification.Some? then ran.verification.value else v, w, Plus(charged, e), [c, e])
  }

  // ---------------------------------------------------------------- the loop

  datatype Attempt = Attempt(n: nat, tier: Tier, explored: bool, verification: Verification, cost: real)

  predicate TimedOut(v: Verification) {
    v.verdict.Fail? && v.mode.Timeout?
  }

  datatype State = State(
    n: nat, excluded: set<Tier>, retried: set<Tier>, forced: Option<Tier>, attempts: seq<Attempt>,
    escalations: nat, cost: real, charges: seq<Spent>, scores: seq<real>, verdict: Verdict,
    done: bool, overBudget: bool)

  const START := State(1, {}, {}, None, [], 0, 0.0, [], [], Unverified, false, false)

  function Exclusions(s: State): set<Tier> {
    if s.forced.Some? then s.excluded + (TIERS - {s.forced.value}) else s.excluded
  }

  function Escalate(task: Task, s: State, tier: Tier): State {
    if NextTier(task.serving, tier).Some? then
      s.(excluded := s.excluded + {tier}, escalations := s.escalations + 1)
    else s
  }

  /** What a failed attempt means for the next one. */
  function AfterFailure(task: Task, s: State, d: Decision, v: Verification): State {
    if task.pinned then s
    else if TimedOut(v) then
      if d.tier !in s.retried then
        s.(retried := s.retried + {d.tier}, forced := if s.n < task.maxAttempts then Some(d.tier) else s.forced)
      else if s.n < task.maxAttempts then Escalate(task, s, d.tier)
      else s
    else if !d.explored then Escalate(task, s, d.tier)
    else s
  }

  /** The attempt is recorded and its charges have been made. */
  function Charged(s: State, d: Decision, w: Work, f: Finding): State {
    s.(forced := None, charges := s.charges + f.charges,
       attempts := s.attempts + [Attempt(s.n, d.tier, d.explored, f.verification, w.spend.cost)])
  }

  /** Its cost is reported as well, and its score remembered. */
  function Scored(s: State, d: Decision, w: Work, f: Finding): State {
    Charged(s, d, w, f).(cost := s.cost + w.spend.cost, scores := s.scores + [f.verification.score])
  }

  function Conclude(task: Task, s: State, d: Decision, w: Work, f: Finding): State {
    if f.stopped then Charged(s, d, w, f).(done := true, overBudget := true)
    else
      var counted := Charged(s, d, w, f).(cost := s.cost + w.spend.cost);
      match f.verification.verdict
      case Pass => counted.(done := true, verdict := Pass)
      case Unverified => counted.(done := true, verdict := Unverified)
      case Fail =>
        if w.contextContract then counted.(done := true)
        else
          var next := AfterFailure(task, Scored(s, d, w, f), d, f.verification);
          if Plateaued(s.scores + [f.verification.score]) then next.(done := true) else next.(n := next.n + 1)
  }

  /** One turn of the loop. */
  function Step(task: Task, o: Oracle, s: State): State {
    var decision := o.decide(s.n, Exclusions(s));
    if decision.None? || !o.authorized(s.n) then s.(forced := None, done := true, verdict := Fail)
    else
      var w := o.work(s.n);
      Conclude(task, s, decision.value, w, Verify(task, w, s.n, Total(task.spent, s.charges)))
  }

  function Loop(task: Task, o: Oracle, s: State): State
    decreases task.maxAttempts + 1 - s.n
  {
    if s.done || s.n > task.maxAttempts then s
    else
      var next := Step(task, o, s);
      if next.n <= s.n then next else Loop(task, o, next)
  }

  function FinalVerdict(s: State): Verdict {
    if s.verdict != Pass && s.attempts != [] then s.attempts[|s.attempts| - 1].verification.verdict else s.verdict
  }

  datatype Outcome = Outcome(attempts: seq<Attempt>, verdict: Verdict, escalations: nat, cost: real)

  function OutcomeOf(s: State): Outcome {
    Outcome(s.attempts, FinalVerdict(s), s.escalations, s.cost)
  }
}
