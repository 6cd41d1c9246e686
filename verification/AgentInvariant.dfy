/** What every reachable configuration of a turn satisfies, for every behaviour of the models. */
module AgentInvariant {
  import opened Wrappers
  import opened AgentState
  import opened BudgetGuard
  import opened AgentLoop

  function Results(log: Log): seq<StepResult> {
    match log
    case Empty => []
    case Once(prev, step, r) => Results(prev) + [r]
    case Twice(prev, step, r, r') => Results(prev) + [r, r']
  }

  /** Results belong to their step, only an unacceptable first attempt is repeated, and a step
      is dispatched only after its predecessor passed. */
  predicate Genuine(log: Log) {
    match log
    case Empty => true
    case Once(prev, step, r) =>
      Genuine(prev) && LastPassed(prev) && r.stepId == step.id && r.verdict.Some?
    case Twice(prev, step, r, r') =>
      && Genuine(prev) && LastPassed(prev)
      && r.stepId == step.id && r'.stepId == step.id
      && r.verdict == Some(Unacceptable) && r'.verdict.Some?
  }

  predicate LastPassed(log: Log) {
    && (log.Once? ==> Passed(log.only.verdict))
    && (log.Twice? ==> Passed(log.second.verdict))
  }

  /** Nothing is executed off the log. */
  predicate Shape(c: Config) {
    && c.st.pastSteps == c.earlier + Results(c.log)
    && Genuine(c.log)
    && |c.origin| <= MAX_PLAN
    && FreshSteps(c.st.plan)
    && 0 <= c.st.planRevision <= 1
    && (c.st.planRevision == 0 ==> c.earlier == [])
  }

  /** No step of the adopted plan is lost or reordered. */
  predicate Conserved(c: Config) {
    c.origin == Sent(c.log) + c.st.plan
  }

  /** `now` is the planned step `was`, up to the retry rewrite. */
  predicate SameStep(now: PlanStep, was: PlanStep) {
    now.id == was.id && now.sourceId == was.sourceId && now.description == was.description
  }

  /** The in-flight step is the last logged one, and `retries` says which attempt was logged. */
  predicate InFlight(c: Config) {
    && c.st.current.Some?
    && c.log != Empty
    && SameStep(c.st.current.value, c.log.step)
  }

  /** The last dispatched step was graded unacceptable once and waits for its second attempt. */
  predicate Pending(c: Config) {
    && Conserved(c) && InFlight(c)
    && c.st.current.value.retryCount == 1
    && c.log.Once? && c.log.only.verdict == Some(Unacceptable)
  }

  /** The last dispatched step passed and another one is waiting. */
  predicate Ready(c: Config) {
    && Conserved(c)
    && c.st.plan != []
    && LastPassed(c.log)
    && (if c.st.current.Some? then InFlight(c) else c.log == Empty)
  }

  /** A step is about to run for the first time. */
  predicate FirstRun(c: Config) {
    && c.st.current.Some?
    && c.st.current.value.retryCount == 0
    && LastPassed(c.log)
    && c.origin == Sent(c.log) + [c.st.current.value] + c.st.plan
  }

  /** The step has just run and is not graded yet. */
  predicate Executed(c: Config) {
    && Conserved(c) && InFlight(c)
    && c.st.current.value.retryCount == (if c.log.Once? then 0 else 1)
  }

  /** Every dispatched step ran, and only those. */
  predicate Settled(c: Config) {
    Conserved(c) && (c.log != Empty ==> InFlight(c))
  }

  /** The last dispatched step used up its retry, and nothing has been revised yet. */
  predicate Exhausted(c: Config) {
    && Settled(c) && c.log.Twice? && c.log.second.verdict == Some(Unacceptable)
    && RetryCount(c.st) == 1 && c.st.planRevision == 0
  }

  predicate Untouched(c: Config) {
    && c.st.plan == [] && c.st.pastSteps == [] && c.st.current.None?
    && c.st.planRevision == 0 && !c.st.requiresClarification
    && c.origin == [] && c.earlier == [] && c.log == Empty
  }

  predicate NodeInv(c: Config) {
    match c.node
    case LoadHistory => Untouched(c)
    case GuardrailInput => Untouched(c)
    case Planner => Untouched(c)
    case BudgetStep => Pending(c) || Ready(c)
    case AdvanceStep => WithinCaps(c.st) && (Pending(c) || Ready(c))
    case ExecuteStep => WithinCaps(c.st) && (Pending(c) || FirstRun(c))
    case VerifyStep => Executed(c)
    case BudgetReplan => Exhausted(c)
    case Replan => WithinCaps(c.st) && Exhausted(c)
    case _ => Settled(c)
  }

  predicate Inv(c: Config) {
    && Shape(c) && NodeInv(c)
    && (c.st.error.Some? ==>
          c.node in {SynthesizeFailure, GenerateResponse, FormatResponse, GuardrailOutput, End})
  }

  /** Unless a first dispatch is in progress, the adopted plan is what was sent and what waits. */
  lemma RestConserves(c: Config)
    requires Inv(c) && c.node != ExecuteStep
    ensures Conserved(c)
  {
  }

  lemma StartInv(guarded: bool, sourceIds: set<string>, budget: Budget)
    ensures Inv(Start(guarded, sourceIds, budget))
  {
  }

  /** The last entry of the log is the last executed step. */
  lemma LastResult(c: Config)
    requires Shape(c) && c.log != Empty
    ensures var past := c.st.pastSteps;
            && past != []
            && past[|past| - 1] == (if c.log.Once? then c.log.only else c.log.second)
            && LatestResult(past, c.log.step.id) == Some(past[|past| - 1])
  {
  }

  /** A retry is pending exactly when the log says so. */
  lemma PendingRetryIffPending(c: Config)
    requires Shape(c) && (Pending(c) || Ready(c))
    ensures IsPendingRetry(c.st) <==> Pending(c)
  {
    if c.log != Empty {
      LastResult(c);
    }
  }

  /** Grading touches only the entry just appended. */
  lemma GradeIsLogged(c: Config, v: Verdict)
    requires Shape(c) && c.log != Empty
    ensures GradeLatest(c.st.pastSteps, c.log.step.id, v) == c.earlier + Results(LogGrade(c.log, v))
  {
    LastResult(c);
    var past, n := c.st.pastSteps, |c.st.pastSteps|;
    var before := c.earlier + Results(c.log.prev);
    if c.log.Once? {
      assert past[..n - 1] == before;
    } else {
      assert past[..n - 1] == before + [c.log.first];
    }
  }

  lemma AdvancePending(c: Config, e: Env)
    requires Inv(c) && c.node == AdvanceStep && Pending(c)
    ensures Inv(Next(c, e))
  {
    PendingRetryIffPending(c);
    assert Next(c, e).st == c.st;
  }

  lemma AdvanceReady(c: Config, e: Env)
    requires Inv(c) && c.node == AdvanceStep && !Pending(c)
    ensures Inv(Next(c, e))
  {
    PendingRetryIffPending(c);
    assert c.st.plan == [c.st.plan[0]] + c.st.plan[1..];
    assert FirstRun(Next(c, e));
  }

  lemma AdvanceInv(c: Config, e: Env)
    requires Inv(c) && c.node == AdvanceStep
    ensures Inv(Next(c, e))
  {
    if Pending(c) {
      AdvancePending(c, e);
    } else {
      AdvanceReady(c, e);
    }
  }

  lemma ExecuteInv(c: Config, e: Env)
    requires Inv(c) && c.node == ExecuteStep
    ensures Inv(Next(c, e))
  {
  }

  /** A graded configuration: the log stays genuine and in step with the executions. */
  lemma VerifyShape(c: Config, e: Env)
    requires Shape(c) && Executed(c) && c.node == VerifyStep && e.grade.Some?
    ensures Gradable(c.st)
    ensures var d := Next(c, e);
            Shape(d) && Conserved(d) && InFlight(d) && d.log == LogGrade(c.log, e.grade.value)
  {
    LastResult(c);
    GradeIsLogged(c, e.grade.value);
  }

  lemma VerifyInv(c: Config, e: Env)
    requires Inv(c) && c.node == VerifyStep
    ensures Inv(Next(c, e))
  {
    if e.grade.Some? {
      VerifyShape(c, e);
      var d, v := Next(c, e), e.grade.value;
      if v != Unacceptable {
        assert LastPassed(d.log);
      } else if c.log.Once? {
        assert Pending(d);
      } else {
        assert d.node == BudgetReplan || d.node == SynthesizeFailure;
      }
    } else {
      LastResult(c);
    }
  }

  lemma GateInv(c: Config, e: Env)
    requires Inv(c) && (c.node == BudgetStep || c.node == BudgetReplan)
    ensures Inv(Next(c, e))
  {
    GuardHitIffOverCap(c.st, e.now);
  }

  lemma PlannerInv(c: Config, e: Env)
    requires Inv(c) && c.node == Planner
    ensures Inv(Next(c, e))
  {
    var d := Next(c, e);
    assert d.st.current == None && d.log == Empty && d.origin == d.st.plan;
    if d.node == BudgetStep {
      assert Ready(d);
    } else {
      assert Settled(d);
    }
  }

  lemma ReplanInv(c: Config, e: Env)
    requires Inv(c) && c.node == Replan
    ensures Inv(Next(c, e))
  {
  }

  /** Every step of every run preserves the invariant. */
  lemma NextInv(c: Config, e: Env)
    requires Inv(c)
    ensures Inv(Next(c, e))
  {
    match c.node
    case Planner => PlannerInv(c, e);
    case BudgetStep => GateInv(c, e);
    case BudgetReplan => GateInv(c, e);
    case AdvanceStep => AdvanceInv(c, e);
    case ExecuteStep => ExecuteInv(c, e);
    case VerifyStep => VerifyInv(c, e);
    case Replan => ReplanInv(c, e);
    case _ =>
  }

  lemma {:induction false} RunInv(c: Config, es: seq<Env>)
    requires Inv(c)
    ensures Inv(Run(c, es))
  {
    if es != [] {
      RunInv(c, es[..|es| - 1]);
      NextInv(Run(c, es[..|es| - 1]), es[|es| - 1]);
    }
  }
}
