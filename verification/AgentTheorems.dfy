/** Whole-run guarantees of the plan-and-execute loop. */
module AgentTheorems {
  import opened Wrappers
  import opened AgentState
  import opened BudgetGuard
  import opened AgentLoop
  import opened AgentInvariant

  // ---------------------------------------------------------------- termination

  /** Executions the plan alone still allows: two per waiting step, and a revision's worth. */
  function StructuralFuel(c: Config): nat {
    var waiting := 2 * |c.st.plan| + (if c.st.planRevision == 0 then 2 * MAX_PLAN else 0);
    match c.node
    case LoadHistory => 4 * MAX_PLAN
    case GuardrailInput => 4 * MAX_PLAN
    case Planner => 4 * MAX_PLAN
    case BudgetStep => waiting + (if IsPendingRetry(c.st) then 1 else 0)
    case AdvanceStep => waiting + (if IsPendingRetry(c.st) then 1 else 0)
    case ExecuteStep => waiting + (if RetryCount(c.st) == 0 then 2 else 1)
    case VerifyStep => waiting + (if RetryCount(c.st) == 0 then 1 else 0)
    case _ => waiting
  }

  /** Executions still possible: the plan's allowance, cut off by the step cap. */
  function Fuel(c: Config): nat {
    if c.st.budget.maxSteps.Some?
    then Min(StructuralFuel(c), Max(0, c.st.budget.maxSteps.value - |c.st.pastSteps|))
    else StructuralFuel(c)
  }

  /** Node visits still possible: four per execution, plus the way out. */
  function Rank(c: Config): nat {
    var revision := if c.st.planRevision == 0 then 2 else 0;
    match c.node
    case LoadHistory => 4 * Fuel(c) + 10
    case GuardrailInput => 4 * Fuel(c) + 9
    case Planner => 4 * Fuel(c) + 8
    case BudgetStep => 4 * Fuel(c) + 5 + revision
    case AdvanceStep => 4 * Fuel(c) + 4 + revision
    case ExecuteStep => 4 * Fuel(c) + 3 + revision
    case VerifyStep => 4 * Fuel(c) + 6 + revision
    case BudgetReplan => 4 * Fuel(c) + 7
    case Replan => 4 * Fuel(c) + 6
    case SynthesizeFailure => 4
    case GenerateResponse => 3
    case FormatResponse => 2
    case HandleClarification => 2
    case GuardrailOutput => 1
    case End => 0
    case Raised => 0
  }

  /** A step from `c` to `d` lowers the rank, and pays for an execution with a unit of fuel. */
  predicate Pays(c: Config, d: Config) {
    && Rank(d) < Rank(c)
    && |d.st.pastSteps| + Fuel(d) <= |c.st.pastSteps| + Fuel(c)
  }

  /** What grading may change, as far as fuel is concerned. */
  predicate VerifyDelta(c: Config, d: Config) {
    && c.node == VerifyStep
    && d.node in {BudgetStep, BudgetReplan, GenerateResponse, SynthesizeFailure, Raised}
    && |d.st.plan| == |c.st.plan| && |d.st.pastSteps| == |c.st.pastSteps|
    && d.st.planRevision == c.st.planRevision && d.st.budget == c.st.budget
    && (d.node == BudgetStep && IsPendingRetry(d.st) ==> RetryCount(c.st) == 0)
    && (d.node == BudgetReplan ==> d.st.planRevision == 0)
  }

  lemma VerifyHasDelta(c: Config, e: Env)
    requires Inv(c) && c.node == VerifyStep
    ensures VerifyDelta(c, Next(c, e))
  {
    LastResult(c);
    if e.grade.Some? {
      VerifyShape(c, e);
      LastResult(Next(c, e));
    }
  }

  lemma DeltaPays(c: Config, d: Config)
    requires VerifyDelta(c, d)
    ensures Pays(c, d)
  {
    assert StructuralFuel(d) <= StructuralFuel(c);
  }

  lemma AdvancePays(c: Config, e: Env)
    requires Inv(c) && c.node == AdvanceStep
    ensures Pays(c, Next(c, e))
  {
    PendingRetryIffPending(c);
    assert StructuralFuel(Next(c, e)) == StructuralFuel(c);
  }

  /** What an execution changes, as far as fuel is concerned. */
  predicate ExecuteDelta(c: Config, d: Config) {
    && c.node == ExecuteStep && d.node == VerifyStep
    && |d.st.pastSteps| == |c.st.pastSteps| + 1
    && d.st.plan == c.st.plan && d.st.current == c.st.current
    && d.st.planRevision == c.st.planRevision && d.st.budget == c.st.budget
    && (c.st.budget.maxSteps.Some? ==> |c.st.pastSteps| < c.st.budget.maxSteps.value)
  }

  lemma ExecuteHasDelta(c: Config, e: Env)
    requires Inv(c) && c.node == ExecuteStep
    ensures ExecuteDelta(c, Next(c, e))
  {
  }

  lemma ExecuteDeltaPays(c: Config, d: Config)
    requires ExecuteDelta(c, d)
    ensures Pays(c, d)
  {
    assert StructuralFuel(d) + 1 == StructuralFuel(c);
    assert Fuel(d) + 1 == Fuel(c);
  }

  lemma ExecutePays(c: Config, e: Env)
    requires Inv(c) && c.node == ExecuteStep
    ensures Pays(c, Next(c, e))
  {
    ExecuteHasDelta(c, e);
    ExecuteDeltaPays(c, Next(c, e));
  }

  /** What a revision changes, as far as fuel is concerned. */
  predicate ReplanDelta(c: Config, d: Config) {
    && c.node == Replan && c.st.planRevision == 0 && d.st.planRevision == 1
    && (d.node == BudgetStep || d.node == SynthesizeFailure)
    && |d.st.plan| <= Max(|c.st.plan|, MAX_PLAN) && d.st.pastSteps == c.st.pastSteps
    && d.st.budget == c.st.budget && (d.node == BudgetStep ==> !IsPendingRetry(d.st))
  }

  lemma ReplanHasDelta(c: Config, e: Env)
    requires Inv(c) && c.node == Replan
    ensures ReplanDelta(c, Next(c, e))
  {
  }

  lemma ReplanDeltaPays(c: Config, d: Config)
    requires ReplanDelta(c, d)
    ensures Pays(c, d)
  {
    assert StructuralFuel(d) <= StructuralFuel(c);
  }

  lemma ReplanPays(c: Config, e: Env)
    requires Inv(c) && c.node == Replan
    ensures Pays(c, Next(c, e))
  {
    ReplanHasDelta(c, e);
    ReplanDeltaPays(c, Next(c, e));
  }

  /** A gate changes flags only. */
  predicate GateDelta(c: Config, d: Config) {
    && (c.node == BudgetStep || (c.node == BudgetReplan && c.st.planRevision == 0))
    && d.node == (if d.st.budgetHit then SynthesizeFailure
                  else if c.node == BudgetStep then AdvanceStep else Replan)
    && d.st.plan == c.st.plan && d.st.pastSteps == c.st.pastSteps && d.st.current == c.st.current
    && d.st.planRevision == c.st.planRevision && d.st.budget == c.st.budget
  }

  lemma GatePays(c: Config, d: Config)
    requires GateDelta(c, d)
    ensures Pays(c, d)
  {
    assert IsPendingRetry(d.st) == IsPendingRetry(c.st);
    assert StructuralFuel(d) <= StructuralFuel(c);
  }

  lemma PlannerPays(c: Config, e: Env)
    requires Inv(c) && c.node == Planner
    ensures Pays(c, Next(c, e))
  {
    assert StructuralFuel(Next(c, e)) <= StructuralFuel(c);
  }

  lemma VerifyPays(c: Config, e: Env)
    requires Inv(c) && c.node == VerifyStep
    ensures Pays(c, Next(c, e))
  {
    VerifyHasDelta(c, e);
    DeltaPays(c, Next(c, e));
  }

  lemma GateStepPays(c: Config, e: Env)
    requires Inv(c) && (c.node == BudgetStep || c.node == BudgetReplan)
    ensures Pays(c, Next(c, e))
  {
    assert GateDelta(c, Next(c, e));
    GatePays(c, Next(c, e));
  }

  lemma TailPays(c: Config, e: Env)
    requires !Stopped(c)
    requires c.node == LoadHistory || c.node == GuardrailInput ==> Untouched(c)
    requires c.node !in {Planner, BudgetStep, AdvanceStep, ExecuteStep, VerifyStep, BudgetReplan, Replan}
    ensures Pays(c, Next(c, e))
  {
    assert StructuralFuel(Next(c, e)) <= StructuralFuel(c);
  }

  /** Each node visit lowers the rank; each execution is paid for with one unit of fuel. */
  lemma Progress(c: Config, e: Env)
    requires Inv(c) && !Stopped(c)
    ensures Pays(c, Next(c, e))
  {
    match c.node
    case Planner => PlannerPays(c, e);
    case VerifyStep => VerifyPays(c, e);
    case AdvanceStep => AdvancePays(c, e);
    case ExecuteStep => ExecutePays(c, e);
    case Replan => ReplanPays(c, e);
    case BudgetStep => GateStepPays(c, e);
    case BudgetReplan => GateStepPays(c, e);
    case _ => TailPays(c, e);
  }

  /** Rank and fuel only ever go down along a run. */
  predicate Paid(c: Config, d: Config, visits: nat) {
    && (Stopped(d) || Rank(d) + visits <= Rank(c))
    && |d.st.pastSteps| + Fuel(d) <= |c.st.pastSteps| + Fuel(c)
  }

  lemma {:induction false} ProgressAlongRun(c: Config, es: seq<Env>)
    requires Inv(c)
    ensures Paid(c, Run(c, es), |es|)
  {
    if es != [] {
      var before := Run(c, es[..|es| - 1]);
      ProgressAlongRun(c, es[..|es| - 1]);
      RunInv(c, es[..|es| - 1]);
      if !Stopped(before) {
        Progress(before, es[|es| - 1]);
      }
    }
  }

  /** The most executions a turn can make under `budget`. */
  function ExecutionCap(budget: Budget): nat {
    if budget.maxSteps.Some? then Min(4 * MAX_PLAN, Max(0, budget.maxSteps.value)) else 4 * MAX_PLAN
  }

  /** Every turn stops, after a number of node visits linear in the execution cap,
      whatever the planner, the verdicts and the clock answer. */
  lemma EveryRunStops(guarded: bool, sources: set<string>, budget: Budget, es: seq<Env>)
    requires |es| > 4 * ExecutionCap(budget) + 10
    ensures Stopped(Run(Start(guarded, sources, budget), es))
  {
    StartInv(guarded, sources, budget);
    ProgressAlongRun(Start(guarded, sources, budget), es);
  }

  /** No run executes more steps than the step cap, nor more than twenty. */
  lemma ExecutionsBounded(guarded: bool, sources: set<string>, budget: Budget, es: seq<Env>)
    ensures |Run(Start(guarded, sources, budget), es).st.pastSteps| <= ExecutionCap(budget)
  {
    StartInv(guarded, sources, budget);
    ProgressAlongRun(Start(guarded, sources, budget), es);
  }

  // ---------------------------------------------------------------- counting visits

  /** The state counts what the run did: one result per execution, one revision per replan,
      and the failure flag exactly when the failure node ran. */
  predicate Counted(c: Config, executions: nat, replans: nat, failures: nat) {
    && |c.st.pastSteps| == executions
    && c.st.planRevision == replans
    && failures == (if c.st.synthesizeFailure then 1 else 0)
    && (c.st.synthesizeFailure ==>
          c.node in {GenerateResponse, FormatResponse, GuardrailOutput, End})
    && (c.st.budgetHit ==> c.node == SynthesizeFailure || c.st.synthesizeFailure)
    && (c.st.budgetHit ==> c.st.budgetEvent == Some(Labels(c.st.plan)))
  }

  lemma CountVerify(c: Config, e: Env, x: nat, r: nat, f: nat)
    requires Counted(c, x, r, f) && c.node == VerifyStep
    ensures Counted(Next(c, e), x, r, f)
  {
    if Gradable(c.st) && e.grade.Some? {
      GradeKeepsLength(c.st.pastSteps, c.st.current.value.id, e.grade.value);
    }
  }

  lemma CountStep(c: Config, e: Env, x: nat, r: nat, f: nat)
    requires Counted(c, x, r, f)
    requires c.node == ExecuteStep ==> c.st.current.Some?
    requires c.node == Replan ==> c.st.planRevision == 0
    ensures Counted(Next(c, e),
                    x + (if c.node == ExecuteStep then 1 else 0),
                    r + (if c.node == Replan then 1 else 0),
                    f + (if c.node == SynthesizeFailure then 1 else 0))
  {
    if c.node == VerifyStep {
      CountVerify(c, e, x, r, f);
    }
  }

  lemma {:induction false} GradeKeepsLength(past: seq<StepResult>, id: string, v: Verdict)
    ensures |GradeLatest(past, id, v)| == |past|
  {
    if past != [] && past[|past| - 1].stepId != id {
      GradeKeepsLength(past[..|past| - 1], id, v);
    }
  }

  lemma {:induction false} VisitsCounted(guarded: bool, sources: set<string>, budget: Budget, es: seq<Env>)
    ensures var c := Start(guarded, sources, budget);
            && Inv(Run(c, es))
            && Counted(Run(c, es), Visits(c, es, ExecuteStep), Visits(c, es, Replan),
                       Visits(c, es, SynthesizeFailure))
  {
    var c := Start(guarded, sources, budget);
    if es == [] {
      StartInv(guarded, sources, budget);
    } else {
      var prefix, e := es[..|es| - 1], es[|es| - 1];
      VisitsCounted(guarded, sources, budget, prefix);
      CountStep(Run(c, prefix), e, Visits(c, prefix, ExecuteStep), Visits(c, prefix, Replan),
                Visits(c, prefix, SynthesizeFailure));
      NextInv(Run(c, prefix), e);
    }
  }

  /** The synthesizer uses the honest-failure prompt exactly when the run came through
      the failure node. */
  lemma FailurePromptIffFailurePath(guarded: bool, sources: set<string>, budget: Budget, es: seq<Env>)
    requires Run(Start(guarded, sources, budget), es).node == GenerateResponse
    ensures var c := Start(guarded, sources, budget);
            var st := Run(c, es).st;
            st.budgetHit || st.synthesizeFailure <==> Visits(c, es, SynthesizeFailure) > 0
  {
    VisitsCounted(guarded, sources, budget, es);
  }

  /** Whenever a step is dispatched every cap holds; a run replans at most once. */
  lemma CapsHoldAtDispatch(guarded: bool, sources: set<string>, budget: Budget, es: seq<Env>)
    ensures var c := Start(guarded, sources, budget);
            && (Run(c, es).node in {ExecuteStep, Replan} ==> WithinCaps(Run(c, es).st))
            && Visits(c, es, Replan) <= 1
  {
    VisitsCounted(guarded, sources, budget, es);
  }

  lemma NextKeepsBudget(c: Config, e: Env)
    ensures Next(c, e).st.budget == c.st.budget
  {
    if c.node == VerifyStep {
    } else if c.node == Replan {
    } else if c.node == Planner {
    }
  }

  lemma {:induction false} BudgetIsReadOnly(c: Config, es: seq<Env>)
    ensures Run(c, es).st.budget == c.st.budget
  {
    if es != [] {
      BudgetIsReadOnly(c, es[..|es| - 1]);
      NextKeepsBudget(Run(c, es[..|es| - 1]), es[|es| - 1]);
    }
  }
}
