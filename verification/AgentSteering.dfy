/** Steering a turn: the runs that the lower bounds and the failing inputs are made of. */
module AgentSteering {
  import opened Wrappers
  import opened AgentState
  import opened BudgetGuard
  import opened AgentLoop
  import opened AgentInvariant

  /** The caps every turn gets unless configured otherwise. */
  const DEFAULTS: Budget := Budget(Some(5), Some(1), Some(1), Some(34000), None)

  /** Usage bounds: `p` for the planner call, `s` for grading one execution (execution itself
      reports no tokens), `r` for one revision. */
  predicate MeteredStep(n: Node, e: Env, p: nat, s: nat, r: nat) {
    && (n == Planner ==> e.Tokens() <= p)
    && (n == VerifyStep ==> e.Tokens() <= s)
    && (n == Replan ==> e.Tokens() <= r)
  }

  predicate Metered(c: Config, es: seq<Env>, p: nat, s: nat, r: nat) {
    es == []
    || (Metered(c, es[..|es| - 1], p, s, r)
        && MeteredStep(Run(c, es[..|es| - 1]).node, es[|es| - 1], p, s, r))
  }

  /** Some metered run leads from `c` to `d`, visiting the replan node `replans` times. */
  ghost predicate Leads(c: Config, d: Config, p: nat, s: nat, r: nat, replans: nat) {
    exists es :: Metered(c, es, p, s, r) && Run(c, es) == d && Visits(c, es, Replan) == replans
  }

  lemma LeadsNowhere(c: Config, p: nat, s: nat, r: nat)
    ensures Leads(c, c, p, s, r, 0)
  {
    assert Metered(c, [], p, s, r) && Run(c, []) == c && Visits(c, [], Replan) == 0;
  }

  lemma LeadsOn(c: Config, d: Config, e: Env, p: nat, s: nat, r: nat, replans: nat)
    requires Leads(c, d, p, s, r, replans) && MeteredStep(d.node, e, p, s, r)
    ensures Leads(c, Next(d, e), p, s, r, replans + (if d.node == Replan then 1 else 0))
  {
    var es :| Metered(c, es, p, s, r) && Run(c, es) == d && Visits(c, es, Replan) == replans;
    var longer := es + [e];
    assert longer[..|longer| - 1] == es;
    assert Metered(c, longer, p, s, r) && Run(c, longer) == Next(d, e);
    assert Visits(c, longer, Replan) == replans + (if d.node == Replan then 1 else 0);
  }

  /** Most nodes cost nothing. */
  lemma LeadsFreely(c: Config, d: Config, e: Env, p: nat, s: nat, r: nat, replans: nat)
    requires Leads(c, d, p, s, r, replans) && d.node != Planner && d.node != VerifyStep && d.node != Replan
    ensures Leads(c, Next(d, e), p, s, r, replans)
  {
    LeadsOn(c, d, e, p, s, r, replans);
  }

  /** An instant before the deadline. */
  function InTime(budget: Budget): int {
    if budget.deadline.Some? then budget.deadline.value - 1 else 0
  }

  /** The world answers in time: this reply, this verdict, this many tokens. */
  function Answer(c: Config, reply: PlannerReply, grade: Verdict, tokens: nat): Env {
    Env(InTime(c.st.budget), false, reply, c.st.sourceIds, true, Some(grade), tokens, 0)
  }

  /** What no step of a run changes. */
  predicate SameTurn(c: Config, d: Config) {
    d.guarded == c.guarded && d.st.budget == c.st.budget && d.st.sourceIds == c.st.sourceIds
  }

  // ---------------------------------------------------------------- planning

  /** A reply the planner and replan adopt. */
  predicate Sound(raw: seq<RawStep>, sources: set<string>) {
    && 1 <= |raw| <= MAX_PLAN
    && forall i :: 0 <= i < |raw| ==> raw[i].sourceId != "" && raw[i].sourceId in sources
  }

  /** A fresh plan waits at the gate. */
  predicate Planned(c: Config, raw: seq<RawStep>) {
    && Inv(c) && c.node == BudgetStep && Ready(c) && c.log == Empty
    && c.st.plan == BuildPlan(raw) && c.origin == c.st.plan
  }

  /** A reply of `n` steps that all ask `source`. */
  function Raw(n: nat, source: string): (raw: seq<RawStep>)
    requires n <= MAX_PLAN
    ensures |raw| == n && forall i :: 0 <= i < n ==> raw[i] == RawStep(None, "", source, "")
  {
    seq(n, _ => RawStep(None, "", source, ""))
  }

  lemma SoundIsAdoptable(raw: seq<RawStep>, sources: set<string>)
    requires Sound(raw, sources)
    ensures Adoptable(BuildPlan(raw), sources) && |BuildPlan(raw)| == |raw|
  {
  }

  /** Every turn can reach its planner. */
  lemma ReachPlanner(guarded: bool, sources: set<string>, budget: Budget, p: nat, s: nat, r: nat) returns (d: Config)
    ensures Leads(Start(guarded, sources, budget), d, p, s, r, 0)
    ensures Inv(d) && d == Start(guarded, sources, budget).(node := Planner)
  {
    var c := Start(guarded, sources, budget);
    var e := Answer(c, CallFailed, Acceptable, 0);
    StartInv(guarded, sources, budget);
    LeadsNowhere(c, p, s, r);
    LeadsOn(c, c, e, p, s, r, 0);
    d := Next(c, e);
    if guarded {
      LeadsOn(c, d, e, p, s, r, 0);
      d := Next(d, e);
    }
  }

  /** It can adopt any sound plan, for any number of tokens. */
  lemma AdoptPlan(guarded: bool, sources: set<string>, budget: Budget, raw: seq<RawStep>, x: nat,
                  s: nat, r: nat, p: nat) returns (d: Config)
    requires Sound(raw, sources) && x <= p
    ensures Leads(Start(guarded, sources, budget), d, p, s, r, 0)
    ensures SameTurn(Start(guarded, sources, budget), d) && Planned(d, raw)
    ensures d.st.Spend() == x && d.st.pastSteps == [] && d.st.planRevision == 0 && d.earlier == [] && d.former == Empty
    ensures d.st.current.None? && d.st.superseded == [] && d.st.error.None?
  {
    var c := ReachPlanner(guarded, sources, budget, p, s, r);
    var e := Answer(c, Steps(raw), Acceptable, x);
    SoundIsAdoptable(raw, sources);
    assert Permitted(AddTokens(c.st, e), e) == sources;
    LeadsOn(Start(guarded, sources, budget), c, e, p, s, r, 0);
    d := Next(c, e);
    PlannerInv(c, e);
  }

  /** It can fail to plan, for any number of tokens. */
  lemma FailToPlan(guarded: bool, sources: set<string>, budget: Budget, x: nat, s: nat, r: nat, p: nat)
      returns (d: Config)
    requires x <= p
    ensures Leads(Start(guarded, sources, budget), d, p, s, r, 0)
    ensures d.node == GenerateResponse && d.st.Spend() == x
  {
    var c := ReachPlanner(guarded, sources, budget, p, s, r);
    var e := Answer(c, Steps([]), Acceptable, x);
    LeadsOn(Start(guarded, sources, budget), c, e, p, s, r, 0);
    var c1 := Next(c, e);
    assert c1.node == SynthesizeFailure;
    LeadsOn(Start(guarded, sources, budget), c1, e, p, s, r, 0);
    d := Next(c1, e);
  }

  // ---------------------------------------------------------------- one attempt

  function Graded(step: PlanStep, v: Verdict): StepResult {
    StepResult(step.id, Some(v))
  }

  /** The open gate passes the state on. */
  lemma OpenGate(c: Config, e: Env)
    requires (c.node == BudgetStep || c.node == BudgetReplan) && WithinCaps(c.st) && e.now == InTime(c.st.budget)
    ensures Next(c, e) == c.(node := if c.node == BudgetStep then AdvanceStep else Replan,
                             st := c.st.(budgetHit := false))
  {
    GuardHitIffOverCap(c.st, e.now);
  }

  /** A retry stays in place, otherwise the head of the plan is promoted. */
  lemma Promote(c: Config, e: Env)
    requires Inv(c) && c.node == AdvanceStep
    ensures Inv(Next(c, e))
    ensures !Pending(c) ==> c.st.plan != []
    ensures Next(c, e) == c.(node := ExecuteStep,
                             st := if Pending(c) then c.st
                                   else c.st.(current := Some(c.st.plan[0]), plan := c.st.plan[1..]))
  {
    NextInv(c, e);
    PendingRetryIffPending(c);
  }

  /** The step in flight is executed and logged. */
  lemma Perform(c: Config, e: Env)
    requires Inv(c) && c.node == ExecuteStep
    ensures Inv(Next(c, e)) && c.st.current.Some?
    ensures Next(c, e) == c.(node := VerifyStep,
                             st := c.st.(pastSteps := c.st.pastSteps + [ExecutionResult(c.st, e)]),
                             log := LogExecution(c.log, c.st.current.value, ExecutionResult(c.st, e)))
  {
    NextInv(c, e);
  }

  /** Fields that dispatch, execution and grading leave alone. */
  predicate Untouching(c: Config, d: Config) {
    && SameTurn(c, d)
    && d.origin == c.origin && d.earlier == c.earlier && d.former == c.former
    && d.st.planRevision == c.st.planRevision && d.st.superseded == c.st.superseded && d.st.error == c.st.error
  }

  /** Executed once more and not graded yet. */
  predicate Dispatched(c: Config, d: Config) {
    && Inv(d) && d.node == VerifyStep && Untouching(c, d)
    && d.st.Spend() == c.st.Spend() && |d.st.pastSteps| == |c.st.pastSteps| + 1
    && d.st.current.Some?
    && (if Pending(c) then
          && d.st.plan == c.st.plan && d.st.current.value.retryCount == 1
          && d.log.Twice? && d.log.prev == c.log.prev && d.log.step == c.log.step && d.log.first == c.log.only
          && d.log.second.stepId == c.log.step.id
        else
          && c.st.plan != [] && d.st.plan == c.st.plan[1..] && d.st.current.value == c.st.plan[0]
          && d.st.current.value.retryCount == 0
          && d.log.Once? && d.log.prev == c.log && d.log.step == c.st.plan[0] && d.log.only.stepId == c.st.plan[0].id)
  }

  lemma DispatchRetry(c: Config, e: Env)
    requires Inv(c) && c.node == AdvanceStep && Pending(c)
    ensures Next(c, e).node == ExecuteStep && Dispatched(c, Next(Next(c, e), e))
  {
    Promote(c, e);
    Perform(Next(c, e), e);
  }

  lemma DispatchNext(c: Config, e: Env)
    requires Inv(c) && c.node == AdvanceStep && !Pending(c)
    ensures Next(c, e).node == ExecuteStep && Dispatched(c, Next(Next(c, e), e))
  {
    Promote(c, e);
    Perform(Next(c, e), e);
  }

  /** Dispatch and execution, up to grading. */
  lemma Dispatch(start: Config, c: Config, p: nat, s: nat, r: nat, n: nat := 0) returns (d: Config)
    requires Leads(start, c, p, s, r, n) && Inv(c) && c.node == BudgetStep && WithinCaps(c.st)
    ensures Leads(start, d, p, s, r, n) && Dispatched(c, d)
  {
    var e := Answer(c, CallFailed, Partial, 0);
    OpenGate(c, e);
    LeadsOn(start, c, e, p, s, r, n);
    var c1 := c.(node := AdvanceStep, st := c.st.(budgetHit := false));
    GateInv(c, e);
    assert Pending(c1) <==> Pending(c);
    if Pending(c1) {
      DispatchRetry(c1, e);
    } else {
      DispatchNext(c1, e);
    }
    LeadsOn(start, c1, e, p, s, r, n);
    LeadsOn(start, Next(c1, e), e, p, s, r, n);
    d := Next(Next(c1, e), e);
    AfterGate(c, c1, d);
  }

  lemma AfterGate(c: Config, c1: Config, d: Config)
    requires c1 == c.(node := AdvanceStep, st := c.st.(budgetHit := false)) && Dispatched(c1, d)
    ensures Dispatched(c, d)
  {
    assert Pending(c1) <==> Pending(c);
  }

  /** Grading after a dispatch. */
  predicate GradedAs(c: Config, d: Config, v: Verdict, x: nat) {
    && Inv(d) && Untouching(c, d)
    && d.st.Spend() == c.st.Spend() + x && |d.st.pastSteps| == |c.st.pastSteps|
    && d.st.plan == c.st.plan && d.log == LogGrade(c.log, v)
    && c.st.current.Some? && d.st.current.Some?
    && d.st.current.value.retryCount
       == c.st.current.value.retryCount + (if v == Unacceptable && c.st.current.value.retryCount < 1 then 1 else 0)
    && d.node == (if v != Unacceptable then (if d.st.plan != [] then BudgetStep else GenerateResponse)
                  else if c.st.current.value.retryCount < 1 then BudgetStep
                  else if d.st.planRevision < 1 then BudgetReplan
                  else SynthesizeFailure)
  }

  lemma GradeAttempt(c: Config, e: Env, v: Verdict, x: nat)
    requires Inv(c) && c.node == VerifyStep && e.grade == Some(v) && e.Tokens() == x
    ensures GradedAs(c, Next(c, e), v, x)
  {
    VerifyShape(c, e);
    VerifyInv(c, e);
    TheTable(c, e, v);
    assert |GradeLatest(c.st.pastSteps, c.log.step.id, v)| == |c.st.pastSteps| by {
      GradeIsLogged(c, v);
    }
  }

  /** The routing table, read off the pre-computed route. */
  lemma TheTable(c: Config, e: Env, v: Verdict)
    requires c.node == VerifyStep && Gradable(c.st) && e.grade == Some(v)
    ensures Next(c, e).node
         == (if v != Unacceptable then (if c.st.plan != [] then BudgetStep else GenerateResponse)
             else if c.st.current.value.retryCount < 1 then BudgetStep
             else if c.st.planRevision < 1 then BudgetReplan
             else SynthesizeFailure)
  {
  }

  /** What one dispatch, execution and grading with verdict `v` and `x` tokens does. */
  predicate Attempted(c: Config, d: Config, v: Verdict, x: nat) {
    && Inv(d) && Untouching(c, d)
    && d.st.Spend() == c.st.Spend() + x && |d.st.pastSteps| == |c.st.pastSteps| + 1
    && d.st.current.Some?
    && d.st.current.value.retryCount == (if Pending(c) || v == Unacceptable then 1 else 0)
    && (if Pending(c) then
          && d.st.plan == c.st.plan
          && d.log == Twice(c.log.prev, c.log.step, c.log.only, Graded(c.log.step, v))
        else
          && c.st.plan != [] && d.st.plan == c.st.plan[1..]
          && d.log == Once(c.log, c.st.plan[0], Graded(c.st.plan[0], v)))
    && d.node == (if v != Unacceptable then (if d.st.plan != [] then BudgetStep else GenerateResponse)
                  else if !Pending(c) then BudgetStep
                  else if d.st.planRevision < 1 then BudgetReplan
                  else SynthesizeFailure)
  }

  lemma AttemptedBy(c: Config, d: Config, f: Config, v: Verdict, x: nat)
    requires Dispatched(c, d) && GradedAs(d, f, v, x)
    ensures Attempted(c, f, v, x)
  {
  }

  /** From an open gate a turn can get any verdict for its next attempt, at any price. */
  lemma Attempt(start: Config, c: Config, v: Verdict, x: nat, p: nat, s: nat, r: nat, n: nat := 0)
      returns (d: Config)
    requires Leads(start, c, p, s, r, n) && x <= s
    requires Inv(c) && c.node == BudgetStep && WithinCaps(c.st)
    ensures Leads(start, d, p, s, r, n) && Attempted(c, d, v, x)
  {
    var c3 := Dispatch(start, c, p, s, r, n);
    var e := Answer(c, CallFailed, v, x);
    GradeAttempt(c3, e, v, x);
    LeadsOn(start, c3, e, p, s, r, n);
    d := Next(c3, e);
    AttemptedBy(c, c3, d, v, x);
  }

  /** A passed attempt with steps waiting is ready for the next one, a first failure pending. */
  lemma AttemptLeaves(c: Config, d: Config, v: Verdict, x: nat)
    requires Attempted(c, d, v, x) && d.node == BudgetStep
    ensures v == Unacceptable ==> Pending(d)
    ensures v != Unacceptable ==> Ready(d) && !Pending(d)
  {
  }

  // ---------------------------------------------------------------- revising

  lemma EmptyRevision(c: Config, e: Env)
    requires c.node == Replan && c.st.planRevision == 0 && e.reply == Steps([])
    ensures Next(c, e).node == SynthesizeFailure && Next(c, e).st.Spend() == c.st.Spend() + e.Tokens()
  {
  }

  lemma FailureAnswers(c: Config, e: Env)
    requires c.node == SynthesizeFailure
    ensures Next(c, e).node == GenerateResponse && Next(c, e).st.Spend() == c.st.Spend()
  {
  }

  lemma ReplanStarts(c: Config, e: Env)
    requires c.node == BudgetReplan && WithinCaps(c.st) && e.now == InTime(c.st.budget)
    ensures Next(c, e) == c.(node := Replan, st := c.st.(budgetHit := false))
    ensures Next(c, e).st.Spend() == c.st.Spend()
  {
    OpenGate(c, e);
  }

  /** From an open replan gate a turn can fail to revise its plan, at any price. */
  lemma FailToRevise(start: Config, c: Config, x: nat, p: nat, s: nat, r: nat) returns (d: Config)
    requires Leads(start, c, p, s, r, 0) && x <= r
    requires c.node == BudgetReplan && c.st.planRevision == 0 && WithinCaps(c.st)
    ensures Leads(start, d, p, s, r, 1) && d.node == GenerateResponse && d.st.Spend() == c.st.Spend() + x
  {
    var e := Answer(c, Steps([]), Partial, x);
    assert e.now == InTime(c.st.budget) && e.reply == Steps([]) && e.Tokens() == x;
    assert MeteredStep(Replan, e, p, s, r);
    hide *;
    ReplanStarts(c, e);
    LeadsFreely(start, c, e, p, s, r, 0);
    var c1 := Next(c, e);
    LeadsOn(start, c1, e, p, s, r, 0);
    EmptyRevision(c1, e);
    var c2 := Next(c1, e);
    LeadsFreely(start, c2, e, p, s, r, 1);
    FailureAnswers(c2, e);
    d := Next(c2, e);
  }

  /** Or adopt any sound plan. */
  lemma Revise(start: Config, c: Config, raw: seq<RawStep>, x: nat, p: nat, s: nat, r: nat) returns (d: Config)
    requires Leads(start, c, p, s, r, 0) && x <= r && Sound(raw, c.st.sourceIds)
    requires Inv(c) && c.node == BudgetReplan && WithinCaps(c.st)
    ensures Leads(start, d, p, s, r, 1) && SameTurn(c, d) && Planned(d, raw)
    ensures d.st.Spend() == c.st.Spend() + x && d.st.pastSteps == c.st.pastSteps && d.st.planRevision == 1
    ensures d.earlier == c.st.pastSteps && d.former == c.log && d.st.superseded == c.st.plan
    ensures d.st.current.None? && d.st.error == c.st.error
  {
    var e := Answer(c, Steps(raw), Partial, x);
    OpenGate(c, e);
    GateInv(c, e);
    LeadsOn(start, c, e, p, s, r, 0);
    var c1 := Next(c, e);
    SoundIsAdoptable(raw, c.st.sourceIds);
    assert Permitted(c1.st, e) == c.st.sourceIds;
    LeadsOn(start, c1, e, p, s, r, 0);
    ReplanInv(c1, e);
    d := Next(c1, e);
  }

  // ---------------------------------------------------------------- the way out

  /** Once synthesis starts, only the answer is still added. */
  predicate SameOutcome(c: Config, d: Config) {
    && SameTurn(c, d)
    && d.origin == c.origin && d.log == c.log && d.earlier == c.earlier && d.former == c.former
    && d.st.plan == c.st.plan && d.st.pastSteps == c.st.pastSteps && d.st.current == c.st.current
    && d.st.superseded == c.st.superseded && d.st.planRevision == c.st.planRevision
  }

  lemma Format(c: Config, e: Env)
    requires c.node == GenerateResponse
    ensures Next(c, e).node == FormatResponse && SameOutcome(c, Next(c, e))
  {
  }

  lemma Leave(c: Config, e: Env)
    requires c.node == FormatResponse || c.node == GuardrailOutput
    ensures Next(c, e).node == (if c.guarded && c.node == FormatResponse then GuardrailOutput else End)
    ensures SameOutcome(c, Next(c, e))
  {
  }

  lemma SameOutcomeIsTransitive(c: Config, d: Config, f: Config)
    requires SameOutcome(c, d) && SameOutcome(d, f)
    ensures SameOutcome(c, f)
  {
  }

  lemma Finish(start: Config, c: Config, p: nat, s: nat, r: nat, n: nat) returns (d: Config)
    requires Leads(start, c, p, s, r, n) && c.node == GenerateResponse
    ensures Leads(start, d, p, s, r, n) && d.node == End && SameOutcome(c, d)
  {
    hide *;
    var e := Answer(c, CallFailed, Partial, 0);
    Format(c, e);
    LeadsFreely(start, c, e, p, s, r, n);
    var c1 := Next(c, e);
    Leave(c1, e);
    LeadsFreely(start, c1, e, p, s, r, n);
    d := Next(c1, e);
    SameOutcomeIsTransitive(c, c1, d);
    if c1.guarded {
      var c2 := d;
      Leave(c2, e);
      LeadsFreely(start, c2, e, p, s, r, n);
      d := Next(c2, e);
      SameOutcomeIsTransitive(c, c2, d);
    }
  }

  lemma WayToFailure(c: Config, e: Env)
    requires c.node == BudgetStep && !(WithinCaps(c.st) && BeforeDeadline(c.st, e.now))
    ensures var c1 := Next(c, e);
            && c1.node == SynthesizeFailure && Next(c1, e).node == GenerateResponse
            && SameOutcome(c, Next(c1, e))
  {
    GuardHitIffOverCap(c.st, e.now);
  }

  /** The gate closed at `now` ends the turn with what was planned still waiting. */
  lemma StopAtGate(start: Config, c: Config, now: int, p: nat, s: nat, r: nat, n: nat) returns (d: Config)
    requires Leads(start, c, p, s, r, n) && c.node == BudgetStep
    requires !(WithinCaps(c.st) && BeforeDeadline(c.st, now))
    ensures Leads(start, d, p, s, r, n) && d.node == End && SameOutcome(c, d)
  {
    hide *;
    var e := Answer(c, CallFailed, Partial, 0).(now := now);
    WayToFailure(c, e);
    LeadsFreely(start, c, e, p, s, r, n);
    var c1 := Next(c, e);
    LeadsFreely(start, c1, e, p, s, r, n);
    var c2 := Next(c1, e);
    d := Finish(start, c2, p, s, r, n);
    SameOutcomeIsTransitive(c, c2, d);
  }
}
