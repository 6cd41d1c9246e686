/** How much a turn can spend before synthesis, exactly. */
module AgentOvershoot {
  import opened Wrappers
  import opened AgentState
  import opened AgentLoop
  import opened AgentInvariant
  import opened AgentTheorems
  import opened AgentSteering
  import opened AgentTokens
  import opened AgentSpend
  import opened AgentPurchases

  // ---------------------------------------------------------------- executions and what they cost

  lemma {:induction false} ResultsPerStep(log: Log)
    ensures |Results(log)| <= 2 * |Sent(log)|
    ensures log.Twice? ==> |Results(log)| >= 2
  {
    if log != Empty {
      ResultsPerStep(log.prev);
    }
  }

  /** At the replan node: at least two executions, at most ten and fewer than the step cap. */
  lemma ExecutionsBeforeReplan(c: Config)
    requires Inv(c) && c.node == Replan
    ensures 2 <= |c.st.pastSteps| <= 2 * MAX_PLAN
    ensures c.st.budget.maxSteps.Some? ==> |c.st.pastSteps| < c.st.budget.maxSteps.value
  {
    ResultsPerStep(c.log);
    assert |Sent(c.log)| <= |c.origin|;
  }

  lemma {:induction false} OneResultPerStep(log: Log)
    requires !HasTwice(log)
    ensures |Results(log)| == |Sent(log)|
  {
    if log != Empty {
      OneResultPerStep(log.prev);
    }
  }

  /** Some step of the log ran twice. */
  predicate HasTwice(log: Log) {
    match log
    case Empty => false
    case Once(prev, _, _) => HasTwice(prev)
    case Twice(_, _, _, _) => true
  }

  lemma ItemisedIsCum(planned: nat, n: nat, revised: nat, p: nat, s: nat, r: nat)
    requires planned <= 1 && revised <= 1
    ensures Itemised(planned, n, revised, p, s, r) <= Cum(if revised == 0 then p else p + r, s, n)
  {
    MoreVisitsCostMore(planned, 1, p);
    CumIsProduct(p, s, n);
    CumShifts(p, s, r, n);
  }

  lemma ChargedAt(c: Config, es: seq<Env>, p: nat, s: nat, r: nat)
    requires c.st.Spend() == 0 && Metered(c, es, p, s, r) && Unanswered(Run(c, es).node)
    ensures Run(c, es).st.Spend()
         <= Itemised(Visits(c, es, Planner), Visits(c, es, VerifyStep), Visits(c, es, Replan), p, s, r)
  {
    SpendIsCharged(c, es, p, s, r);
    ChargedByCounts(NodesRun(c, es), p, s, r);
    VisitsAreCounts(c, es, Planner);
    VisitsAreCounts(c, es, VerifyStep);
    VisitsAreCounts(c, es, Replan);
  }

  /** The planner call, one grading per graded execution, and the revision if there was one. */
  function Dearest(c: Config, p: nat, s: nat, r: nat): nat {
    var graded := |c.st.pastSteps| - (if c.node == VerifyStep then 1 else 0);
    Cum(if c.st.planRevision == 0 then p else p + r, s, if graded < 0 then 0 else graded)
  }

  /** What may have been spent when a grading or a revision starts. */
  lemma SpendSoFar(guarded: bool, sources: set<string>, budget: Budget, es: seq<Env>, p: nat, s: nat, r: nat)
    requires Metered(Start(guarded, sources, budget), es, p, s, r)
    requires Run(Start(guarded, sources, budget), es).node in {VerifyStep, Replan}
    ensures var c := Run(Start(guarded, sources, budget), es); c.st.Spend() <= Dearest(c, p, s, r)
  {
    var start := Start(guarded, sources, budget);
    PairedRun(start, es);
    VisitsCounted(guarded, sources, budget, es);
    hide *;
    Tallies(Run(start, es), Visits(start, es, Planner), Visits(start, es, ExecuteStep), Visits(start, es, VerifyStep),
            Visits(start, es, Replan), Visits(start, es, SynthesizeFailure));
    Unspent(guarded, sources, budget);
    ChargedAt(start, es, p, s, r);
    ItemisedIsCum(Visits(start, es, Planner), Visits(start, es, VerifyStep), Visits(start, es, Replan), p, s, r);
    DearestIs(Run(start, es), Visits(start, es, VerifyStep), Visits(start, es, Replan), p, s, r);
  }

  lemma Unspent(guarded: bool, sources: set<string>, budget: Budget)
    ensures Start(guarded, sources, budget).st.Spend() == 0
  {
  }

  /** What the visits of a run tell about the state. */
  predicate Tallied(c: Config, planned: nat, graded: nat, revised: nat) {
    && planned <= 1 && revised <= 1 && c.st.planRevision == revised
    && graded + (if c.node == VerifyStep then 1 else 0) == |c.st.pastSteps|
    && Unanswered(c.node)
  }

  lemma Tallies(c: Config, planned: nat, executed: nat, graded: nat, revised: nat, failures: nat)
    requires Paired(c, planned, executed, graded) && Counted(c, executed, revised, failures) && Inv(c)
    requires c.node in {VerifyStep, Replan}
    ensures Tallied(c, planned, graded, revised) && planned <= 1 && revised <= 1 && Unanswered(c.node)
  {
    hide NodeInv;
  }

  lemma DearestIs(c: Config, graded: nat, revised: nat, p: nat, s: nat, r: nat)
    requires Tallied(c, 0, graded, revised) || Tallied(c, 1, graded, revised)
    ensures Dearest(c, p, s, r) == Cum(if revised == 0 then p else p + r, s, graded)
  {
  }

  // ---------------------------------------------------------------- the upper bound

  /** Executions possible before a revision under step cap `steps`. */
  function BeforeReplan(steps: int): nat {
    if steps < 1 then 0 else Min(2 * MAX_PLAN, steps - 1)
  }

  /** The caps under which a turn can get as far as a revision. */
  predicate Revisable(b: Budget)
    requires Snapshot(b)
  {
    b.maxSteps.value >= 3 && b.maxRetries.value >= 1 && b.maxRevisions.value >= 0 && b.tokenCeiling.value >= 0
  }

  /** The caps under which a turn can run a step at all. */
  predicate Startable(b: Budget)
    requires Snapshot(b)
  {
    b.maxSteps.value >= 1 && b.maxRetries.value >= 0 && b.maxRevisions.value >= 0 && b.tokenCeiling.value >= 0
  }

  /** Executions possible without a revision. */
  function Unrevised(b: Budget): (n: int)
    requires Snapshot(b)
    ensures b.maxSteps.value >= 1 ==> n >= 1
  {
    Min(b.maxSteps.value, if b.maxRetries.value >= 1 then 2 * MAX_PLAN else MAX_PLAN)
  }

  /** Executions possible with one. */
  function InAll(b: Budget): (n: int)
    requires Snapshot(b)
    ensures b.maxSteps.value >= 1 ==> n >= 1
  {
    Min(b.maxSteps.value, 4 * MAX_PLAN)
  }

  /** The dearest ways into synthesis: out of planning, after a grading without a revision, after a failed
      revision, after a grading beyond a revision. Each call but the planner's starts within the ceiling. */
  predicate Covers(top: int, b: Budget, p: nat, s: nat, r: nat)
    requires Snapshot(b)
  {
    var ceiling := b.tokenCeiling.value;
    && p <= top
    && (Startable(b) ==> Min(ceiling, Cum(p, s, Unrevised(b) - 1)) + s <= top)
    && (Revisable(b) ==> Min(ceiling, Cum(p, s, BeforeReplan(b.maxSteps.value))) + r <= top)
    && (Revisable(b) && b.maxRevisions.value >= 1 ==> Min(ceiling, Cum(p + r, s, InAll(b) - 1)) + s <= top)
  }

  lemma RevisableAtReplan(c: Config)
    requires Inv(c) && c.node == Replan && Snapshot(c.st.budget)
    ensures Revisable(c.st.budget)
  {
    ExecutionsBeforeReplan(c);
  }

  /** What the caps let happen: a retry, a revision, and an execution that waits for its grade. */
  predicate CapInv(c: Config) {
    var b := c.st.budget;
    && Snapshot(b)
    && (c.st.planRevision >= 1 ==> Revisable(b))
    && (HasTwice(c.log) ==> b.maxRetries.value >= 1)
    && (c.node == VerifyStep ==>
          && |c.st.pastSteps| <= b.maxSteps.value && 0 <= b.maxRetries.value
          && c.st.planRevision <= b.maxRevisions.value)
  }

  lemma CapExecute(c: Config, e: Env)
    requires Inv(c) && CapInv(c) && c.node == ExecuteStep
    ensures CapInv(Next(c, e))
  {
    Perform(c, e);
  }

  lemma {:induction false} GradeKeepsTwice(log: Log, v: Verdict)
    ensures HasTwice(LogGrade(log, v)) == HasTwice(log)
  {
  }

  lemma VerifyLeaves(c: Config, e: Env)
    requires c.node == VerifyStep
    ensures var d := Next(c, e);
            && d.node != VerifyStep && d.st.planRevision == c.st.planRevision && d.st.budget == c.st.budget
            && HasTwice(d.log) == HasTwice(c.log)
  {
    if Gradable(c.st) && e.grade.Some? {
      GradeKeepsTwice(c.log, e.grade.value);
    }
  }

  lemma CapVerify(c: Config, e: Env)
    requires CapInv(c) && c.node == VerifyStep
    ensures CapInv(Next(c, e))
  {
    VerifyLeaves(c, e);
    hide Next;
  }

  lemma CapReplan(c: Config, e: Env)
    requires Inv(c) && CapInv(c) && c.node == Replan
    ensures CapInv(Next(c, e))
  {
    RevisableAtReplan(c);
    NextKeepsBudget(c, e);
    assert Next(c, e).log == Empty || Next(c, e).log == c.log;
  }

  lemma CapElsewhere(c: Config, e: Env)
    requires CapInv(c) && c.node !in {ExecuteStep, VerifyStep, Replan}
    ensures CapInv(Next(c, e))
  {
    NextKeepsBudget(c, e);
    var d := Next(c, e);
    assert d.node != VerifyStep && d.log == c.log && d.st.planRevision == c.st.planRevision;
  }

  lemma CapNext(c: Config, e: Env)
    requires Inv(c) && CapInv(c)
    ensures CapInv(Next(c, e))
  {
    hide *;
    if c.node == ExecuteStep {
      CapExecute(c, e);
    } else if c.node == VerifyStep {
      CapVerify(c, e);
    } else if c.node == Replan {
      CapReplan(c, e);
    } else {
      CapElsewhere(c, e);
    }
  }

  lemma {:induction false} CapRun(guarded: bool, sources: set<string>, budget: Budget, es: seq<Env>)
    requires Snapshot(budget)
    ensures CapInv(Run(Start(guarded, sources, budget), es))
  {
    if es != [] {
      var start, before := Start(guarded, sources, budget), es[..|es| - 1];
      CapRun(guarded, sources, budget, before);
      StartInv(guarded, sources, budget);
      RunInv(start, before);
      CapNext(Run(start, before), es[|es| - 1]);
    }
  }

  /** Executions up to a grading. */
  lemma ExecutionsAtGrading(c: Config)
    requires Inv(c) && c.node == VerifyStep && CapInv(c) && c.st.planRevision == 0
    ensures 1 <= |c.st.pastSteps| <= Unrevised(c.st.budget)
  {
    LastResult(c);
    ResultsPerStep(c.log);
    assert |Sent(c.log)| <= |c.origin|;
    if !HasTwice(c.log) {
      OneResultPerStep(c.log);
    }
  }

  lemma FirstGradingFits(c: Config, e: Env, top: int, p: nat, s: nat, r: nat)
    requires Inv(c) && c.node == VerifyStep && CapInv(c) && Covers(top, c.st.budget, p, s, r)
    requires c.st.Spend() <= c.st.budget.tokenCeiling.value && e.Tokens() <= s && c.st.planRevision == 0
    requires |c.st.pastSteps| >= 1 && c.st.Spend() <= Cum(p, s, |c.st.pastSteps| - 1)
    ensures c.st.Spend() + e.Tokens() <= top
  {
    ExecutionsAtGrading(c);
    CumGrows(p, s, |c.st.pastSteps| - 1, Unrevised(c.st.budget) - 1);
    hide Inv, Cum, Revisable, InAll;
  }

  lemma LaterGradingFits(c: Config, e: Env, top: int, p: nat, s: nat, r: nat)
    requires c.node == VerifyStep && CapInv(c) && Covers(top, c.st.budget, p, s, r)
    requires c.st.Spend() <= c.st.budget.tokenCeiling.value && e.Tokens() <= s && c.st.planRevision == 1
    requires 1 <= |c.st.pastSteps| <= ExecutionCap(c.st.budget)
    requires c.st.Spend() <= Cum(p + r, s, |c.st.pastSteps| - 1)
    ensures c.st.Spend() + e.Tokens() <= top
  {
    CumGrows(p + r, s, |c.st.pastSteps| - 1, InAll(c.st.budget) - 1);
    hide Cum, Startable, Unrevised;
  }

  lemma GradingFacts(c: Config, e: Env, top: int, p: nat, s: nat, r: nat)
    requires Inv(c) && c.node == VerifyStep && Snapshot(c.st.budget)
    requires SpendInv(c, c.st.budget.tokenCeiling.value, top) && MeteredStep(c.node, e, p, s, r)
    requires c.st.Spend() <= Dearest(c, p, s, r)
    ensures |c.st.pastSteps| >= 1 && 0 <= c.st.planRevision <= 1
    ensures c.st.Spend() <= c.st.budget.tokenCeiling.value && e.Tokens() <= s
    ensures c.st.Spend() <= Cum(if c.st.planRevision == 0 then p else p + r, s, |c.st.pastSteps| - 1)
  {
    AnyExecution(c);
    hide Inv, Cum, LatestResult;
  }

  lemma AnyExecution(c: Config)
    requires Inv(c) && c.node == VerifyStep
    ensures |c.st.pastSteps| >= 1 && 0 <= c.st.planRevision <= 1
  {
    LastResult(c);
  }

  lemma GradingFits(c: Config, e: Env, top: int, p: nat, s: nat, r: nat)
    requires Inv(c) && c.node == VerifyStep && CapInv(c) && Covers(top, c.st.budget, p, s, r)
    requires SpendInv(c, c.st.budget.tokenCeiling.value, top) && MeteredStep(c.node, e, p, s, r)
    requires c.st.Spend() <= Dearest(c, p, s, r) && |c.st.pastSteps| <= ExecutionCap(c.st.budget)
    ensures Fits(c, e, top)
  {
    GradingFacts(c, e, top, p, s, r);
    hide Covers, CapInv, Inv, Cum, ExecutionCap, SpendInv, MeteredStep, Dearest;
    if c.st.planRevision == 0 {
      FirstGradingFits(c, e, top, p, s, r);
    } else {
      LaterGradingFits(c, e, top, p, s, r);
    }
  }

  lemma RevisionFits(c: Config, e: Env, top: int, p: nat, s: nat, r: nat)
    requires Inv(c) && c.node == Replan && Snapshot(c.st.budget) && Covers(top, c.st.budget, p, s, r)
    requires SpendInv(c, c.st.budget.tokenCeiling.value, top) && MeteredStep(c.node, e, p, s, r)
    requires c.st.Spend() <= Dearest(c, p, s, r)
    ensures Fits(c, e, top)
  {
    RevisableAtReplan(c);
    ExecutionsBeforeReplan(c);
    hide Inv, Cum, Startable, Unrevised, InAll, Revisable;
    CumGrows(p, s, |c.st.pastSteps|, BeforeReplan(c.st.budget.maxSteps.value));
  }

  lemma StepFits(guarded: bool, sources: set<string>, budget: Budget, es: seq<Env>, e: Env,
                 top: int, p: nat, s: nat, r: nat)
    requires Snapshot(budget) && Covers(top, budget, p, s, r)
    requires var c := Run(Start(guarded, sources, budget), es);
             && SpendInv(c, budget.tokenCeiling.value, top) && MeteredStep(c.node, e, p, s, r)
             && Metered(Start(guarded, sources, budget), es, p, s, r)
    ensures Fits(Run(Start(guarded, sources, budget), es), e, top)
  {
    var c := Run(Start(guarded, sources, budget), es);
    VisitsCounted(guarded, sources, budget, es);
    BudgetIsReadOnly(Start(guarded, sources, budget), es);
    CapRun(guarded, sources, budget, es);
    if c.node == VerifyStep {
      ExecutionsBounded(guarded, sources, budget, es);
      SpendSoFar(guarded, sources, budget, es, p, s, r);
      GradingFits(c, e, top, p, s, r);
    } else if c.node == Replan {
      SpendSoFar(guarded, sources, budget, es, p, s, r);
      RevisionFits(c, e, top, p, s, r);
    }
  }

  /** Every turn enters synthesis within any spend that covers the four ways in. */
  lemma {:induction false} SpendStaysCovered(guarded: bool, sources: set<string>, budget: Budget, es: seq<Env>,
                                             top: int, p: nat, s: nat, r: nat)
    requires Snapshot(budget) && Covers(top, budget, p, s, r)
    requires Metered(Start(guarded, sources, budget), es, p, s, r)
    ensures SpendInv(Run(Start(guarded, sources, budget), es), budget.tokenCeiling.value, top)
  {
    if es != [] {
      var before, e := es[..|es| - 1], es[|es| - 1];
      SpendStaysCovered(guarded, sources, budget, before, top, p, s, r);
      StepFits(guarded, sources, budget, before, e, top, p, s, r);
      SpendStep(Run(Start(guarded, sources, budget), before), e, budget.tokenCeiling.value, top);
    }
  }

  // ---------------------------------------------------------------- exactly when a bound holds

  /** Every metered turn under `b` enters synthesis within `top`. */
  ghost predicate Within(b: Budget, top: int, p: nat, s: nat, r: nat) {
    forall guarded, sources, es ::
      Metered(Start(guarded, sources, b), es, p, s, r) && Run(Start(guarded, sources, b), es).node == GenerateResponse
      ==> Run(Start(guarded, sources, b), es).st.Spend() <= top
  }

  lemma CoversSuffices(b: Budget, top: int, p: nat, s: nat, r: nat)
    requires Snapshot(b) && Covers(top, b, p, s, r)
    ensures Within(b, top, p, s, r)
  {
    forall guarded, sources, es
      | Metered(Start(guarded, sources, b), es, p, s, r) && Run(Start(guarded, sources, b), es).node == GenerateResponse
      ensures Run(Start(guarded, sources, b), es).st.Spend() <= top
    {
      SpendStaysCovered(guarded, sources, b, es, top, p, s, r);
    }
  }

  lemma WithinApplies(guarded: bool, sources: set<string>, b: Budget, d: Config, top: int,
                      p: nat, s: nat, r: nat, n: nat)
    requires Within(b, top, p, s, r)
    requires Leads(Start(guarded, sources, b), d, p, s, r, n) && d.node == GenerateResponse
    ensures d.st.Spend() <= top
  {
    var start := Start(guarded, sources, b);
    var es :| Metered(start, es, p, s, r) && Run(start, es) == d && Visits(start, es, Replan) == n;
  }

  /** A turn that enters synthesis with spend `y` shows that `top` is at least `y`. */
  lemma EntersWithin(guarded: bool, b: Budget, d: Config, top: int, y: nat, p: nat, s: nat, r: nat, n: nat)
    requires Within(b, top, p, s, r) && Enters(Start(guarded, {SOURCE}, b), d, y, p, s, r, n)
    ensures y <= top
  {
    WithinApplies(guarded, {SOURCE}, b, d, top, p, s, r, n);
  }

  lemma PlannerIsCovered(b: Budget, top: int, p: nat, s: nat, r: nat)
    requires Within(b, top, p, s, r)
    ensures p <= top
  {
    var d := FailToPlan(false, {}, b, p, s, r, p);
    WithinApplies(false, {}, b, d, top, p, s, r, 0);
  }

  lemma GradingIsCovered(b: Budget, top: int, p: nat, s: nat, r: nat)
    requires Snapshot(b) && Startable(b) && Within(b, top, p, s, r)
    ensures Min(b.tokenCeiling.value, Cum(p, s, Unrevised(b) - 1)) + s <= top
  {
    var n, ceiling := Unrevised(b) - 1, b.tokenCeiling.value;
    var d: Config;
    if b.maxRetries.value >= 1 {
      d := RetriesOnTop(false, Site(b, 0, 1), n, ceiling, p, s, r);
    } else {
      d := StepOnTop(false, Site(b, 0, 0), n, ceiling, p, s, r);
    }
    EntersWithin(false, b, d, top, PaidUpTo(p, s, ceiling, n) + s, p, s, r, 0);
  }

  lemma RevisionIsCovered(b: Budget, top: int, p: nat, s: nat, r: nat)
    requires Snapshot(b) && Revisable(b) && Within(b, top, p, s, r)
    ensures Min(b.tokenCeiling.value, Cum(p, s, BeforeReplan(b.maxSteps.value))) + r <= top
  {
    var n, ceiling := BeforeReplan(b.maxSteps.value), b.tokenCeiling.value;
    var d := RevisionOnTop(false, Site(b, 0, 1), n, ceiling, p, s, r);
    EntersWithin(false, b, d, top, PaidUpTo(p, s, ceiling, n) + r, p, s, r, 1);
  }

  /** Of `all` executions, `n` come before the revision and `m` after it, not counting the last. */
  lemma SplitAll(all: nat) returns (n: nat, m: nat)
    requires 3 <= all <= 4 * MAX_PLAN
    ensures 2 <= n <= 2 * MAX_PLAN && m < 2 * MAX_PLAN && n + m == all - 1
  {
    n := if all <= 2 * MAX_PLAN + 2 then 2 else all - 2 * MAX_PLAN;
    m := all - 1 - n;
  }

  lemma LaterGradingIsCovered(b: Budget, top: int, p: nat, s: nat, r: nat)
    requires Snapshot(b) && Revisable(b) && b.maxRevisions.value >= 1 && Within(b, top, p, s, r)
    ensures Min(b.tokenCeiling.value, Cum(p + r, s, InAll(b) - 1)) + s <= top
  {
    hide *;
    var ceiling, n, m := LaterSplit(b);
    var d := GradingAfterRevision(false, Site(b, 0, 1), n, m, ceiling, p, s, r);
    EntersWithin(false, b, d, top, PaidUpTo(p + r, s, ceiling, n + m) + s, p, s, r, 1);
    PaidIs(p + r, s, ceiling, n + m);
  }

  lemma LaterSplit(b: Budget) returns (ceiling: nat, n: nat, m: nat)
    requires Snapshot(b) && Revisable(b) && b.maxRevisions.value >= 1
    ensures ceiling == b.tokenCeiling.value && n + m == InAll(b) - 1
    ensures 2 <= n <= 2 * MAX_PLAN && m < 2 * MAX_PLAN
    ensures Room(Site(b, 0, 1), n, ceiling) && Room(Site(b, 0, 1).(v := 1), n + m, ceiling)
  {
    ceiling := b.tokenCeiling.value;
    n, m := SplitAll(InAll(b));
  }

  lemma PaidIs(base: nat, s: nat, target: nat, n: nat)
    ensures PaidUpTo(base, s, target, n) == Min(target, Cum(base, s, n))
  {
    hide Cum;
  }

  /** A bound holds of every turn under a snapshot exactly when it covers the four dearest ways into synthesis. */
  lemma WithinIffCovers(b: Budget, top: int, p: nat, s: nat, r: nat)
    requires Snapshot(b)
    ensures Within(b, top, p, s, r) <==> Covers(top, b, p, s, r)
  {
    if Within(b, top, p, s, r) {
      PlannerIsCovered(b, top, p, s, r);
      if Startable(b) {
        GradingIsCovered(b, top, p, s, r);
      }
      if Revisable(b) {
        RevisionIsCovered(b, top, p, s, r);
        if b.maxRevisions.value >= 1 {
          LaterGradingIsCovered(b, top, p, s, r);
        }
      }
    }
    if Covers(top, b, p, s, r) {
      CoversSuffices(b, top, p, s, r);
    }
  }

  /** The most a turn under `b` can spend before it synthesizes; `Cum(p, s, n)` is `p + n * s`. */
  function MaxSpend(b: Budget, p: nat, s: nat, r: nat): int
    requires Snapshot(b)
  {
    var ceiling, steps := b.tokenCeiling.value, b.maxSteps.value;
    var planned: int := p;
    var graded := if Startable(b) then Min(ceiling, Cum(p, s, Unrevised(b) - 1)) + s else planned;
    var revised := if Revisable(b) then Min(ceiling, Cum(p, s, BeforeReplan(steps))) + r else planned;
    var later := if Revisable(b) && b.maxRevisions.value >= 1 then Min(ceiling, Cum(p + r, s, InAll(b) - 1)) + s
                 else planned;
    Max(Max(planned, graded), Max(revised, later))
  }

  lemma CoversIffMax(b: Budget, top: int, p: nat, s: nat, r: nat)
    requires Snapshot(b)
    ensures Covers(top, b, p, s, r) <==> MaxSpend(b, p, s, r) <= top
  {
    hide Cum, Unrevised, BeforeReplan, InAll;
  }

  /** That is the maximum: every turn stays within it, and within nothing less. */
  lemma MaxSpendIsExact(b: Budget, top: int, p: nat, s: nat, r: nat)
    requires Snapshot(b)
    ensures Within(b, top, p, s, r) <==> MaxSpend(b, p, s, r) <= top
  {
    hide *;
    WithinIffCovers(b, top, p, s, r);
    CoversIffMax(b, top, p, s, r);
  }

  /** "A turn overshoots its ceiling by at most one step's spend" holds exactly when the planner call fits
      under ceiling and step, and so does a revision wherever the caps allow one. */
  lemma OneStepBoundIff(b: Budget, p: nat, s: nat, r: nat)
    requires Snapshot(b)
    ensures var ceiling, n := b.tokenCeiling.value, BeforeReplan(b.maxSteps.value);
            Within(b, ceiling + s, p, s, r)
            <==> p <= ceiling + s && (Revisable(b) ==> Min(ceiling, p + n * s) + r <= ceiling + s)
  {
    CumIsProduct(p, s, BeforeReplan(b.maxSteps.value));
    WithinIffCovers(b, b.tokenCeiling.value + s, p, s, r);
  }

  /** The documented bound on the whole turn, synthesis included: past the ceiling by at most the step cap
      times the worst step, and the synthesizer's own limit `m`. */
  ghost predicate Documented(b: Budget, p: nat, s: nat, r: nat, m: nat)
    requires Snapshot(b)
  {
    forall guarded, sources, es, e: Env ::
      Metered(Start(guarded, sources, b), es, p, s, r) && Run(Start(guarded, sources, b), es).node == GenerateResponse
      && e.Tokens() <= m
      ==> Next(Run(Start(guarded, sources, b), es), e).st.Spend()
          <= b.tokenCeiling.value + b.maxSteps.value * s + m
  }

  lemma SynthesisAdds(c: Config, e: Env)
    requires c.node == GenerateResponse
    ensures Next(c, e).st.Spend() == c.st.Spend() + e.Tokens()
  {
  }

  lemma DocumentedIffWithin(b: Budget, p: nat, s: nat, r: nat, m: nat)
    requires Snapshot(b)
    ensures Documented(b, p, s, r, m) <==> Within(b, b.tokenCeiling.value + b.maxSteps.value * s, p, s, r)
  {
    var top := b.tokenCeiling.value + b.maxSteps.value * s;
    if Documented(b, p, s, r, m) {
      var e := Env(0, false, CallFailed, {}, true, None, m, 0);
      forall guarded, sources, es
        | Metered(Start(guarded, sources, b), es, p, s, r)
          && Run(Start(guarded, sources, b), es).node == GenerateResponse
        ensures Run(Start(guarded, sources, b), es).st.Spend() <= top
      {
        SynthesisAdds(Run(Start(guarded, sources, b), es), e);
        assert Next(Run(Start(guarded, sources, b), es), e).st.Spend() <= top + m;
      }
    }
    if Within(b, top, p, s, r) {
      forall guarded, sources, es, e: Env
        | Metered(Start(guarded, sources, b), es, p, s, r)
          && Run(Start(guarded, sources, b), es).node == GenerateResponse && e.Tokens() <= m
        ensures Next(Run(Start(guarded, sources, b), es), e).st.Spend() <= top + m
      {
        SynthesisAdds(Run(Start(guarded, sources, b), es), e);
      }
    }
  }

  /** The documented bound, with the synthesizer's limit on both sides, holds exactly when the planner call
      and, wherever the caps allow one, a late revision fit under ceiling plus steps times worst step. */
  lemma DocumentedBoundIff(b: Budget, p: nat, s: nat, r: nat, m: nat)
    requires Snapshot(b)
    ensures var ceiling, n := b.tokenCeiling.value, BeforeReplan(b.maxSteps.value);
            var top := ceiling + b.maxSteps.value * s;
            Documented(b, p, s, r, m) <==> p <= top && (Revisable(b) ==> Min(ceiling, p + n * s) + r <= top)
  {
    CumIsProduct(p, s, BeforeReplan(b.maxSteps.value));
    if b.maxSteps.value >= 1 {
      MoreVisitsCostMore(1, b.maxSteps.value, s);
    }
    DocumentedIffWithin(b, p, s, r, m);
    WithinIffCovers(b, b.tokenCeiling.value + b.maxSteps.value * s, p, s, r);
  }

  /** Under the default caps an expensive planner call breaks the documented bound, and so does an
      expensive revision; a revision that costs more than a grading already breaks the one-step bound. */
  lemma DocumentedBoundFails(m: nat)
    ensures !Documented(DEFAULTS, 40000, 1000, 1000, m)
    ensures !Documented(DEFAULTS, 30000, 1000, 6000, m)
    ensures !Within(DEFAULTS, 35000, 30000, 1000, 2000)
  {
    DocumentedBoundIff(DEFAULTS, 40000, 1000, 1000, m);
    DocumentedBoundIff(DEFAULTS, 30000, 1000, 6000, m);
    OneStepBoundIff(DEFAULTS, 30000, 1000, 2000);
  }

  // ---------------------------------------------------------------- the overshoot is exact

  /** Some metered turn enters synthesis with spend `y`. */
  ghost predicate Spends(guarded: bool, b: Budget, y: int, p: nat, s: nat, r: nat) {
    exists d, n :: Leads(Start(guarded, {SOURCE}, b), d, p, s, r, n) && d.node == GenerateResponse && d.st.Spend() == y
  }

  lemma SpendsBy(guarded: bool, b: Budget, d: Config, y: nat, p: nat, s: nat, r: nat, n: nat)
    requires Enters(Start(guarded, {SOURCE}, b), d, y, p, s, r, n)
    ensures Spends(guarded, b, y, p, s, r)
  {
  }

  /** Whenever plan and gradings can use up the ceiling before the last step, the bound of
      `OneStepOvershoot` is reached, whichever of the three calls dominates it. */
  lemma OvershootIsReached(guarded: bool, b: Budget, p: nat, s: nat, r: nat)
    requires Snapshot(b) && Revisable(b)
    requires b.tokenCeiling.value <= p + Min(2 * MAX_PLAN - 1, b.maxSteps.value - 1) * s
    ensures Spends(guarded, b, Overshoot(b.tokenCeiling.value, p, s, r), p, s, r)
  {
    var ceiling: nat, n := b.tokenCeiling.value, Min(2 * MAX_PLAN - 1, b.maxSteps.value - 1);
    CumIsProduct(p, s, n);
    if p >= ceiling + Max(s, r) {
      var d := FailToPlan(guarded, {SOURCE}, b, p, s, r, p);
      assert Leads(Start(guarded, {SOURCE}, b), d, p, s, r, 0);
    } else if s >= r {
      var d := RetriesOnTop(guarded, Site(b, 0, 1), n, ceiling, p, s, r);
      SpendsBy(guarded, b, d, ceiling + s, p, s, r, 0);
    } else {
      var d := RevisionOnTop(guarded, Site(b, 0, 1), n, ceiling, p, s, r);
      SpendsBy(guarded, b, d, ceiling + r, p, s, r, 1);
    }
  }
}
