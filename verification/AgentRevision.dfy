/** The revision cap: the gate compares the revisions already made, so a cap of zero still
    pays for one replan, whose plan is then never dispatched. */
module AgentRevision {
  import opened Wrappers
  import opened AgentState
  import opened BudgetGuard
  import opened AgentLoop
  import opened AgentInvariant
  import opened AgentTheorems
  import opened AgentSteering
  import opened AgentSources

  /** A planner has a source to name. */
  predicate Askable(sources: set<string>) {
    exists source :: source in sources && source != ""
  }

  /** The caps and the sources that let some turn fail a step twice. */
  predicate CanFailTwice(sources: set<string>, b: Budget) {
    && (b.maxSteps.Some? ==> b.maxSteps.value >= 3)
    && (b.maxRetries.Some? ==> b.maxRetries.value >= 1)
    && (b.tokenCeiling.Some? ==> b.tokenCeiling.value >= 0)
    && Askable(sources)
  }

  /** Some turn under `budget` makes more revisions than its cap allows. */
  ghost predicate CapOvershot(guarded: bool, sources: set<string>, budget: Budget)
    requires budget.maxRevisions.Some?
  {
    exists es :: Visits(Start(guarded, sources, budget), es, Replan) > Max(0, budget.maxRevisions.value)
  }

  // ---------------------------------------------------------------- only then

  lemma {:induction false} FirstVisit(c: Config, es: seq<Env>, n: Node) returns (before: seq<Env>)
    requires Visits(c, es, n) > 0
    ensures Run(c, before).node == n
  {
    before := es[..|es| - 1];
    if Run(c, before).node != n {
      before := FirstVisit(c, before, n);
    }
  }

  lemma CapsAtReplan(c: Config)
    requires Inv(c) && SourceInv(c) && c.node == Replan
    ensures CanFailTwice(c.st.sourceIds, c.st.budget)
    ensures c.st.budget.maxRevisions.Some? ==> c.st.budget.maxRevisions.value >= 0
  {
    assert |Results(c.log)| >= 2;
    assert c.log.step in Sent(c.log);
  }

  lemma OvershotNeedsZero(guarded: bool, sources: set<string>, budget: Budget, es: seq<Env>)
    requires budget.maxRevisions.Some?
    requires Visits(Start(guarded, sources, budget), es, Replan) > Max(0, budget.maxRevisions.value)
    ensures budget.maxRevisions.value == 0 && CanFailTwice(sources, budget)
  {
    VisitsCounted(guarded, sources, budget, es);
    var before := FirstVisit(Start(guarded, sources, budget), es, Replan);
    SourceRun(guarded, sources, budget, before);
    BudgetIsReadOnly(Start(guarded, sources, budget), before);
    CapsAtReplan(Run(Start(guarded, sources, budget), before));
  }

  // ---------------------------------------------------------------- and always then

  /** Not revised, retried at most once, nothing spent, at most two executions. */
  predicate Cheap(c: Config, b: Budget) {
    && c.st.budget == b && c.st.planRevision == 0 && c.st.Spend() == 0
    && RetryCount(c.st) <= 1 && |c.st.pastSteps| <= 2
  }

  lemma CheapIsWithin(c: Config, sources: set<string>, b: Budget)
    requires Cheap(c, b) && CanFailTwice(sources, b) && b.maxRevisions == Some(0)
    ensures WithinCaps(c.st)
  {
  }

  lemma CheapPlan(guarded: bool, sources: set<string>, b: Budget) returns (c: Config)
    requires Askable(sources)
    ensures Leads(Start(guarded, sources, b), c, 0, 0, 0, 0)
    ensures Inv(c) && c.node == BudgetStep && !Pending(c) && Cheap(c, b) && c.st.pastSteps == []
  {
    var source :| source in sources && source != "";
    c := AdoptPlan(guarded, sources, b, Raw(1, source), 0, 0, 0, 0);
  }

  lemma CheapFailure(start: Config, c: Config) returns (d: Config)
    requires Leads(start, c, 0, 0, 0, 0) && Inv(c) && c.node == BudgetStep
    requires Cheap(c, c.st.budget) && WithinCaps(c.st) && |c.st.pastSteps| <= 1
    ensures Leads(start, d, 0, 0, 0, 0) && Inv(d) && Cheap(d, c.st.budget)
    ensures |d.st.pastSteps| == |c.st.pastSteps| + 1
    ensures if Pending(c) then d.node == BudgetReplan else d.node == BudgetStep && Pending(d)
  {
    d := Attempt(start, c, Unacceptable, 0, 0, 0, 0);
    if !Pending(c) {
      AttemptLeaves(c, d, Unacceptable, 0);
    }
  }

  lemma ReplanUnderZero(guarded: bool, sources: set<string>, budget: Budget) returns (d: Config)
    requires budget.maxRevisions == Some(0) && CanFailTwice(sources, budget)
    ensures Leads(Start(guarded, sources, budget), d, 0, 0, 0, 1)
  {
    var start := Start(guarded, sources, budget);
    var c := CheapPlan(guarded, sources, budget);
    CheapIsWithin(c, sources, budget);
    var f := CheapFailure(start, c);
    CheapIsWithin(f, sources, budget);
    var g := CheapFailure(start, f);
    CheapIsWithin(g, sources, budget);
    d := FailToRevise(start, g, 0, 0, 0, 0);
  }

  /** A turn can make more revisions than its cap allows exactly under a cap of zero, and then under
      every budget and over all sources that let a step fail twice. */
  lemma RevisionCapOvershotIffZero(guarded: bool, sources: set<string>, budget: Budget)
    requires budget.maxRevisions.Some?
    ensures CapOvershot(guarded, sources, budget)
       <==> budget.maxRevisions.value == 0 && CanFailTwice(sources, budget)
  {
    if CapOvershot(guarded, sources, budget) {
      var es :| Visits(Start(guarded, sources, budget), es, Replan) > Max(0, budget.maxRevisions.value);
      OvershotNeedsZero(guarded, sources, budget, es);
    }
    if budget.maxRevisions.value == 0 && CanFailTwice(sources, budget) {
      var d := ReplanUnderZero(guarded, sources, budget);
      assert exists es :: Visits(Start(guarded, sources, budget), es, Replan) == 1;
    }
  }

  /** With a cap of zero revisions next to the default caps, some turn replans. */
  lemma ZeroCapStillReplans(guarded: bool)
    ensures exists es ::
      Visits(Start(guarded, {"src"}, DEFAULTS.(maxRevisions := Some(0))), es, Replan) == 1
  {
    assert "src" in {"src"} && "src" != "";
    var d := ReplanUnderZero(guarded, {"src"}, DEFAULTS.(maxRevisions := Some(0)));
  }

  /** Under a cap of zero no step of a revised plan is ever dispatched. */
  lemma ZeroCapWastesTheRevision(guarded: bool, sources: set<string>, budget: Budget, es: seq<Env>)
    requires budget.maxRevisions == Some(0)
    requires Run(Start(guarded, sources, budget), es).node == ExecuteStep
    ensures Run(Start(guarded, sources, budget), es).st.planRevision == 0
  {
    StartInv(guarded, sources, budget);
    RunInv(Start(guarded, sources, budget), es);
    BudgetIsReadOnly(Start(guarded, sources, budget), es);
  }
}
