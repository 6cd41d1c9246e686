/** The sources a turn queries, and the ones its activity record counts. */
module AgentSources {
  import opened Wrappers
  import opened AgentState
  import opened BudgetGuard
  import opened AgentLoop
  import opened AgentInvariant
  import AgentRouting
  import opened AgentSteering
  import opened ActivitySummary

  /** Every step asks one of the turn's sources. */
  predicate Known(steps: seq<PlanStep>, sources: set<string>) {
    forall step :: step in steps ==> step.sourceId != "" && step.sourceId in sources
  }

  predicate SourceInv(c: Config) {
    && Known(c.st.plan, c.st.sourceIds) && Known(Sent(c.log), c.st.sourceIds)
    && Known(Sent(c.former), c.st.sourceIds) && Known(c.st.superseded, c.st.sourceIds)
    && (c.st.current.Some? ==> c.st.current.value.sourceId != "" && c.st.current.value.sourceId in c.st.sourceIds)
    && (c.st.planRevision == 0 ==> c.st.superseded == [] && c.former == Empty)
    && (c.former != Empty ==> c.origin != [])
    && (c.node != ExecuteStep ==> (c.st.current.Some? <==> c.log != Empty))
  }

  lemma AdoptableIsKnown(plan: seq<PlanStep>, st: State, e: Env)
    requires Adoptable(plan, Permitted(st, e))
    ensures Known(plan, st.sourceIds)
  {
  }

  lemma SourcePlanner(c: Config, e: Env)
    requires SourceInv(c) && Inv(c) && c.node == Planner
    ensures SourceInv(Next(c, e))
  {
    if e.reply.Steps? && Adoptable(BuildPlan(e.reply.raw), Permitted(c.st, e)) {
      AdoptableIsKnown(BuildPlan(e.reply.raw), c.st, e);
    }
  }

  lemma SourceReplan(c: Config, e: Env)
    requires SourceInv(c) && Inv(c) && c.node == Replan
    ensures SourceInv(Next(c, e))
  {
    var plan := BuildPlan(ReplySteps(e.reply));
    if !e.reply.CallFailed? && Adoptable(plan, Permitted(c.st, e)) {
      AdoptableIsKnown(plan, c.st, e);
      assert Next(c, e).former == c.log && Next(c, e).log == Empty;
    }
  }

  lemma SourceAdvance(c: Config, e: Env)
    requires SourceInv(c) && Inv(c) && c.node == AdvanceStep
    ensures SourceInv(Next(c, e))
  {
    Promote(c, e);
  }

  lemma SourceExecute(c: Config, e: Env)
    requires SourceInv(c) && Inv(c) && c.node == ExecuteStep
    ensures SourceInv(Next(c, e))
  {
    Perform(c, e);
    var step := c.st.current.value;
    assert Sent(Next(c, e).log) == Sent(c.log) || Sent(Next(c, e).log) == Sent(c.log) + [step];
  }

  /** Grading rewrites verdicts and may count a retry. */
  predicate GradeDelta(c: Config, d: Config) {
    && d.node != ExecuteStep && d.former == c.former && d.origin == c.origin
    && Sent(d.log) == Sent(c.log) && (d.log == Empty <==> c.log == Empty)
    && d.st.plan == c.st.plan && d.st.superseded == c.st.superseded && d.st.planRevision == c.st.planRevision
    && d.st.sourceIds == c.st.sourceIds
    && (d.st.current == c.st.current
        || (c.st.current.Some? && d.st.current == Some(RetryOf(c.st.current.value))))
  }

  lemma VerifyGrades(c: Config, e: Env)
    requires c.node == VerifyStep
    ensures GradeDelta(c, Next(c, e))
  {
  }

  lemma SourceVerify(c: Config, e: Env)
    requires SourceInv(c) && c.node == VerifyStep
    ensures SourceInv(Next(c, e))
  {
    VerifyGrades(c, e);
  }

  /** Nothing that matters here changes. */
  predicate SameSteps(c: Config, d: Config) {
    && d.node != ExecuteStep
    && d.st.plan == c.st.plan && d.st.current == c.st.current && d.st.superseded == c.st.superseded
    && d.st.planRevision == c.st.planRevision && d.st.sourceIds == c.st.sourceIds
    && d.log == c.log && d.former == c.former && d.origin == c.origin
  }

  lemma GateKeepsSteps(c: Config, e: Env)
    requires c.node == BudgetStep || c.node == BudgetReplan
    ensures SameSteps(c, Next(c, e))
  {
  }

  lemma IdleKeepsSteps(c: Config, e: Env)
    requires c.node !in {Planner, AdvanceStep, ExecuteStep, VerifyStep, Replan}
    ensures SameSteps(c, Next(c, e))
  {
    if c.node == BudgetStep || c.node == BudgetReplan {
      GateKeepsSteps(c, e);
    } else {
      hide ApplyGuard;
      assert Next(c, e).log == c.log;
    }
  }

  lemma SourceIdle(c: Config, e: Env)
    requires SourceInv(c) && c.node !in {Planner, AdvanceStep, ExecuteStep, VerifyStep, Replan}
    ensures SourceInv(Next(c, e))
  {
    IdleKeepsSteps(c, e);
    SourceSame(c, Next(c, e));
  }

  lemma SourceSame(c: Config, d: Config)
    requires SourceInv(c) && SameSteps(c, d) && c.node != ExecuteStep
    ensures SourceInv(d)
  {
  }

  lemma SourceStep(c: Config, e: Env)
    requires SourceInv(c) && Inv(c)
    ensures SourceInv(Next(c, e))
  {
    hide *;
    match c.node
    case Planner => SourcePlanner(c, e);
    case AdvanceStep => SourceAdvance(c, e);
    case ExecuteStep => SourceExecute(c, e);
    case VerifyStep => SourceVerify(c, e);
    case Replan => SourceReplan(c, e);
    case _ => SourceIdle(c, e);
  }

  /** Every step a turn plans, runs or supersedes asks one of its sources. */
  lemma {:induction false} SourceRun(guarded: bool, sources: set<string>, budget: Budget, es: seq<Env>)
    ensures Inv(Run(Start(guarded, sources, budget), es)) && SourceInv(Run(Start(guarded, sources, budget), es))
    ensures Run(Start(guarded, sources, budget), es).st.sourceIds == sources
  {
    var c := Start(guarded, sources, budget);
    if es == [] {
      StartInv(guarded, sources, budget);
    } else {
      var prefix, e := es[..|es| - 1], es[|es| - 1];
      SourceRun(guarded, sources, budget, prefix);
      SourceStep(Run(c, prefix), e);
      NextInv(Run(c, prefix), e);
      AgentRouting.KeepsSources(Run(c, prefix), e);
    }
  }

  lemma LeadsToSourced(guarded: bool, sources: set<string>, budget: Budget, d: Config, p: nat, s: nat, r: nat, n: nat)
    requires Leads(Start(guarded, sources, budget), d, p, s, r, n)
    ensures Inv(d) && SourceInv(d)
  {
    var start := Start(guarded, sources, budget);
    var es :| Metered(start, es, p, s, r) && Run(start, es) == d && Visits(start, es, Replan) == n;
    SourceRun(guarded, sources, budget, es);
  }

  /** In every run an execution appends one result of the step in flight, provisionally partial when it went
      through and unacceptable when it raised: no step that runs is denied its source. */
  lemma ExecutionRecorded(guarded: bool, sources: set<string>, budget: Budget, es: seq<Env>, e: Env)
    requires Run(Start(guarded, sources, budget), es).node == ExecuteStep
    ensures var c := Run(Start(guarded, sources, budget), es);
            && c.st.current.Some?
            && Next(c, e).st.pastSteps
               == c.st.pastSteps + [StepResult(c.st.current.value.id,
                                               if e.executed then Some(Partial) else Some(Unacceptable))]
  {
    SourceRun(guarded, sources, budget, es);
  }

  // ---------------------------------------------------------------- what the record counts

  /** The sources the turn asked: those of the steps dispatched before and since the last revision. */
  function Queried(c: Config): set<string> {
    Sources(Sent(c.former)) + Sources(Sent(c.log))
  }

  /** Steps planned and not run: still waiting, or replaced by a revision. */
  function Unrun(c: Config): set<string> {
    Sources(c.st.plan) + Sources(c.st.superseded)
  }

  function LastSource(c: Config): set<string> {
    if c.log == Empty then {} else {c.log.step.sourceId}
  }

  /** No dispatch is in progress. */
  predicate AtRest(c: Config) {
    Inv(c) && SourceInv(c) && c.node != ExecuteStep
  }

  lemma InFlightAtRest(c: Config)
    requires AtRest(c) && c.log != Empty
    ensures c.st.current.Some? && c.st.current.value.sourceId == c.log.step.sourceId
  {
  }

  lemma LastIsQueried(c: Config)
    requires AtRest(c)
    ensures LastSource(c) <= Queried(c)
  {
    if c.log != Empty {
      assert c.log.step in Sent(c.log);
    }
  }

  lemma CountedIs(c: Config)
    requires AtRest(c)
    ensures CountedSources(c.st) == Unrun(c) + LastSource(c)
  {
    if c.log != Empty {
      InFlightAtRest(c);
    }
  }

  lemma CountDiffers(c: Config)
    requires AtRest(c)
    ensures |CountedSources(c.st)| == |Queried(c)|
       <==> |Unrun(c) - Queried(c)| == |Queried(c) - LastSource(c) - Unrun(c)|
    ensures CountedSources(c.st) == Queried(c)
       <==> Unrun(c) <= Queried(c) && Queried(c) - LastSource(c) <= Unrun(c)
  {
    CountedIs(c);
    LastIsQueried(c);
    hide *;
    SetsAgreeIff(Unrun(c), LastSource(c), Queried(c));
    SizesAgreeIff(Unrun(c), LastSource(c), Queried(c));
  }

  lemma SetsAgreeIff(unrun: set<string>, last: set<string>, queried: set<string>)
    requires last <= queried
    ensures unrun + last == queried <==> unrun <= queried && queried - last <= unrun
  {
    if unrun <= queried && queried - last <= unrun {
      assert forall x :: x in queried ==> x in unrun + last;
    }
  }

  lemma SizesAgreeIff(unrun: set<string>, last: set<string>, queried: set<string>)
    requires last <= queried
    ensures |unrun + last| == |queried| <==> |unrun - queried| == |queried - last - unrun|
  {
    var counted := unrun + last;
    assert counted == counted * queried + (unrun - queried);
    assert queried == counted * queried + (queried - last - unrun);
  }

  /** Whenever no dispatch is in progress, and so at every end of a turn, the record counts the sources of
      the steps that did not run and of the last one that did. Their number is that of the queried sources
      exactly when as many unrun sources were never queried as queried ones go uncounted. */
  lemma SourceCountIff(guarded: bool, sources: set<string>, budget: Budget, es: seq<Env>)
    requires Run(Start(guarded, sources, budget), es).node != ExecuteStep
    ensures var c := Run(Start(guarded, sources, budget), es);
            && CountedSources(c.st) == Unrun(c) + LastSource(c)
            && (|CountedSources(c.st)| == |Queried(c)|
                <==> |Unrun(c) - Queried(c)| == |Queried(c) - LastSource(c) - Unrun(c)|)
            && (CountedSources(c.st) == Queried(c)
                <==> Unrun(c) <= Queried(c) && Queried(c) - LastSource(c) <= Unrun(c))
  {
    SourceRun(guarded, sources, budget, es);
    var c := Run(Start(guarded, sources, budget), es);
    assert AtRest(c);
    hide *;
    CountedIs(c);
    CountDiffers(c);
  }

  // ---------------------------------------------------------------- one source

  /** The sources a planner can name. */
  function Askables(sources: set<string>): set<string> {
    set source <- sources | source != ""
  }

  lemma SourcesOfKnown(steps: seq<PlanStep>, sources: set<string>)
    requires Known(steps, sources)
    ensures Sources(steps) <= Askables(sources) && (Sources(steps) == {} <==> steps == [])
  {
    if steps != [] {
      assert steps[0] in steps;
      assert steps[0].sourceId in Sources(steps);
    }
  }

  lemma OneOrNone(some: set<string>, source: string)
    requires some <= {source}
    ensures some == {} || some == {source}
  {
  }

  /** A turn over one source is counted right unless it stopped with a plan before running any step. */
  lemma SingleSourceCountIff(guarded: bool, sources: set<string>, source: string, budget: Budget, es: seq<Env>)
    requires Askables(sources) == {source}
    requires Run(Start(guarded, sources, budget), es).node != ExecuteStep
    ensures var c := Run(Start(guarded, sources, budget), es);
            |CountedSources(c.st)| == |Queried(c)|
            <==> (c.former != Empty || c.log != Empty || (c.st.plan == [] && c.st.superseded == []))
  {
    SourceRun(guarded, sources, budget, es);
    SourceCountIff(guarded, sources, budget, es);
    RestConserves(Run(Start(guarded, sources, budget), es));
    hide *;
    CountOverOneSource(Run(Start(guarded, sources, budget), es), source);
  }

  lemma CountOverOneSource(c: Config, source: string)
    requires SourceInv(c) && Askables(c.st.sourceIds) == {source} && Conserved(c)
    requires CountedSources(c.st) == Unrun(c) + LastSource(c)
    ensures |CountedSources(c.st)| == |Queried(c)|
       <==> (c.former != Empty || c.log != Empty || (c.st.plan == [] && c.st.superseded == []))
  {
    SourcesOfKnown(Sent(c.former), c.st.sourceIds);
    SourcesOfKnown(Sent(c.log), c.st.sourceIds);
    SourcesOfKnown(c.st.plan, c.st.sourceIds);
    SourcesOfKnown(c.st.superseded, c.st.sourceIds);
    LastAmongSent(c);
    OneOrNone(CountedSources(c.st), source);
    OneOrNone(Queried(c), source);
    assert |{source}| == 1;
  }

  lemma LastAmongSent(c: Config)
    ensures c.log == Empty <==> Sent(c.log) == []
    ensures c.former == Empty <==> Sent(c.former) == []
    ensures Known(Sent(c.log), c.st.sourceIds) ==> LastSource(c) <= Askables(c.st.sourceIds)
  {
    if c.log != Empty {
      assert c.log.step in Sent(c.log);
    }
  }
}
