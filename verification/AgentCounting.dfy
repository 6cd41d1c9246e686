/** For which turns the activity record can be trusted to count the queried sources. */
module AgentCounting {
  import opened Wrappers
  import opened AgentState
  import opened BudgetGuard
  import opened AgentLoop
  import opened AgentInvariant
  import opened AgentTheorems
  import opened AgentSteering
  import opened ActivitySummary
  import opened AgentSources

  /** Every finished turn counts as many sources as it queried. */
  ghost predicate EveryCountRight(guarded: bool, sources: set<string>, budget: Budget, p: nat, s: nat, r: nat) {
    forall es ::
      Metered(Start(guarded, sources, budget), es, p, s, r) && Run(Start(guarded, sources, budget), es).node == End
      ==> CountRight(Run(Start(guarded, sources, budget), es))
  }

  predicate CountRight(c: Config) {
    |CountedSources(c.st)| == |Queried(c)|
  }

  /** No planner call and no clock can close the first gate. */
  predicate FirstGateOpen(b: Budget, p: nat) {
    && b.deadline.None?
    && (b.maxSteps.Some? ==> b.maxSteps.value >= 1)
    && (b.maxRetries.Some? ==> b.maxRetries.value >= 0)
    && (b.maxRevisions.Some? ==> b.maxRevisions.value >= 0)
    && (b.tokenCeiling.Some? ==> p <= b.tokenCeiling.value)
  }

  // ---------------------------------------------------------------- right counts

  /** Nothing has run yet. */
  predicate Unstarted(c: Config) {
    c.log == Empty && c.former == Empty
  }

  predicate Planning(n: Node) {
    n == LoadHistory || n == GuardrailInput || n == Planner
  }

  predicate Dispatching(n: Node) {
    n == BudgetStep || n == AdvanceStep || n == ExecuteStep
  }

  /** Before its first step a turn is planning, on its way to that step, or has no plan. */
  predicate OnTheWay(c: Config, p: nat) {
    Unstarted(c) ==>
      && c.st.superseded == [] && c.st.planRevision == 0
      && (Planning(c.node) ==> c.st.Spend() == 0)
      && (Dispatching(c.node) ==> c.st.Spend() <= p)
      && (!Dispatching(c.node) ==> c.st.plan == [])
  }

  lemma FirstGatePasses(c: Config, e: Env, p: nat)
    requires Inv(c) && SourceInv(c) && OnTheWay(c, p) && Unstarted(c) && FirstGateOpen(c.st.budget, p)
    requires c.node == BudgetStep
    ensures Next(c, e) == c.(node := AdvanceStep, st := c.st.(budgetHit := false))
  {
    assert c.st.pastSteps == [];
    GuardHitIffOverCap(c.st, e.now);
  }

  lemma WayOfPlanner(c: Config, e: Env, p: nat)
    requires Inv(c) && OnTheWay(c, p) && c.node == Planner && e.Tokens() <= p
    ensures OnTheWay(Next(c, e), p)
  {
  }

  lemma WayOfDispatch(c: Config, e: Env, p: nat)
    requires Inv(c) && OnTheWay(c, p) && (c.node == AdvanceStep || c.node == ExecuteStep)
    ensures OnTheWay(Next(c, e), p)
  {
    if c.node == AdvanceStep {
      Promote(c, e);
    } else {
      Perform(c, e);
    }
  }

  /** A step that ran stays on record. */
  lemma StartedStays(c: Config, e: Env)
    requires Inv(c) && !Unstarted(c)
    ensures !Unstarted(Next(c, e))
  {
    if c.node == VerifyStep {
    } else if c.node == ExecuteStep {
    } else if c.node == Replan {
    }
  }

  lemma WayElsewhere(c: Config, e: Env, p: nat)
    requires Inv(c) && Unstarted(c) && OnTheWay(c, p)
    requires c.node !in {Planner, BudgetStep, AdvanceStep, ExecuteStep}
    ensures OnTheWay(Next(c, e), p)
  {
    assert c.node != VerifyStep && c.node != BudgetReplan && c.node != Replan;
  }

  lemma WayNext(c: Config, e: Env, p: nat, s: nat, r: nat)
    requires Inv(c) && SourceInv(c) && OnTheWay(c, p) && FirstGateOpen(c.st.budget, p)
    requires MeteredStep(c.node, e, p, s, r)
    ensures OnTheWay(Next(c, e), p)
  {
    if !Unstarted(c) {
      StartedStays(c, e);
    } else if c.node == Planner {
      WayOfPlanner(c, e, p);
    } else if c.node == BudgetStep {
      FirstGatePasses(c, e, p);
    } else if c.node == AdvanceStep || c.node == ExecuteStep {
      WayOfDispatch(c, e, p);
    } else {
      WayElsewhere(c, e, p);
    }
  }

  lemma {:induction false} WayRun(guarded: bool, sources: set<string>, budget: Budget, es: seq<Env>,
                                  p: nat, s: nat, r: nat)
    requires FirstGateOpen(budget, p) && Metered(Start(guarded, sources, budget), es, p, s, r)
    ensures OnTheWay(Run(Start(guarded, sources, budget), es), p)
    ensures Run(Start(guarded, sources, budget), es).st.budget == budget
  {
    if es != [] {
      var start, before, e := Start(guarded, sources, budget), es[..|es| - 1], es[|es| - 1];
      WayRun(guarded, sources, budget, before, p, s, r);
      SourceRun(guarded, sources, budget, before);
      NextKeepsBudget(Run(start, before), e);
      WayNext(Run(start, before), e, p, s, r);
    }
  }

  lemma OneSourceCounts(guarded: bool, sources: set<string>, source: string, budget: Budget, es: seq<Env>,
                        p: nat, s: nat, r: nat)
    requires Askables(sources) == {source} && FirstGateOpen(budget, p)
    requires Metered(Start(guarded, sources, budget), es, p, s, r)
    requires Run(Start(guarded, sources, budget), es).node == End
    ensures CountRight(Run(Start(guarded, sources, budget), es))
  {
    WayRun(guarded, sources, budget, es, p, s, r);
    SingleSourceCountIff(guarded, sources, source, budget, es);
  }

  lemma NoSourceCounts(guarded: bool, sources: set<string>, budget: Budget, es: seq<Env>)
    requires Askables(sources) == {} && Run(Start(guarded, sources, budget), es).node == End
    ensures CountRight(Run(Start(guarded, sources, budget), es))
  {
    SourceRun(guarded, sources, budget, es);
    SourceCountIff(guarded, sources, budget, es);
    hide *;
    NothingCounted(Run(Start(guarded, sources, budget), es));
  }

  lemma NothingCounted(c: Config)
    requires SourceInv(c) && Askables(c.st.sourceIds) == {} && CountedSources(c.st) == Unrun(c) + LastSource(c)
    ensures CountRight(c)
  {
    SourcesOfKnown(Sent(c.former), c.st.sourceIds);
    SourcesOfKnown(Sent(c.log), c.st.sourceIds);
    SourcesOfKnown(c.st.plan, c.st.sourceIds);
    SourcesOfKnown(c.st.superseded, c.st.sourceIds);
    LastAmongSent(c);
    assert CountedSources(c.st) == {} && Queried(c) == {};
  }

  // ---------------------------------------------------------------- wrong counts

  lemma WrongCount(guarded: bool, sources: set<string>, budget: Budget, d: Config, p: nat, s: nat, r: nat, n: nat)
    requires Leads(Start(guarded, sources, budget), d, p, s, r, n) && d.node == End && !CountRight(d)
    ensures !EveryCountRight(guarded, sources, budget, p, s, r)
  {
    var start := Start(guarded, sources, budget);
    var es :| Metered(start, es, p, s, r) && Run(start, es) == d && Visits(start, es, Replan) == n;
  }

  lemma SameCount(c: Config, d: Config)
    requires SameOutcome(c, d)
    ensures Queried(d) == Queried(c) && CountedSources(d.st) == CountedSources(c.st)
  {
  }

  /** A moment at which the gate is closed, when there is one. */
  function ClosingTime(b: Budget): int {
    if b.deadline.Some? then b.deadline.value else 0
  }

  /** One step planned for `p` tokens. */
  lemma PlanOne(guarded: bool, sources: set<string>, budget: Budget, source: string, p: nat, s: nat, r: nat)
      returns (d: Config)
    requires source in Askables(sources)
    ensures Leads(Start(guarded, sources, budget), d, p, s, r, 0) && d.node == BudgetStep
    ensures d.st.budget == budget && d.st.Spend() == p && d.st.planRevision == 0 && RetryCount(d.st) == 0
    ensures d.st.pastSteps == [] && Queried(d) == {} && CountedSources(d.st) == {source}
  {
    d := AdoptPlan(guarded, sources, budget, Raw(1, source), p, s, r, p);
    OnePlanned(d, source);
    hide Leads, Sources, CountedSources, Queried;
  }

  lemma OnePlanned(d: Config, source: string)
    requires source != "" && Planned(d, Raw(1, source)) && d.former == Empty
    requires d.st.current.None? && d.st.superseded == []
    ensures Queried(d) == {} && CountedSources(d.st) == {source}
  {
    assert d.st.plan[0].sourceId == source;
    assert Sources(d.st.plan) == {source};
  }

  lemma FirstGateCloses(c: Config, p: nat)
    requires c.st.pastSteps == [] && RetryCount(c.st) == 0 && c.st.planRevision == 0 && c.st.Spend() == p
    requires !FirstGateOpen(c.st.budget, p)
    ensures !(WithinCaps(c.st) && BeforeDeadline(c.st, ClosingTime(c.st.budget)))
  {
  }

  /** A turn stopped before its first step counts the source it never queried. */
  lemma StoppedFirst(guarded: bool, sources: set<string>, budget: Budget, source: string, p: nat, s: nat, r: nat)
    requires source in Askables(sources) && !FirstGateOpen(budget, p)
    ensures !EveryCountRight(guarded, sources, budget, p, s, r)
  {
    var c := PlanOne(guarded, sources, budget, source, p, s, r);
    FirstGateCloses(c, p);
    var d := StopAtGate(Start(guarded, sources, budget), c, ClosingTime(budget), p, s, r, 0);
    SameCount(c, d);
    assert |{source}| == 1;
    WrongCount(guarded, sources, budget, d, p, s, r, 0);
  }

  function AskBoth(a: string, b: string): seq<RawStep> {
    [RawStep(None, "", a, ""), RawStep(None, "", b, "")]
  }

  lemma AskBothPlan(a: string, b: string, sources: set<string>)
    requires a in Askables(sources) && b in Askables(sources)
    ensures Sound(AskBoth(a, b), sources)
    ensures var plan := BuildPlan(AskBoth(a, b));
            |plan| == 2 && plan[0].sourceId == a && plan[1].sourceId == b
  {
  }

  /** The first of two steps ran, over `a`; the other one waits to ask `b`. */
  predicate HalfDone(c: Config, a: string, b: string) {
    && Inv(c) && c.node == BudgetStep && !Pending(c)
    && c.former == Empty && c.st.superseded == [] && c.st.planRevision == 0
    && |Sent(c.log)| == 1 && Sent(c.log)[0].sourceId == a
    && |c.st.plan| == 1 && c.st.plan[0].sourceId == b
    && |c.st.pastSteps| == 1 && RetryCount(c.st) == 0
  }

  /** Plan a step over each source for free; the first passes for `x` tokens. */
  lemma AskTheFirst(guarded: bool, sources: set<string>, budget: Budget, a: string, b: string, x: nat,
                    p: nat, s: nat, r: nat) returns (d: Config)
    requires a in Askables(sources) && b in Askables(sources) && x <= s && FirstGateOpen(budget, p)
    ensures Leads(Start(guarded, sources, budget), d, p, s, r, 0) && HalfDone(d, a, b)
    ensures d.st.budget == budget && d.st.Spend() == x
  {
    var start := Start(guarded, sources, budget);
    AskBothPlan(a, b, sources);
    var c := AdoptPlan(guarded, sources, budget, AskBoth(a, b), 0, s, r, p);
    assert !Pending(c) && WithinCaps(c.st);
    d := Attempt(start, c, Acceptable, x, p, s, r);
    AttemptLeaves(c, d, Acceptable, x);
    FirstAsked(c, d, a, b, x);
  }

  lemma FirstAsked(c: Config, d: Config, a: string, b: string, x: nat)
    requires Attempted(c, d, Acceptable, x) && !Pending(c) && d.node == BudgetStep && !Pending(d)
    requires c.log == Empty && c.former == Empty && c.st.superseded == [] && c.st.planRevision == 0
    requires |c.st.plan| == 2 && c.st.plan[0].sourceId == a && c.st.plan[1].sourceId == b && c.st.pastSteps == []
    ensures HalfDone(d, a, b)
  {
    assert Sent(d.log) == [c.st.plan[0]] && d.st.plan == [c.st.plan[1]];
  }

  /** Stopped there, the turn counts both sources and queried one. */
  lemma HalfCount(c: Config, a: string, b: string)
    requires HalfDone(c, a, b) && SourceInv(c) && a != "" && b != ""
    ensures Queried(c) == {a} && CountedSources(c.st) == {a, b}
  {
    CountedIs(c);
    LastSent(c);
    assert c.st.plan == [c.st.plan[0]] && Sent(c.log) == [Sent(c.log)[0]];
  }

  lemma LastSent(c: Config)
    requires |Sent(c.log)| == 1
    ensures c.log != Empty && c.log.step == Sent(c.log)[0]
  {
  }

  /** Finished, it queried both and counts the last. */
  lemma FullCount(c: Config, d: Config, a: string, b: string)
    requires HalfDone(c, a, b) && Attempted(c, d, Acceptable, 0) && SourceInv(d) && a != "" && b != ""
    ensures d.node == GenerateResponse && Queried(d) == {a, b} && CountedSources(d.st) == {b}
  {
    CountedIs(d);
    assert d.st.plan == [] && Sent(d.log) == [Sent(c.log)[0], c.st.plan[0]];
  }

  /** From there a closed gate stops the turn. */
  lemma StopHalfway(guarded: bool, sources: set<string>, budget: Budget, c: Config, a: string, b: string,
                    p: nat, s: nat, r: nat) returns (d: Config)
    requires Leads(Start(guarded, sources, budget), c, p, s, r, 0) && HalfDone(c, a, b) && a != "" && b != ""
    requires !WithinCaps(c.st)
    ensures Leads(Start(guarded, sources, budget), d, p, s, r, 0) && d.node == End
    ensures Queried(d) == {a} && CountedSources(d.st) == {a, b}
  {
    assert c.node == BudgetStep;
    hide *;
    LeadsToSourced(guarded, sources, budget, c, p, s, r, 0);
    HalfCount(c, a, b);
    d := StopAtGate(Start(guarded, sources, budget), c, 0, p, s, r, 0);
    SameCount(c, d);
  }

  /** An open one lets it finish. */
  lemma GoOn(guarded: bool, sources: set<string>, budget: Budget, c: Config, a: string, b: string,
             p: nat, s: nat, r: nat) returns (d: Config)
    requires Leads(Start(guarded, sources, budget), c, p, s, r, 0) && HalfDone(c, a, b) && a != "" && b != ""
    requires WithinCaps(c.st)
    ensures Leads(Start(guarded, sources, budget), d, p, s, r, 0) && d.node == End
    ensures Queried(d) == {a, b} && CountedSources(d.st) == {b}
  {
    var start := Start(guarded, sources, budget);
    assert Inv(c) && c.node == BudgetStep;
    hide *;
    var f := Attempt(start, c, Acceptable, 0, p, s, r);
    LeadsToSourced(guarded, sources, budget, f, p, s, r, 0);
    FullCount(c, f, a, b);
    d := Finish(start, f, p, s, r, 0);
    SameCount(f, d);
  }

  lemma SizesDiffer(a: string, b: string)
    requires a != b
    ensures |{a}| == 1 && |{b}| == 1 && |{a, b}| == 2
  {
  }

  /** Over two sources some turn is counted wrong, whatever the caps. */
  lemma TwoSourcesMiscount(guarded: bool, sources: set<string>, budget: Budget, a: string, b: string,
                           p: nat, s: nat, r: nat)
    requires a in Askables(sources) && b in Askables(sources) && a != b && FirstGateOpen(budget, p)
    ensures !EveryCountRight(guarded, sources, budget, p, s, r)
  {
    var c := AskTheFirst(guarded, sources, budget, a, b, 0, p, s, r);
    SizesDiffer(a, b);
    if WithinCaps(c.st) {
      var d := GoOn(guarded, sources, budget, c, a, b, p, s, r);
      WrongCount(guarded, sources, budget, d, p, s, r, 0);
    } else {
      var d := StopHalfway(guarded, sources, budget, c, a, b, p, s, r);
      WrongCount(guarded, sources, budget, d, p, s, r, 0);
    }
  }

  // ---------------------------------------------------------------- exactly when

  lemma TwoMembers(members: set<string>) returns (a: string, b: string)
    requires |members| >= 2
    ensures a in members && b in members && a != b
  {
    a :| a in members;
    assert |members - {a}| >= 1;
    b :| b in members - {a};
  }

  lemma OneMember(members: set<string>) returns (a: string)
    requires |members| == 1
    ensures members == {a}
  {
    a :| a in members;
    assert |members - {a}| == 0;
    assert members == {a} + (members - {a});
  }

  /** The record counts every finished turn right exactly when the turn has no source to ask, or has one and
      no planner call within `p` tokens and no clock can stop it before its first step. */
  lemma CountsRightIff(guarded: bool, sources: set<string>, budget: Budget, p: nat, s: nat, r: nat)
    ensures EveryCountRight(guarded, sources, budget, p, s, r)
       <==> Askables(sources) == {} || (|Askables(sources)| == 1 && FirstGateOpen(budget, p))
  {
    if Askables(sources) == {} {
      forall es | Run(Start(guarded, sources, budget), es).node == End
        ensures CountRight(Run(Start(guarded, sources, budget), es))
      {
        NoSourceCounts(guarded, sources, budget, es);
      }
    } else if !FirstGateOpen(budget, p) {
      var source :| source in Askables(sources);
      StoppedFirst(guarded, sources, budget, source, p, s, r);
    } else if |Askables(sources)| == 1 {
      var source := OneMember(Askables(sources));
      forall es | Metered(Start(guarded, sources, budget), es, p, s, r)
                  && Run(Start(guarded, sources, budget), es).node == End
        ensures CountRight(Run(Start(guarded, sources, budget), es))
      {
        OneSourceCounts(guarded, sources, source, budget, es, p, s, r);
      }
    } else {
      var a, b := TwoMembers(Askables(sources));
      TwoSourcesMiscount(guarded, sources, budget, a, b, p, s, r);
    }
  }

  // ---------------------------------------------------------------- under the default caps

  const A: string := "a"
  const B: string := "b"

  /** A turn that asked both sources and finished its plan counts one. */
  lemma FinishedPlanUndercounts()
    ensures exists d :: Leads(Start(false, {A, B}, DEFAULTS), d, 0, 0, 0, 0) && d.node == End
                        && Queried(d) == {A, B} && CountedSources(d.st) == {B}
  {
    var c := AskTheFirst(false, {A, B}, DEFAULTS, A, B, 0, 0, 0, 0);
    var d := GoOn(false, {A, B}, DEFAULTS, c, A, B, 0, 0, 0);
  }

  /** A turn stopped by its token ceiling after asking one of two sources counts both. */
  lemma BudgetStopOvercounts()
    ensures exists d :: Leads(Start(false, {A, B}, DEFAULTS), d, 0, 34001, 0, 0) && d.node == End
                        && Queried(d) == {A} && CountedSources(d.st) == {A, B}
  {
    var c := AskTheFirst(false, {A, B}, DEFAULTS, A, B, 34001, 0, 34001, 0);
    var d := StopHalfway(false, {A, B}, DEFAULTS, c, A, B, 0, 34001, 0);
  }
}
