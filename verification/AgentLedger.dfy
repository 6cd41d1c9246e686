/** Conservation of plan steps: nothing is lost, reordered or skipped by retries. */
module AgentLedger {
  import opened Wrappers
  import opened AgentState
  import opened AgentLoop
  import opened AgentInvariant

  /** The ids of `ids`, each at its first occurrence. */
  function FirstOccurrences(ids: seq<string>): seq<string> {
    if ids == [] then []
    else
      var before, last := ids[..|ids| - 1], ids[|ids| - 1];
      if last in before then FirstOccurrences(before) else FirstOccurrences(before) + [last]
  }

  lemma {:induction false} FirstOccurrencesFacts(ids: seq<string>)
    ensures var firsts := FirstOccurrences(ids);
            && Distinct(firsts)
            && (forall id :: id in firsts <==> id in ids)
  {
    if ids != [] {
      FirstOccurrencesFacts(ids[..|ids| - 1]);
      assert ids == ids[..|ids| - 1] + [ids[|ids| - 1]];
    }
  }

  lemma FirstOccurrencesSnoc(ids: seq<string>, id: string)
    ensures FirstOccurrences(ids + [id])
         == if id in ids then FirstOccurrences(ids) else FirstOccurrences(ids) + [id]
  {
    assert (ids + [id])[..|ids|] == ids;
  }

  lemma PastIdsSnoc(past: seq<StepResult>, r: StepResult)
    ensures PastIds(past + [r]) == PastIds(past) + [r.stepId]
  {
  }

  lemma PlanIdsSnoc(plan: seq<PlanStep>, step: PlanStep)
    ensures PlanIds(plan + [step]) == PlanIds(plan) + [step.id]
  {
  }

  lemma DistinctPrefix(ids: seq<string>, id: string)
    requires Distinct(ids + [id])
    ensures Distinct(ids) && id !in ids
  {
    forall i | 0 <= i < |ids|
      ensures ids[i] != id
    {
      assert (ids + [id])[i] == ids[i] && (ids + [id])[|ids|] == id;
    }
    forall i, j | 0 <= i < j < |ids|
      ensures ids[i] != ids[j]
    {
      assert (ids + [id])[i] == ids[i] && (ids + [id])[j] == ids[j];
    }
  }

  /** A genuine log of distinct steps executes them in order, retries collapsed. */
  lemma {:induction false} ResultsFollowSteps(log: Log)
    requires Genuine(log) && Distinct(PlanIds(Sent(log)))
    ensures FirstOccurrences(PastIds(Results(log))) == PlanIds(Sent(log))
  {
    if log != Empty {
      var before, ids := PastIds(Results(log.prev)), PlanIds(Sent(log.prev));
      PlanIdsSnoc(Sent(log.prev), log.step);
      DistinctPrefix(ids, log.step.id);
      ResultsFollowSteps(log.prev);
      FirstOccurrencesFacts(before);
      assert log.step.id !in before;
      FirstOccurrencesSnoc(before, log.step.id);
      if log.Once? {
        PastIdsSnoc(Results(log.prev), log.only);
      } else {
        PastIdsSnoc(Results(log.prev), log.first);
        PastIdsSnoc(Results(log.prev) + [log.first], log.second);
        assert Results(log.prev) + [log.first] + [log.second] == Results(log);
        FirstOccurrencesSnoc(before + [log.step.id], log.step.id);
      }
    }
  }

  /** Execution order, retries collapsed, followed by what still waits, is the adopted plan. */
  predicate InPlanOrder(c: Config) {
    && |c.earlier| <= |c.st.pastSteps|
    && FirstOccurrences(PastIds(c.st.pastSteps[|c.earlier|..])) + PlanIds(c.st.plan) == PlanIds(c.origin)
  }

  /** A genuine log executes its steps in order, retries collapsed, exactly when they have distinct ids. */
  lemma ResultsFollowIff(log: Log)
    requires Genuine(log)
    ensures FirstOccurrences(PastIds(Results(log))) == PlanIds(Sent(log)) <==> Distinct(PlanIds(Sent(log)))
  {
    FirstOccurrencesFacts(PastIds(Results(log)));
    if Distinct(PlanIds(Sent(log))) {
      ResultsFollowSteps(log);
    }
  }

  lemma SameEnd(a: seq<string>, b: seq<string>, end: seq<string>)
    ensures a + end == b + end <==> a == b
  {
    if a + end == b + end {
      assert |a| == |b| && a == (a + end)[..|a|] == (b + end)[..|b|];
    }
  }

  lemma ConservedInOrder(c: Config)
    requires Shape(c) && Conserved(c)
    ensures InPlanOrder(c) <==> Distinct(PlanIds(Sent(c.log)))
  {
    assert c.st.pastSteps[|c.earlier|..] == Results(c.log);
    assert PlanIds(c.origin) == PlanIds(Sent(c.log)) + PlanIds(c.st.plan);
    ResultsFollowIff(c.log);
    SameEnd(FirstOccurrences(PastIds(Results(c.log))), PlanIds(Sent(c.log)), PlanIds(c.st.plan));
  }

  /** In every reachable configuration other than a first dispatch in progress, the adopted plan is the
      steps dispatched from it followed by the waiting ones, and the executions since its adoption are those
      of the dispatched steps; by id the two agree exactly when no dispatched id repeats. */
  lemma NoStepLost(guarded: bool, sources: set<string>, budget: Budget, es: seq<Env>)
    ensures var c := Run(Start(guarded, sources, budget), es);
            && c.st.pastSteps == c.earlier + Results(c.log) && Genuine(c.log)
            && (c.node != ExecuteStep ==> c.origin == Sent(c.log) + c.st.plan)
            && (c.node != ExecuteStep ==> (InPlanOrder(c) <==> Distinct(PlanIds(Sent(c.log)))))
            && (c.st.planRevision == 0 ==> c.earlier == [])
  {
    StartInv(guarded, sources, budget);
    RunInv(Start(guarded, sources, budget), es);
    hide *;
    NothingLost(Run(Start(guarded, sources, budget), es));
  }

  lemma NothingLost(c: Config)
    requires Inv(c)
    ensures c.st.pastSteps == c.earlier + Results(c.log) && Genuine(c.log)
    ensures c.node != ExecuteStep ==> c.origin == Sent(c.log) + c.st.plan
    ensures c.node != ExecuteStep ==> (InPlanOrder(c) <==> Distinct(PlanIds(Sent(c.log))))
    ensures c.st.planRevision == 0 ==> c.earlier == []
  {
    if c.node != ExecuteStep {
      RestConserves(c);
      ConservedInOrder(c);
    }
  }

  // ---------------------------------------------------------------- the plan before a revision

  /** The executions before a revision are those of the replaced plan, whose last step failed twice. */
  predicate FormerOk(c: Config) {
    && c.earlier == Results(c.former) && Genuine(c.former)
    && (c.former != Empty ==> c.former.Twice? && c.former.second.verdict == Some(Unacceptable))
    && (c.st.planRevision == 0 ==> c.former == Empty)
  }

  lemma FormerReplan(c: Config, e: Env)
    requires Inv(c) && FormerOk(c) && c.node == Replan
    ensures FormerOk(Next(c, e))
  {
    assert c.st.pastSteps == Results(c.log);
  }

  lemma FormerElsewhere(c: Config, e: Env)
    requires c.node != Replan
    ensures var d := Next(c, e);
            d.earlier == c.earlier && d.former == c.former && d.st.planRevision == c.st.planRevision
  {
    if c.node == VerifyStep {
    } else if c.node == Planner {
    }
  }

  lemma {:induction false} FormerRun(guarded: bool, sources: set<string>, budget: Budget, es: seq<Env>)
    ensures FormerOk(Run(Start(guarded, sources, budget), es))
  {
    if es != [] {
      var start, before := Start(guarded, sources, budget), es[..|es| - 1];
      FormerRun(guarded, sources, budget, before);
      StartInv(guarded, sources, budget);
      RunInv(start, before);
      if Run(start, before).node == Replan {
        FormerReplan(Run(start, before), es[|es| - 1]);
      } else {
        FormerElsewhere(Run(start, before), es[|es| - 1]);
      }
    }
  }

  /** A pending retry re-executes the step that just failed and leaves the plan alone. */
  lemma PendingRetryRepeats(guarded: bool, sources: set<string>, budget: Budget, es: seq<Env>, e: Env)
    requires Run(Start(guarded, sources, budget), es).node == AdvanceStep
    requires IsPendingRetry(Run(Start(guarded, sources, budget), es).st)
    ensures var c := Run(Start(guarded, sources, budget), es);
            var d := Next(c, e);
            var past := c.st.pastSteps;
            && d.st.plan == c.st.plan && d.st.current == c.st.current && past != []
            && d.st.current.value.id == past[|past| - 1].stepId
            && past[|past| - 1].verdict == Some(Unacceptable)
            && d.st.current.value.retryCount == 1
  {
    var c := Run(Start(guarded, sources, budget), es);
    StartInv(guarded, sources, budget);
    RunInv(Start(guarded, sources, budget), es);
    PendingRetryIffPending(c);
    LastResult(c);
  }

  /** The guards kept as defence in depth never fire: a dispatch always has a step, grading
      always has a result, and replan is never entered a second time. */
  lemma DefensiveBranchesAreDead(guarded: bool, sources: set<string>, budget: Budget, es: seq<Env>)
    ensures var c := Run(Start(guarded, sources, budget), es);
            && (c.node == AdvanceStep ==> IsPendingRetry(c.st) || c.st.plan != [])
            && (c.node == ExecuteStep ==> c.st.current.Some?)
            && (c.node == VerifyStep ==> Gradable(c.st))
            && (c.node == Replan ==> c.st.planRevision == 0)
  {
    var c := Run(Start(guarded, sources, budget), es);
    StartInv(guarded, sources, budget);
    RunInv(Start(guarded, sources, budget), es);
    if c.node == AdvanceStep {
      PendingRetryIffPending(c);
    } else if c.node == VerifyStep {
      LastResult(c);
    }
  }
}
