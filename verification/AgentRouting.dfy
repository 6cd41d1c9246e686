/** Where a turn goes, in terms of what the models answered, and the three kinds of turn. */
module AgentRouting {
  import opened Wrappers
  import opened AgentState
  import opened BudgetGuard
  import opened AgentLoop
  import opened AgentInvariant

  // ---------------------------------------------------------------- one step

  /** The model proposed a plan the turn may run: it is not empty, and each of its first five steps
      names a source that is the turn's own and known to the loader. */
  predicate Runnable(e: Env, sources: set<string>) {
    && e.reply.Steps? && e.reply.raw != []
    && forall k :: 0 <= k < Min(|e.reply.raw|, 5) ==>
         && e.reply.raw[k].sourceId != ""
         && e.reply.raw[k].sourceId in sources && e.reply.raw[k].sourceId in e.permitted
  }

  /** `plan` is the proposal, cut to five steps, none of them started. A step without an id gets the one of
      its position. */
  predicate Adopts(plan: seq<PlanStep>, raw: seq<RawStep>) {
    && |plan| == Min(|raw|, 5)
    && forall k :: 0 <= k < |plan| ==>
         && plan[k].sourceId == raw[k].sourceId && plan[k].subQuery == raw[k].subQuery
         && plan[k].description == raw[k].description
         && plan[k].id == (if raw[k].id.Some? then raw[k].id.value else ["s1", "s2", "s3", "s4", "s5"][k])
         && plan[k].status == Waiting && plan[k].retryCount == 0 && !plan[k].hinted
  }

  lemma RunnableIff(st: State, e: Env)
    ensures Runnable(e, st.sourceIds) <==> e.reply.Steps? && Adoptable(BuildPlan(e.reply.raw), Permitted(st, e))
    ensures e.reply.Steps? ==> Adopts(BuildPlan(e.reply.raw), e.reply.raw)
    ensures Runnable(e, st.sourceIds) ==> BuildPlan(e.reply.raw) != []
  {
    if e.reply.Steps? {
      var plan := BuildPlan(e.reply.raw);
      assert forall k :: 0 <= k < |plan| ==> plan[k].sourceId == e.reply.raw[k].sourceId;
    }
  }

  /** The planner asks back exactly when the model wants a clarification, and starts on a plan exactly when
      it may run; otherwise it admits failure. */
  lemma PlannerRoutes(c: Config, e: Env)
    requires Inv(c) && c.node == Planner
    ensures var d := Next(c, e);
            && (d.node == HandleClarification <==> e.reply == Clarify)
            && (d.node == BudgetStep <==> Runnable(e, c.st.sourceIds))
            && (d.node == SynthesizeFailure <==> e.reply != Clarify && !Runnable(e, c.st.sourceIds))
            && (if d.node == BudgetStep then Adopts(d.st.plan, e.reply.raw) else d.st.plan == [])
  {
    RunnableIff(AddTokens(c.st, e), e);
    RunnableIff(c.st, e);
    hide Adoptable, BuildPlan, Runnable, Adopts;
  }

  /** A revision that may run replaces what was left of the plan; any other ends the work. */
  lemma ReplanRoutes(c: Config, e: Env)
    requires Inv(c) && c.node == Replan
    ensures var d := Next(c, e);
            && (d.node == BudgetStep <==> Runnable(e, c.st.sourceIds))
            && (d.node == SynthesizeFailure <==> !Runnable(e, c.st.sourceIds))
            && (if d.node == BudgetStep then Adopts(d.st.plan, e.reply.raw) && d.st.current.None?
                else d.st.plan == c.st.plan)
            && d.st.superseded == c.st.plan
  {
    RunnableIff(c.st, e);
    assert !Adoptable(BuildPlan([]), Permitted(c.st, e));
    hide Adoptable, BuildPlan, Runnable, Adopts;
  }

  /** The table of the verifier: a step that passed leads on to the next one, or to the answer after the
      last; a first failure is retried, a second one revises the plan once, and failure is admitted when
      the plan has been revised before. */
  lemma VerifyRoutes(c: Config, e: Env)
    requires Inv(c) && c.node == VerifyStep
    ensures Next(c, e).node
         == match e.grade {
              case None => Raised
              case Some(Unacceptable) =>
                if c.log.Once? then BudgetStep else if c.st.planRevision == 0 then BudgetReplan else SynthesizeFailure
              case _ => if c.st.plan == [] then GenerateResponse else BudgetStep
            }
  {
    LastResult(c);
    if e.grade.Some? {
      VerifyShape(c, e);
    }
  }

  /** A gate lets the turn pass exactly while every cap holds and the deadline has not come. */
  lemma GateRoutes(c: Config, e: Env)
    requires c.node == BudgetStep || c.node == BudgetReplan
    ensures Next(c, e).node
         == if !WithinCaps(c.st) || !BeforeDeadline(c.st, e.now) then SynthesizeFailure
            else if c.node == BudgetStep then AdvanceStep else Replan
  {
    GuardHitIffOverCap(c.st, e.now);
  }

  /** The input check runs exactly where there is a guardrail service, and ends the turn exactly when it blocks. */
  lemma OpeningRoutes(c: Config, e: Env)
    ensures c.node == LoadHistory ==> Next(c, e).node == if c.guarded then GuardrailInput else Planner
    ensures c.node == GuardrailInput ==>
              && Next(c, e).node == (if e.blocked then End else Planner)
              && (Next(c, e).st.error == Some(BlockedInput) <==> e.blocked || c.st.error == Some(BlockedInput))
  {
  }

  /** Grading touches the step in flight exactly when it failed for the first time: it then stays in flight as
      it was, once retried and with the hint. */
  lemma RetryKeepsStep(c: Config, e: Env)
    requires Inv(c) && c.node == VerifyStep
    ensures c.st.current.Some?
    ensures var was, now := c.st.current.value, Next(c, e).st.current;
            if c.log.Once? && e.grade == Some(Unacceptable) then
              now == Some(PlanStep(was.id, was.description, was.sourceId, was.subQuery, true, was.status, 1))
            else now == Some(was)
  {
    LastResult(c);
    if e.grade.Some? {
      VerifyShape(c, e);
    }
  }

  lemma {:induction false} GradedIsLatest(past: seq<StepResult>, id: string, v: Verdict)
    requires LatestResult(past, id).Some?
    ensures LatestResult(GradeLatest(past, id, v), id) == Some(StepResult(id, Some(v)))
  {
    if past[|past| - 1].stepId != id {
      GradedIsLatest(past[..|past| - 1], id, v);
    }
  }

  /** The fallback table reads the state after grading. It agrees with the route computed while grading exactly
      unless the step failed for the first time: its retry is counted by then, so the fallback would revise the
      plan, or give up, instead of repeating the step. */
  lemma FallbackAgreesIff(st: State, e: Env, v: Verdict)
    requires Gradable(st)
    ensures FallbackRoute(Verify(st, e, v).(verifyRoute := None)) == VerifyRoute(st, v)
       <==> v != Unacceptable || st.current.value.retryCount >= 1
  {
    GradedIsLatest(st.pastSteps, st.current.value.id, v);
  }

  // ---------------------------------------------------------------- whole runs

  /** Answer `i` of the run went to the planner. */
  predicate Plans(c: Config, es: seq<Env>, i: nat)
    requires i < |es|
  {
    Run(c, es[..i]).node == Planner
  }

  lemma {:induction false} VisitedAt(c: Config, es: seq<Env>, n: Node) returns (i: nat)
    requires Visits(c, es, n) > 0
    ensures i < |es| && Run(c, es[..i]).node == n
  {
    hide Next;
    var prefix := es[..|es| - 1];
    if Visits(c, prefix, n) > 0 {
      i := VisitedAt(c, prefix, n);
      assert prefix[..i] == es[..i];
    } else {
      i := |es| - 1;
    }
  }

  lemma {:induction false} VisitIsCounted(c: Config, es: seq<Env>, n: Node, i: nat)
    requires i < |es| && Run(c, es[..i]).node == n
    ensures Visits(c, es, n) > 0
  {
    hide Next;
    if i < |es| - 1 {
      assert es[..|es| - 1][..i] == es[..i];
      VisitIsCounted(c, es[..|es| - 1], n, i);
    }
  }

  lemma RunNext(c: Config, es: seq<Env>, i: nat)
    requires i < |es|
    ensures Run(c, es[..i + 1]) == Next(Run(c, es[..i]), es[i])
  {
    assert es[..i + 1][..i] == es[..i];
  }

  const OPENING: set<Node> := {LoadHistory, GuardrailInput}

  /** Nothing but the opening leads to the planner. */
  lemma OpeningFirst(c: Config, e: Env)
    requires Next(c, e).node in OPENING + {Planner}
    ensures c.node in OPENING
  {
    if c.node == Planner || c.node == Replan {
    } else if c.node == VerifyStep {
    } else {
    }
  }

  lemma {:induction false} BeforePlanner(c: Config, es: seq<Env>, k: nat)
    requires Run(c, es).node in OPENING + {Planner} && k < |es|
    ensures Run(c, es[..k]).node in OPENING
  {
    hide Next;
    var prefix := es[..|es| - 1];
    OpeningFirst(Run(c, prefix), es[|es| - 1]);
    if k < |prefix| {
      BeforePlanner(c, prefix, k);
      assert prefix[..k] == es[..k];
    }
  }

  /** The nodes a turn can be at once the planner has led it to `n`. */
  function Onward(n: Node): set<Node> {
    match n
    case HandleClarification => {HandleClarification, GuardrailOutput, End}
    case SynthesizeFailure => {SynthesizeFailure, GenerateResponse, FormatResponse, GuardrailOutput, End}
    case _ => {BudgetStep, AdvanceStep, ExecuteStep, VerifyStep, BudgetReplan, Replan, SynthesizeFailure,
               GenerateResponse, FormatResponse, GuardrailOutput, End, Raised}
  }

  const CHOICES: set<Node> := {HandleClarification, SynthesizeFailure, BudgetStep}

  lemma StaysOnward(c: Config, e: Env, n: Node)
    requires n in CHOICES && c.node in Onward(n)
    ensures Next(c, e).node in Onward(n)
  {
    if c.node == VerifyStep {
    } else if c.node == Replan {
    } else {
    }
  }

  lemma {:induction false} AfterPlanner(c: Config, es: seq<Env>, i: nat, j: nat)
    requires i < j <= |es| && Run(c, es[..i + 1]).node in CHOICES
    ensures Run(c, es[..j]).node in Onward(Run(c, es[..i + 1]).node)
    decreases j
  {
    hide Next;
    if j > i + 1 {
      AfterPlanner(c, es, i, j - 1);
      RunNext(c, es, j - 1);
      StaysOnward(Run(c, es[..j - 1]), es[j - 1], Run(c, es[..i + 1]).node);
    }
  }

  /** Whatever the run visits is of the opening, the planner itself, or onward of its choice. */
  lemma VisitsAround(c: Config, es: seq<Env>, i: nat, n: Node)
    requires i < |es| && Plans(c, es, i) && Run(c, es[..i + 1]).node in CHOICES
    requires Visits(c, es, n) > 0
    ensures n in OPENING + {Planner} || (i < |es| - 1 && n in Onward(Run(c, es[..i + 1]).node))
  {
    var j := VisitedAt(c, es, n);
    if j < i {
      BeforePlanner(c, es[..i], j);
      assert es[..i][..j] == es[..j];
    } else if j > i {
      AfterPlanner(c, es, i, j);
    }
  }

  lemma KeepsSources(c: Config, e: Env)
    ensures Next(c, e).st.sourceIds == c.st.sourceIds
  {
    if c.node == VerifyStep {
    } else if c.node == Replan || c.node == Planner {
    } else {
    }
  }

  lemma {:induction false} SourcesAreReadOnly(c: Config, es: seq<Env>)
    ensures Run(c, es).st.sourceIds == c.st.sourceIds
  {
    if es != [] {
      SourcesAreReadOnly(c, es[..|es| - 1]);
      KeepsSources(Run(c, es[..|es| - 1]), es[|es| - 1]);
    }
  }

  lemma PlannerChooses(guarded: bool, sources: set<string>, budget: Budget, es: seq<Env>, i: nat)
    requires i < |es| && Plans(Start(guarded, sources, budget), es, i)
    ensures Run(Start(guarded, sources, budget), es[..i + 1]).node
         == if es[i].reply == Clarify then HandleClarification
            else if Runnable(es[i], sources) then BudgetStep else SynthesizeFailure
  {
    var c := Start(guarded, sources, budget);
    StartInv(guarded, sources, budget);
    RunInv(c, es[..i]);
    SourcesAreReadOnly(c, es[..i]);
    RunNext(c, es, i);
    hide Inv, Next, Run;
    PlannerRoutes(Run(c, es[..i]), es[i]);
  }

  lemma ChoiceIsMade(c: Config, es: seq<Env>, i: nat)
    requires i < |es| && Plans(c, es, i) && Run(c, es[..i + 1]).node in CHOICES
    ensures Visits(c, es, Run(c, es[..i + 1]).node) > 0 <==> i < |es| - 1
    ensures forall n :: Visits(c, es, n) > 0 ==>
              n in OPENING + {Planner} || (i < |es| - 1 && n in Onward(Run(c, es[..i + 1]).node))
  {
    hide Run, Visits;
    if i < |es| - 1 {
      VisitIsCounted(c, es, Run(c, es[..i + 1]).node, i + 1);
    }
    forall n | Visits(c, es, n) > 0
      ensures n in OPENING + {Planner} || (i < |es| - 1 && n in Onward(Run(c, es[..i + 1]).node))
    {
      VisitsAround(c, es, i, n);
    }
  }

  /** The step at which the planner was asked decides the kind of turn. Asked for a clarification, the turn
      asks back and does nothing else; given a plan that may run, it never asks back and goes to the gate;
      given anything else, it goes to the honest failure and does no work. */
  lemma PlannerDecides(guarded: bool, sources: set<string>, budget: Budget, es: seq<Env>, i: nat)
    requires i < |es| && Plans(Start(guarded, sources, budget), es, i)
    ensures var c, goesOn := Start(guarded, sources, budget), i < |es| - 1;
            if es[i].reply == Clarify then
              && (Visits(c, es, HandleClarification) > 0 <==> goesOn)
              && (forall n :: Visits(c, es, n) > 0 ==>
                    n in OPENING + {Planner, HandleClarification, GuardrailOutput, End})
            else if Runnable(es[i], sources) then
              && (Visits(c, es, BudgetStep) > 0 <==> goesOn)
              && Visits(c, es, HandleClarification) == 0
            else
              && (Visits(c, es, SynthesizeFailure) > 0 <==> goesOn)
              && (forall n :: Visits(c, es, n) > 0 ==>
                    n in OPENING + {Planner, SynthesizeFailure, GenerateResponse, FormatResponse, GuardrailOutput, End})
  {
    hide Inv, Next, Run, Runnable, Visits, Start;
    var c := Start(guarded, sources, budget);
    PlannerChooses(guarded, sources, budget, es, i);
    ChoiceIsMade(c, es, i);
    assert forall n :: Visits(c, es, n) > 0 ==>
      n in OPENING + {Planner} || (i < |es| - 1 && n in Onward(Run(c, es[..i + 1]).node));
  }

  /** A turn asks back exactly when some step of its planner was answered with a clarification request and
      the turn went on; such a turn passes no gate, generates nothing and admits no failure. */
  lemma AsksBackIff(guarded: bool, sources: set<string>, budget: Budget, es: seq<Env>)
    ensures var c := Start(guarded, sources, budget);
            && (Visits(c, es, HandleClarification) > 0
                <==> exists i :: 0 <= i < |es| - 1 && Plans(c, es, i) && es[i].reply == Clarify)
            && (Visits(c, es, HandleClarification) > 0 ==>
                  && Visits(c, es, SynthesizeFailure) == 0 && Visits(c, es, BudgetStep) == 0
                  && Visits(c, es, GenerateResponse) == 0)
  {
    hide Run, Next, Visits, Start, Plans, Runnable;
    var c := Start(guarded, sources, budget);
    forall i | 0 <= i < |es| - 1 && Plans(c, es, i) && es[i].reply == Clarify
      ensures Visits(c, es, HandleClarification) > 0
    {
      PlannerDecides(guarded, sources, budget, es, i);
    }
    if Visits(c, es, HandleClarification) > 0 {
      var i := AskedAt(guarded, sources, budget, es);
      PlannerDecides(guarded, sources, budget, es, i);
    }
  }

  lemma OnlyPlannerAsks(c: Config, e: Env)
    requires Inv(c) && Next(c, e).node == HandleClarification
    ensures c.node == Planner && e.reply == Clarify
  {
    if c.node == Planner {
      PlannerRoutes(c, e);
    } else if c.node == VerifyStep {
    } else {
    }
  }

  lemma AskedAt(guarded: bool, sources: set<string>, budget: Budget, es: seq<Env>) returns (i: nat)
    requires Visits(Start(guarded, sources, budget), es, HandleClarification) > 0
    ensures i < |es| - 1 && Plans(Start(guarded, sources, budget), es, i) && es[i].reply == Clarify
  {
    var c := Start(guarded, sources, budget);
    var j := VisitedAt(c, es, HandleClarification);
    assert j > 0;
    i := j - 1;
    StartInv(guarded, sources, budget);
    RunInv(c, es[..i]);
    RunNext(c, es, i);
    OnlyPlannerAsks(Run(c, es[..i]), es[i]);
  }
}
