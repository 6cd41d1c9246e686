/** The summary rebuilt from the final state agrees with what the run did. */
module AgentSummary {
  import opened Wrappers
  import opened AgentState
  import opened BudgetGuard
  import opened AgentLoop
  import opened AgentInvariant
  import opened AgentTheorems
  import opened AgentLedger
  import opened ActivitySummary
  import opened AgentSources
  import opened AgentRows

  // ---------------------------------------------------------------- statuses

  lemma LastVerdictSnoc(past: seq<StepResult>, r: StepResult, id: string)
    ensures LastVerdict(past + [r], id)
         == if r.stepId == id && r.verdict.Some? then r.verdict else LastVerdict(past, id)
  {
    assert (past + [r])[..|past|] == past;
  }

  lemma LastVerdictOfLog(log: Log, id: string)
    requires Genuine(log) && log != Empty
    ensures LastVerdict(Results(log), id)
         == if id == log.step.id then (if log.Once? then log.only.verdict else log.second.verdict)
            else LastVerdict(Results(log.prev), id)
  {
    if log.Once? {
      LastVerdictSnoc(Results(log.prev), log.only, id);
    } else {
      var r := Results(log.prev) + [log.first];
      LastVerdictSnoc(Results(log.prev), log.first, id);
      LastVerdictSnoc(r, log.second, id);
      assert Results(log) == r + [log.second];
    }
  }

  /** Every logged step but the last has passed: nothing is dispatched after a failure. */
  lemma {:induction false} EarlierStepsPassed(log: Log, i: nat)
    requires Genuine(log) && Distinct(PlanIds(Sent(log))) && i < |Sent(log)|
    requires i < |Sent(log)| - 1 || LastPassed(log)
    ensures Passed(LastVerdict(Results(log), Sent(log)[i].id))
  {
    LastVerdictOfLog(log, Sent(log)[i].id);
    PlanIdsSnoc(Sent(log.prev), log.step);
    DistinctPrefix(PlanIds(Sent(log.prev)), log.step.id);
    if i < |Sent(log)| - 1 {
      assert PlanIds(Sent(log))[i] == Sent(log)[i].id && PlanIds(Sent(log))[|Sent(log)| - 1] == log.step.id;
      EarlierStepsPassed(log.prev, i);
    }
  }

  /** The verdict the last dispatched step ended with. */
  function FinalVerdict(log: Log): Option<Verdict>
    requires log != Empty
  {
    if log.Once? then log.only.verdict else log.second.verdict
  }

  lemma ExecutedStatus(log: Log, i: nat)
    requires Genuine(log) && Distinct(PlanIds(Sent(log))) && i < |Sent(log)|
    ensures var v := LastVerdict(Results(log), Sent(log)[i].id);
            if i < |Sent(log)| - 1 then Passed(v) else v == FinalVerdict(log)
  {
    if i < |Sent(log)| - 1 {
      EarlierStepsPassed(log, i);
    } else {
      LastVerdictOfLog(log, Sent(log)[i].id);
    }
  }

  /** The later executions decide, where they recorded a verdict. */
  lemma {:induction false} LastVerdictConcat(a: seq<StepResult>, b: seq<StepResult>, id: string)
    ensures LastVerdict(a + b, id) == if LastVerdict(b, id).Some? then LastVerdict(b, id) else LastVerdict(a, id)
  {
    if b == [] {
      assert a + b == a;
    } else {
      var b', last := b[..|b| - 1], b[|b| - 1];
      LastVerdictConcat(a, b', id);
      assert a + b == (a + b') + [last] && b == b' + [last];
      LastVerdictSnoc(a + b', last, id);
      LastVerdictSnoc(b', last, id);
    }
  }

  lemma {:induction false} NoVerdict(past: seq<StepResult>, id: string)
    requires id !in PastIds(past)
    ensures LastVerdict(past, id).None?
  {
    if past != [] {
      assert PastIds(past)[|past| - 1] == past[|past| - 1].stepId;
      assert PastIds(past[..|past| - 1]) == PastIds(past)[..|past| - 1];
      NoVerdict(past[..|past| - 1], id);
    }
  }

  lemma FinalVerdictIsSome(log: Log)
    requires Genuine(log) && log != Empty
    ensures FinalVerdict(log).Some?
  {
  }

  /** The executed ids are the dispatched ones. */
  lemma RanIffSent(log: Log, id: string)
    requires Genuine(log) && Distinct(PlanIds(Sent(log)))
    ensures id in PastIds(Results(log)) <==> id in PlanIds(Sent(log))
  {
    ResultsFollowSteps(log);
    FirstOccurrencesFacts(PastIds(Results(log)));
  }

  // ---------------------------------------------------------------- labels

  /** The label of a step that is neither waiting nor the current one: a superseded step with its id
      lends its own, otherwise the id is all that is left. */
  function DroppedLabel(st: State, id: string): string {
    var step := FirstWithId(st.superseded, id);
    if step.Some? && EntryLabel(step.value) != "" then EntryLabel(step.value) else id
  }

  lemma {:induction false} FirstPast(steps: seq<PlanStep>, more: seq<PlanStep>, id: string)
    requires id !in PlanIds(steps)
    ensures FirstWithId(steps + more, id) == FirstWithId(more, id)
  {
    if steps == [] {
      assert steps + more == more;
    } else {
      assert PlanIds(steps)[0] == steps[0].id;
      assert PlanIds(steps[1..]) == PlanIds(steps)[1..];
      assert (steps + more)[1..] == steps[1..] + more;
      FirstPast(steps[1..], more, id);
    }
  }

  /** The step `id` is not in flight. */
  predicate NotCurrent(st: State, id: string) {
    st.current.Some? ==> st.current.value.id != id
  }

  lemma LabelOfDropped(st: State, id: string)
    requires id !in PlanIds(st.plan) && NotCurrent(st, id)
    ensures LabelFor(st, id) == DroppedLabel(st, id)
  {
    var current := if st.current.Some? then [st.current.value] else [];
    FirstPast(st.plan, current + st.superseded, id);
    assert st.plan + (current + st.superseded) == LabelCandidates(st);
    FirstPast(current, st.superseded, id);
  }

  lemma LabelOfCurrent(st: State)
    requires st.current.Some? && st.current.value.id !in PlanIds(st.plan) && EntryLabel(st.current.value) != ""
    ensures LabelFor(st, st.current.value.id) == EntryLabel(st.current.value)
  {
    FirstPast(st.plan, [st.current.value] + st.superseded, st.current.value.id);
    assert st.plan + ([st.current.value] + st.superseded) == LabelCandidates(st);
    assert ([st.current.value] + st.superseded)[0] == st.current.value;
  }

  // ---------------------------------------------------------------- one row per step

  /** The row of step `k` of all steps: those of the replaced plan that ran, the dispatched ones of the
      adopted plan, and the waiting ones. Only the last dispatched and the waiting steps are still in
      the state with their descriptions. */
  predicate RowMatches(c: Config, row: Row, k: nat)
    requires k < |AllSteps(c)|
  {
    var former, sent, step := |Sent(c.former)|, |Sent(c.log)|, AllSteps(c)[k];
    if k < former then
      row == Row(step.id, DroppedLabel(c.st, step.id), if k < former - 1 then Done else Failed)
    else if k < former + sent - 1 then
      row == Row(step.id, DroppedLabel(c.st, step.id), Done)
    else if k < former + sent && c.log != Empty then
      && row.id == step.id && row.status == StatusOf(FinalVerdict(c.log))
      && (step.description != "" ==> row.title == step.description)
    else
      row == PlanEntry(step) && row.status == Waiting
  }

  /** What holds whenever no dispatch is in progress. */
  predicate Quiet(c: Config) {
    && Shape(c) && Conserved(c) && FormerOk(c)
    && (c.log != Empty ==> InFlight(c))
    && (c.log == Empty ==> c.st.current.None?)
  }

  lemma RestIsQuiet(c: Config)
    requires Inv(c) && SourceInv(c) && FormerOk(c) && c.node != ExecuteStep
    ensures Quiet(c)
  {
  }

  lemma QuietSteps(c: Config)
    requires Quiet(c)
    ensures c.st.pastSteps == Results(c.former) + Results(c.log) && Genuine(c.former) && Genuine(c.log)
    ensures AllSteps(c) == Sent(c.former) + Sent(c.log) + c.st.plan
  {
    assert Sent(c.former) + (Sent(c.log) + c.st.plan) == Sent(c.former) + Sent(c.log) + c.st.plan;
  }

  /** Where a step stands apart from the others when every id is its own. */
  lemma Apart(former: seq<PlanStep>, sent: seq<PlanStep>, plan: seq<PlanStep>)
    requires Distinct(PlanIds(former + sent + plan))
    ensures Distinct(PlanIds(former)) && Distinct(PlanIds(sent)) && Distinct(PlanIds(plan))
    ensures forall id :: id in PlanIds(former) ==> id !in PlanIds(sent) && id !in PlanIds(plan)
    ensures forall id :: id in PlanIds(sent) ==> id !in PlanIds(plan)
  {
    PlanIdsConcat(former + sent, plan);
    PlanIdsConcat(former, sent);
    DistinctParts(PlanIds(former) + PlanIds(sent), PlanIds(plan));
    DistinctParts(PlanIds(former), PlanIds(sent));
    assert forall id :: id in PlanIds(former) || id in PlanIds(sent) ==> id in PlanIds(former) + PlanIds(sent);
  }

  lemma IdIn(steps: seq<PlanStep>, i: nat)
    requires i < |steps|
    ensures steps[i].id in PlanIds(steps)
  {
    assert PlanIds(steps)[i] == steps[i].id;
  }

  lemma LastSent(log: Log)
    requires log != Empty
    ensures |Sent(log)| >= 1 && Sent(log)[|Sent(log)| - 1] == log.step
  {
  }

  lemma IdsApart(steps: seq<PlanStep>, i: nat, j: nat)
    requires Distinct(PlanIds(steps)) && i < j < |steps|
    ensures steps[i].id != steps[j].id
  {
    assert PlanIds(steps)[i] == steps[i].id && PlanIds(steps)[j] == steps[j].id;
  }

  lemma HasRun(c: Config, id: string)
    requires Quiet(c) && OwnRows(c)
    ensures Ran(c.st, id) <==> id in PlanIds(Sent(c.former)) || id in PlanIds(Sent(c.log))
  {
    QuietSteps(c);
    Apart(Sent(c.former), Sent(c.log), c.st.plan);
    RanIffSent(c.former, id);
    RanIffSent(c.log, id);
    PastIdsConcat(Results(c.former), Results(c.log));
    assert id in PastIds(c.st.pastSteps) <==> id in PastIds(Results(c.former)) || id in PastIds(Results(c.log));
    NamedHas(PlanIds(Sent(c.former)), id);
    NamedHas(PlanIds(Sent(c.log)), id);
  }

  lemma NamedHas(ids: seq<string>, id: string)
    requires Named(ids)
    ensures id in ids ==> id != ""
  {
  }

  lemma FormerVerdict(c: Config, k: nat)
    requires Quiet(c) && OwnRows(c) && k < |Sent(c.former)|
    ensures StatusOf(LastVerdict(c.st.pastSteps, Sent(c.former)[k].id))
         == if k < |Sent(c.former)| - 1 then Done else Failed
  {
    var id := Sent(c.former)[k].id;
    QuietSteps(c);
    Apart(Sent(c.former), Sent(c.log), c.st.plan);
    IdIn(Sent(c.former), k);
    RanIffSent(c.log, id);
    NoVerdict(Results(c.log), id);
    LastVerdictConcat(Results(c.former), Results(c.log), id);
    ExecutedStatus(c.former, k);
  }

  lemma SentVerdict(c: Config, i: nat)
    requires Quiet(c) && OwnRows(c) && i < |Sent(c.log)|
    ensures var v := LastVerdict(c.st.pastSteps, Sent(c.log)[i].id);
            if i < |Sent(c.log)| - 1 then StatusOf(v) == Done else v == FinalVerdict(c.log)
  {
    QuietSteps(c);
    Apart(Sent(c.former), Sent(c.log), c.st.plan);
    FinalVerdictIsSome(c.log);
    LastVerdictConcat(Results(c.former), Results(c.log), Sent(c.log)[i].id);
    ExecutedStatus(c.log, i);
  }

  /** A step that ran and is not the last dispatched one has left the state. */
  lemma LeftTheState(c: Config, id: string)
    requires Quiet(c) && OwnRows(c)
    requires id in PlanIds(Sent(c.former)) || (id in PlanIds(Sent(c.log)) && c.log != Empty && id != c.log.step.id)
    ensures id !in PlanIds(c.st.plan) && NotCurrent(c.st, id)
  {
    QuietSteps(c);
    Apart(Sent(c.former), Sent(c.log), c.st.plan);
    if c.log != Empty {
      LastSent(c.log);
      IdIn(Sent(c.log), |Sent(c.log)| - 1);
    }
  }

  lemma FormerRow(c: Config, k: nat)
    requires Quiet(c) && OwnRows(c) && k < |Sent(c.former)|
    ensures RowFor(c.st, Sent(c.former)[k].id)
         == Row(Sent(c.former)[k].id, DroppedLabel(c.st, Sent(c.former)[k].id),
                if k < |Sent(c.former)| - 1 then Done else Failed)
  {
    hide *;
    var id := Sent(c.former)[k].id;
    IdIn(Sent(c.former), k);
    HasRun(c, id);
    RowOfRan(c.st, id);
    LeftTheState(c, id);
    LabelOfDropped(c.st, id);
    FormerVerdict(c, k);
    ExecutedRowIs(c.st, id);
  }

  lemma ExecutedRowIs(st: State, id: string)
    ensures ExecutedRow(st, id) == Row(id, LabelFor(st, id), StatusOf(LastVerdict(st.pastSteps, id)))
  {
  }

  lemma EarlierSentRow(c: Config, i: nat)
    requires Quiet(c) && OwnRows(c) && i < |Sent(c.log)| - 1
    ensures RowFor(c.st, Sent(c.log)[i].id)
         == Row(Sent(c.log)[i].id, DroppedLabel(c.st, Sent(c.log)[i].id), Done)
  {
    var id := Sent(c.log)[i].id;
    QuietSteps(c);
    Apart(Sent(c.former), Sent(c.log), c.st.plan);
    assert c.log != Empty;
    LastSent(c.log);
    IdsApart(Sent(c.log), i, |Sent(c.log)| - 1);
    hide *;
    IdIn(Sent(c.log), i);
    HasRun(c, id);
    RowOfRan(c.st, id);
    LeftTheState(c, id);
    LabelOfDropped(c.st, id);
    SentVerdict(c, i);
    ExecutedRowIs(c.st, id);
  }

  lemma LastSentRow(c: Config)
    requires Quiet(c) && OwnRows(c) && c.log != Empty
    ensures var row := RowFor(c.st, c.log.step.id);
            && row.id == c.log.step.id && row.status == StatusOf(FinalVerdict(c.log))
            && (c.log.step.description != "" ==> row.title == c.log.step.description)
  {
    var id, last := c.log.step.id, |Sent(c.log)| - 1;
    LastSent(c.log);
    IdIn(Sent(c.log), last);
    HasRun(c, id);
    SentVerdict(c, last);
    QuietSteps(c);
    Apart(Sent(c.former), Sent(c.log), c.st.plan);
    CurrentIsLast(c);
    hide *;
    RowOfRan(c.st, id);
    ExecutedRowIs(c.st, id);
    if c.log.step.description != "" {
      LabelOfCurrent(c.st);
    }
  }

  lemma CurrentIsLast(c: Config)
    requires Quiet(c) && c.log != Empty
    ensures c.st.current.Some? && c.st.current.value.id == c.log.step.id
    ensures c.log.step.description != "" ==> EntryLabel(c.st.current.value) == c.log.step.description
  {
  }

  lemma RowOfRan(st: State, id: string)
    requires Ran(st, id)
    ensures RowFor(st, id) == ExecutedRow(st, id)
  {
  }

  lemma WaitingIsNew(plan: seq<PlanStep>, k: nat)
    requires Distinct(PlanIds(plan)) && k < |plan|
    ensures plan[k].id !in PlanIds(plan[..k])
  {
    assert PlanIds(plan)[k] == plan[k].id;
    assert forall i :: 0 <= i < k ==> PlanIds(plan[..k])[i] == PlanIds(plan)[i];
  }

  lemma WaitingRow(c: Config, k: nat)
    requires Quiet(c) && OwnRows(c) && k < |c.st.plan|
    ensures RowFor(c.st, c.st.plan[k].id) == PlanEntry(c.st.plan[k]) && c.st.plan[k].status == Waiting
  {
    QuietSteps(c);
    Apart(Sent(c.former), Sent(c.log), c.st.plan);
    HasRun(c, c.st.plan[k].id);
    IdIn(c.st.plan, k);
    WaitingIsNew(c.st.plan, k);
    FirstWithIdFacts(c.st.plan, k);
  }

  lemma StepAt(c: Config, k: nat)
    requires Quiet(c) && k < |AllSteps(c)|
    ensures |AllSteps(c)| == |Sent(c.former)| + |Sent(c.log)| + |c.st.plan|
    ensures AllSteps(c)[k]
         == if k < |Sent(c.former)| then Sent(c.former)[k]
            else if k < |Sent(c.former)| + |Sent(c.log)| then Sent(c.log)[k - |Sent(c.former)|]
            else c.st.plan[k - |Sent(c.former)| - |Sent(c.log)|]
  {
    QuietSteps(c);
  }

  lemma FormerRowMatches(c: Config, k: nat)
    requires Quiet(c) && OwnRows(c) && k < |Sent(c.former)| && k < |AllSteps(c)|
    ensures RowMatches(c, RowFor(c.st, AllSteps(c)[k].id), k)
  {
    StepAt(c, k);
    FormerRow(c, k);
    hide Quiet, OwnRows, RowFor, DroppedLabel, AllSteps, Sent;
  }

  lemma SentRowMatches(c: Config, k: nat)
    requires Quiet(c) && OwnRows(c) && k < |AllSteps(c)|
    requires |Sent(c.former)| <= k < |Sent(c.former)| + |Sent(c.log)| - 1
    ensures RowMatches(c, RowFor(c.st, AllSteps(c)[k].id), k)
  {
    StepAt(c, k);
    EarlierSentRow(c, k - |Sent(c.former)|);
    hide Quiet, OwnRows, RowFor, DroppedLabel, AllSteps, Sent;
  }

  lemma LastRowMatches(c: Config, k: nat)
    requires Quiet(c) && OwnRows(c) && k < |AllSteps(c)|
    requires |Sent(c.former)| <= k == |Sent(c.former)| + |Sent(c.log)| - 1
    ensures RowMatches(c, RowFor(c.st, AllSteps(c)[k].id), k)
  {
    assert c.log != Empty;
    StepAt(c, k);
    LastSent(c.log);
    LastSentRow(c);
    hide Quiet, OwnRows, RowFor, DroppedLabel, AllSteps, Sent;
  }

  lemma WaitingRowMatches(c: Config, k: nat)
    requires Quiet(c) && OwnRows(c) && |Sent(c.former)| + |Sent(c.log)| <= k < |AllSteps(c)|
    ensures RowMatches(c, RowFor(c.st, AllSteps(c)[k].id), k)
  {
    StepAt(c, k);
    WaitingRow(c, k - |Sent(c.former)| - |Sent(c.log)|);
    hide Quiet, OwnRows, RowFor, DroppedLabel, AllSteps, Sent;
  }

  lemma RowMatchesAt(c: Config, k: nat)
    requires Quiet(c) && OwnRows(c) && k < |AllSteps(c)|
    ensures RowMatches(c, RowFor(c.st, AllSteps(c)[k].id), k)
  {
    hide *;
    if k < |Sent(c.former)| {
      FormerRowMatches(c, k);
    } else if k < |Sent(c.former)| + |Sent(c.log)| - 1 {
      SentRowMatches(c, k);
    } else if k < |Sent(c.former)| + |Sent(c.log)| {
      LastRowMatches(c, k);
    } else {
      WaitingRowMatches(c, k);
    }
  }

  /** One row per step, saying what became of it. */
  ghost predicate SummaryMatches(c: Config) {
    var rows := RowsFor(c.st, TouchedIds(c.st));
    && |rows| == |AllSteps(c)|
    && (forall k :: 0 <= k < |rows| ==> RowMatches(c, rows[k], k))
  }

  lemma RowsMatch(c: Config)
    requires Quiet(c) && OwnRows(c)
    ensures SummaryMatches(c)
  {
    var rows := RowsFor(c.st, TouchedIds(c.st));
    RowsForMeaning(c.st, TouchedIds(c.st));
    OwnRowsShow(c);
    forall k | 0 <= k < |rows|
      ensures RowMatches(c, rows[k], k)
    {
      assert rows[k] == RowFor(c.st, PlanIds(AllSteps(c))[k]);
      RowMatchesAt(c, k);
    }
  }

  lemma RowKeepsId(st: State, id: string)
    ensures RowFor(st, id).id == id
  {
    FirstHasId(st.plan, id);
  }

  lemma {:induction false} FirstHasId(steps: seq<PlanStep>, id: string)
    ensures FirstWithId(steps, id).Some? ==> FirstWithId(steps, id).value.id == id
  {
    if steps != [] {
      FirstHasId(steps[1..], id);
    }
  }

  lemma MatchingIds(c: Config)
    requires SummaryMatches(c)
    ensures RowIds(c.st) == PlanIds(AllSteps(c))
  {
    var rows := RowsFor(c.st, TouchedIds(c.st));
    RowsForMeaning(c.st, TouchedIds(c.st));
    forall k | 0 <= k < |rows|
      ensures RowIds(c.st)[k] == PlanIds(AllSteps(c))[k]
    {
      RowKeepsId(c.st, RowIds(c.st)[k]);
      assert RowMatches(c, rows[k], k);
      MatchedId(c, rows[k], k);
    }
  }

  lemma MatchedId(c: Config, row: Row, k: nat)
    requires k < |AllSteps(c)| && RowMatches(c, row, k)
    ensures row.id == AllSteps(c)[k].id
  {
  }

  lemma BudgetEventNamesTheRest(c: Config)
    requires Conserved(c) && c.st.budgetEvent == Some(Labels(c.st.plan))
    ensures |Sent(c.log)| <= |c.origin| && c.st.budgetEvent == Some(Labels(c.origin[|Sent(c.log)|..]))
  {
    assert c.st.plan == c.origin[|Sent(c.log)|..];
  }

  /** The summary has a row for every step that ran or waits, with its status and its label, exactly when no two
      of them share an id and every one that ran has one. A budget event always names the waiting steps. */
  lemma SummaryMatchesRun(guarded: bool, sources: set<string>, budget: Budget, es: seq<Env>)
    requires Run(Start(guarded, sources, budget), es).node != ExecuteStep
    ensures var c := Run(Start(guarded, sources, budget), es);
            && (SummaryMatches(c) <==> OwnRows(c))
            && |Sent(c.log)| <= |c.origin|
            && (c.st.budgetHit ==> c.st.budgetEvent == Some(Labels(c.origin[|Sent(c.log)|..])))
  {
    VisitsCounted(guarded, sources, budget, es);
    SourceRun(guarded, sources, budget, es);
    FormerRun(guarded, sources, budget, es);
    hide *;
    ReachedSummary(Run(Start(guarded, sources, budget), es));
    ReachedEvent(Run(Start(guarded, sources, budget), es), Visits(Start(guarded, sources, budget), es, ExecuteStep),
                 Visits(Start(guarded, sources, budget), es, Replan),
                 Visits(Start(guarded, sources, budget), es, SynthesizeFailure));
  }

  lemma ReachedSummary(c: Config)
    requires Inv(c) && SourceInv(c) && FormerOk(c) && c.node != ExecuteStep
    ensures SummaryMatches(c) <==> OwnRows(c)
  {
    RestIsQuiet(c);
    assert Shape(c) && Conserved(c);
    hide *;
    OwnRowsIff(c);
    if OwnRows(c) {
      RowsMatch(c);
    }
    if SummaryMatches(c) {
      MatchingIds(c);
    }
  }

  lemma ReachedEvent(c: Config, executions: nat, replans: nat, failures: nat)
    requires Inv(c) && c.node != ExecuteStep && Counted(c, executions, replans, failures)
    ensures |Sent(c.log)| <= |c.origin|
    ensures c.st.budgetHit ==> c.st.budgetEvent == Some(Labels(c.origin[|Sent(c.log)|..]))
  {
    RestConserves(c);
    if c.st.budgetHit {
      BudgetEventNamesTheRest(c);
    }
  }

  /** Where every step has its own row, a described step keeps its description in it exactly when it was
      dispatched last, still waits, or is labelled so by its id or by a superseded step that has its id. */
  lemma DescriptionKeptIff(guarded: bool, sources: set<string>, budget: Budget, es: seq<Env>, k: nat)
    requires var c := Run(Start(guarded, sources, budget), es);
             && c.node != ExecuteStep && OwnRows(c)
             && k < |AllSteps(c)| && AllSteps(c)[k].description != ""
    ensures var c := Run(Start(guarded, sources, budget), es);
            KeepsDescription(c, k)
            <==> StillShown(c, k) || DroppedLabel(c.st, AllSteps(c)[k].id) == AllSteps(c)[k].description
  {
    SummaryMatchesRun(guarded, sources, budget, es);
    hide *;
    RowKeepsDescription(Run(Start(guarded, sources, budget), es), k);
  }

  ghost predicate KeepsDescription(c: Config, k: nat)
    requires k < |AllSteps(c)|
  {
    var rows := RowsFor(c.st, TouchedIds(c.st));
    k < |rows| && rows[k].title == AllSteps(c)[k].description
  }

  /** Step `k` was dispatched last, or still waits. */
  predicate StillShown(c: Config, k: nat) {
    |Sent(c.former)| <= k && |Sent(c.former)| + |Sent(c.log)| - 1 <= k
  }

  lemma RowKeepsDescription(c: Config, k: nat)
    requires SummaryMatches(c) && k < |AllSteps(c)| && AllSteps(c)[k].description != ""
    ensures KeepsDescription(c, k)
       <==> StillShown(c, k) || DroppedLabel(c.st, AllSteps(c)[k].id) == AllSteps(c)[k].description
  {
    assert RowMatches(c, RowsFor(c.st, TouchedIds(c.st))[k], k);
  }
}
