/** The deterministic edge check in front of every dispatch and every replan. */
module BudgetGuard {
  import opened Wrappers
  import opened AgentState

  datatype Cap = StepCap | RetryCap | RevisionCap | TokenCap | DeadlineCap

  datatype Decision = Decision(
    budgetHit: bool, event: Option<seq<string>>, notCompleted: seq<string>, breached: seq<Cap>)

  function Label(step: PlanStep): string {
    if step.description != "" then step.description
    else if step.subQuery != "" then step.subQuery
    else step.id
  }

  lemma LabelIsFirstNamed(step: PlanStep)
    ensures FirstNamed(Label(step), [step.description, step.subQuery, step.id])
  {
    var names := [step.description, step.subQuery, step.id];
    assert names[0] == step.description && names[1] == step.subQuery && names[2] == step.id;
  }

  function Labels(plan: seq<PlanStep>): (labels: seq<string>)
    ensures |labels| == |plan|
    ensures forall i :: 0 <= i < |plan| ==> labels[i] == Label(plan[i])
  {
    seq(|plan|, i requires 0 <= i < |plan| => Label(plan[i]))
  }

  /** One label per undispatched step, in plan order. */
  method PendingLabels(plan: seq<PlanStep>) returns (labels: seq<string>)
    ensures labels == Labels(plan)
    ensures |labels| == |plan|
    ensures forall k :: 0 <= k < |plan| ==>
              FirstNamed(labels[k], [plan[k].description, plan[k].subQuery, plan[k].id])
  {
    labels := [];
    for i := 0 to |plan|
      invariant |labels| == i
      invariant forall k :: 0 <= k < i ==> labels[k] == Label(plan[k])
    {
      labels := labels + [Label(plan[i])];
    }
    forall k | 0 <= k < |plan|
      ensures FirstNamed(labels[k], [plan[k].description, plan[k].subQuery, plan[k].id])
    {
      LabelIsFirstNamed(plan[k]);
    }
  }

  function RetryCount(st: State): nat {
    if st.current.Some? then st.current.value.retryCount else 0
  }

  /** The caps that trip, in the order the guard tests them. */
  function Breached(st: State, now: int, reserve: nat): seq<Cap> {
    var b := st.budget;
    (if b.maxSteps.Some? && |st.pastSteps| >= b.maxSteps.value then [StepCap] else [])
    + (if b.maxRetries.Some? && RetryCount(st) > b.maxRetries.value then [RetryCap] else [])
    + (if b.maxRevisions.Some? && st.planRevision > b.maxRevisions.value then [RevisionCap] else [])
    + (if b.tokenCeiling.Some? && st.Spend() + reserve > b.tokenCeiling.value then [TokenCap] else [])
    + (if b.deadline.Some? && now >= b.deadline.value then [DeadlineCap] else [])
  }

  function Guard(st: State, now: int, reserve: nat): Decision {
    var breached := Breached(st, now, reserve);
    if breached == [] then Decision(false, None, [], [])
    else Decision(true, Some(Labels(st.plan)), Labels(st.plan), breached)
  }

  /** What letting a turn continue promises: every configured cap still holds. */
  predicate WithinCaps(st: State) {
    && (st.budget.maxSteps.Some? ==> |st.pastSteps| < st.budget.maxSteps.value)
    && (st.budget.maxRetries.Some? ==> RetryCount(st) <= st.budget.maxRetries.value)
    && (st.budget.maxRevisions.Some? ==> st.planRevision <= st.budget.maxRevisions.value)
    && (st.budget.tokenCeiling.Some? ==> st.Spend() <= st.budget.tokenCeiling.value)
  }

  predicate BeforeDeadline(st: State, now: int) {
    st.budget.deadline.Some? ==> now < st.budget.deadline.value
  }

  /** The node wrapper: the guard's delta merged into the state. */
  function ApplyGuard(st: State, now: int): State {
    var d := Guard(st, now, 0);
    if d.budgetHit then st.(budgetHit := true, budgetEvent := d.event)
    else st.(budgetHit := false)
  }

  /** The guard stops a turn exactly when some cap or the deadline is exceeded. */
  lemma GuardHitIffOverCap(st: State, now: int)
    ensures Guard(st, now, 0).budgetHit <==> !(WithinCaps(st) && BeforeDeadline(st, now))
  {
    var b := Breached(st, now, 0);
    if !(WithinCaps(st) && BeforeDeadline(st, now)) {
      assert |b| > 0;
    }
  }

  /** Which caps are reported, each exactly when it is exceeded. Tokens held in reserve count as
      spent. The turn is stopped exactly when some cap is reported. */
  lemma BreachedIff(st: State, now: int, reserve: nat)
    ensures var b, breached := st.budget, Breached(st, now, reserve);
            && (StepCap in breached <==> b.maxSteps.Some? && |st.pastSteps| >= b.maxSteps.value)
            && (RetryCap in breached <==>
                  b.maxRetries.Some?
                  && (if st.current.Some? then st.current.value.retryCount else 0) > b.maxRetries.value)
            && (RevisionCap in breached <==> b.maxRevisions.Some? && st.planRevision > b.maxRevisions.value)
            && (TokenCap in breached <==>
                  b.tokenCeiling.Some? && st.inTokens + st.outTokens + reserve > b.tokenCeiling.value)
            && (DeadlineCap in breached <==> b.deadline.Some? && now >= b.deadline.value)
            && (Guard(st, now, reserve).budgetHit <==> breached != [])
  {
    var b := st.budget;
    var steps := if b.maxSteps.Some? && |st.pastSteps| >= b.maxSteps.value then [StepCap] else [];
    var retries := if b.maxRetries.Some? && RetryCount(st) > b.maxRetries.value then [RetryCap] else [];
    var revisions := if b.maxRevisions.Some? && st.planRevision > b.maxRevisions.value then [RevisionCap] else [];
    var tokens := if b.tokenCeiling.Some? && st.Spend() + reserve > b.tokenCeiling.value then [TokenCap] else [];
    var late := if b.deadline.Some? && now >= b.deadline.value then [DeadlineCap] else [];
    assert Breached(st, now, reserve) == steps + retries + revisions + tokens + late;
    hide Breached;
    InOneOfFive(steps, retries, revisions, tokens, late, StepCap);
    InOneOfFive(steps, retries, revisions, tokens, late, RetryCap);
    InOneOfFive(steps, retries, revisions, tokens, late, RevisionCap);
    InOneOfFive(steps, retries, revisions, tokens, late, TokenCap);
    InOneOfFive(steps, retries, revisions, tokens, late, DeadlineCap);
  }

  lemma InOneOfFive(a: seq<Cap>, b: seq<Cap>, c: seq<Cap>, d: seq<Cap>, e: seq<Cap>, cap: Cap)
    ensures cap in a + b + c + d + e <==> cap in a || cap in b || cap in c || cap in d || cap in e
  {
  }
}
