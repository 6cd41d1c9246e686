/** The plan-and-execute graph: node bodies, conditional edges and the step function of a turn.

    Everything a node learns from outside (model replies, token usage, the clock, retrieval
    success) is one `Env` value per step, so a run is determined by a sequence of `Env`s and
    a theorem over all sequences is a theorem over all behaviours of the outside world. */
module AgentLoop {
  import opened Wrappers
  import opened AgentState
  import opened BudgetGuard

  const MAX_PLAN := 5

  datatype Node =
    | LoadHistory | GuardrailInput | Planner | HandleClarification
    | BudgetStep | AdvanceStep | ExecuteStep | VerifyStep | BudgetReplan | Replan
    | SynthesizeFailure | GenerateResponse | FormatResponse | GuardrailOutput
    | End | Raised

  /** A plan step as the model wrote it; the id may be missing. */
  datatype RawStep = RawStep(id: Option<string>, description: string, sourceId: string, subQuery: string)

  datatype PlannerReply = Clarify | Steps(raw: seq<RawStep>) | CallFailed

  datatype Env = Env(
    now: int,
    blocked: bool,               // input guardrail decision
    reply: PlannerReply,         // planner / replan model reply
    permitted: set<string>,      // sources the metadata loader knows
    executed: bool,              // retrieval finished without an exception
    grade: Option<Verdict>,      // None: the grading call raised
    inTokens: nat,
    outTokens: nat)
  {
    function Tokens(): nat { inTokens + outTokens }
  }

  /** History: what became of each dispatched step of the current plan. A step ran once, or a
      second time because its first attempt was graded unacceptable. */
  datatype Log =
    | Empty
    | Once(prev: Log, step: PlanStep, only: StepResult)
    | Twice(prev: Log, step: PlanStep, first: StepResult, second: StepResult)

  /** A turn in progress. The last four fields are history that no node reads: the plan last
      adopted by the planner or by replan, its log, and the executions and the log from before
      its adoption. */
  datatype Config = Config(
    guarded: bool, node: Node, st: State,
    origin: seq<PlanStep>, log: Log, earlier: seq<StepResult>, former: Log)

  function Start(guarded: bool, sourceIds: set<string>, budget: Budget): Config {
    Config(guarded, LoadHistory, FreshState(sourceIds, budget), [], Empty, [], Empty)
  }

  /** The steps a log dispatched, in order. */
  function Sent(log: Log): seq<PlanStep> {
    match log
    case Empty => []
    case Once(prev, step, _) => Sent(prev) + [step]
    case Twice(prev, step, _, _) => Sent(prev) + [step]
  }

  function LogExecution(log: Log, step: PlanStep, r: StepResult): Log {
    if step.retryCount > 0 && log.Once? then Twice(log.prev, log.step, log.only, r)
    else Once(log, step, r)
  }

  function LogGrade(log: Log, v: Verdict): Log {
    match log
    case Empty => Empty
    case Once(prev, step, r) => Once(prev, step, r.(verdict := Some(v)))
    case Twice(prev, step, r, r') => Twice(prev, step, r, r'.(verdict := Some(v)))
  }

  predicate Stopped(c: Config) {
    c.node == End || c.node == Raised
  }

  // ---------------------------------------------------------------- plans

  function DefaultId(i: nat): string
    requires i < MAX_PLAN
  {
    ["s1", "s2", "s3", "s4", "s5"][i]
  }

  function BuildStep(raw: RawStep, i: nat): PlanStep
    requires i < MAX_PLAN
  {
    PlanStep(if raw.id.Some? then raw.id.value else DefaultId(i),
             raw.description, raw.sourceId, raw.subQuery, false, Waiting, 0)
  }

  function BuildPlan(raw: seq<RawStep>): (plan: seq<PlanStep>)
    ensures |plan| == Min(|raw|, MAX_PLAN)
    ensures FreshSteps(plan)
  {
    seq(Min(|raw|, MAX_PLAN), i requires 0 <= i < Min(|raw|, MAX_PLAN) => BuildStep(raw[i], i))
  }

  predicate FreshSteps(plan: seq<PlanStep>) {
    forall i :: 0 <= i < |plan| ==> plan[i].retryCount == 0 && plan[i].status == Waiting
  }

  /** A plan is adopted only when non-empty, every step names a source, every source is permitted. */
  predicate Adoptable(plan: seq<PlanStep>, permitted: set<string>) {
    && plan != []
    && forall i :: 0 <= i < |plan| ==> plan[i].sourceId != "" && plan[i].sourceId in permitted
  }

  /** The loader is asked for the turn's sources only. */
  function Permitted(st: State, e: Env): set<string> {
    e.permitted * st.sourceIds
  }

  function ReplySteps(reply: PlannerReply): seq<RawStep> {
    if reply.Steps? then reply.raw else []
  }

  // ---------------------------------------------------------------- pending retries

  /** The verdict of the latest execution of `id`; None when it never ran. */
  function LatestResult(past: seq<StepResult>, id: string): Option<StepResult> {
    if past == [] then None
    else if past[|past| - 1].stepId == id then Some(past[|past| - 1])
    else LatestResult(past[..|past| - 1], id)
  }

  predicate IsPendingRetry(st: State) {
    && st.current.Some?
    && st.current.value.retryCount > 0
    && var latest := LatestResult(st.pastSteps, st.current.value.id);
       latest.None? || !Passed(latest.value.verdict)
  }

  /** The reversed scan over the executed steps. */
  method ScanPendingRetry(st: State) returns (pending: bool)
    ensures pending == IsPendingRetry(st)
  {
    if st.current.None? || st.current.value.retryCount == 0 {
      return false;
    }
    var id := st.current.value.id;
    var past := st.pastSteps;
    var n := |past|;
    assert past[..n] == past;
    while n > 0
      invariant 0 <= n <= |past|
      invariant LatestResult(past, id) == LatestResult(past[..n], id)
    {
      assert past[..n][..n - 1] == past[..n - 1];
      if past[n - 1].stepId == id {
        return !Passed(past[n - 1].verdict);
      }
      n := n - 1;
    }
    return true;
  }

  // ---------------------------------------------------------------- node bodies

  function AddTokens(st: State, e: Env): State {
    st.(inTokens := st.inTokens + e.inTokens, outTokens := st.outTokens + e.outTokens)
  }

  /** plan_query: a clarification request, an adopted plan, or an error. */
  function PlanQuery(st: State, e: Env): State {
    var st1 := AddTokens(st, e);
    if e.reply.CallFailed? then st1.(error := Some(PlanningFailed))
    else if e.reply.Clarify? then st1.(requiresClarification := true)
    else
      var plan := BuildPlan(e.reply.raw);
      if Adoptable(plan, Permitted(st, e)) then st1.(plan := plan)
      else st1.(error := Some(PlanningFailed))
  }

  /** _advance_step: keep a pending retry in place, otherwise promote the head of the plan. */
  function Advance(st: State): State {
    if IsPendingRetry(st) || st.plan == [] then st
    else st.(current := Some(st.plan[0]), plan := st.plan[1..])
  }

  /** execute_step: append one result; a denied source or an exception is recorded as unacceptable. */
  function Execute(st: State, e: Env): State {
    if st.current.None? then st
    else st.(pastSteps := st.pastSteps + [ExecutionResult(st, e)])
  }

  function ExecutionResult(st: State, e: Env): StepResult
    requires st.current.Some?
  {
    var step := st.current.value;
    StepResult(step.id, Some(if step.sourceId in st.sourceIds && e.executed then Partial else Unacceptable))
  }

  /** Overwrite the verdict of the latest execution of `id`. */
  function GradeLatest(past: seq<StepResult>, id: string, v: Verdict): seq<StepResult> {
    if past == [] then []
    else
      var last := |past| - 1;
      if past[last].stepId == id then past[..last] + [past[last].(verdict := Some(v))]
      else GradeLatest(past[..last], id, v) + [past[last]]
  }

  /** The routing table, evaluated on the retry count before it is incremented. */
  function VerifyRoute(st: State, v: Verdict): Route
    requires st.current.Some?
  {
    if v == Acceptable || v == Partial then
      if st.plan != [] then ToExecute else ToSynthesize
    else if st.current.value.retryCount < 1 then ToExecute
    else if st.planRevision < 1 then ToReplan
    else ToHonestFailure
  }

  function RetryOf(step: PlanStep): PlanStep {
    step.(retryCount := step.retryCount + 1, hinted := true)
  }

  /** There is a step in flight and a result to grade; otherwise verify_step is a no-op. */
  predicate Gradable(st: State) {
    st.current.Some? && LatestResult(st.pastSteps, st.current.value.id).Some?
  }

  /** verify_step, once a grade arrived. */
  function Verify(st: State, e: Env, v: Verdict): State
    requires Gradable(st)
  {
    var step := st.current.value;
    var st1 := AddTokens(st, e).(
      pastSteps := GradeLatest(st.pastSteps, step.id, v),
      verifyRoute := Some(VerifyRoute(st, v)));
    if v == Unacceptable && step.retryCount < 1 then st1.(current := Some(RetryOf(step))) else st1
  }

  /** replan_step: one revision per turn; success clears `current`, failure leaves the old plan. */
  function ReplanStep(st: State, e: Env): State {
    if st.planRevision >= 1 then st
    else
      var st1 := AddTokens(st, e).(planRevision := 1, superseded := st.plan);
      var plan := BuildPlan(ReplySteps(e.reply));
      if e.reply.CallFailed? || !Adoptable(plan, Permitted(st, e)) then
        st1.(error := Some(ReplanningFailed))
      else st1.(plan := plan, current := None)
  }

  // ---------------------------------------------------------------- edges

  function RouteAfterPlanner(st: State): Node {
    if st.requiresClarification then HandleClarification
    else if st.error.Some? || st.plan == [] then SynthesizeFailure
    else BudgetStep
  }

  function RouteAfterReplan(st: State): Node {
    if st.error.Some? || st.plan == [] then SynthesizeFailure else BudgetStep
  }

  /** route_after_verify: the pre-computed route, or the fallback table when there is none. */
  function RouteAfterVerify(st: State): Node {
    match FallbackRoute(st)
    case ToExecute => BudgetStep
    case ToReplan => BudgetReplan
    case ToSynthesize => GenerateResponse
    case ToHonestFailure => SynthesizeFailure
  }

  function FallbackRoute(st: State): Route {
    if st.verifyRoute.Some? then st.verifyRoute.value
    else if st.current.None? then ToSynthesize
    else
      var latest := LatestResult(st.pastSteps, st.current.value.id);
      if latest.None? then ToSynthesize
      else if Passed(latest.value.verdict) then
        if st.plan != [] then ToExecute else ToSynthesize
      else if st.current.value.retryCount < 1 then ToExecute
      else if st.planRevision < 1 then ToReplan
      else ToHonestFailure
  }

  function Next(c: Config, e: Env): Config {
    var st := c.st;
    match c.node
    case LoadHistory => c.(node := if c.guarded then GuardrailInput else Planner)
    case GuardrailInput =>
      if e.blocked then c.(node := End, st := st.(error := Some(BlockedInput)))
      else c.(node := Planner)
    case Planner =>
      var st' := PlanQuery(st, e);
      c.(node := RouteAfterPlanner(st'), st := st', origin := st'.plan)
    case HandleClarification => c.(node := if c.guarded then GuardrailOutput else End)
    case BudgetStep =>
      var st' := ApplyGuard(st, e.now);
      c.(node := if st'.budgetHit then SynthesizeFailure else AdvanceStep, st := st')
    case AdvanceStep => c.(node := ExecuteStep, st := Advance(st))
    case ExecuteStep =>
      var st' := Execute(st, e);
      c.(node := VerifyStep, st := st',
         log := if st.current.Some?
                then LogExecution(c.log, st.current.value, ExecutionResult(st, e)) else c.log)
    case VerifyStep =>
      if !Gradable(st) then c.(node := RouteAfterVerify(st))
      else if e.grade.None? then c.(node := Raised)
      else
        var st' := Verify(st, e, e.grade.value);
        c.(node := RouteAfterVerify(st'), st := st', log := LogGrade(c.log, e.grade.value))
    case BudgetReplan =>
      var st' := ApplyGuard(st, e.now);
      c.(node := if st'.budgetHit then SynthesizeFailure else Replan, st := st')
    case Replan =>
      var st' := ReplanStep(st, e);
      var adopted := st'.planRevision != st.planRevision && st'.error.None?;
      c.(node := RouteAfterReplan(st'), st := st',
         origin := if adopted then st'.plan else c.origin,
         earlier := if adopted then st.pastSteps else c.earlier,
         former := if adopted then c.log else c.former,
         log := if adopted then Empty else c.log)
    case SynthesizeFailure => c.(node := GenerateResponse, st := st.(synthesizeFailure := true))
    case GenerateResponse => c.(node := FormatResponse, st := AddTokens(st, e))
    case FormatResponse => c.(node := if c.guarded then GuardrailOutput else End)
    case GuardrailOutput => c.(node := End)
    case End => c
    case Raised => c
  }

  /** The configuration after the outside world answered `es`. */
  function Run(c: Config, es: seq<Env>): Config {
    if es == [] then c else Next(Run(c, es[..|es| - 1]), es[|es| - 1])
  }

  /** How many of the steps of the run executed node `n`. */
  function Visits(c: Config, es: seq<Env>, n: Node): nat {
    if es == [] then 0
    else Visits(c, es[..|es| - 1], n) + (if Run(c, es[..|es| - 1]).node == n then 1 else 0)
  }
}
