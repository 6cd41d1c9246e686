/** The agentic slice of the graph state: plan, executed steps, budget snapshot. */
module AgentState {
  import opened Wrappers

  datatype Verdict = Acceptable | Partial | Unacceptable

  datatype Status = Waiting | Active | Done | Failed

  /** `hinted` says that a canned retry hint was prefixed to the sub-query. */
  datatype PlanStep = PlanStep(
    id: string, description: string, sourceId: string, subQuery: string, hinted: bool,
    status: Status, retryCount: nat)

  datatype Error = BlockedInput | PlanningFailed | ReplanningFailed

  /** One executed step; `verdict` is None when no verdict was recorded. */
  datatype StepResult = StepResult(stepId: string, verdict: Option<Verdict>)

  /** Read-only caps. None stands for a value the guard ignores (absent, not an integer). */
  datatype Budget = Budget(
    maxSteps: Option<int>, maxRetries: Option<int>, maxRevisions: Option<int>,
    tokenCeiling: Option<int>, deadline: Option<int>)

  datatype Route = ToExecute | ToReplan | ToSynthesize | ToHonestFailure

  datatype State = State(
    sourceIds: set<string>,
    plan: seq<PlanStep>,
    pastSteps: seq<StepResult>,
    current: Option<PlanStep>,
    planRevision: int,
    superseded: seq<PlanStep>,
    inTokens: nat,
    outTokens: nat,
    budget: Budget,
    budgetHit: bool,
    budgetEvent: Option<seq<string>>,
    synthesizeFailure: bool,
    verifyRoute: Option<Route>,
    requiresClarification: bool,
    error: Option<Error>)
  {
    function Spend(): nat { inTokens + outTokens }
  }

  /** The seed every turn starts from. */
  function FreshState(sourceIds: set<string>, budget: Budget): State {
    State(sourceIds, [], [], None, 0, [], 0, 0, budget, false, None, false, None, false, None)
  }

  function PlanIds(plan: seq<PlanStep>): (ids: seq<string>)
    ensures |ids| == |plan|
    ensures forall i :: 0 <= i < |plan| ==> ids[i] == plan[i].id
  {
    seq(|plan|, i requires 0 <= i < |plan| => plan[i].id)
  }

  function PastIds(past: seq<StepResult>): (ids: seq<string>)
    ensures |ids| == |past|
    ensures forall i :: 0 <= i < |past| ==> ids[i] == past[i].stepId
  {
    seq(|past|, i requires 0 <= i < |past| => past[i].stepId)
  }

  predicate Passed(v: Option<Verdict>) {
    v == Some(Acceptable) || v == Some(Partial)
  }

  /** `name` is the first of `names` that is not empty, or empty like all of them. */
  predicate FirstNamed(name: string, names: seq<string>) {
    exists k :: 0 <= k < |names| && name == names[k] && (forall j :: 0 <= j < k ==> names[j] == "")
                && (name == "" ==> k == |names| - 1)
  }

  predicate Distinct(ids: seq<string>) {
    forall i, j :: 0 <= i < j < |ids| ==> ids[i] != ids[j]
  }
}
