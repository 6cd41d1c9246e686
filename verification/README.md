# Verified model of the chat platform's agent, caches and protocols

A Dafny 4.11 model of the parts of the repository whose guarantees are about whole runs: the
plan-and-execute agent loop, time-indexed state behind compact data structures, and the
protocols and loops around them. The results are for all inputs, all runs or all interleavings;
where a promise of the code fails, a lemma at one concrete input shows it and another states exactly
when it holds. `dafny verify dfyconfig.toml` checks the project.

## What is modelled

**The agentic turn.** `AgentLoop` is a step function over (node, state). Everything a node
learns from outside (model replies, token usage, verdicts, the clock) is one `Env` value per
step, so a theorem over all sequences of `Env` covers every behaviour of the models. The node
bodies follow `nodes/planner.py`, `executor.py`, `verify.py` and `replan.py`; the state starts
fresh. Four fields of a configuration (`origin`, `log`, `earlier`, `former`) are history that no
node reads. `AgentInvariant` holds the inductive invariant, `AgentRouting` where every answer of a model leads;
`AgentTheorems` (termination, caps, visit
counts), `AgentTokens` (the overshoot bound), `AgentSpend` (itemised spend), `AgentOvershoot` (the exact
maximum), `AgentLedger` (no step lost), `AgentRevision` (the revision cap), `AgentSources` and
`AgentCounting` (the sources asked and counted), `AgentRows` and `AgentSummary` (the activity record)
hold the results. `AgentSteering` and `AgentPurchases` build the runs that lower bounds and failing
inputs need, attempt by attempt; `AgentRecordRuns` holds those of the record. `ActivitySummary` is the
record builder itself, with its loops.

**The graphs.** `PipelineGraph` builds the three topologies edge by edge, proves them equal to a
successor relation, and proves what every path meets. Every run of `AgentLoop` is such a path.
`PipelinePaths` lists the finished paths of each graph and proves the list complete.
`Reflector` is the optional critique loop of the v2 graph.

**Time-indexed state.** `SlidingWindow` is the sorted-set pipeline shared by `RateLimit` and
`AccountLockout`, refined to the full log of instants. Instants are reals; the store and its
callers share one clock that never goes back, pipelines are atomic, and a key lives up to and
including its expiry. `TtlCache` is double-checked locking as atomic segments between await
points; `ModelResolver` and `EmbedderFactory` are the two caches built on it, and `ResolverClose` is what
a close does to the calls around it.

**Protocols and loops.** `ChatStream`, `SchemaStudy` with `AdvisoryLock`, `AuthTokens` with `AuthRaces`,
`WebFetch` with `CauseChain`, `Analytics` (on `Sorting`), `Embedding` and `Paging`.

## Where the code and its documentation differ

The model follows the code.

- A revision cap of zero still pays for one replan, because the gate compares the revisions
  already made; the revised plan is then never dispatched. No other revision cap is overshot
  (`RevisionCapOvershotIffZero`).
- The documented spend bounds, one step's spend past the ceiling and past it by steps times the
  worst step plus the synthesizer's limit, count gradings only. The planner call and a revision can
  break either under the default caps; the exact conditions are `OneStepBoundIff` and
  `DocumentedBoundIff`, and the exact maximum is `MaxSpendIsExact`.
- The activity record is documented as one row per step of the executed plan. It has one exactly
  when no two steps that ran or wait share an id and every step that ran has one
  (`SummaryMatchesRun`). The planner keeps the ids the model writes, so ids can repeat within a plan
  (`RepeatedIdMerges`) and across a revision (`ReusedIdMerges`).
- Rows of steps that ran before the last one show the id in place of the description, or the
  description of a superseded step that had the same id (`DescriptionKeptIff`, `DescriptionIsLost`,
  `LabelIsBorrowed`).
- The record's source count is documented as the sources queried by the executed plan, but counts
  the sources of the steps that did not run and of the last one that did. It is right for every turn
  exactly when there is no source to ask, or one and nothing can stop the turn before its first step
  (`CountsRightIff`); over two sources a finished plan counts one (`FinishedPlanUndercounts`).
- The streamer's comment prefers the streamed text; the code prefers the graph's answer and uses
  the streamed text only when there is none (`GraphOverridesStreamIff`). A rewritten answer is then
  persisted and never shown (`DeltasAreTheAnswerIff`, `RewrittenAnswerIsUnread`).
- A study phase error may be documented as built from a failed-state prefix, but the prefix
  `CONNECT` passed directly becomes `INVENTORY` (`PrefixKeptIff`).

## Behaviour worth knowing

Nothing in the repository promises otherwise, but a reader of one function would not see these.

- The verifier's fallback table would revise the plan after a first failure instead of repeating the step, because
  the retry is counted by the time it is read (`FallbackAgreesIff`). No turn reaches it
  (`DefensiveBranchesAreDead`).
- The reflector clears its request only on a visit that reaches the model. After one request,
  blank drafts loop without bound (`LoopsPossibleIff`).
- Dropping a cached entry while a build of it already holds its rows lets that build publish
  them afterwards (`DropTakesEffectIff`, `DropComesTooLate`).
- A close of the resolver waits for one client after the other while both caches stay in use: calls
  are given clients it closes, before and after it ends (`NeverServesDoomedIff`, `CacheHitDuringClose`,
  `BuildOutlivesClose`), and a client created meanwhile is forgotten and never closed
  (`ForgottenForEver`).
- The lockout limits guesses per window exactly when the lock lasts at least as long as the
  window (`BoundHoldsIffLockOutlastsWindow`), as the default settings have it.
- Rejected requests count against the rate limit, so a client that keeps sending is shut out
  rather than slowed down (`AdmittedIff`, `SteadyClientIsShutOut`). Waiting out the retry time is enough
  (`RetryAfterSuffices`); the reset time is up to a second early (`ResetSeesLastSecond`).
- A batch answer's length is not compared with its batch, so an answer with fewer items yields
  fewer vectors without an error (`EmptyAnswerLosesText`, `LengthKeptIff`).
- A refresh looks its token up without locking it. A token that was used stays usable exactly for
  the refreshes that had looked it up before (`NeverSpentAgainIff`, `OverlappingRefreshes`).

## Model

| member | source | states |
|---|---|---|
| BudgetGuard.PendingLabels | backend/src/agent/budget_guard.py:84-98 | one label per undispatched step, in plan order, falling back from description to sub-query to id |
| BudgetGuard.GuardHitIffOverCap | backend/src/agent/budget_guard.py:164-219 | the guard stops a turn exactly when a configured cap is exceeded or the deadline has come |
| BudgetGuard.BreachedIff | backend/src/agent/budget_guard.py:174-196 | each cap is reported exactly when it is exceeded, with tokens held in reserve counted as spent, and the turn is stopped exactly when some cap is reported |
| AgentLoop.ScanPendingRetry | backend/src/agent/pipeline.py:568-588 | the reversed scan reports a retry exactly when the current step was retried and its latest result, if any, has not passed |
| AgentInvariant.StartInv | backend/src/agent/pipeline.py:873-905 | the seed of every turn satisfies the invariant |
| AgentInvariant.PendingRetryIffPending | backend/src/agent/pipeline.py:568-614 | at the gate and at dispatch, the retry test agrees with the history: the last dispatched step failed once and waits for its second attempt |
| AgentInvariant.GradeIsLogged | backend/src/agent/nodes/verify.py:540-548 | grading overwrites the verdict of the latest execution of its step and no other entry |
| AgentLoop.BuildPlan | backend/src/agent/nodes/planner.py:103-116 | a plan has at most five steps, none of them retried or started |
| AgentInvariant.PlannerInv | backend/src/agent/nodes/planner.py:119-288 | planning adopts a non-empty plan of permitted sources, or ends in clarification or an error, and keeps the invariant |
| AgentInvariant.AdvanceInv | backend/src/agent/pipeline.py:591-614 | dispatch repeats a pending retry or promotes the head of the plan, and keeps the invariant |
| AgentInvariant.ExecuteInv | backend/src/agent/nodes/executor.py:194-418 | execution appends exactly one result of the current step, and keeps the invariant |
| AgentInvariant.VerifyInv | backend/src/agent/nodes/verify.py:151-198 | grading logs the verdict and routes to retry, next step, replan, synthesis or failure, and keeps the invariant |
| AgentInvariant.ReplanInv | backend/src/agent/nodes/replan.py:101-251 | a successful revision replaces the plan and clears the current step, a failed one leaves the plan, and the invariant is kept |
| AgentInvariant.NextInv | backend/src/agent/pipeline.py:765-852 | every step of every node keeps the invariant: executions are exactly the logged ones, a step is dispatched only after its predecessor passed, sent steps followed by waiting ones are the adopted plan |
| AgentInvariant.RunInv | backend/src/agent/pipeline.py:765-852 | the invariant holds in every reachable configuration |
| AgentRouting.PlannerRoutes | backend/src/agent/pipeline.py:558-565 | the planner asks back exactly when the model wants a clarification and goes to the gate exactly when the proposed plan may run, cut to five steps and otherwise as proposed; in every other case it admits failure without a plan |
| AgentRouting.ReplanRoutes | backend/src/agent/pipeline.py:636-640 | a revision goes to the gate exactly when the proposed plan may run, which then replaces the rest of the old one; any other admits failure and leaves the plan |
| AgentRouting.VerifyRoutes | backend/src/agent/nodes/verify.py:151-198 | a passed step leads on to the next, or to the answer after the last; a first failure is retried, a second revises the plan unless it was revised before, and then failure is admitted |
| AgentRouting.GateRoutes | backend/src/agent/pipeline.py:629-633 | a gate lets the turn pass exactly while every configured cap holds and the deadline has not come |
| AgentRouting.OpeningRoutes | backend/src/agent/pipeline.py:767-776 | the input check runs exactly where there is a guardrail service and ends the turn exactly when it blocks |
| AgentRouting.RetryKeepsStep | backend/src/agent/nodes/verify.py:183-198 | grading changes the step in flight exactly on its first failure: the same step, retried once and hinted |
| AgentRouting.FallbackAgreesIff | backend/src/agent/nodes/verify.py:670-715 | the fallback table, read after grading, agrees with the route computed while grading exactly unless the step failed for the first time |
| AgentRouting.PlannerDecides | backend/src/agent/pipeline.py:779-791 | over all runs, the answer to the planner decides the kind of turn: asked for a clarification it asks back and visits no other working node; given a plan that may run it goes to the gate and never asks back; given anything else it goes to the honest failure, never asks back and passes no gate |
| AgentRouting.AsksBackIff | backend/src/agent/pipeline.py:779-791 | a turn asks back exactly when some step of its planner was answered with a clarification request and the turn went on; it then admits no failure, passes no gate and generates nothing |
| AgentTheorems.Progress | backend/src/agent/pipeline.py:787-842 | every node visit lowers a rank, and every execution is paid for with one unit of fuel |
| AgentTheorems.EveryRunStops | backend/src/agent/pipeline.py:765-852 | every turn stops after at most four node visits per allowed execution plus ten, whatever the models answer |
| AgentTheorems.ExecutionsBounded | backend/src/agent/budget_guard.py:176-178 | no run executes more steps than the step cap, nor more than twenty |
| AgentTheorems.VisitsCounted | backend/src/agent/pipeline.py:617-650 | results count executions, the revision number counts replans, and the failure flag is set exactly when its node ran |
| AgentTheorems.FailurePromptIffFailurePath | backend/src/agent/nodes/generate.py:66-73 | the synthesizer uses the failure prompt exactly when the run came through the failure node |
| AgentTheorems.CapsHoldAtDispatch | backend/src/agent/budget_guard.py:167-219 | every configured cap holds whenever a step is dispatched or a replan starts; a run replans at most once |
| AgentTokens.OneStepOvershoot | backend/src/agent/budget_guard.py:147-151 | synthesis is entered with spend at most max(planner, ceiling + max(step, revision)) |
| AgentOvershoot.OvershootIsReached | backend/src/agent/budget_guard.py:147-151 | under every snapshot that allows a revision, and whenever plan and gradings can use up the ceiling before the last of ten executions, some turn reaches that maximum exactly, whichever of planner, step and revision dominates it |
| AgentSpend.SpendIsItemised | backend/src/agent/budget_guard.py:147-151 | with or without a ceiling, spend before synthesis is at most one planner call, one grading per allowed execution and one revision |
| AgentSpend.SpendIsTheBill | backend/src/agent/budget_guard.py:171-172 | in every run the input and output counters are the sums over exactly the model calls made: planner, answered gradings, revision and synthesis |
| AgentOvershoot.MaxSpendIsExact | backend/src/agent/budget_guard.py:167-219 | the most a turn can spend before synthesis, for every snapshot and every cost of planner, grading and revision: a bound holds of every turn exactly when it is at least this maximum |
| AgentOvershoot.WithinIffCovers | backend/src/agent/budget_guard.py:167-219 | a bound holds of every turn exactly when it covers the four dearest ways into synthesis: planning, a grading without a revision, a failed revision, a grading beyond a revision |
| AgentOvershoot.OneStepBoundIff | backend/src/agent/budget_guard.py:147-150 | "at most one step's spend past the ceiling" holds exactly when the planner call, and any possible revision on top of what plan and gradings can have cost, fit under ceiling plus step |
| AgentOvershoot.DocumentedBoundIff | backend/src/agent/budget_guard.py:150-151 | the documented bound, steps times the worst step plus the synthesizer's limit, holds of the finished turn exactly under the same condition on its own size |
| AgentOvershoot.DocumentedBoundFails | backend/src/agent/budget_guard.py:147-151 | under the default caps an expensive planner call or revision breaks the documented bound, and a revision dearer than a step breaks the one-step bound |
| AgentRevision.RevisionCapOvershotIffZero | backend/src/agent/budget_guard.py:184-186 | for every budget and source set, some turn makes more revisions than its cap exactly when the cap is zero and the other caps and the sources let a step fail twice |
| AgentRevision.ZeroCapStillReplans | backend/src/agent/nodes/replan.py:101-251 | a turn replans once under a revision cap of zero beside the default caps |
| AgentRevision.ZeroCapWastesTheRevision | backend/src/agent/budget_guard.py:184-186 | under a revision cap of zero no step of a revised plan is dispatched |
| AgentTheorems.BudgetIsReadOnly | backend/src/agent/pipeline.py:483-510 | no run changes the budget snapshot |
| AgentLedger.ResultsFollowSteps | backend/src/agent/pipeline.py:591-614 | execution ids, repetitions collapsed, are the dispatched step ids in order |
| AgentLedger.NoStepLost | backend/src/agent/pipeline.py:591-614 | in every reachable configuration with no dispatch in progress, the adopted plan is the steps dispatched from it followed by the waiting ones, and the executions are theirs; read by id, first occurrences agree with the plan exactly when no dispatched id repeats |
| AgentLedger.FormerRun | backend/src/agent/nodes/replan.py:101-251 | in every run the executions before a revision are those of the replaced plan, whose last step failed twice |
| AgentLedger.PendingRetryRepeats | backend/src/agent/pipeline.py:598-607 | a pending retry re-dispatches the step that just failed and leaves the plan alone |
| AgentLedger.DefensiveBranchesAreDead | backend/src/agent/pipeline.py:609-612 | a dispatch always has a step, grading always has a result, and replan is never entered twice |
| ActivitySummary.CompletedPlan | backend/src/agent/activity_summary.py:73-124 | one row per distinct step, executed ones first in execution order with their last verdict, then waiting ones as planned |
| ActivitySummary.SourceCount | backend/src/agent/activity_summary.py:141-153 | the number of distinct sources of plan, current and superseded steps |
| ActivitySummary.FailureFlags | backend/src/agent/activity_summary.py:237-251 | a retry is reported exactly when a step id repeats, a failure exactly when some verdict is unacceptable |
| ActivitySummary.BuildActivitySummary | backend/src/agent/activity_summary.py:212-279 | no record exactly when nothing was planned or executed; otherwise rows, counts and flags as specified |
| ActivitySummary.RowsForMeaning | backend/src/agent/activity_summary.py:98-124 | the rows are those of the first occurrences of the touched ids, position by position |
| ActivitySummary.TitleOfExecuted | backend/src/agent/activity_summary.py:127-138 | a step that ran is titled by its description, else its sub-query, else its id; one no longer held anywhere by its id |
| AgentRows.AppendIffFresh | backend/src/agent/activity_summary.py:98-124 | appending a plan to what was executed keeps every row exactly when it repeats no id |
| AgentRows.RowsAreThePlan | backend/src/agent/activity_summary.py:73-124 | the row ids are those executed before the last revision followed by the adopted plan exactly when that plan repeats none of them, no id repeats within it, and no step without an id ran; without a revision they are the plan exactly when its ids are distinct and every step that ran has one |
| AgentRows.OwnRowsIff | backend/src/agent/activity_summary.py:73-124 | every step that ran or waits has a row of its own exactly when no two share an id and every one that ran has one |
| AgentSummary.EarlierStepsPassed | backend/src/agent/activity_summary.py:83-92 | every dispatched step but the last ends with a passing verdict |
| AgentSummary.SummaryMatchesRun | backend/src/agent/activity_summary.py:73-124 | for every turn, revised or not: under that same condition, and only then, there is a row per step with its final status and its label; a budget event names exactly the steps that never ran |
| AgentSummary.DescriptionKeptIff | backend/src/agent/activity_summary.py:127-138 | where every step has its row, a described step keeps its description exactly when it was dispatched last, still waits, or is labelled so by its id or by a superseded step with its id |
| AgentRecordRuns.ReusedIdMerges | backend/src/agent/activity_summary.py:98-124 | under the default caps a revision that reuses an id leaves one row for two executed steps |
| AgentRecordRuns.RepeatedIdMerges | backend/src/agent/activity_summary.py:98-124 | under the default caps a plan that gives two steps one id leaves one row for both, without a revision |
| AgentRecordRuns.DescriptionIsLost | backend/src/agent/activity_summary.py:127-138 | under the default caps a finished two-step turn shows the id of its described first step |
| AgentRecordRuns.LabelIsBorrowed | backend/src/agent/activity_summary.py:127-138 | under the default caps a revised turn shows the description of a superseded step that never ran for another that did |
| AgentSources.SourceRun | backend/src/agent/nodes/planner.py:119-288 | every step a turn plans, runs or supersedes asks one of the turn's sources |
| AgentSources.ExecutionRecorded | backend/src/agent/nodes/executor.py:194-418 | in every run an execution appends one result of the step in flight, unacceptable exactly when it raised; no step that runs is denied its source |
| AgentSources.SourceCountIff | backend/src/agent/activity_summary.py:141-153 | at every end of a turn the count is of the sources of the steps that did not run and of the last one that did; it is the number of queried sources exactly when as many unrun sources were never queried as queried ones go uncounted |
| AgentCounting.CountsRightIff | backend/src/agent/activity_summary.py:141-153 | for every source set, budget and cost: every finished turn counts as many sources as it queried exactly when there is no source to ask, or one and neither the caps, a planner call nor a deadline can close the first gate |
| AgentSources.SingleSourceCountIff | backend/src/agent/activity_summary.py:141-153 | over a single source the count is right exactly unless the turn stopped with a plan before running any step |
| AgentCounting.FinishedPlanUndercounts | backend/src/agent/activity_summary.py:141-153 | under the default caps a finished turn that asked two sources counts one |
| AgentCounting.BudgetStopOvercounts | backend/src/agent/activity_summary.py:141-153 | under the default caps a turn stopped by its ceiling after asking one source counts two |
| PipelineGraph.BuildV1 | backend/src/agent/pipeline.py:231-290 | the rollback builder declares and wires exactly the specified stages and edges |
| PipelineGraph.BuildV2 | backend/src/agent/pipeline.py:372-473 | the v2 builder does so for every combination of guardrail, clarification and reflector |
| PipelineGraph.BuildAgentic | backend/src/agent/pipeline.py:729-852 | the agentic builder does so with and without guardrails |
| PipelineGraph.EdgesJoinDeclared | backend/src/agent/pipeline.py:256-290 | every edge of every graph joins declared stages |
| PipelineGraph.SelectedStages | backend/src/agent/pipeline.py:136-182 | a deployment has a planner exactly under the agentic, sandbox and repository settings, query analysis exactly otherwise under the v2 ones, and each option exactly where it is switched on |
| PipelineGraph.AnswerIsPrepared | backend/src/agent/pipeline.py:441-454 | on every path of every graph, in every loop anew, generation comes right after retrieval; in the v2 graph right after query analysis, routing and retrieval; in the agentic graph right after a gated, executed and verified step, or after admitting failure |
| PipelineGraph.FormattedIsGenerated | backend/src/agent/pipeline.py:456-467 | on every path what is formatted was generated just before, with the reflector in between exactly when there is one |
| PipelinePaths.FinishedPaths | backend/src/agent/pipeline.py:411-473 | the finished paths of each of the three graphs, over unbounded loops, are exactly the listed ones: blocked, asked back, or the work of the graph followed by formatting and the way out |
| PipelinePaths.TurnEnds | backend/src/agent/pipeline.py:411-473 | a finished path stopped at the input check, or asked back, or generated an answer, one of the three, and formatted exactly what it generated |
| PipelineGraph.InputCheckDominates | backend/src/agent/pipeline.py:403-423 | with guardrails the input check precedes every other stage of the v2 and agentic graphs on every path, however often they loop |
| PipelineGraph.UncheckedAnswerIffRollback | backend/src/agent/pipeline.py:136-182 | a guarded deployment can answer an unchecked input exactly when it selects the rollback graph |
| PipelineGraph.EveryAnswerIsChecked | backend/src/agent/pipeline.py:466-471 | in every guarded graph a finished path stopped at the input check or left through the output check |
| PipelineGraph.StepFollowsEdge | backend/src/agent/pipeline.py:765-852 | every step of a turn follows an edge of the agentic graph |
| PipelineGraph.RunIsPath | backend/src/agent/pipeline.py:765-852 | every turn that does not raise is a path of its graph |
| PipelineGraph.EveryTurnIsChecked | backend/src/agent/pipeline.py:765-850 | a guarded turn that ends was stopped before the planner or ended right after the output check |
| Reflector.LoopsAgainIff | backend/src/agent/nodes/reflector.py:110-167 | a visit loops again exactly when a covered retry was requested, or when it was blank with a request pending |
| Reflector.LoopsInGraph | backend/src/agent/pipeline.py:92-96 | the edge taken is an edge of every v2 graph with the reflector, back to query analysis exactly while a request is pending |
| Reflector.LoopsAccounted | backend/src/agent/nodes/reflector.py:137-165 | every loop was paid for with a retry or came from a blank visit |
| Reflector.LoopsPossibleIff | backend/src/agent/nodes/reflector.py:144-153 | a run can loop n times in a row on at most b blank drafts exactly when n is zero, or one retry is allowed and n is at most the retries plus b |
| Reflector.UnboundedIffRetriesAllowed | backend/src/agent/pipeline.py:92-96 | runs with any number of consecutive loops exist exactly when one retry is allowed |
| Reflector.StopsWhenDraftsAreReal | backend/src/agent/nodes/reflector.py:144-165 | without blank drafts no run loops more often than it has retries |
| SlidingWindow.Slide | backend/src/middleware/rate_limit.py:108-114 | the pipeline counts exactly the distinct instants of the window in the full log, and stores them |
| SlidingWindow.SlidMatches | backend/src/middleware/rate_limit.py:108-114 | after each request the stored set is exactly the distinct instants in the window, and other keys are untouched |
| SlidingWindow.TrimmedIsWindow | backend/src/middleware/rate_limit.py:109-112 | neither key expiry nor trimming drops an instant the window still needs |
| RateLimit.MatchRule | backend/src/middleware/rate_limit.py:74-79 | the first matching rule; none exactly when no prefix matches |
| RateLimit.FirstIsLongest | backend/src/middleware/rate_limit.py:23-30 | in a well-ordered table the first match is the longest one |
| RateLimit.RulesAreSpecificFirst | backend/src/middleware/rate_limit.py:31-57 | no rule of the table is shadowed by a shorter prefix before it |
| RateLimit.RulesCoverTheApi | backend/src/middleware/rate_limit.py:31-57 | some rule matches exactly the API paths |
| RateLimit.LimitOfPath | backend/src/middleware/rate_limit.py:31-57 | logins and refreshes are under their own limits, the two connection checks under ten a minute, and every other path of the API under the shared one |
| RateLimit.RateLimiter.Dispatch | backend/src/middleware/rate_limit.py:91-142 | a request is judged by its window and logged whether admitted or not; other clients are untouched; store errors admit and log nothing; the outcome carries the remaining requests and the reset time |
| RateLimit.WindowAdmitsAtMostLimit | backend/src/middleware/rate_limit.py:114-118 | no window of any log admits requests at more than limit distinct instants |
| RateLimit.AdmittedIff | backend/src/middleware/rate_limit.py:109-119 | of requests at distinct instants one is admitted exactly when the request limit places before it, admitted or not, is a whole window back |
| RateLimit.PersistentClientIsShutOut | backend/src/middleware/rate_limit.py:109-119 | a client that always sends more than limit requests a window is admitted for exactly the first limit of them |
| RateLimit.SteadyClientIsShutOut | backend/src/middleware/rate_limit.py:109-119 | under two requests a minute a client that sends one every twenty seconds passes twice, however long it goes on |
| RateLimit.RetryAfterSuffices | backend/src/middleware/rate_limit.py:118-134 | a client that waits out the time it is told to retry after is judged by its next request alone |
| RateLimit.ResetSeesLastSecond | backend/src/middleware/rate_limit.py:103-116 | a client that waits until the reset time it is told is judged by its next request and those it sent in the second of the last one, because the time is cut to whole seconds |
| AccountLockout.LockUntilIsLatest | backend/src/services/account_lockout.py:168-169 | the stored lock expiry answers for all failures since the last reset |
| AccountLockout.Lockout.Check | backend/src/services/account_lockout.py:92-125 | raises exactly when the logged failures lock the account now; store errors raise only in strict mode; the reported wait is the rounded rest or the whole duration |
| AccountLockout.Lockout.RecordFailure | backend/src/services/account_lockout.py:127-179 | logs the failure for its own account only |
| AccountLockout.Lockout.Reset | backend/src/services/account_lockout.py:181-203 | forgets the failures and the lock of its own account only |
| AccountLockout.LoginService.Login | backend/src/services/auth_service.py:88-106 | a locked account never reaches the password check; failures since the last success all passed the check |
| AccountLockout.BoundHoldsIffLockOutlastsWindow | backend/src/services/account_lockout.py:156-169 | at most max-fails distinct failures pass the check in any window exactly when the lock lasts at least as long as the window, or the window is empty |
| AccountLockout.SameInstantNeverLocks | backend/src/services/account_lockout.py:161-168 | failures at one instant never lock when more than one is allowed |
| TtlCache.StepInv | backend/src/services/ai_model_resolver.py:120-140 | every segment keeps: one build in flight, the cache is the live part of its history, stores replace only expired entries |
| TtlCache.EveryReturnIsJustified | backend/src/services/ai_model_resolver.py:120-133 | in every interleaving a returned product was built by the call itself or stored less than a ttl ago with no drop since, and at most one build is in flight |
| TtlCache.RebuildsApart | backend/src/services/ai_model_resolver.py:127-133 | two stores of a key with no drop in between are at least a ttl apart |
| TtlCache.ServedIsRecent | backend/src/services/ai_model_resolver.py:120-133 | a product served from the cache was read at most a ttl and one lookup ago |
| TtlCache.DropTakesEffectIff | backend/src/services/ai_model_resolver.py:135-140 | after a drop new calls never see an older row exactly when no build of the key already holds its rows, or the ttl serves nothing |
| TtlCache.DropComesTooLate | backend/src/services/ai_model_resolver.py:120-140 | a call that has read its row when the drop comes can still publish it, in a state four segments from the start |
| ModelResolver.Resolver.Begin | backend/src/services/ai_model_resolver.py:122-125 | the fast path is the model's call segment |
| ModelResolver.Resolver.Recheck | backend/src/services/ai_model_resolver.py:127-130 | the second look under the lock is the model's acquire segment |
| ModelResolver.Resolver.HttpClientFor | backend/src/services/ai_model_resolver.py:235-252 | returns the pooled client of the endpoint and key, creating one exactly when there is none |
| ModelResolver.Resolver.BuildClient | backend/src/services/ai_model_resolver.py:187-221 | stage settings override the model's defaults where set, and the client is wired to its own endpoint |
| ModelResolver.Resolver.Publish | backend/src/services/ai_model_resolver.py:132-133 | storing, releasing and returning are one segment |
| ModelResolver.Resolver.Invalidate | backend/src/services/ai_model_resolver.py:135-140 | drops one stage or all |
| ModelResolver.Resolver.BeginClose | backend/src/services/ai_model_resolver.py:142-149 | the snapshot of the pool; with nothing pooled both caches are cleared at once |
| ModelResolver.Resolver.ShutClient | backend/src/services/ai_model_resolver.py:149-158 | one client closes, or its failure is logged, and the last one clears both caches |
| ModelResolver.Resolver.Close | backend/src/services/ai_model_resolver.py:142-158 | the whole loop, when nothing runs in between: closes exactly the pooled clients whose close succeeds and forgets every client and stage |
| ModelResolver.ActAllInv | backend/src/services/ai_model_resolver.py:101-158 | every interleaving of resolves, invalidations and closes keeps: one client per pool key since the last clearing, every client wired to its own endpoint, only forgotten or current clients closed |
| ModelResolver.SharedIffSameEndpoint | backend/src/services/ai_model_resolver.py:242-251 | between two clearings of the pool two clients share an HTTP client exactly when provider, base URL and key agree |
| ModelResolver.OneHttpClientPerKey | backend/src/services/ai_model_resolver.py:242-252 | no two HTTP clients created since the pool was last cleared are for one pool key |
| ResolverClose.NeverServesDoomedIff | backend/src/services/ai_model_resolver.py:142-158 | at any moment, no call is ever given a client that is closed or about to be closed exactly when no build in flight holds one, no live cache entry carries one and none is pooled |
| ResolverClose.ServesWhileClosing | backend/src/services/ai_model_resolver.py:142-158 | while a close waits for its clients, some later call can be given one of them |
| ResolverClose.NeverServesAfterCloseIff | backend/src/services/ai_model_resolver.py:157-158 | once a close has cleared both caches, no call is ever given a closed client exactly when no build in flight holds one |
| ResolverClose.ForgottenAtCloseIff | backend/src/services/ai_model_resolver.py:149-158 | the clients a close forgets without closing are exactly those created while it waited and those whose close failed |
| ResolverClose.ForgottenForEver | backend/src/services/ai_model_resolver.py:149-158 | such a client is never closed by any later close |
| ResolverClose.BuildOutlivesClose | backend/src/services/ai_model_resolver.py:127-158 | a run from the start in which a build returns a closed client after the close ended |
| ResolverClose.CacheHitDuringClose | backend/src/services/ai_model_resolver.py:120-158 | a run from the start in which a cache hit during the close returns a client being closed |
| EmbedderFactory.Factory.Recheck | backend/src/services/embedding_service_factory.py:87-90 | the second look under the lock, over both caches |
| EmbedderFactory.Factory.Publish | backend/src/services/embedding_service_factory.py:91-93 | the store segment, over both caches |
| EmbedderFactory.Factory.Invalidate | backend/src/services/embedding_service_factory.py:95-102 | dropping an embedder also drops the cached active id when it names that embedder |
| EmbedderFactory.Factory.InvalidateAll | backend/src/services/embedding_service_factory.py:95-98 | drops every service and the active id |
| EmbedderFactory.ForActivePairs | backend/src/services/embedding_service_factory.py:54-63 | the returned service was built from the row of the returned id, which the database held active at most a ttl and one lookup ago when the id was resolved, and that plus the time the service took when the pair is returned |
| ChatStream.BuildClarificationFrame | backend/src/services/chat_stream_service.py:97-140 | the first four distinct permitted options, or none when fewer than two |
| ChatStream.OfferedFacts | backend/src/services/chat_stream_service.py:97-128 | options are sent exactly when two distinct permitted sources are offered; all permitted, none repeated, at most four |
| ChatStream.OfferedShowsFirst | backend/src/services/chat_stream_service.py:101-125 | each option sent shows the first one that names its source, by source id or else by the alternative key, under its trusted name or else its id, and options keep their order |
| ChatStream.AgenticFrames | backend/src/services/chat_stream_service.py:158-213 | the frames of a completion carry its replan, its plan, its steps in order and its budget, each once on its own channel, in that order and nothing else; none for a malformed one |
| ChatStream.ReportsIff | backend/src/services/chat_stream_service.py:158-213 | no other sequence of frames reports the completion |
| ChatStream.RunPipelineStream | backend/src/services/chat_stream_service.py:299-524 | the given frames, the body with its corrective delta, and the closing frame; the persisted text is the final answer |
| ChatStream.StreamGrammar | backend/src/services/chat_stream_service.py:378-520 | frames that end nothing, then exactly one terminal frame, except that a persisted answer without a callback raises |
| ChatStream.ClosingIff | backend/src/services/chat_stream_service.py:366-520 | which frame ends the stream, each exactly when: a crash or a malformed graph output before anything else, then an interruption, then a graph that asks back, an empty answer, a save that fails, and otherwise done |
| ChatStream.QuestionAsked | backend/src/services/chat_stream_service.py:366-404 | a stream that asks back asks the message of the interruption without options, or the question and the permitted options of the last graph output |
| ChatStream.RecalledOutput | backend/src/services/chat_stream_service.py:321-365 | flag, question and options are those of the last graph output, whether or not it carries an answer |
| ChatStream.DeltasAreTheAnswerIff | backend/src/services/chat_stream_service.py:446-463 | the accumulated deltas are the answer exactly when the answer extends the streamed text |
| ChatStream.GraphOverridesStreamIff | backend/src/services/chat_stream_service.py:321-365 | the shipped answer is not the streamed text exactly when the last graph output to carry an answer carries another, non-empty one, which is then shipped |
| ChatStream.RewrittenAnswerIsUnread | backend/src/services/chat_stream_service.py:446-463 | a concrete stream whose reader has one text while another is persisted |
| ChatStream.EachCompletionOnce | backend/src/services/chat_stream_service.py:307-358 | a node completion is reported by exactly one of the events under its run id, the first; the others ship nothing |
| AdvisoryLock.LockKeyFits | backend/src/repositories/schema_study_repository.py:44-53 | the key is a non-negative signed 64-bit value, and distinct ids can share it |
| AdvisoryLock.SameKeyIff | backend/src/repositories/schema_study_repository.py:51-53 | two ids share a key exactly when their folds differ in the top bit at most |
| SchemaStudy.ExceptionsTerminate | backend/src/tasks/study_source.py:409-436 | every exception marks its study with a terminal state |
| SchemaStudy.TerminalIff | backend/src/repositories/schema_study_repository.py:59-70 | a study is finished exactly in the two ready states and the failed states of the six phases |
| SchemaStudy.FailureRecorded | backend/src/tasks/study_source.py:409-436 | each exception records the phase of its inspector, the connection phase for network failures and the inventory phase for anything unknown, each exactly then |
| SchemaStudy.PrefixKeptIff | backend/src/services/db_introspection/_errors.py:30-45 | a failed-state prefix passed directly is kept exactly when it is not CONNECT |
| SchemaStudy.StudiesAreSingleFlight | backend/src/tasks/study_source.py:172-197 | over all interleavings each source has at most one study that is not terminal, whatever the lock keys |
| SchemaStudy.FoldedStudiesAreSingleFlight | backend/src/repositories/schema_study_repository.py:83-107 | so it is under the repository's folded keys |
| SchemaStudy.CollidingSourcesWait | backend/src/repositories/schema_study_repository.py:83-107 | while a worker is past the gate of one source, none gets past the gate of a source that shares its key |
| SchemaStudy.LockGrantedIff | backend/src/repositories/schema_study_repository.py:83-107 | a worker is let to the gate exactly when it has no open transaction and nobody is past the gate of a source that shares its key: no lock outlives its transaction |
| SchemaStudy.GateRun | backend/src/tasks/study_source.py:172-197 | a worker alone at the gate gets past exactly when no study of the source runs; its study then waits under the next id, and either way its transaction ends and the key is free |
| SchemaStudy.FailureUnblocksIff | backend/src/repositories/schema_study_repository.py:177-209 | a failed mark frees its source exactly when its phase is a terminal prefix |
| SchemaStudy.CompletionUnblocks | backend/src/repositories/schema_study_repository.py:150-175 | a completed study is READY, or READY_PARTIAL exactly when partial, frees its source and leaves every other row alone |
| SchemaStudy.StudyRepository.LockForSource | backend/src/repositories/schema_study_repository.py:83-107 | the lock is keyed on the folded id and held by the transaction |
| SchemaStudy.StudyRepository.IsRunning | backend/src/repositories/schema_study_repository.py:109-123 | true exactly when a committed study of the source is not terminal |
| SchemaStudy.StudyRepository.CreateStudy | backend/src/repositories/schema_study_repository.py:129-148 | the insert is invisible until the commit |
| SchemaStudy.StudyRepository.CommitTransaction | backend/src/tasks/study_source.py:180-197 | the commit publishes the row and releases the lock |
| SchemaStudy.StudyRepository.CompleteStudy | backend/src/repositories/schema_study_repository.py:150-175 | sets READY, or READY_PARTIAL exactly when partial, on one row |
| SchemaStudy.StudyRepository.FailStudy | backend/src/repositories/schema_study_repository.py:177-209 | sets the failed state of the phase on one row |
| AuthTokens.InvalidForEver | backend/src/repositories/refresh_token_repository.py:36-71 | an invalid refresh token never becomes valid again |
| AuthTokens.RotationAndResets | backend/src/repositories/refresh_token_repository.py:89-108 | over serial operations each refresh token is used at most once, and no user ever has two usable reset tokens |
| AuthRaces.NeverSpentAgainIff | backend/src/services/auth_service.py:121-132 | when lookups and rotations interleave, a token that was used or revoked is never spent again exactly when no other refresh has it looked up and not yet rotated |
| AuthRaces.UsedOnceApart | backend/src/services/auth_service.py:121-132 | where refreshes of one token do not overlap, each token is used at most once, whatever else overlaps |
| AuthRaces.OverlappingRefreshes | backend/src/services/auth_service.py:121-132 | two refreshes that look one token up before either rotates it both succeed |
| AuthTokens.RefreshConserves | backend/src/services/auth_service.py:108-132 | a refresh succeeds exactly for a valid token of an active user, is forbidden exactly for one of an inactive user, and conserves every live-token count |
| AuthTokens.LoginIff | backend/src/services/auth_service.py:94-106 | a login succeeds exactly when the account exists, its password is verified and it is active; inactive accounts are refused exactly once verified; success issues the account one token good for a week and changes nothing else, an error changes nothing |
| AuthTokens.LoginOpensOneSession | backend/src/services/auth_service.py:94-106 | a successful login adds exactly its token to the live ones of its account, and none to any other |
| AuthTokens.SessionsWithinLogins | backend/src/services/auth_service.py:94-132 | over every run a user has at most as many live refresh tokens as verified logins |
| AuthTokens.EveryTokenDescends | backend/src/services/auth_service.py:94-132 | over every run a refresh token belongs to a user exactly when it goes back, through rotations, to a verified login of that user |
| AuthTokens.LogoutEndsOneSession | backend/src/services/auth_service.py:134-139 | a logout ends the session of its token and no other |
| AuthTokens.NoTokenSurvivesRenewal | backend/src/services/auth_service.py:194-202 | no refresh token issued before a password change or reset survives it |
| AuthTokens.ResetWorksOnce | backend/src/services/auth_service.py:175-202 | a reset token sets a password exactly while valid, and is then used up |
| AuthTokens.RequestSupersedes | backend/src/services/auth_service.py:157-173 | a reset is issued exactly for an active account, and answers alike otherwise; its token is then the only usable one of the account, for an hour, and no other account is touched |
| AuthTokens.OnlyRenewalSetsPasswords | backend/src/services/auth_service.py:194-234 | every account keeps its password until a successful change or reset of its own, which sets the new one and lifts the duty to change it |
| AuthTokens.ChangePasswordIff | backend/src/services/auth_service.py:204-234 | the first of policy, account and current password to fail names the error and changes nothing; otherwise the change succeeds and no other user loses a session |
| AuthTokens.AuthService.LogIn | backend/src/services/auth_service.py:88-106 | does what `LoginIff` says: a token exactly for a verified active account, otherwise the error and no change |
| AuthTokens.AuthService.RefreshToken | backend/src/services/auth_service.py:108-132 | a valid token of an active user is revoked and replaced; otherwise the error and no change |
| AuthTokens.AuthService.LogOut | backend/src/services/auth_service.py:134-139 | revokes a valid token, ignores others |
| AuthTokens.AuthService.RequestPasswordReset | backend/src/services/auth_service.py:157-173 | uses up older reset tokens of an active user and issues one |
| AuthTokens.AuthService.ConfirmPasswordReset | backend/src/services/auth_service.py:175-202 | policy, token and user errors in that order change nothing; success sets the password, uses the token up and revokes all sessions |
| AuthTokens.AuthService.ChangeUserPassword | backend/src/services/auth_service.py:204-234 | policy, user and credential errors in that order change nothing; success sets the password and revokes all sessions |
| WebFetch.ReadCappedBody | backend/src/connectors/web_url_connector.py:483-493 | the concatenated chunks exactly when they fit under the cap and arrive whole; over the cap however the body would have ended |
| WebFetch.StreamWithRedirects | backend/src/connectors/web_url_connector.py:382-481 | at most four requests, a chain of allowed redirects on the original host; the last reply decides, a body cut short included; protocol errors pass uncaught; the trailing raise is unreachable |
| WebFetch.ChainIsUnique | backend/src/connectors/web_url_connector.py:393-459 | the requests and the outcome are determined by the server |
| CauseChain.HasCause | backend/src/connectors/web_url_connector.py:128-137 | terminates on cyclic chains and is true exactly when the target lies on the chain |
| Analytics.DaySeries | backend/src/repositories/analytics_repository.py:48-57 | one entry per consecutive day, both ends included |
| Analytics.FillGaps | backend/src/repositories/analytics_repository.py:199-280 | every day of the series carries its row's counters or zeros |
| Analytics.GapFillConserves | backend/src/repositories/analytics_repository.py:199-280 | a counter's total is conserved exactly when every row that counts something lies in the series, and never grows |
| Analytics.NeedsAttention | backend/src/repositories/analytics_repository.py:360-473 | the ranked list of the three queries, cut to the limit: no item is older than a later one, known times first |
| Analytics.AttentionListsEachSourceOnce | backend/src/repositories/analytics_repository.py:414-466 | each failing source once, under its first failing kind |
| Analytics.AttentionListIsRanked | backend/src/repositories/analytics_repository.py:468-473 | on the times themselves: a known time never follows an unknown one, of two known times the later comes first, nothing dropped is newer than anything shown, an unknown time is shown only when no known one is dropped, and equal times keep query order |
| Analytics.RankingIsUnique | backend/src/repositories/analytics_repository.py:468-473 | these facts leave one order only |
| Embedding.EmbedBatch | backend/src/services/embedding_service.py:94-113 | at most three attempts, one more exactly after each transient error; the settling answer sorted by index and validated |
| Embedding.SortRestores | backend/src/services/embedding_service.py:107-110 | sorting any permutation of a tagged batch restores the batch |
| Embedding.EmbedTexts | backend/src/services/embedding_service.py:116-130 | the batches joined in order, or a failure when any batch fails; for any number of texts this is the map of the embedder, given permuted answers |
| Embedding.BatchLength | backend/src/services/embedding_service.py:107-113 | a batch yields one vector per item of its settling answer, so one per text exactly when they are as many |
| Embedding.EmptyAnswerLosesText | backend/src/services/embedding_service.py:107-113 | one text answered with no item yields no vector and no error |
| Embedding.AlignedIffEachBatchIs | backend/src/services/embedding_service.py:116-130 | the vectors of all texts come back in order from answers as long as their batches exactly when each settling answer sorts into the vectors of its batch |
| Embedding.LengthIsTotal | backend/src/services/embedding_service.py:116-130 | as many vectors come back as the settling answers hold items |
| Embedding.LengthKeptIff | backend/src/services/embedding_service.py:116-130 | one vector per text comes back exactly when the settling answers hold as many items as there are texts; when they err on one side only, exactly when each is as long as its batch |
| Paging.ExtractDocuments | backend/src/connectors/database_connector.py:305-371 | terminates for every page size, numbers rows by position, one query more than full pages |
| Paging.PagingIsExactIff | backend/src/connectors/database_connector.py:325-371 | under a fixed order every row is yielded exactly once exactly when the page size is positive or the result empty |
| Paging.UnstableOrderLosesRows | backend/src/connectors/database_connector.py:326-329 | without a fixed order a row can repeat and another be lost |

## Left out

- Conversation memory across turns and the graph library's own recursion limit: one turn from a fresh state is modelled.
- What prompts, verdicts and plans say: model replies are arbitrary values, and the internals of the SQL grading gates are folded into the verdict.
- Text sanitising, HTML escaping, report rendering: strings are opaque.
- AgentTokens.OneStepOvershoot: the synthesizer's own call is not included, because no guard runs after it; `DocumentedBoundIff` includes it.
- AccountLockout.Lockout.RecordFailure: a store that fails between the pipeline and the separate lock write is not modelled; the store answers both or neither.
- AccountLockout.LoginService.Login: logins of one account are sequential; concurrent logins between check and failure are not modelled.
- RateLimit.RateLimiter.Dispatch: the choice of the client address is not modelled.
- ActivitySummary.BuildActivitySummary: the role lines, the revision reason, and the token and cost fields are not modelled; they are copied or formatted from the state.
- AuthTokens.RotationAndResets: operations are serialised; overlapping refreshes are `AuthRaces`, overlapping password resets are not modelled. Access tokens, signing, password hashing and invitations are not modelled; a raw token is never drawn twice.
- ChatStream.RunPipelineStream: a consumer that closes the stream early and a closing frame that fails to serialise are not modelled.
- SchemaStudy.StudiesAreSingleFlight: statements see what was committed before them (read committed); a crashed worker's queued row stays and blocks its source.
- Paging.ExtractDocuments: the result keeps its length while it is paged; its order may change between queries.
- Embedding.EmbedTexts: batches run concurrently; which of several failures is reported is not modelled.
- WebFetch.StreamWithRedirects: URL parsing and resolution, and the address check itself, are inputs.
- Analytics.NeedsAttention: the three queries are inputs that return a source at most once each.
- Database migrations, field validators, dependency injection, thin repositories, connectors' connection handling, the frontend and the evaluation tools: single-branch or input-output code.
