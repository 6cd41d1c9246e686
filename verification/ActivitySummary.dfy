/** The compact record of a finished turn, rebuilt from its final state alone. */
module ActivitySummary {
  import opened Wrappers
  import opened AgentState
  import opened AgentLedger

  /** One plan row; `Waiting` is the wire value "pending". */
  datatype Row = Row(id: string, title: string, status: Status)

  datatype Summary = Summary(
    stepCount: nat, sourceCount: nat, hadReplan: bool, hadFailure: bool, budgetHit: bool,
    plan: seq<Row>, superseded: Option<seq<Row>>)

  // ---------------------------------------------------------------- specification

  /** The last verdict recorded for `id`, whatever attempt it belongs to. */
  function LastVerdict(past: seq<StepResult>, id: string): Option<Verdict> {
    if past == [] then None
    else
      var last := past[|past| - 1];
      if last.stepId == id && last.verdict.Some? then last.verdict
      else LastVerdict(past[..|past| - 1], id)
  }

  function StatusOf(v: Option<Verdict>): Status {
    if Passed(v) then Done else if v == Some(Unacceptable) then Failed else Active
  }

  function NonEmpty(ids: seq<string>): seq<string> {
    if ids == [] then []
    else
      var last := ids[|ids| - 1];
      if last == "" then NonEmpty(ids[..|ids| - 1]) else NonEmpty(ids[..|ids| - 1]) + [last]
  }

  function EntryLabel(step: PlanStep): string {
    if step.description != "" then step.description else step.subQuery
  }

  lemma EntryLabelIsFirstNamed(step: PlanStep)
    ensures FirstNamed(EntryLabel(step), [step.description, step.subQuery])
  {
    var names := [step.description, step.subQuery];
    assert names[0] == step.description && names[1] == step.subQuery;
  }

  function PlanEntry(step: PlanStep): Row {
    Row(step.id, EntryLabel(step), step.status)
  }

  function FirstWithId(steps: seq<PlanStep>, id: string): Option<PlanStep> {
    if steps == [] then None
    else if steps[0].id == id then Some(steps[0])
    else FirstWithId(steps[1..], id)
  }

  function LabelCandidates(st: State): seq<PlanStep> {
    st.plan + (if st.current.Some? then [st.current.value] else []) + st.superseded
  }

  /** The label of an executed step: only plan, current and superseded steps are searched. */
  function LabelFor(st: State, id: string): string {
    var step := FirstWithId(LabelCandidates(st), id);
    if step.Some? && EntryLabel(step.value) != "" then EntryLabel(step.value) else id
  }

  /** Everything the turn touched: executions (unnamed ones skipped), then the waiting plan. */
  function TouchedIds(st: State): seq<string> {
    NonEmpty(PastIds(st.pastSteps)) + PlanIds(st.plan)
  }

  predicate Ran(st: State, id: string) {
    id != "" && id in PastIds(st.pastSteps)
  }

  function ExecutedRow(st: State, id: string): Row {
    Row(id, LabelFor(st, id), StatusOf(LastVerdict(st.pastSteps, id)))
  }

  /** An executed step is described by its last verdict, a waiting one as planned. */
  function RowFor(st: State, id: string): Row {
    if Ran(st, id) then ExecutedRow(st, id)
    else
      var step := FirstWithId(st.plan, id);
      if step.Some? then PlanEntry(step.value) else Row(id, "", Waiting)
  }

  /** One row per distinct id of `ids`, in order of first occurrence. */
  function RowsFor(st: State, ids: seq<string>): seq<Row> {
    if ids == [] then []
    else
      var before, last := ids[..|ids| - 1], ids[|ids| - 1];
      if last in before then RowsFor(st, before) else RowsFor(st, before) + [RowFor(st, last)]
  }

  /** A step that ran is titled by its description, else its sub-query, else its id; one that is not found any
      more by its id. */
  lemma TitleOfExecuted(st: State, id: string)
    ensures var step := FirstWithId(LabelCandidates(st), id);
            FirstNamed(LabelFor(st, id),
                       if step.Some? then [step.value.description, step.value.subQuery, id] else [id])
  {
    var step := FirstWithId(LabelCandidates(st), id);
    if step.Some? {
      var names := [step.value.description, step.value.subQuery, id];
      assert names[0] == step.value.description && names[1] == step.value.subQuery && names[2] == id;
    } else {
      assert [id][0] == id;
    }
  }

  // ---------------------------------------------------------------- lemmas

  lemma NonEmptySnoc(ids: seq<string>, id: string)
    ensures NonEmpty(ids + [id]) == if id == "" then NonEmpty(ids) else NonEmpty(ids) + [id]
  {
    assert (ids + [id])[..|ids|] == ids;
  }

  lemma {:induction false} NonEmptyFacts(ids: seq<string>)
    ensures forall id :: id in NonEmpty(ids) <==> id in ids && id != ""
    ensures (forall i :: 0 <= i < |ids| ==> ids[i] != "") ==> NonEmpty(ids) == ids
  {
    if ids != [] {
      NonEmptyFacts(ids[..|ids| - 1]);
      assert ids == ids[..|ids| - 1] + [ids[|ids| - 1]];
    }
  }

  lemma {:induction false} FirstWithIdFacts(steps: seq<PlanStep>, k: nat)
    requires k < |steps| && steps[k].id !in PlanIds(steps[..k])
    ensures FirstWithId(steps, steps[k].id) == Some(steps[k])
  {
    if k > 0 {
      assert PlanIds(steps[..k])[0] == steps[0].id;
      assert steps[1..][..k - 1] == steps[..k][1..];
      assert PlanIds(steps[1..][..k - 1]) == PlanIds(steps[..k])[1..];
      FirstWithIdFacts(steps[1..], k - 1);
    }
  }

  // ---------------------------------------------------------------- the builder

  /** Last verdict per step id: later entries overwrite earlier ones. */
  method VerdictById(past: seq<StepResult>) returns (verdicts: map<string, Verdict>)
    ensures HoldsVerdicts(verdicts, past)
  {
    verdicts := map[];
    for i := 0 to |past|
      invariant HoldsVerdicts(verdicts, past[..i])
    {
      assert past[..i + 1][..i] == past[..i];
      if past[i].verdict.Some? {
        verdicts := verdicts[past[i].stepId := past[i].verdict.value];
      }
    }
    assert past[..|past|] == past;
  }

  lemma RowsForSnoc(st: State, ids: seq<string>, id: string)
    ensures RowsFor(st, ids + [id])
         == if id in ids then RowsFor(st, ids) else RowsFor(st, ids) + [RowFor(st, id)]
  {
    assert (ids + [id])[..|ids|] == ids;
  }

  /** The rows are those of the first occurrences, position by position. */
  lemma {:induction false} RowsForMeaning(st: State, ids: seq<string>)
    ensures |RowsFor(st, ids)| == |FirstOccurrences(ids)|
    ensures forall i :: 0 <= i < |RowsFor(st, ids)| ==>
      RowsFor(st, ids)[i] == RowFor(st, FirstOccurrences(ids)[i])
  {
    if ids != [] {
      RowsForMeaning(st, ids[..|ids| - 1]);
    }
  }

  /** `verdicts` holds the last verdict of every step that has one. */
  ghost predicate HoldsVerdicts(verdicts: map<string, Verdict>, past: seq<StepResult>) {
    forall id :: LastVerdict(past, id) == if id in verdicts then Some(verdicts[id]) else None
  }

  function RowFrom(st: State, verdicts: map<string, Verdict>, id: string): Row {
    Row(id, LabelFor(st, id),
        if id !in verdicts then Active else if verdicts[id] == Unacceptable then Failed else Done)
  }

  lemma RowFromVerdicts(st: State, verdicts: map<string, Verdict>, id: string)
    requires HoldsVerdicts(verdicts, st.pastSteps)
    ensures RowFrom(st, verdicts, id) == ExecutedRow(st, id)
  {
    assert LastVerdict(st.pastSteps, id) == if id in verdicts then Some(verdicts[id]) else None;
  }

  function ExecutedIds(st: State, n: nat): seq<string>
    requires n <= |st.pastSteps|
  {
    NonEmpty(PastIds(st.pastSteps[..n]))
  }

  lemma NextExecuted(st: State, i: nat)
    requires i < |st.pastSteps|
    ensures var ids, id := ExecutedIds(st, i), st.pastSteps[i].stepId;
            && ExecutedIds(st, i + 1) == (if id == "" then ids else ids + [id])
            && (id != "" ==> RowFor(st, id) == ExecutedRow(st, id))
            && RowsFor(st, ExecutedIds(st, i + 1))
               == (if id == "" || id in ids then RowsFor(st, ids) else RowsFor(st, ids) + [RowFor(st, id)])
  {
    var past, id := st.pastSteps, st.pastSteps[i].stepId;
    assert past[..i + 1] == past[..i] + [past[i]];
    PastIdsSnoc(past[..i], past[i]);
    NonEmptySnoc(PastIds(past[..i]), id);
    assert PastIds(past)[i] == id;
    RowsForSnoc(st, ExecutedIds(st, i), id);
  }

  ghost predicate Covers(seen: set<string>, ids: seq<string>) {
    forall id :: id in seen <==> id in ids
  }

  /** Executed steps first, in execution order; `seen` are their ids. */
  method ExecutedRows(st: State) returns (rows: seq<Row>, seen: set<string>)
    ensures rows == RowsFor(st, ExecutedIds(st, |st.pastSteps|))
    ensures Covers(seen, ExecutedIds(st, |st.pastSteps|))
  {
    var past := st.pastSteps;
    var verdicts := VerdictById(past);
    rows, seen := [], {};
    for i := 0 to |past|
      invariant rows == RowsFor(st, ExecutedIds(st, i))
      invariant Covers(seen, ExecutedIds(st, i))
    {
      var id := past[i].stepId;
      NextExecuted(st, i);
      RowFromVerdicts(st, verdicts, id);
      if id != "" && id !in seen {
        seen := seen + {id};
        rows := rows + [RowFrom(st, verdicts, id)];
      }
    }
  }

  function TouchedBefore(st: State, j: nat): seq<string>
    requires j <= |st.plan|
  {
    NonEmpty(PastIds(st.pastSteps)) + PlanIds(st.plan[..j])
  }

  lemma NextTouched(st: State, j: nat)
    requires j < |st.plan|
    ensures var ids, id := TouchedBefore(st, j), st.plan[j].id;
            && TouchedBefore(st, j + 1) == ids + [id]
            && RowsFor(st, TouchedBefore(st, j + 1))
               == (if id in ids then RowsFor(st, ids) else RowsFor(st, ids) + [PlanEntry(st.plan[j])])
  {
    var plan, id := st.plan, st.plan[j].id;
    var ids := TouchedBefore(st, j);
    assert plan[..j + 1] == plan[..j] + [plan[j]];
    PlanIdsSnoc(plan[..j], plan[j]);
    assert TouchedBefore(st, j + 1) == ids + [id];
    RowsForSnoc(st, ids, id);
    if id !in ids {
      NonEmptyFacts(PastIds(st.pastSteps));
      FirstWithIdFacts(plan, j);
    }
  }

  /** One row per distinct step: executed ones in execution order, then waiting ones. */
  method CompletedPlan(st: State) returns (rows: seq<Row>)
    ensures rows == RowsFor(st, TouchedIds(st))
  {
    var plan := st.plan;
    var seen: set<string>;
    rows, seen := ExecutedRows(st);
    assert st.pastSteps[..|st.pastSteps|] == st.pastSteps;
    assert TouchedBefore(st, 0) == ExecutedIds(st, |st.pastSteps|);
    for j := 0 to |plan|
      invariant rows == RowsFor(st, TouchedBefore(st, j))
      invariant Covers(seen, TouchedBefore(st, j))
    {
      NextTouched(st, j);
      if plan[j].id !in seen {
        seen := seen + {plan[j].id};
        rows := rows + [PlanEntry(plan[j])];
      }
    }
    assert plan[..|plan|] == plan;
  }

  function Sources(steps: seq<PlanStep>): set<string> {
    set s <- steps | s.sourceId != "" :: s.sourceId
  }

  /** What `_source_count` counts: the sources of plan, current and superseded steps. */
  function CountedSources(st: State): set<string> {
    Sources(st.plan) + (if st.current.Some? then Sources([st.current.value]) else {}) + Sources(st.superseded)
  }

  method CollectSources(steps: seq<PlanStep>, seen0: set<string>) returns (seen: set<string>)
    ensures seen == seen0 + Sources(steps)
  {
    seen := seen0;
    for i := 0 to |steps|
      invariant seen == seen0 + Sources(steps[..i])
    {
      assert steps[..i + 1] == steps[..i] + [steps[i]];
      if steps[i].sourceId != "" {
        seen := seen + {steps[i].sourceId};
      }
    }
    assert steps[..|steps|] == steps;
  }

  method SourceCount(st: State) returns (n: nat)
    ensures n == |CountedSources(st)|
  {
    var seen := CollectSources(st.plan, {});
    if st.current.Some? {
      seen := CollectSources([st.current.value], seen);
    }
    seen := CollectSources(st.superseded, seen);
    assert seen == CountedSources(st);
    n := |seen|;
  }

  /** A retry shows as a repeated step id, a failure as an unacceptable verdict. */
  method FailureFlags(past: seq<StepResult>) returns (retried: bool, unacceptable: bool)
    ensures retried <==> !Distinct(PastIds(past))
    ensures unacceptable <==> exists r :: r in past && r.verdict == Some(Unacceptable)
  {
    var seen: set<string> := {};
    retried, unacceptable := false, false;
    for i := 0 to |past|
      invariant seen == set r <- past[..i] :: r.stepId
      invariant retried <==> exists j, k :: 0 <= j < k < i && past[j].stepId == past[k].stepId
      invariant unacceptable <==> exists r :: r in past[..i] && r.verdict == Some(Unacceptable)
    {
      assert past[..i + 1] == past[..i] + [past[i]];
      if past[i].stepId in seen {
        var r :| r in past[..i] && r.stepId == past[i].stepId;
        var j :| 0 <= j < i && past[j] == r;
        retried := true;
      }
      seen := seen + {past[i].stepId};
      unacceptable := unacceptable || past[i].verdict == Some(Unacceptable);
    }
    assert past[..|past|] == past;
    assert forall i :: 0 <= i < |past| ==> PastIds(past)[i] == past[i].stepId;
  }

  function Entries(steps: seq<PlanStep>): seq<Row> {
    seq(|steps|, i requires 0 <= i < |steps| => PlanEntry(steps[i]))
  }

  method BuildActivitySummary(st: State) returns (summary: Option<Summary>)
    ensures summary.None? <==> st.pastSteps == [] && st.plan == [] && st.superseded == []
    ensures summary.Some? ==>
      var s := summary.value;
      && s.plan == RowsFor(st, TouchedIds(st)) && s.stepCount == |s.plan|
      && s.sourceCount == |CountedSources(st)|
      && s.budgetHit == st.budgetHit
      && s.hadReplan == (st.planRevision > 0 || st.superseded != [])
      && (s.hadFailure <==> (!Distinct(PastIds(st.pastSteps)) || st.budgetHit
                             || exists r :: r in st.pastSteps && r.verdict == Some(Unacceptable)))
      && s.superseded == (if st.superseded != [] then Some(Entries(st.superseded)) else None)
  {
    if st.pastSteps == [] && st.plan == [] && st.superseded == [] {
      return None;
    }
    var hadReplan := st.planRevision > 0 || st.superseded != [];
    var retried, unacceptable := FailureFlags(st.pastSteps);
    var rows := CompletedPlan(st);
    var sources := SourceCount(st);
    summary := Some(Summary(
      |rows|, sources, hadReplan, retried || unacceptable || st.budgetHit, st.budgetHit, rows,
      if hadReplan && st.superseded != [] then Some(Entries(st.superseded)) else None));
  }
}
