/** Turns whose record says less than what happened, all over one source and under the default caps. */
module AgentRecordRuns {
  import opened Wrappers
  import opened AgentState
  import opened BudgetGuard
  import opened AgentLoop
  import opened AgentInvariant
  import opened AgentLedger
  import opened AgentSteering
  import opened ActivitySummary
  import opened AgentSources
  import opened AgentRows
  import opened AgentSummary

  const A: string := "a"

  function TheTurn(): Config {
    Start(false, {A}, DEFAULTS)
  }

  /** A reply of two described steps. */
  function Two(id1: Option<string>, text1: string, id2: Option<string>, text2: string): seq<RawStep> {
    [RawStep(id1, text1, A, ""), RawStep(id2, text2, A, "")]
  }

  lemma TwoSteps(id1: Option<string>, text1: string, id2: Option<string>, text2: string)
    ensures Sound(Two(id1, text1, id2, text2), {A})
    ensures var plan := BuildPlan(Two(id1, text1, id2, text2));
            && |plan| == 2 && plan[0].description == text1 && plan[1].description == text2
            && PlanIds(plan) == [if id1.Some? then id1.value else "s1", if id2.Some? then id2.value else "s2"]
  {
  }

  /** Open under the default caps while at most four steps ran for free. */
  lemma StillOpen(c: Config)
    requires c.st.budget == DEFAULTS && RetryCount(c.st) <= 1 && c.st.planRevision <= 1
    requires c.st.Spend() == 0 && |c.st.pastSteps| <= 4
    ensures WithinCaps(c.st)
  {
  }

  /** Both of two waiting steps pass: the end of the turn. */
  lemma BothPass(c: Config, plan: seq<PlanStep>, n: nat) returns (d: Config)
    requires Leads(TheTurn(), c, 0, 0, 0, n) && Inv(c) && c.node == BudgetStep && !Pending(c) && c.log == Empty
    requires c.st.budget == DEFAULTS && c.st.plan == plan && |plan| == 2 && c.st.current.None?
    requires c.st.planRevision <= 1 && c.st.Spend() == 0 && |c.st.pastSteps| <= 3
    ensures Leads(TheTurn(), d, 0, 0, 0, n) && d.node == End
    ensures Sent(d.log) == plan && d.st.plan == [] && d.former == c.former && d.st.superseded == c.st.superseded
  {
    StillOpen(c);
    var f := Attempt(TheTurn(), c, Acceptable, 0, 0, 0, 0, n);
    AttemptLeaves(c, f, Acceptable, 0);
    StillOpen(f);
    var g := Attempt(TheTurn(), f, Acceptable, 0, 0, 0, 0, n);
    SentBoth(c, f, g);
    d := Finish(TheTurn(), g, 0, 0, 0, n);
  }

  lemma SentBoth(c: Config, f: Config, g: Config)
    requires Attempted(c, f, Acceptable, 0) && Attempted(f, g, Acceptable, 0) && !Pending(c) && !Pending(f)
    requires c.log == Empty && |c.st.plan| == 2
    ensures Sent(g.log) == c.st.plan && g.st.plan == [] && g.node == GenerateResponse
  {
    assert f.st.plan == [c.st.plan[1]] && Sent(f.log) == [c.st.plan[0]];
  }

  lemma PlanTwo(raw: seq<RawStep>) returns (c: Config)
    requires Sound(raw, {A}) && |raw| == 2
    ensures Leads(TheTurn(), c, 0, 0, 0, 0) && SameTurn(TheTurn(), c) && Planned(c, raw) && !Pending(c)
    ensures c.st.Spend() == 0 && c.st.pastSteps == [] && c.st.planRevision == 0
    ensures c.earlier == [] && c.former == Empty && c.st.current.None? && c.st.superseded == []
  {
    c := AdoptPlan(false, {A}, DEFAULTS, raw, 0, 0, 0, 0);
  }

  /** What every configuration a run leads to satisfies at rest. */
  lemma Reached(d: Config, n: nat)
    requires Leads(TheTurn(), d, 0, 0, 0, n) && d.node == End
    ensures Inv(d) && SourceInv(d) && FormerOk(d) && Conserved(d)
    ensures SummaryMatches(d) <==> OwnRows(d)
  {
    var es :| Metered(TheTurn(), es, 0, 0, 0) && Run(TheTurn(), es) == d && Visits(TheTurn(), es, Replan) == n;
    LeadsToSourced(false, {A}, DEFAULTS, d, 0, 0, 0, n);
    FormerRun(false, {A}, DEFAULTS, es);
    RestConserves(d);
    hide *;
    ReachedSummary(d);
  }

  // ---------------------------------------------------------------- repeated ids

  /** The planner gives two steps one id: both run, the record shows one row. */
  lemma RepeatedIdMerges()
    ensures exists d :: Leads(TheTurn(), d, 0, 0, 0, 0) && d.node == End
                        && PlanIds(d.origin) == ["s1", "s1"] && RowIds(d.st) == ["s1"]
  {
    var raw := Two(Some("s1"), "one", Some("s1"), "two");
    TwoSteps(Some("s1"), "one", Some("s1"), "two");
    var c := PlanTwo(raw);
    var d := BothPass(c, BuildPlan(raw), 0);
    Reached(d, 0);
    assert d.origin == BuildPlan(raw) by {
      assert d.origin == Sent(d.log) + d.st.plan;
    }
    OneRow(d, "s1");
  }

  /** Whatever ran under one id makes one row. */
  lemma OneRow(d: Config, id: string)
    requires Inv(d) && FormerOk(d) && d.st.plan == [] && id != "" && d.log != Empty
    requires forall other :: other in PlanIds(Sent(d.former)) || other in PlanIds(Sent(d.log)) ==> other == id
    ensures RowIds(d.st) == [id]
  {
    ResultIds(d.former);
    ResultIds(d.log);
    LastResult(d);
    PastIdsConcat(d.earlier, Results(d.log));
    assert forall other :: other in PastIds(d.st.pastSteps) ==> other == id;
    NonEmptyFacts(PastIds(d.st.pastSteps));
    TouchedOnly(d, id);
    AllTheSame(TouchedIds(d.st), id);
  }

  lemma TouchedOnly(d: Config, id: string)
    requires d.st.plan == [] && id != "" && d.st.pastSteps != []
    requires forall other :: other in PastIds(d.st.pastSteps) ==> other == id
    ensures TouchedIds(d.st) == PastIds(d.st.pastSteps)
  {
    NonEmptyFacts(PastIds(d.st.pastSteps));
    assert forall i :: 0 <= i < |PastIds(d.st.pastSteps)| ==> PastIds(d.st.pastSteps)[i] in PastIds(d.st.pastSteps);
  }

  /** Results carry the ids of their steps. */
  lemma {:induction false} ResultIds(log: Log)
    requires Genuine(log)
    ensures forall id :: id in PastIds(Results(log)) ==> id in PlanIds(Sent(log))
  {
    if log != Empty {
      ResultIds(log.prev);
      PlanIdsSnoc(Sent(log.prev), log.step);
      if log.Once? {
        PastIdsSnoc(Results(log.prev), log.only);
      } else {
        PastIdsSnoc(Results(log.prev), log.first);
        PastIdsSnoc(Results(log.prev) + [log.first], log.second);
        assert Results(log.prev) + [log.first] + [log.second] == Results(log);
      }
    }
  }

  lemma {:induction false} AllTheSame(ids: seq<string>, id: string)
    requires ids != [] && forall other :: other in ids ==> other == id
    ensures FirstOccurrences(ids) == [id]
  {
    var before := ids[..|ids| - 1];
    assert ids == before + [ids[|ids| - 1]];
    assert ids[|ids| - 1] in ids;
    FirstOccurrencesSnoc(before, id);
    assert forall other :: other in before ==> other in ids;
    if before != [] {
      assert before[0] in before;
      AllTheSame(before, id);
    }
  }

  lemma PlanOne() returns (c: Config, plan: seq<PlanStep>)
    ensures Leads(TheTurn(), c, 0, 0, 0, 0) && Inv(c) && c.node == BudgetStep && !Pending(c) && c.log == Empty
    ensures c.st.budget == DEFAULTS && c.st.current.None? && SameTurn(TheTurn(), c)
    ensures c.st.planRevision == 0 && c.st.Spend() == 0 && c.st.pastSteps == []
    ensures c.st.plan == plan == BuildPlan(Raw(1, A)) && |plan| == 1 && PlanIds(plan) == ["s1"]
  {
    c := AdoptPlan(false, {A}, DEFAULTS, Raw(1, A), 0, 0, 0, 0);
    plan := c.st.plan;
  }

  lemma ReviseAlike(g: Config, plan: seq<PlanStep>) returns (h: Config)
    requires Leads(TheTurn(), g, 0, 0, 0, 0) && Inv(g) && g.node == BudgetReplan && WithinCaps(g.st)
    requires SameTurn(TheTurn(), g) && g.st.Spend() == 0 && |g.st.pastSteps| == 2
    requires plan == BuildPlan(Raw(1, A))
    ensures Leads(TheTurn(), h, 0, 0, 0, 1) && Inv(h) && h.node == BudgetStep && !Pending(h) && h.log == Empty
    ensures WithinCaps(h.st) && h.former == g.log && h.st.plan == plan
  {
    h := Revise(TheTurn(), g, Raw(1, A), 0, 0, 0, 0);
    StillOpen(h);
  }

  /** A one-step plan fails twice and is revised into itself. */
  lemma ReviseIntoItself() returns (h: Config, plan: seq<PlanStep>)
    ensures Leads(TheTurn(), h, 0, 0, 0, 1) && Inv(h) && h.node == BudgetStep && !Pending(h) && h.log == Empty
    ensures WithinCaps(h.st) && Sent(h.former) == plan == h.st.plan && |plan| == 1 && PlanIds(plan) == ["s1"]
  {
    hide *;
    var c, once := PlanOne();
    var g := FailTwice(c);
    h := ReviseAlike(g, once);
    assert [once[0]] == once;
    plan := once;
  }

  /** A step fails twice, its revision reuses the id: three executions of two steps make one row. */
  lemma ReusedIdMerges()
    ensures exists d :: Leads(TheTurn(), d, 0, 0, 0, 1) && d.node == End
                        && PlanIds(Sent(d.former)) == ["s1"] && PlanIds(d.origin) == ["s1"] && RowIds(d.st) == ["s1"]
  {
    hide *;
    var h, plan := ReviseIntoItself();
    var d := OnePasses(h, plan);
    Reached(d, 1);
    OneIdOnly(d, plan);
  }

  /** The only waiting step passes: the end of the turn. */
  lemma OnePasses(c: Config, plan: seq<PlanStep>) returns (d: Config)
    requires Leads(TheTurn(), c, 0, 0, 0, 1) && Inv(c) && c.node == BudgetStep && !Pending(c) && c.log == Empty
    requires WithinCaps(c.st) && c.st.plan == plan && |plan| == 1
    ensures Leads(TheTurn(), d, 0, 0, 0, 1) && d.node == End
    ensures Sent(d.log) == plan && d.st.plan == [] && d.former == c.former
  {
    var f := Attempt(TheTurn(), c, Acceptable, 0, 0, 0, 0, 1);
    SentOne(c, f);
    d := Finish(TheTurn(), f, 0, 0, 0, 1);
    hide Attempted, Leads, Inv, WithinCaps;
  }

  lemma SentOne(c: Config, f: Config)
    requires Attempted(c, f, Acceptable, 0) && !Pending(c) && c.log == Empty && |c.st.plan| == 1
    ensures Sent(f.log) == c.st.plan && f.st.plan == [] && f.node == GenerateResponse && f.former == c.former
  {
  }

  lemma OneIdOnly(d: Config, plan: seq<PlanStep>)
    requires Inv(d) && FormerOk(d) && Conserved(d) && d.st.plan == []
    requires Sent(d.log) == plan && Sent(d.former) == plan && PlanIds(plan) == ["s1"]
    ensures PlanIds(Sent(d.former)) == ["s1"] && PlanIds(d.origin) == ["s1"] && RowIds(d.st) == ["s1"]
  {
    assert d.origin == plan && d.log != Empty;
    hide *;
    OneRow(d, "s1");
  }

  /** The first planned step fails twice. */
  lemma FailTwice(c: Config) returns (g: Config)
    requires Leads(TheTurn(), c, 0, 0, 0, 0) && Inv(c) && c.node == BudgetStep && !Pending(c) && c.log == Empty
    requires c.st.budget == DEFAULTS && c.st.plan != [] && c.st.current.None? && SameTurn(TheTurn(), c)
    requires c.st.planRevision == 0 && c.st.Spend() == 0 && c.st.pastSteps == []
    ensures Leads(TheTurn(), g, 0, 0, 0, 0) && Inv(g) && g.node == BudgetReplan && WithinCaps(g.st)
    ensures SameTurn(TheTurn(), g) && g.st.Spend() == 0 && |g.st.pastSteps| == 2
    ensures Sent(g.log) == [c.st.plan[0]] && g.st.plan == c.st.plan[1..]
  {
    StillOpen(c);
    var f := Attempt(TheTurn(), c, Unacceptable, 0, 0, 0, 0);
    AttemptLeaves(c, f, Unacceptable, 0);
    StillOpen(f);
    g := Attempt(TheTurn(), f, Unacceptable, 0, 0, 0, 0);
    StillOpen(g);
    assert f.log.prev == Empty && f.log.step == c.st.plan[0];
  }

  // ---------------------------------------------------------------- lost and borrowed labels

  ghost predicate Titled(d: Config, k: nat, title: string) {
    var rows := RowsFor(d.st, TouchedIds(d.st));
    k < |rows| && rows[k].title == title
  }

  lemma TitleOf(d: Config, k: nat)
    requires SummaryMatches(d) && k < |AllSteps(d)|
    requires |Sent(d.former)| <= k < |Sent(d.former)| + |Sent(d.log)| - 1
    ensures Titled(d, k, DroppedLabel(d.st, AllSteps(d)[k].id))
  {
    assert RowMatches(d, RowsFor(d.st, TouchedIds(d.st))[k], k);
  }

  /** Two described steps pass: the row of the first shows its id. */
  lemma DescriptionIsLost()
    ensures exists d :: Leads(TheTurn(), d, 0, 0, 0, 0) && d.node == End
                        && |d.origin| == 2 && d.origin[0].description == "one" && Titled(d, 0, "s1")
  {
    var raw := Two(None, "one", None, "two");
    TwoSteps(None, "one", None, "two");
    var c := PlanTwo(raw);
    var d := BothPass(c, BuildPlan(raw), 0);
    Reached(d, 0);
    FirstTitle(d, BuildPlan(raw));
  }

  lemma FirstTitle(d: Config, plan: seq<PlanStep>)
    requires Conserved(d) && d.former == Empty && Sent(d.log) == plan && d.st.plan == [] && d.st.superseded == []
    requires PlanIds(plan) == ["s1", "s2"] && (OwnRows(d) ==> SummaryMatches(d))
    ensures d.origin == plan && Titled(d, 0, "s1")
  {
    assert d.origin == plan && AllSteps(d) == plan && plan[0].id == PlanIds(plan)[0];
    assert DroppedLabel(d.st, "s1") == "s1";
    TwoOwnRows(d, plan);
    hide *;
    TitleOf(d, 0);
  }

  lemma TwoOwnRows(d: Config, plan: seq<PlanStep>)
    requires d.former == Empty && Sent(d.log) == plan && AllSteps(d) == plan && PlanIds(plan) == ["s1", "s2"]
    ensures OwnRows(d) && |Sent(d.former)| == 0 && |Sent(d.log)| == 2 == |AllSteps(d)|
  {
  }

  /** The revised plan reuses the id of a superseded step: the row of the new step shows the description of
      the old one, which never ran. */
  lemma LabelIsBorrowed()
    ensures exists d :: Leads(TheTurn(), d, 0, 0, 0, 1) && d.node == End
                        && |d.origin| == 2 && d.origin[0].description == "three" && Titled(d, 1, "two")
  {
    var raw, raw' := Two(None, "one", None, "two"), Two(Some("s2"), "three", Some("s3"), "four");
    TwoSteps(None, "one", None, "two");
    TwoSteps(Some("s2"), "three", Some("s3"), "four");
    var c := PlanTwo(raw);
    var g := FailTwice(c);
    var h := Revise(TheTurn(), g, raw', 0, 0, 0, 0);
    var d := BothPass(h, BuildPlan(raw'), 1);
    Reached(d, 1);
    SecondTitle(d, BuildPlan(raw), BuildPlan(raw'));
  }

  lemma SecondTitle(d: Config, plan: seq<PlanStep>, plan': seq<PlanStep>)
    requires |plan| == 2 && PlanIds(plan) == ["s1", "s2"] && PlanIds(plan') == ["s2", "s3"]
    requires plan[1].description == "two"
    requires Conserved(d) && Sent(d.former) == [plan[0]] && Sent(d.log) == plan' && d.st.plan == []
    requires d.st.superseded == plan[1..] && (OwnRows(d) ==> SummaryMatches(d))
    ensures d.origin == plan' && Titled(d, 1, "two")
  {
    assert plan[0].id == PlanIds(plan)[0] && plan[1].id == PlanIds(plan)[1];
    assert plan'[0].id == PlanIds(plan')[0] && plan'[1].id == PlanIds(plan')[1];
    assert d.origin == plan' && AllSteps(d) == [plan[0], plan'[0], plan'[1]];
    assert PlanIds(AllSteps(d)) == ["s1", "s2", "s3"];
    assert OwnRows(d);
    assert d.st.superseded == [plan[1]];
    assert DroppedLabel(d.st, "s2") == "two";
    TitleOf(d, 1);
  }
}
