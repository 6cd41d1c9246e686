/** The ids of the activity record's rows: what the first occurrences of the touched ids come to. */
module AgentRows {
  import opened AgentState
  import opened AgentLoop
  import opened AgentInvariant
  import opened AgentLedger
  import opened ActivitySummary

  predicate Named(ids: seq<string>) {
    forall i :: 0 <= i < |ids| ==> ids[i] != ""
  }

  predicate Fresh(ids: seq<string>, before: seq<string>) {
    Distinct(ids) && forall i :: 0 <= i < |ids| ==> ids[i] !in before
  }

  // ---------------------------------------------------------------- first occurrences

  lemma {:induction false} FirstOccurrencesShort(a: seq<string>, b: seq<string>)
    ensures |FirstOccurrences(a + b)| <= |FirstOccurrences(a)| + |b|
  {
    if b == [] {
      assert a + b == a;
    } else {
      var b' := b[..|b| - 1];
      FirstOccurrencesShort(a, b');
      assert a + b == (a + b') + [b[|b| - 1]];
      FirstOccurrencesSnoc(a + b', b[|b| - 1]);
    }
  }

  lemma FreshSnoc(ids: seq<string>, last: string, before: seq<string>)
    ensures Fresh(ids + [last], before) <==> Fresh(ids, before) && last !in before + ids
  {
    var all := ids + [last];
    assert all[|ids|] == last && all[..|ids|] == ids;
    if Fresh(all, before) {
      assert forall i :: 0 <= i < |ids| ==> all[i] == ids[i];
    }
  }

  /** Appending `b` appends all of it exactly when `b` repeats nothing. */
  lemma {:induction false} AppendIffFresh(a: seq<string>, b: seq<string>)
    ensures FirstOccurrences(a + b) == FirstOccurrences(a) + b <==> Fresh(b, a)
  {
    if b == [] {
      assert a + b == a;
    } else {
      var b', last := b[..|b| - 1], b[|b| - 1];
      var firsts, shorter := FirstOccurrences(a), FirstOccurrences(a + b');
      AppendIffFresh(a, b');
      FirstOccurrencesShort(a, b');
      assert b == b' + [last] && a + b == (a + b') + [last];
      FirstOccurrencesSnoc(a + b', last);
      FreshSnoc(b', last, a);
      if last !in a + b' {
        AppendSame(shorter, firsts + b', last);
        assert firsts + b == (firsts + b') + [last];
      }
    }
  }

  lemma AppendSame(x: seq<string>, y: seq<string>, last: string)
    ensures x + [last] == y + [last] <==> x == y
  {
    if x + [last] == y + [last] {
      assert x == (x + [last])[..|x|] == (y + [last])[..|y|] == y;
    }
  }

  /** Repetitions at the end do not matter. */
  lemma {:induction false} CollapseEnd(a: seq<string>, r: seq<string>)
    ensures FirstOccurrences(a + r) == FirstOccurrences(a + FirstOccurrences(r))
  {
    if r == [] {
    } else {
      var r', last := r[..|r| - 1], r[|r| - 1];
      CollapseEnd(a, r');
      FirstOccurrencesFacts(r');
      assert a + r == (a + r') + [last];
      FirstOccurrencesSnoc(a + r', last);
      if last !in r' {
        assert a + FirstOccurrences(r) == (a + FirstOccurrences(r')) + [last];
        FirstOccurrencesSnoc(a + FirstOccurrences(r'), last);
      }
    }
  }

  /** Repetitions in the middle do not matter. */
  lemma {:induction false} CollapseMiddle(x: seq<string>, y: seq<string>, p: seq<string>)
    requires FirstOccurrences(x) == FirstOccurrences(y)
    ensures FirstOccurrences(x + p) == FirstOccurrences(y + p)
  {
    if p == [] {
      assert x + p == x && y + p == y;
    } else {
      var p', last := p[..|p| - 1], p[|p| - 1];
      CollapseMiddle(x, y, p');
      FirstOccurrencesFacts(x);
      FirstOccurrencesFacts(y);
      assert x + p == (x + p') + [last] && y + p == (y + p') + [last];
      FirstOccurrencesSnoc(x + p', last);
      FirstOccurrencesSnoc(y + p', last);
      assert last in x <==> last in FirstOccurrences(x);
    }
  }

  lemma {:induction false} NonEmptyConcat(a: seq<string>, b: seq<string>)
    requires Named(b)
    ensures NonEmpty(a + b) == NonEmpty(a) + b
  {
    if b == [] {
      assert a + b == a;
    } else {
      var b' := b[..|b| - 1];
      NonEmptyConcat(a, b');
      assert a + b == (a + b') + [b[|b| - 1]];
      NonEmptySnoc(a + b', b[|b| - 1]);
    }
  }

  // ---------------------------------------------------------------- rows

  lemma {:induction false} ResultsNamed(log: Log)
    requires Genuine(log) && Named(PlanIds(Sent(log)))
    ensures Named(PastIds(Results(log)))
  {
    if log != Empty {
      PlanIdsSnoc(Sent(log.prev), log.step);
      var ids := PlanIds(Sent(log));
      assert ids[|ids| - 1] == log.step.id;
      assert Named(PlanIds(Sent(log.prev))) by {
        assert forall i :: 0 <= i < |Sent(log.prev)| ==> PlanIds(Sent(log.prev))[i] == ids[i];
      }
      ResultsNamed(log.prev);
    }
  }

  /** The ids of the summary rows, in order. */
  function RowIds(st: State): seq<string> {
    FirstOccurrences(TouchedIds(st))
  }

  lemma PlanIdsConcat(a: seq<PlanStep>, b: seq<PlanStep>)
    ensures PlanIds(a + b) == PlanIds(a) + PlanIds(b)
  {
  }

  lemma PastIdsConcat(a: seq<StepResult>, b: seq<StepResult>)
    ensures PastIds(a + b) == PastIds(a) + PastIds(b)
  {
  }

  lemma CollapseRun(a: seq<string>, r: seq<string>, sent: seq<string>, waiting: seq<string>)
    requires FirstOccurrences(r) == sent
    ensures FirstOccurrences(a + r + waiting) == FirstOccurrences(a + (sent + waiting))
  {
    var x, y := a + r, a + sent;
    CollapseEnd(a, r);
    CollapseMiddle(x, y, waiting);
    Regroup(a, sent, waiting);
  }

  lemma Regroup(a: seq<string>, b: seq<string>, c: seq<string>)
    ensures (a + b) + c == a + (b + c)
  {
  }

  /** The rows of a genuine log: its steps, then the waiting ones, after whatever came earlier. */
  lemma LogRows(earlier: seq<string>, log: Log, sent: seq<string>, waiting: seq<string>)
    requires Genuine(log) && sent == PlanIds(Sent(log)) && Distinct(sent) && Named(sent)
    ensures FirstOccurrences(NonEmpty(earlier + PastIds(Results(log))) + waiting)
         == FirstOccurrences(NonEmpty(earlier) + (sent + waiting))
  {
    var r := PastIds(Results(log));
    ResultsNamed(log);
    ResultsFollowSteps(log);
    NonEmptyConcat(earlier, r);
    CollapseRun(NonEmpty(earlier), r, sent, waiting);
  }

  /** The ids of the steps of the adopted plan. */
  function PlannedIds(c: Config): seq<string> {
    PlanIds(c.origin)
  }

  /** The ids executed before the plan was adopted. */
  function Before(c: Config): seq<string> {
    NonEmpty(PastIds(c.earlier))
  }

  lemma TouchedAre(c: Config)
    requires Shape(c)
    ensures TouchedIds(c.st) == NonEmpty(PastIds(c.earlier) + PastIds(Results(c.log))) + PlanIds(c.st.plan)
  {
    PastIdsConcat(c.earlier, Results(c.log));
  }

  /** A row without an id can only be that of a waiting step. */
  lemma UnnamedWaits(c: Config)
    requires "" in RowIds(c.st)
    ensures "" in PlanIds(c.st.plan)
  {
    FirstOccurrencesFacts(TouchedIds(c.st));
    NonEmptyFacts(PastIds(c.st.pastSteps));
  }

  lemma DistinctParts(a: seq<string>, b: seq<string>)
    requires Distinct(a + b)
    ensures Distinct(a) && Distinct(b) && forall id :: id in a ==> id !in b
  {
    forall i, j | 0 <= i < j < |a|
      ensures a[i] != a[j]
    {
      assert (a + b)[i] == a[i] && (a + b)[j] == a[j];
    }
    forall i, j | 0 <= i < j < |b|
      ensures b[i] != b[j]
    {
      assert (a + b)[|a| + i] == b[i] && (a + b)[|a| + j] == b[j];
    }
    forall i, j | 0 <= i < |a| && 0 <= j < |b|
      ensures a[i] != b[j]
    {
      assert (a + b)[i] == a[i] && (a + b)[|a| + j] == b[j];
    }
  }

  /** In distinct ids an empty one among those that ran would show up again among the waiting. */
  lemma NamedUnlessWaiting(c: Config, ran: seq<string>)
    requires Distinct(ran + PlanIds(c.st.plan))
    requires forall id :: id in ran ==> id in RowIds(c.st)
    ensures Named(ran)
  {
    DistinctParts(ran, PlanIds(c.st.plan));
    if "" in ran {
      UnnamedWaits(c);
    }
    assert forall i :: 0 <= i < |ran| ==> ran[i] in ran;
  }

  lemma FreshApart(a: seq<string>, b: seq<string>)
    requires Distinct(FirstOccurrences(a) + b)
    ensures Fresh(b, a)
  {
    FirstOccurrencesFacts(a);
    DistinctParts(FirstOccurrences(a), b);
    assert forall i :: 0 <= i < |b| ==> b[i] in b;
  }

  /** Nothing of the plan is merged with what ran before it. */
  lemma RowIdsIff(c: Config)
    requires Shape(c) && Conserved(c)
    ensures RowIds(c.st) == FirstOccurrences(Before(c)) + PlannedIds(c)
       <==> Fresh(PlannedIds(c), Before(c)) && Named(PlanIds(Sent(c.log)))
  {
    var sent, waiting := PlanIds(Sent(c.log)), PlanIds(c.st.plan);
    PlanIdsConcat(Sent(c.log), c.st.plan);
    TouchedAre(c);
    hide *;
    if RowIds(c.st) == FirstOccurrences(Before(c)) + PlannedIds(c) {
      MergedNothing(c, sent, waiting);
    }
    if Fresh(PlannedIds(c), Before(c)) && Named(sent) {
      MergesNothing(c, sent, waiting);
    }
  }

  lemma MergedNothing(c: Config, sent: seq<string>, waiting: seq<string>)
    requires PlannedIds(c) == sent + waiting && waiting == PlanIds(c.st.plan)
    requires RowIds(c.st) == FirstOccurrences(Before(c)) + PlannedIds(c)
    ensures Fresh(PlannedIds(c), Before(c)) && Named(sent)
  {
    FirstOccurrencesFacts(TouchedIds(c.st));
    FreshApart(Before(c), PlannedIds(c));
    assert forall id :: id in sent ==> id in sent + waiting;
    NamedUnlessWaiting(c, sent);
  }

  lemma MergesNothing(c: Config, sent: seq<string>, waiting: seq<string>)
    requires Shape(c) && PlannedIds(c) == sent + waiting
    requires waiting == PlanIds(c.st.plan) && sent == PlanIds(Sent(c.log))
    requires TouchedIds(c.st) == NonEmpty(PastIds(c.earlier) + PastIds(Results(c.log))) + waiting
    requires Fresh(PlannedIds(c), Before(c)) && Named(sent)
    ensures RowIds(c.st) == FirstOccurrences(Before(c)) + PlannedIds(c)
  {
    DistinctParts(sent, waiting);
    LogRows(PastIds(c.earlier), c.log, sent, waiting);
    AppendIffFresh(Before(c), PlannedIds(c));
  }

  /** The rows are the ids executed before the last adoption, then the adopted plan, exactly when that plan
      repeats none of them and no id of its own, and no step without an id has run. Without a revision
      that leaves the plan alone. */
  lemma RowsAreThePlan(guarded: bool, sources: set<string>, budget: Budget, es: seq<Env>)
    requires Run(Start(guarded, sources, budget), es).node != ExecuteStep
    ensures var c := Run(Start(guarded, sources, budget), es);
            && (RowIds(c.st) == FirstOccurrences(Before(c)) + PlannedIds(c)
                <==> Fresh(PlannedIds(c), Before(c)) && Named(PlanIds(Sent(c.log))))
            && (c.st.planRevision == 0 ==>
                  (RowIds(c.st) == PlannedIds(c) <==> Distinct(PlannedIds(c)) && Named(PlanIds(Sent(c.log)))))
  {
    StartInv(guarded, sources, budget);
    RunInv(Start(guarded, sources, budget), es);
    hide *;
    RowsAtRest(Run(Start(guarded, sources, budget), es));
  }

  lemma RowsAtRest(c: Config)
    requires Inv(c) && c.node != ExecuteStep
    ensures RowIds(c.st) == FirstOccurrences(Before(c)) + PlannedIds(c)
       <==> Fresh(PlannedIds(c), Before(c)) && Named(PlanIds(Sent(c.log)))
    ensures c.st.planRevision == 0 ==>
              (RowIds(c.st) == PlannedIds(c) <==> Distinct(PlannedIds(c)) && Named(PlanIds(Sent(c.log))))
  {
    RestConserves(c);
    RowIdsIff(c);
    if c.st.planRevision == 0 {
      assert Before(c) == [];
      assert [] + PlannedIds(c) == PlannedIds(c);
    }
  }

  // ---------------------------------------------------------------- every step its own row

  /** The ids of all steps that ran or wait: those of the replaced plan that ran, then the adopted plan. */
  function AllSteps(c: Config): seq<PlanStep> {
    Sent(c.former) + c.origin
  }

  /** No two steps share an id, and only a waiting step may be without one. */
  predicate OwnRows(c: Config) {
    && Distinct(PlanIds(AllSteps(c)))
    && Named(PlanIds(Sent(c.former))) && Named(PlanIds(Sent(c.log)))
  }

  lemma FormerFirsts(former: Log)
    requires Genuine(former) && Distinct(PlanIds(Sent(former))) && Named(PlanIds(Sent(former)))
    ensures NonEmpty(PastIds(Results(former))) == PastIds(Results(former))
    ensures FirstOccurrences(PastIds(Results(former))) == PlanIds(Sent(former))
  {
    ResultsNamed(former);
    ResultsFollowSteps(former);
    NonEmptyFacts(PastIds(Results(former)));
  }

  lemma OwnRowsShow(c: Config)
    requires Shape(c) && Conserved(c) && FormerOk(c) && OwnRows(c)
    ensures RowIds(c.st) == PlanIds(AllSteps(c))
  {
    PlanIdsConcat(Sent(c.former), c.origin);
    DistinctParts(PlanIds(Sent(c.former)), PlannedIds(c));
    FormerFirsts(c.former);
    FirstOccurrencesFacts(Before(c));
    FreshFromFirsts(Before(c), PlanIds(Sent(c.former)), PlannedIds(c));
    RowIdsIff(c);
  }

  lemma FreshFromFirsts(a: seq<string>, firsts: seq<string>, b: seq<string>)
    requires firsts == FirstOccurrences(a) && Distinct(b) && forall id :: id in firsts ==> id !in b
    ensures Fresh(b, a)
  {
    FirstOccurrencesFacts(a);
    assert forall i :: 0 <= i < |b| ==> b[i] in b;
  }

  lemma ShownRowsAreOwn(c: Config)
    requires Conserved(c) && RowIds(c.st) == PlanIds(AllSteps(c))
    ensures OwnRows(c)
  {
    var former, sent, waiting := PlanIds(Sent(c.former)), PlanIds(Sent(c.log)), PlanIds(c.st.plan);
    FirstOccurrencesFacts(TouchedIds(c.st));
    PlanIdsConcat(Sent(c.former), c.origin);
    PlanIdsConcat(Sent(c.log), c.st.plan);
    assert former + (sent + waiting) == (former + sent) + waiting;
    NamedUnlessWaiting(c, former + sent);
    assert forall i :: 0 <= i < |former| ==> former[i] == (former + sent)[i];
    assert forall i :: 0 <= i < |sent| ==> sent[i] == (former + sent)[|former| + i];
  }

  /** Every step has a row of its own exactly when no two share an id and every step that ran has one. */
  lemma OwnRowsIff(c: Config)
    requires Shape(c) && Conserved(c) && FormerOk(c)
    ensures RowIds(c.st) == PlanIds(AllSteps(c)) <==> OwnRows(c)
  {
    hide *;
    if OwnRows(c) {
      OwnRowsShow(c);
    }
    if RowIds(c.st) == PlanIds(AllSteps(c)) {
      ShownRowsAreOwn(c);
    }
  }
}
