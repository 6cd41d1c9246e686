/** The absolute spend of a turn, itemised by the calls that cost tokens. */
module AgentSpend {
  import opened AgentState
  import opened AgentInvariant
  import opened AgentLoop
  import opened AgentTheorems
  import opened AgentSteering

  function Charge(n: Node, p: nat, s: nat, r: nat): nat {
    if n == Planner then p else if n == VerifyStep then s else if n == Replan then r else 0
  }

  /** The nodes a run has executed. */
  function NodesRun(c: Config, es: seq<Env>): seq<Node> {
    if es == [] then [] else NodesRun(c, es[..|es| - 1]) + [Run(c, es[..|es| - 1]).node]
  }

  /** What executing `nodes` may have cost. */
  function Charged(nodes: seq<Node>, p: nat, s: nat, r: nat): nat {
    if nodes == [] then 0
    else Charged(nodes[..|nodes| - 1], p, s, r) + Charge(nodes[|nodes| - 1], p, s, r)
  }

  function Count(nodes: seq<Node>, n: Node): nat {
    if nodes == [] then 0
    else Count(nodes[..|nodes| - 1], n) + (if nodes[|nodes| - 1] == n then 1 else 0)
  }

  lemma Snoc(nodes: seq<Node>, n: Node, m: Node, p: nat, s: nat, r: nat)
    ensures Charged(nodes + [n], p, s, r) == Charged(nodes, p, s, r) + Charge(n, p, s, r)
    ensures Count(nodes + [n], m) == Count(nodes, m) + (if n == m then 1 else 0)
  {
    assert (nodes + [n])[..|nodes|] == nodes;
  }

  lemma {:induction false} VisitsAreCounts(c: Config, es: seq<Env>, n: Node)
    ensures Visits(c, es, n) == Count(NodesRun(c, es), n)
  {
    if es != [] {
      VisitsAreCounts(c, es[..|es| - 1], n);
      Snoc(NodesRun(c, es[..|es| - 1]), Run(c, es[..|es| - 1]).node, n, 0, 0, 0);
    }
  }

  /** The synthesizer has not answered yet. */
  predicate Unanswered(n: Node) {
    n !in {FormatResponse, GuardrailOutput, HandleClarification, End, Raised}
  }

  predicate Costs(n: Node) {
    n == Planner || n == VerifyStep || n == Replan
  }

  predicate ChargeDelta(c: Config, d: Config, e: Env) {
    Unanswered(d.node) ==>
      && Unanswered(c.node)
      && d.st.Spend() <= c.st.Spend() + (if Costs(c.node) then e.Tokens() else 0)
  }

  lemma VerifyCharges(c: Config, e: Env)
    requires c.node == VerifyStep
    ensures ChargeDelta(c, Next(c, e), e)
  {
  }

  lemma StepCharges(c: Config, e: Env)
    ensures ChargeDelta(c, Next(c, e), e)
  {
    if c.node == VerifyStep {
      VerifyCharges(c, e);
    } else if c.node == Planner {
    } else if c.node == Replan {
    } else if c.node == BudgetStep || c.node == BudgetReplan {
    } else if c.node == ExecuteStep || c.node == AdvanceStep {
    }
  }

  lemma {:induction false} SpendIsCharged(c: Config, es: seq<Env>, p: nat, s: nat, r: nat)
    requires c.st.Spend() == 0 && Metered(c, es, p, s, r)
    ensures Unanswered(Run(c, es).node) ==> Run(c, es).st.Spend() <= Charged(NodesRun(c, es), p, s, r)
  {
    if es != [] {
      SpendIsCharged(c, es[..|es| - 1], p, s, r);
      Snoc(NodesRun(c, es[..|es| - 1]), Run(c, es[..|es| - 1]).node, Planner, p, s, r);
      StepCharges(Run(c, es[..|es| - 1]), es[|es| - 1]);
    }
  }

  // ---------------------------------------------------------------- the bill

  /** The step asks a model: the planner, the verifier when its call does not raise, a revision, the
      synthesizer. */
  predicate Asks(c: Config, e: Env) {
    c.node in {Planner, Replan, GenerateResponse} || (c.node == VerifyStep && e.grade.Some?)
  }

  /** The input and output tokens of every model call of the run. */
  function Bill(c: Config, es: seq<Env>): (nat, nat) {
    if es == [] then (0, 0)
    else
      var before, e := Bill(c, es[..|es| - 1]), es[|es| - 1];
      if Asks(Run(c, es[..|es| - 1]), e) then (before.0 + e.inTokens, before.1 + e.outTokens) else before
  }

  predicate BillDelta(c: Config, d: Config, e: Env) {
    && d.st.inTokens == c.st.inTokens + (if Asks(c, e) then e.inTokens else 0)
    && d.st.outTokens == c.st.outTokens + (if Asks(c, e) then e.outTokens else 0)
  }

  lemma VerifyBills(c: Config, e: Env)
    requires Inv(c) && c.node == VerifyStep
    ensures BillDelta(c, Next(c, e), e)
  {
    LastResult(c);
  }

  lemma PlanBills(c: Config, e: Env)
    requires Inv(c) && (c.node == Planner || c.node == Replan)
    ensures BillDelta(c, Next(c, e), e)
  {
  }

  lemma RestBills(c: Config, e: Env)
    requires c.node !in {Planner, Replan, VerifyStep}
    ensures BillDelta(c, Next(c, e), e)
  {
  }

  lemma StepBills(c: Config, e: Env)
    requires Inv(c)
    ensures BillDelta(c, Next(c, e), e)
  {
    hide Next, Inv, BillDelta;
    if c.node == VerifyStep {
      VerifyBills(c, e);
    } else if c.node == Planner || c.node == Replan {
      PlanBills(c, e);
    } else {
      RestBills(c, e);
    }
  }

  lemma {:induction false} RunBills(c: Config, es: seq<Env>)
    requires Inv(c) && c.st.inTokens == c.st.outTokens == 0
    ensures (Run(c, es).st.inTokens, Run(c, es).st.outTokens) == Bill(c, es)
  {
    hide Next, Inv;
    if es != [] {
      var prefix := es[..|es| - 1];
      RunBills(c, prefix);
      RunInv(c, prefix);
      StepBills(Run(c, prefix), es[|es| - 1]);
    }
  }

  /** The counters of a turn are the sum over its model calls, nothing counted twice and nothing left out. */
  lemma SpendIsTheBill(guarded: bool, sources: set<string>, budget: Budget, es: seq<Env>)
    ensures var c := Start(guarded, sources, budget);
            (Run(c, es).st.inTokens, Run(c, es).st.outTokens) == Bill(c, es)
  {
    StartInv(guarded, sources, budget);
    RunBills(Start(guarded, sources, budget), es);
  }

  function Itemised(planned: nat, graded: nat, revised: nat, p: nat, s: nat, r: nat): nat {
    planned * p + graded * s + revised * r
  }

  lemma OneMore(v: nat, cost: nat)
    ensures (v + 1) * cost == v * cost + cost
  {
  }

  lemma ItemisedNext(n: Node, planned: nat, graded: nat, revised: nat, p: nat, s: nat, r: nat)
    ensures Itemised(planned + (if n == Planner then 1 else 0), graded + (if n == VerifyStep then 1 else 0),
                     revised + (if n == Replan then 1 else 0), p, s, r)
         == Itemised(planned, graded, revised, p, s, r) + Charge(n, p, s, r)
  {
    OneMore(planned, p);
    OneMore(graded, s);
    OneMore(revised, r);
  }

  lemma {:induction false} ChargedByCounts(nodes: seq<Node>, p: nat, s: nat, r: nat)
    ensures Charged(nodes, p, s, r)
         == Itemised(Count(nodes, Planner), Count(nodes, VerifyStep), Count(nodes, Replan), p, s, r)
  {
    if nodes != [] {
      var before := nodes[..|nodes| - 1];
      ChargedByCounts(before, p, s, r);
      ItemisedNext(nodes[|nodes| - 1], Count(before, Planner), Count(before, VerifyStep), Count(before, Replan),
                   p, s, r);
    }
  }

  predicate Entrance(n: Node) {
    n == LoadHistory || n == GuardrailInput || n == Planner
  }

  /** The planner runs once, and every execution is graded once. */
  predicate Paired(c: Config, planned: nat, executed: nat, graded: nat) {
    && planned + (if Entrance(c.node) then 1 else 0) <= 1
    && graded + (if c.node == VerifyStep then 1 else 0) == executed
  }

  lemma PairedNext(c: Config, e: Env, planned: nat, executed: nat, graded: nat)
    requires Paired(c, planned, executed, graded)
    ensures Paired(Next(c, e), planned + (if c.node == Planner then 1 else 0),
                   executed + (if c.node == ExecuteStep then 1 else 0),
                   graded + (if c.node == VerifyStep then 1 else 0))
  {
    if c.node == VerifyStep {
    } else if c.node == Planner {
    } else if c.node == Replan {
    }
  }

  lemma {:induction false} PairedRun(c: Config, es: seq<Env>)
    requires c.node == LoadHistory
    ensures Paired(Run(c, es), Visits(c, es, Planner), Visits(c, es, ExecuteStep), Visits(c, es, VerifyStep))
  {
    if es != [] {
      var before := es[..|es| - 1];
      PairedRun(c, before);
      PairedNext(Run(c, before), es[|es| - 1], Visits(c, before, Planner), Visits(c, before, ExecuteStep),
                 Visits(c, before, VerifyStep));
    }
  }

  lemma MoreVisitsCostMore(v: nat, cap: nat, cost: nat)
    requires v <= cap
    ensures v * cost <= cap * cost
  {
  }

  /** With or without a token ceiling, a turn spends at most one planner call, one grading per
      allowed execution and one revision before it synthesizes. */
  lemma SpendIsItemised(guarded: bool, sources: set<string>, budget: Budget, es: seq<Env>, p: nat, s: nat, r: nat)
    requires Metered(Start(guarded, sources, budget), es, p, s, r)
    requires Run(Start(guarded, sources, budget), es).node == GenerateResponse
    ensures Run(Start(guarded, sources, budget), es).st.Spend() <= p + ExecutionCap(budget) * s + r
  {
    hide *;
    var c := Start(guarded, sources, budget);
    StartsUnspent(guarded, sources, budget);
    SpendIsCharged(c, es, p, s, r);
    ChargedByCounts(NodesRun(c, es), p, s, r);
    VisitsAreCounts(c, es, Planner);
    VisitsAreCounts(c, es, VerifyStep);
    VisitsAreCounts(c, es, Replan);
    PairedRun(c, es);
    VisitsCounted(guarded, sources, budget, es);
    CapsHoldAtDispatch(guarded, sources, budget, es);
    ExecutionsBounded(guarded, sources, budget, es);
    AtSynthesis(Run(c, es), Visits(c, es, Planner), Visits(c, es, ExecuteStep), Visits(c, es, VerifyStep),
                Visits(c, es, Replan), Visits(c, es, SynthesizeFailure));
    ItemisedWithin(Visits(c, es, Planner), Visits(c, es, VerifyStep), Visits(c, es, Replan), ExecutionCap(budget),
                   p, s, r);
  }

  lemma StartsUnspent(guarded: bool, sources: set<string>, budget: Budget)
    ensures Start(guarded, sources, budget).st.Spend() == 0 && Start(guarded, sources, budget).node == LoadHistory
  {
  }

  lemma AtSynthesis(c: Config, planned: nat, executed: nat, graded: nat, revised: nat, failures: nat)
    requires Paired(c, planned, executed, graded) && Counted(c, executed, revised, failures)
    requires c.node == GenerateResponse
    ensures planned <= 1 && graded <= |c.st.pastSteps| && Unanswered(c.node)
  {
  }

  lemma ItemisedWithin(planned: nat, graded: nat, revised: nat, cap: nat, p: nat, s: nat, r: nat)
    requires planned <= 1 && graded <= cap && revised <= 1
    ensures Itemised(planned, graded, revised, p, s, r) <= p + cap * s + r
  {
    MoreVisitsCostMore(planned, 1, p);
    MoreVisitsCostMore(graded, cap, s);
    MoreVisitsCostMore(revised, 1, r);
  }
}
