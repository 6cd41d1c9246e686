/** Token spend of a turn: what the edge check lets through. */
module AgentTokens {
  import opened Wrappers
  import opened AgentState
  import opened BudgetGuard
  import opened AgentLoop
  import opened AgentSteering

  function Overshoot(ceiling: int, p: nat, s: nat, r: nat): int {
    Max(p, ceiling + Max(s, r))
  }

  predicate Entering(n: Node) {
    n == LoadHistory || n == GuardrailInput || n == Planner
  }

  predicate Gated(n: Node) {
    n == AdvanceStep || n == ExecuteStep || n == VerifyStep || n == Replan
  }

  predicate Bounded(n: Node) {
    n == BudgetStep || n == BudgetReplan || n == SynthesizeFailure || n == GenerateResponse
  }

  /** Behind a gate the spend is within the ceiling, elsewhere before synthesis within `top`. */
  predicate SpendInv(c: Config, ceiling: int, top: int) {
    && c.st.budget.tokenCeiling == Some(ceiling)
    && (Entering(c.node) ==> c.st.Spend() == 0)
    && (Gated(c.node) ==> c.st.Spend() <= ceiling)
    && (Bounded(c.node) ==> c.st.Spend() <= top)
  }

  /** The call made at `c`, if any, keeps the spend within `top`. */
  predicate Fits(c: Config, e: Env, top: int) {
    c.node == Planner || c.node == VerifyStep || c.node == Replan ==> c.st.Spend() + e.Tokens() <= top
  }

  lemma SpendGate(c: Config, e: Env, ceiling: int, top: int)
    requires SpendInv(c, ceiling, top) && (c.node == BudgetStep || c.node == BudgetReplan)
    ensures SpendInv(Next(c, e), ceiling, top)
  {
    GuardHitIffOverCap(c.st, e.now);
  }

  lemma SpendPlanner(c: Config, e: Env, ceiling: int, top: int)
    requires SpendInv(c, ceiling, top) && c.node == Planner && Fits(c, e, top)
    ensures SpendInv(Next(c, e), ceiling, top)
  {
  }

  lemma SpendVerify(c: Config, e: Env, ceiling: int, top: int)
    requires SpendInv(c, ceiling, top) && c.node == VerifyStep && Fits(c, e, top)
    ensures SpendInv(Next(c, e), ceiling, top)
  {
  }

  lemma SpendReplan(c: Config, e: Env, ceiling: int, top: int)
    requires SpendInv(c, ceiling, top) && c.node == Replan && Fits(c, e, top)
    ensures SpendInv(Next(c, e), ceiling, top)
  {
  }

  lemma SpendIdle(c: Config, e: Env, ceiling: int, top: int)
    requires SpendInv(c, ceiling, top)
    requires c.node !in {Planner, VerifyStep, Replan, BudgetStep, BudgetReplan}
    ensures SpendInv(Next(c, e), ceiling, top)
  {
    var d := Next(c, e);
    assert c.node != GenerateResponse ==> d.st.Spend() == c.st.Spend();
    assert d.st.budget == c.st.budget;
  }

  lemma SpendStep(c: Config, e: Env, ceiling: int, top: int)
    requires SpendInv(c, ceiling, top) && Fits(c, e, top)
    ensures SpendInv(Next(c, e), ceiling, top)
  {
    match c.node
    case BudgetStep => SpendGate(c, e, ceiling, top);
    case BudgetReplan => SpendGate(c, e, ceiling, top);
    case Planner => SpendPlanner(c, e, ceiling, top);
    case VerifyStep => SpendVerify(c, e, ceiling, top);
    case Replan => SpendReplan(c, e, ceiling, top);
    case _ => SpendIdle(c, e, ceiling, top);
  }

  lemma {:induction false} SpendAlongRun(c: Config, es: seq<Env>, ceiling: int, p: nat, s: nat, r: nat)
    requires SpendInv(c, ceiling, Overshoot(ceiling, p, s, r)) && Metered(c, es, p, s, r)
    ensures SpendInv(Run(c, es), ceiling, Overshoot(ceiling, p, s, r))
  {
    if es != [] {
      SpendAlongRun(c, es[..|es| - 1], ceiling, p, s, r);
      SpendStep(Run(c, es[..|es| - 1]), es[|es| - 1], ceiling, Overshoot(ceiling, p, s, r));
    }
  }

  /** The synthesizer is entered with at most one step's (or one revision's) overshoot. */
  lemma OneStepOvershoot(
      guarded: bool, sources: set<string>, budget: Budget, es: seq<Env>,
      ceiling: int, p: nat, s: nat, r: nat)
    requires budget.tokenCeiling == Some(ceiling)
    requires Metered(Start(guarded, sources, budget), es, p, s, r)
    requires Run(Start(guarded, sources, budget), es).node == GenerateResponse
    ensures Run(Start(guarded, sources, budget), es).st.Spend() <= Overshoot(ceiling, p, s, r)
  {
    SpendAlongRun(Start(guarded, sources, budget), es, ceiling, p, s, r);
  }
}
