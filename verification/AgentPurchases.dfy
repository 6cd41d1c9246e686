/** The ways a turn can spend tokens: attempts that pass or fail, each for a chosen price. */
module AgentPurchases {
  import opened Wrappers
  import opened AgentState
  import opened BudgetGuard
  import opened AgentLoop
  import opened AgentInvariant
  import opened AgentSteering

  /** What the budget snapshot of a turn looks like: all integer caps set, the deadline optional. */
  predicate Snapshot(b: Budget) {
    b.maxSteps.Some? && b.maxRetries.Some? && b.maxRevisions.Some? && b.tokenCeiling.Some?
  }

  /** The spend of `n` gradings on top of the plan. */
  function Cum(p: nat, s: nat, n: nat): nat {
    if n == 0 then p else Cum(p, s, n - 1) + s
  }

  lemma {:induction false} CumIsProduct(p: nat, s: nat, n: nat)
    ensures Cum(p, s, n) == p + n * s
  {
    if n > 0 {
      CumIsProduct(p, s, n - 1);
    }
  }

  lemma {:induction false} CumGrows(p: nat, s: nat, n: nat, m: nat)
    requires n <= m
    ensures Cum(p, s, n) <= Cum(p, s, m)
  {
    if n < m {
      CumGrows(p, s, n, m - 1);
    }
  }

  const SOURCE: string := "src"

  /** The snapshot, the revisions already made, and the retries a step may count. */
  datatype Site = Site(b: Budget, v: nat, t: nat)

  /** What every gate has in common: `k` executions, `w` steps waiting, spend `y`. */
  predicate AtGate(c: Config, q: Site, k: nat, w: nat, y: nat) {
    && Inv(c) && c.st.budget == q.b && c.st.planRevision == q.v && RetryCount(c.st) <= q.t
    && c.st.sourceIds == {SOURCE}
    && |c.st.pastSteps| == k && |c.st.plan| == w && c.st.Spend() == y
  }

  /** Ready for the next step. */
  predicate At(c: Config, q: Site, k: nat, w: nat, y: nat) {
    AtGate(c, q, k, w, y) && c.node == BudgetStep && Ready(c) && !Pending(c)
  }

  /** Ready for a retry. */
  predicate AtRetry(c: Config, q: Site, k: nat, w: nat, y: nat) {
    AtGate(c, q, k, w, y) && c.node == BudgetStep && Pending(c)
  }

  /** Ready for a revision. */
  predicate AtRevision(c: Config, q: Site, k: nat, w: nat, y: nat) {
    AtGate(c, q, k, w, y) && c.node == BudgetReplan
  }

  /** The caps let execution `k + 1` start on a spend of `y`. */
  predicate Room(q: Site, k: nat, y: nat) {
    && Snapshot(q.b) && k < q.b.maxSteps.value && y <= q.b.tokenCeiling.value
    && q.t <= q.b.maxRetries.value && q.v <= q.b.maxRevisions.value
  }

  lemma GateIsOpen(c: Config, q: Site, k: nat, w: nat, y: nat)
    requires AtGate(c, q, k, w, y) && Room(q, k, y)
    ensures WithinCaps(c.st)
  {
  }

  // ---------------------------------------------------------------- single attempts

  /** The next step passes at once. */
  lemma PassAtOnce(start: Config, c: Config, q: Site, k: nat, w: nat, y: nat, x: nat, p: nat, s: nat, r: nat)
      returns (d: Config)
    requires Leads(start, c, p, s, r, q.v) && x <= s
    requires At(c, q, k, w, y) && Room(q, k, y) && w >= 2
    ensures Leads(start, d, p, s, r, q.v) && At(d, q, k + 1, w - 1, y + x)
  {
    GateIsOpen(c, q, k, w, y);
    d := Attempt(start, c, Acceptable, x, p, s, r, q.v);
    AttemptLeaves(c, d, Acceptable, x);
  }

  /** The last step passes: synthesis. */
  lemma PassLast(start: Config, c: Config, q: Site, k: nat, y: nat, x: nat, p: nat, s: nat, r: nat)
      returns (d: Config)
    requires Leads(start, c, p, s, r, q.v) && x <= s
    requires At(c, q, k, 1, y) && Room(q, k, y)
    ensures Leads(start, d, p, s, r, q.v) && d.node == GenerateResponse && d.st.Spend() == y + x
  {
    GateIsOpen(c, q, k, 1, y);
    d := Attempt(start, c, Acceptable, x, p, s, r, q.v);
  }

  /** The next step fails once. */
  lemma FailOnce(start: Config, c: Config, q: Site, k: nat, w: nat, y: nat, x: nat, p: nat, s: nat, r: nat)
      returns (d: Config)
    requires Leads(start, c, p, s, r, q.v) && x <= s && q.t >= 1
    requires At(c, q, k, w, y) && Room(q, k, y)
    ensures Leads(start, d, p, s, r, q.v) && w >= 1 && AtRetry(d, q, k + 1, w - 1, y + x)
  {
    GateIsOpen(c, q, k, w, y);
    d := Attempt(start, c, Unacceptable, x, p, s, r, q.v);
    AttemptLeaves(c, d, Unacceptable, x);
  }

  /** The retry passes. */
  lemma PassRetry(start: Config, c: Config, q: Site, k: nat, w: nat, y: nat, x: nat, p: nat, s: nat, r: nat)
      returns (d: Config)
    requires Leads(start, c, p, s, r, q.v) && x <= s && q.t >= 1
    requires AtRetry(c, q, k, w, y) && Room(q, k, y) && w >= 1
    ensures Leads(start, d, p, s, r, q.v) && At(d, q, k + 1, w, y + x)
  {
    GateIsOpen(c, q, k, w, y);
    d := Attempt(start, c, Acceptable, x, p, s, r, q.v);
    AttemptLeaves(c, d, Acceptable, x);
  }

  /** The last retry passes: synthesis. */
  lemma PassLastRetry(start: Config, c: Config, q: Site, k: nat, y: nat, x: nat, p: nat, s: nat, r: nat)
      returns (d: Config)
    requires Leads(start, c, p, s, r, q.v) && x <= s
    requires AtRetry(c, q, k, 0, y) && Room(q, k, y)
    ensures Leads(start, d, p, s, r, q.v) && d.node == GenerateResponse && d.st.Spend() == y + x
  {
    GateIsOpen(c, q, k, 0, y);
    d := Attempt(start, c, Acceptable, x, p, s, r, q.v);
  }

  /** The retry fails: the replan gate. */
  lemma FailRetry(start: Config, c: Config, q: Site, k: nat, w: nat, y: nat, x: nat, p: nat, s: nat, r: nat)
      returns (d: Config)
    requires Leads(start, c, p, s, r, 0) && x <= s && q.v == 0 && q.t >= 1
    requires AtRetry(c, q, k, w, y) && Room(q, k, y)
    ensures Leads(start, d, p, s, r, 0) && AtRevision(d, q, k + 1, w, y + x)
  {
    GateIsOpen(c, q, k, w, y);
    d := Attempt(start, c, Unacceptable, x, p, s, r);
  }

  // ---------------------------------------------------------------- many attempts

  /** The spend after `n` gradings on top of `base` that pay as much as they can on the way to `target`. */
  function PaidUpTo(base: nat, s: nat, target: nat, n: nat): nat {
    Min(Cum(base, s, n), target)
  }

  function Installment(base: nat, s: nat, target: nat, n: nat): (x: nat)
    ensures x <= s && PaidUpTo(base, s, target, n) + x == PaidUpTo(base, s, target, n + 1)
  {
    assert Cum(base, s, n + 1) == Cum(base, s, n) + s;
    PaidUpTo(base, s, target, n + 1) - PaidUpTo(base, s, target, n)
  }

  lemma PaidBelow(base: nat, s: nat, target: nat, n: nat)
    ensures PaidUpTo(base, s, target, n) <= target
  {
  }

  /** Room for the last of some executions at `target` is room for every earlier one at less. */
  lemma RoomBelow(q: Site, last: nat, target: nat, k: nat, y: nat)
    requires Room(q, last, target) && k <= last && y <= target
    ensures Room(q, k, y)
  {
  }

  lemma RoomFor(q: Site, last: nat, target: nat, k: nat, base: nat, s: nat)
    requires Room(q, last, target) && k <= last
    ensures Room(q, k, PaidUpTo(base, s, target, k)) && Room(q, k, target)
  {
    PaidBelow(base, s, target, k);
    RoomBelow(q, last, target, k, PaidUpTo(base, s, target, k));
  }

  /** What a schedule of payments leads to. */
  ghost predicate Scheduled(start: Config, c: Config, q: Site, base: nat, target: nat, k: nat, w: nat,
                            p: nat, s: nat, r: nat) {
    Leads(start, c, p, s, r, q.v) && At(c, q, k, w, PaidUpTo(base, s, target, k))
  }

  lemma FailThenPass(start: Config, c: Config, q: Site, base: nat, target: nat, k: nat, w: nat,
                     p: nat, s: nat, r: nat) returns (d: Config)
    requires Scheduled(start, c, q, base, target, k, w, p, s, r)
    requires Room(q, k + 1, target) && w >= 2 && q.t >= 1
    ensures Scheduled(start, d, q, base, target, k + 2, w - 1, p, s, r)
  {
    RoomFor(q, k + 1, target, k, base, s);
    RoomFor(q, k + 1, target, k + 1, base, s);
    hide Leads, At, AtGate, AtRetry, Room, PaidUpTo;
    var f := FailOnce(start, c, q, k, w, PaidUpTo(base, s, target, k), Installment(base, s, target, k), p, s, r);
    d := PassRetry(start, f, q, k + 1, w - 1, PaidUpTo(base, s, target, k + 1), Installment(base, s, target, k + 1),
                   p, s, r);
  }

  /** The next `pairs` steps each fail once and then pass. */
  lemma {:induction false} SpendPairs(start: Config, c: Config, q: Site, base: nat, target: nat, k: nat, w: nat,
                                      pairs: nat, p: nat, s: nat, r: nat) returns (d: Config)
    requires Scheduled(start, c, q, base, target, k, w, p, s, r)
    requires pairs < w && Room(q, k + 2 * pairs, target) && q.t >= 1
    ensures Scheduled(start, d, q, base, target, k + 2 * pairs, w - pairs, p, s, r)
    decreases pairs
  {
    hide *;
    d := c;
    if pairs > 0 {
      RoomBelow(q, k + 2 * pairs, target, k + 1, target);
      d := FailThenPass(start, c, q, base, target, k, w, p, s, r);
      d := SpendPairs(start, d, q, base, target, k + 2, w - 1, pairs - 1, p, s, r);
    }
  }

  lemma PassOnce(start: Config, c: Config, q: Site, base: nat, target: nat, k: nat, w: nat,
                 p: nat, s: nat, r: nat) returns (d: Config)
    requires Scheduled(start, c, q, base, target, k, w, p, s, r) && Room(q, k, target) && w >= 2
    ensures Scheduled(start, d, q, base, target, k + 1, w - 1, p, s, r)
  {
    RoomFor(q, k, target, k, base, s);
    hide Leads, At, AtGate, Room, PaidUpTo;
    d := PassAtOnce(start, c, q, k, w, PaidUpTo(base, s, target, k), Installment(base, s, target, k), p, s, r);
  }

  /** The next `passes` steps each pass at once. */
  lemma {:induction false} SpendPasses(start: Config, c: Config, q: Site, base: nat, target: nat, k: nat, w: nat,
                                       passes: nat, p: nat, s: nat, r: nat) returns (d: Config)
    requires Scheduled(start, c, q, base, target, k, w, p, s, r)
    requires passes < w && Room(q, k + passes, target)
    ensures Scheduled(start, d, q, base, target, k + passes, w - passes, p, s, r)
    decreases passes
  {
    hide *;
    d := c;
    if passes > 0 {
      RoomBelow(q, k + passes, target, k, target);
      d := PassOnce(start, c, q, base, target, k, w, p, s, r);
      d := SpendPasses(start, d, q, base, target, k + 1, w - 1, passes - 1, p, s, r);
    }
  }

  /** A turn can adopt a plan of `w` steps for as much of `target` as the planner may cost. */
  lemma Begin(guarded: bool, q: Site, w: nat, target: nat, p: nat, s: nat, r: nat) returns (c: Config)
    requires 1 <= w <= MAX_PLAN && q.v == 0
    ensures Scheduled(Start(guarded, {SOURCE}, q.b), c, q, p, target, 0, w, p, s, r)
  {
    c := AdoptPlan(guarded, {SOURCE}, q.b, Raw(w, SOURCE), PaidUpTo(p, s, target, 0), s, r, p);
    assert !Pending(c);
  }

  // ---------------------------------------------------------------- a grading on top

  /** Synthesis is entered with spend `y`. */
  ghost predicate Enters(start: Config, d: Config, y: nat, p: nat, s: nat, r: nat, n: nat) {
    Leads(start, d, p, s, r, n) && d.node == GenerateResponse && d.st.Spend() == y
  }

  lemma PassOnTop(start: Config, c: Config, q: Site, base: nat, target: nat, k: nat, p: nat, s: nat, r: nat)
      returns (d: Config)
    requires Scheduled(start, c, q, base, target, k, 1, p, s, r) && Room(q, k, target)
    ensures Enters(start, d, PaidUpTo(base, s, target, k) + s, p, s, r, q.v)
  {
    RoomFor(q, k, target, k, base, s);
    hide Leads, At, AtGate, Room, PaidUpTo;
    d := PassLast(start, c, q, k, PaidUpTo(base, s, target, k), s, p, s, r);
  }

  lemma RetryOnTop(start: Config, c: Config, q: Site, base: nat, target: nat, k: nat, p: nat, s: nat, r: nat)
      returns (d: Config)
    requires Scheduled(start, c, q, base, target, k, 1, p, s, r) && Room(q, k + 1, target) && q.t >= 1
    ensures Enters(start, d, PaidUpTo(base, s, target, k + 1) + s, p, s, r, q.v)
  {
    RoomFor(q, k + 1, target, k, base, s);
    RoomFor(q, k + 1, target, k + 1, base, s);
    hide Leads, At, AtGate, AtRetry, Room, PaidUpTo;
    var f := FailOnce(start, c, q, k, 1, PaidUpTo(base, s, target, k), Installment(base, s, target, k), p, s, r);
    d := PassLastRetry(start, f, q, k + 1, PaidUpTo(base, s, target, k + 1), s, p, s, r);
  }

  /** `2 * pairs + odd` more executions, and one last grading on top. */
  lemma GradingOnTop(start: Config, c: Config, q: Site, base: nat, target: nat, k: nat, pairs: nat, odd: nat,
                     p: nat, s: nat, r: nat) returns (d: Config)
    requires Scheduled(start, c, q, base, target, k, pairs + 1, p, s, r) && odd <= 1
    requires Room(q, k + 2 * pairs + odd, target) && q.t >= 1
    ensures Enters(start, d, PaidUpTo(base, s, target, k + 2 * pairs + odd) + s, p, s, r, q.v)
  {
    hide *;
    RoomBelow(q, k + 2 * pairs + odd, target, k + 2 * pairs, target);
    var f := SpendPairs(start, c, q, base, target, k, pairs + 1, pairs, p, s, r);
    if odd == 1 {
      d := RetryOnTop(start, f, q, base, target, k + 2 * pairs, p, s, r);
    } else {
      d := PassOnTop(start, f, q, base, target, k + 2 * pairs, p, s, r);
    }
  }

  /** Without a revision and without retries: `n` steps pass, and one more. */
  lemma StepOnTop(guarded: bool, q: Site, n: nat, target: nat, p: nat, s: nat, r: nat) returns (d: Config)
    requires n < MAX_PLAN && Room(q, n, target) && q.v == 0
    ensures Enters(Start(guarded, {SOURCE}, q.b), d, PaidUpTo(p, s, target, n) + s, p, s, r, 0)
  {
    hide *;
    var start := Start(guarded, {SOURCE}, q.b);
    var c := Begin(guarded, q, n + 1, target, p, s, r);
    var f := SpendPasses(start, c, q, p, target, 0, n + 1, n, p, s, r);
    d := PassOnTop(start, f, q, p, target, n, p, s, r);
  }

  lemma Halves(n: nat) returns (pairs: nat, odd: nat)
    ensures n == 2 * pairs + odd && odd <= 1
    ensures n < 2 * MAX_PLAN ==> pairs < MAX_PLAN
  {
    pairs, odd := n / 2, n % 2;
  }

  /** Without a revision: `n` executions, retried as need be, and one more. */
  lemma RetriesOnTop(guarded: bool, q: Site, n: nat, target: nat, p: nat, s: nat, r: nat) returns (d: Config)
    requires n < 2 * MAX_PLAN && Room(q, n, target) && q.v == 0 && q.t >= 1
    ensures Enters(Start(guarded, {SOURCE}, q.b), d, PaidUpTo(p, s, target, n) + s, p, s, r, 0)
  {
    hide *;
    var pairs, odd := Halves(n);
    var c := Begin(guarded, q, pairs + 1, target, p, s, r);
    d := GradingOnTop(Start(guarded, {SOURCE}, q.b), c, q, p, target, 0, pairs, odd, p, s, r);
  }

  // ---------------------------------------------------------------- a revision on top

  /** Two failures of the next step: the replan gate. */
  lemma FailTwice(start: Config, c: Config, q: Site, base: nat, target: nat, k: nat, w: nat,
                  p: nat, s: nat, r: nat) returns (d: Config)
    requires Scheduled(start, c, q, base, target, k, w, p, s, r) && q.v == 0
    requires Room(q, k + 1, target) && w >= 1 && q.t >= 1
    ensures Leads(start, d, p, s, r, 0) && AtRevision(d, q, k + 2, w - 1, PaidUpTo(base, s, target, k + 2))
  {
    RoomFor(q, k + 1, target, k, base, s);
    RoomFor(q, k + 1, target, k + 1, base, s);
    hide Leads, At, AtGate, AtRetry, AtRevision, Room, PaidUpTo;
    var f := FailOnce(start, c, q, k, w, PaidUpTo(base, s, target, k), Installment(base, s, target, k), p, s, r);
    d := FailRetry(start, f, q, k + 1, w - 1, PaidUpTo(base, s, target, k + 1), Installment(base, s, target, k + 1),
                   p, s, r);
  }

  /** `pairs` steps that need a retry, `odd` steps that pass at once, then one that fails twice. */
  lemma ReachRevision(guarded: bool, q: Site, pairs: nat, odd: nat, w: nat, target: nat, p: nat, s: nat, r: nat)
      returns (d: Config)
    requires pairs + odd < w <= MAX_PLAN && Room(q, 2 * pairs + odd + 1, target) && q.v == 0 && q.t >= 1
    ensures Leads(Start(guarded, {SOURCE}, q.b), d, p, s, r, 0)
    ensures var n := 2 * pairs + odd + 2;
            AtRevision(d, q, n, w - pairs - odd - 1, PaidUpTo(p, s, target, n))
  {
    hide *;
    var start := Start(guarded, {SOURCE}, q.b);
    var c := Begin(guarded, q, w, target, p, s, r);
    RoomBelow(q, 2 * pairs + odd + 1, target, 2 * pairs, target);
    var f := SpendPairs(start, c, q, p, target, 0, w, pairs, p, s, r);
    RoomBelow(q, 2 * pairs + odd + 1, target, 2 * pairs + odd, target);
    var g := SpendPasses(start, f, q, p, target, 2 * pairs, w - pairs, odd, p, s, r);
    d := FailTwice(start, g, q, p, target, 2 * pairs + odd, w - pairs - odd, p, s, r);
  }

  /** Any number of executions is made up of retried steps, at most one that passes at once, and two failures. */
  lemma SplitCount(n: nat) returns (pairs: nat, odd: nat)
    requires 2 <= n <= 2 * MAX_PLAN
    ensures n == 2 * pairs + odd + 2 && pairs + odd < MAX_PLAN
  {
    pairs, odd := (n - 2) / 2, (n - 2) % 2;
  }

  /** The replan gate after `n` executions. */
  lemma ReachRevisionAt(guarded: bool, q: Site, n: nat, target: nat, p: nat, s: nat, r: nat)
      returns (d: Config, w: nat)
    requires 2 <= n <= 2 * MAX_PLAN && Room(q, n - 1, target) && q.v == 0 && q.t >= 1
    ensures Leads(Start(guarded, {SOURCE}, q.b), d, p, s, r, 0)
    ensures AtRevision(d, q, n, w, PaidUpTo(p, s, target, n))
  {
    hide *;
    var pairs, odd := SplitCount(n);
    d := ReachRevision(guarded, q, pairs, odd, MAX_PLAN, target, p, s, r);
    w := MAX_PLAN - pairs - odd - 1;
  }

  lemma RevisionGate(c: Config, q: Site, k: nat, w: nat, y: nat)
    requires AtRevision(c, q, k, w, y) && Room(q, k, y) && q.v == 0
    ensures Inv(c) && c.node == BudgetReplan && c.st.planRevision == 0 && WithinCaps(c.st) && c.st.Spend() == y
    ensures c.st.sourceIds == {SOURCE}
  {
  }

  /** A failed revision right after `n` executions that spent as much of `target` as they can. */
  lemma RevisionOnTop(guarded: bool, q: Site, n: nat, target: nat, p: nat, s: nat, r: nat) returns (d: Config)
    requires 2 <= n <= 2 * MAX_PLAN && Room(q, n, target) && q.v == 0 && q.t >= 1
    ensures Enters(Start(guarded, {SOURCE}, q.b), d, PaidUpTo(p, s, target, n) + r, p, s, r, 1)
  {
    hide *;
    RoomBelow(q, n, target, n - 1, target);
    RoomFor(q, n, target, n, p, s);
    var h, w := ReachRevisionAt(guarded, q, n, target, p, s, r);
    RevisionGate(h, q, n, w, PaidUpTo(p, s, target, n));
    d := FailToRevise(Start(guarded, {SOURCE}, q.b), h, r, p, s, r);
    EntersBy(Start(guarded, {SOURCE}, q.b), d, PaidUpTo(p, s, target, n) + r, p, s, r, 1);
  }

  lemma EntersBy(start: Config, d: Config, y: nat, p: nat, s: nat, r: nat, n: nat)
    requires Leads(start, d, p, s, r, n) && d.node == GenerateResponse && d.st.Spend() == y
    ensures Enters(start, d, y, p, s, r, n)
  {
  }

  // ---------------------------------------------------------------- beyond a revision

  lemma {:induction false} CumShifts(p: nat, s: nat, r: nat, n: nat)
    ensures Cum(p + r, s, n) == Cum(p, s, n) + r
  {
    if n > 0 {
      CumShifts(p, s, r, n - 1);
    }
  }

  /** What the revision pays on the way to `target`. */
  function RevisionPays(p: nat, s: nat, r: nat, target: nat, n: nat): (x: nat)
    ensures x <= r && PaidUpTo(p, s, target, n) + x == PaidUpTo(p + r, s, target, n)
  {
    CumShifts(p, s, r, n);
    PaidUpTo(p + r, s, target, n) - PaidUpTo(p, s, target, n)
  }

  lemma Revised(c: Config, d: Config, q: Site, k: nat, w: nat, w': nat, y: nat, x: nat)
    requires AtRevision(c, q, k, w, y) && q.v == 0 && 1 <= w' <= MAX_PLAN
    requires SameTurn(c, d) && Planned(d, Raw(w', SOURCE)) && d.st.Spend() == c.st.Spend() + x
    requires d.st.pastSteps == c.st.pastSteps && d.st.planRevision == 1 && d.st.current.None?
    ensures At(d, q.(v := 1), k, w', y + x)
  {
    assert !Pending(d);
  }

  /** A turn can revise its plan after `n` executions into one of `w` steps. */
  lemma ReviseInto(guarded: bool, q: Site, n: nat, w: nat, target: nat, p: nat, s: nat, r: nat)
      returns (d: Config)
    requires 2 <= n <= 2 * MAX_PLAN && 1 <= w <= MAX_PLAN && Room(q, n, target) && q.v == 0 && q.t >= 1
    ensures Scheduled(Start(guarded, {SOURCE}, q.b), d, q.(v := 1), p + r, target, n, w, p, s, r)
  {
    RoomBelow(q, n, target, n - 1, target);
    RoomFor(q, n, target, n, p, s);
    hide Leads, AtRevision, AtGate, At, Room, PaidUpTo, Planned;
    var h, waiting := ReachRevisionAt(guarded, q, n, target, p, s, r);
    RevisionGate(h, q, n, waiting, PaidUpTo(p, s, target, n));
    var x := RevisionPays(p, s, r, target, n);
    d := Revise(Start(guarded, {SOURCE}, q.b), h, Raw(w, SOURCE), x, p, s, r);
    Revised(h, d, q, n, waiting, w, PaidUpTo(p, s, target, n), x);
  }

  /** After `n` executions and a revision, `m` more executions and one last grading on top. */
  lemma GradingAfterRevision(guarded: bool, q: Site, n: nat, m: nat, target: nat, p: nat, s: nat, r: nat)
      returns (d: Config)
    requires 2 <= n <= 2 * MAX_PLAN && m < 2 * MAX_PLAN && q.v == 0 && q.t >= 1
    requires Room(q, n, target) && Room(q.(v := 1), n + m, target)
    ensures Enters(Start(guarded, {SOURCE}, q.b), d, PaidUpTo(p + r, s, target, n + m) + s, p, s, r, 1)
  {
    hide *;
    var pairs, odd := Halves(m);
    var c := ReviseInto(guarded, q, n, pairs + 1, target, p, s, r);
    assert n + 2 * pairs + odd == n + m;
    d := GradingOnTop(Start(guarded, {SOURCE}, q.b), c, q.(v := 1), p + r, target, n, pairs, odd, p, s, r);
  }
}
