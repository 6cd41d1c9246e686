/** Refreshes that overlap: a refresh looks its token up without locking the row, and rotates it later. */
module AuthRaces {
  import opened Wrappers
  import opened AuthTokens

  /** A refresh that found its token valid and its user active. */
  datatype Ticket = Ticket(token: nat, user: nat)

  datatype World = World(db: Db, open: map<nat, Ticket>)

  /** The two halves of a refresh, and any other operation as a whole. */
  datatype Event = Look(worker: nat, token: nat) | Rotate(worker: nat, raw: nat) | Whole(op: Op)

  datatype Instant = Instant(e: Event, now: int)

  predicate Refreshable(db: Db, t: nat, now: int) {
    ValidToken(db, t, now) && db.tokens[t].user in db.users && db.users[db.tokens[t].user].active
  }

  /** The second half revokes by row id and issues, whatever became of the token meanwhile; without its
      user the insert fails. */
  function Next(w: World, e: Event, now: int): World {
    match e
    case Look(v, t) =>
      if v !in w.open && Refreshable(w.db, t, now) then w.(open := w.open[v := Ticket(t, w.db.tokens[t].user)])
      else w
    case Rotate(v, raw) =>
      if v !in w.open then w
      else if w.open[v].user !in w.db.users then w.(open := w.open - {v})
      else
        var t := w.open[v].token;
        World(Issue(w.db.(tokens := Revoke(w.db.tokens, t), spent := w.db.spent + [t]), w.open[v].user, raw, now),
              w.open - {v})
    case Whole(op) => w.(db := Step(w.db, op, now).0)
  }

  function RunOf(w: World, es: seq<Instant>): World {
    if es == [] then w else Next(RunOf(w, es[..|es| - 1]), es[|es| - 1].e, es[|es| - 1].now)
  }

  /** Draws are new. */
  predicate Drawn(w: World, e: Event) {
    && (e.Rotate? ==> e.raw !in w.db.issued)
    && (e.Whole? ==> Admissible(w.db, e.op))
  }

  predicate AllDrawn(w: World, es: seq<Instant>) {
    es == [] || (AllDrawn(w, es[..|es| - 1]) && Drawn(RunOf(w, es[..|es| - 1]), es[|es| - 1].e))
  }

  /** Worker `v` can still rotate `t`. */
  predicate Holds(w: World, v: nat, t: nat) {
    v in w.open && w.open[v].token == t && w.open[v].user in w.db.users
  }

  // ---------------------------------------------------------------- a token that was used

  /** Since `before`, `t` was not spent again. */
  predicate Unspent(before: seq<nat>, after: seq<nat>, t: nat) {
    before <= after && t !in after[|before|..]
  }

  /** No further run spends `t`. */
  ghost predicate NeverSpentAgain(w: World, t: nat) {
    forall es :: AllDrawn(w, es) ==> Unspent(w.db.spent, RunOf(w, es).db.spent, t)
  }

  /** Gone, and nobody can still rotate it. */
  ghost predicate Finished(w: World, t: nat) {
    Gone(w.db, t) && forall v :: !Holds(w, v, t)
  }

  lemma WholeKeepsUsers(db: Db, op: Op, now: int)
    ensures Step(db, op, now).0.users.Keys <= db.users.Keys
  {
  }

  lemma WholeSpends(db: Db, op: Op, now: int, t: nat)
    requires Gone(db, t)
    ensures Unspent(db.spent, Step(db, op, now).0.spent, t)
  {
  }

  lemma FinishedNext(w: World, e: Event, now: int, t: nat)
    requires Finished(w, t) && Drawn(w, e)
    ensures Finished(Next(w, e, now), t) && Unspent(w.db.spent, Next(w, e, now).db.spent, t)
  {
    var d := Next(w, e, now);
    if e.Whole? {
      GoneStays(w.db, e.op, now, t);
      WholeKeepsUsers(w.db, e.op, now);
      WholeSpends(w.db, e.op, now, t);
    } else if e.Rotate? {
      assert !Holds(w, e.worker, t);
    }
    forall v
      ensures !Holds(d, v, t)
    {
      assert !Holds(w, v, t);
    }
  }

  lemma {:induction false} FinishedRun(w: World, es: seq<Instant>, t: nat)
    requires Finished(w, t) && AllDrawn(w, es)
    ensures Finished(RunOf(w, es), t) && Unspent(w.db.spent, RunOf(w, es).db.spent, t)
  {
    if es != [] {
      var before := es[..|es| - 1];
      FinishedRun(w, before, t);
      FinishedNext(RunOf(w, before), es[|es| - 1].e, es[|es| - 1].now, t);
    }
  }

  /** Some number was never drawn. */
  lemma {:induction false} Undrawn(issued: set<nat>) returns (raw: nat)
    ensures forall t :: t in issued ==> t < raw
    decreases |issued|
  {
    if issued == {} {
      raw := 0;
    } else {
      var t :| t in issued;
      var v := Undrawn(issued - {t});
      assert forall s :: s in issued ==> s == t || s in issued - {t};
      raw := if v > t then v else t + 1;
    }
  }

  lemma HolderSpends(w: World, v: nat, t: nat)
    requires Holds(w, v, t)
    ensures !NeverSpentAgain(w, t)
  {
    var raw := Undrawn(w.db.issued);
    var es := [Instant(Rotate(v, raw), 0)];
    assert raw !in w.db.issued;
    assert es[..1] == es;
    Extend(w, es, 0);
    assert RunOf(w, es).db.spent == w.db.spent + [t];
  }

  /** A token that was used, or revoked, is never spent again exactly when no other refresh has it looked up and
      not yet rotated. */
  lemma NeverSpentAgainIff(w: World, t: nat)
    requires Gone(w.db, t)
    ensures NeverSpentAgain(w, t) <==> forall v :: !Holds(w, v, t)
  {
    if v :| Holds(w, v, t) {
      HolderSpends(w, v, t);
    } else {
      forall es | AllDrawn(w, es)
        ensures Unspent(w.db.spent, RunOf(w, es).db.spent, t)
      {
        FinishedRun(w, es, t);
      }
    }
  }

  // ---------------------------------------------------------------- refreshes that do not overlap

  /** No refresh of a token starts, or runs as a whole, while another one has it looked up. */
  ghost predicate Apart(w: World, e: Event) {
    && (e.Look? ==> forall v :: v in w.open ==> w.open[v].token != e.token)
    && (e.Whole? && e.op.Refresh? ==> forall v :: v in w.open ==> w.open[v].token != e.op.token)
  }

  ghost predicate AllApart(w: World, es: seq<Instant>) {
    es == [] || (AllApart(w, es[..|es| - 1]) && Apart(RunOf(w, es[..|es| - 1]), es[|es| - 1].e))
  }

  /** Tokens looked up are each held once and not spent yet. */
  ghost predicate Orderly(w: World) {
    && Inv(w.db)
    && (forall v :: v in w.open ==> w.open[v].token in w.db.issued && w.open[v].token !in w.db.spent)
    && (forall u, v :: u in w.open && v in w.open && w.open[u].token == w.open[v].token ==> u == v)
  }

  lemma OrderlyRotate(w: World, e: Event, now: int)
    requires Orderly(w) && e.Rotate? && Drawn(w, e)
    ensures Orderly(Next(w, e, now))
  {
    var d := Next(w, e, now);
    if e.worker in w.open && w.open[e.worker].user in w.db.users {
      assert forall t :: Gone(w.db, t) ==> Gone(d.db, t);
    }
  }

  lemma OrderlyWhole(w: World, op: Op, now: int)
    requires Orderly(w) && Drawn(w, Whole(op)) && Apart(w, Whole(op))
    ensures Orderly(Next(w, Whole(op), now))
  {
    StepInv(w.db, op, now);
    var d := Step(w.db, op, now).0;
    assert w.db.issued <= d.issued;
    assert d.spent == w.db.spent || (op.Refresh? && d.spent == w.db.spent + [op.token]);
  }

  lemma OrderlyNext(w: World, e: Event, now: int)
    requires Orderly(w) && Drawn(w, e) && Apart(w, e)
    ensures Orderly(Next(w, e, now))
  {
    match e
    case Look(v, t) =>
      if v !in w.open && Refreshable(w.db, t, now) {
        assert t !in w.db.spent;
      }
    case Rotate(_, _) => OrderlyRotate(w, e, now);
    case Whole(op) => OrderlyWhole(w, op, now);
  }

  /** Where refreshes of one token do not overlap, each token refreshes at most once, whatever else overlaps. */
  lemma {:induction false} UsedOnceApart(users: map<nat, User>, es: seq<Instant>)
    requires var w := World(Fresh.(users := users), map[]); AllDrawn(w, es) && AllApart(w, es)
    ensures Orderly(RunOf(World(Fresh.(users := users), map[]), es))
    ensures var spent := RunOf(World(Fresh.(users := users), map[]), es).db.spent;
            forall i, j :: 0 <= i < j < |spent| ==> spent[i] != spent[j]
  {
    var w := World(Fresh.(users := users), map[]);
    if es != [] {
      UsedOnceApart(users, es[..|es| - 1]);
      OrderlyNext(RunOf(w, es[..|es| - 1]), es[|es| - 1].e, es[|es| - 1].now);
    }
  }

  /** One login and two refreshes that look the token up before either rotates it: it is spent twice. */
  lemma OverlappingRefreshes()
    ensures var user := User(0, false, true);
            var w := World(Fresh.(users := map[0 := user]), map[]);
            var es := [Instant(Whole(Login(Some(0), true, 1)), 0), Instant(Look(1, 1), 0), Instant(Look(2, 1), 0),
                       Instant(Rotate(1, 2), 0), Instant(Rotate(2, 3), 0)];
            AllDrawn(w, es) && RunOf(w, es).db.spent == [1, 1]
  {
    var w := World(Fresh.(users := map[0 := User(0, false, true)]), map[]);
    var es := [Instant(Whole(Login(Some(0), true, 1)), 0), Instant(Look(1, 1), 0), Instant(Look(2, 1), 0),
               Instant(Rotate(1, 2), 0), Instant(Rotate(2, 3), 0)];
    var w1 := Next(w, es[0].e, 0);
    assert w1.db.tokens == map[1 := RefreshRow(0, false, WEEK)] && w1.db.issued == {1} && w1.db.spent == [];
    var w2 := Next(w1, es[1].e, 0);
    var w3 := Next(w2, es[2].e, 0);
    assert w3.open == map[1 := Ticket(1, 0), 2 := Ticket(1, 0)] && w3.db == w1.db;
    var w4 := Next(w3, es[3].e, 0);
    assert w4.open == map[2 := Ticket(1, 0)] && w4.db.spent == [1] && w4.db.issued == {1, 2};
    var w5 := Next(w4, es[4].e, 0);
    assert w5.db.spent == [1, 1];
    RunIs(w, es, w1, w2, w3, w4, w5);
  }

  lemma RunIs(w: World, es: seq<Instant>, w1: World, w2: World, w3: World, w4: World, w5: World)
    requires |es| == 5
    requires w1 == Next(w, es[0].e, es[0].now) && w2 == Next(w1, es[1].e, es[1].now)
    requires w3 == Next(w2, es[2].e, es[2].now) && w4 == Next(w3, es[3].e, es[3].now)
    requires w5 == Next(w4, es[4].e, es[4].now)
    requires Drawn(w, es[0].e) && Drawn(w1, es[1].e) && Drawn(w2, es[2].e) && Drawn(w3, es[3].e) && Drawn(w4, es[4].e)
    ensures RunOf(w, es) == w5 && AllDrawn(w, es)
  {
    hide Next, Drawn;
    assert es[..5] == es;
    Extend(w, es, 0);
    Extend(w, es, 1);
    Extend(w, es, 2);
    Extend(w, es, 3);
    Extend(w, es, 4);
  }

  lemma Extend(w: World, es: seq<Instant>, n: nat)
    requires n < |es|
    ensures n == 0 ==> RunOf(w, es[..n]) == w && AllDrawn(w, es[..n])
    ensures RunOf(w, es[..n + 1]) == Next(RunOf(w, es[..n]), es[n].e, es[n].now)
    ensures AllDrawn(w, es[..n + 1]) <==> AllDrawn(w, es[..n]) && Drawn(RunOf(w, es[..n]), es[n].e)
  {
    assert es[..n + 1][..n] == es[..n];
  }
}
