/** What a close of the resolver does to the calls around it, over every interleaving of their segments. */
module ResolverClose {
  import opened Wrappers
  import opened TtlCache
  import opened ModelResolver

  predicate IsDoomed(w: World, i: nat) {
    i in w.shut || (w.closing.Some? && w.closing.value.next <= i < w.closing.value.end)
  }

  /** The clients closed already, or about to be closed by the close under way. */
  function Doomed(w: World): set<nat> {
    set i | 0 <= i < |w.created| && IsDoomed(w, i)
  }

  predicate HasReturned(w: World, t: nat) {
    t in w.cache.tasks && w.cache.tasks[t].Returned?
  }

  predicate Serves(w: World, t: nat, https: set<nat>) {
    HasReturned(w, t) && w.cache.tasks[t].product.value.http in https
  }

  /** No call that has not returned yet, or that is made later, is ever given one of `https`. */
  ghost predicate NeverServes(w: World, https: set<nat>) {
    forall acts, t :: !HasReturned(w, t) ==> !Serves(ActAll(w, acts), t, https)
  }

  /** A build past its wiring and not yet published. */
  ghost predicate HeldBy(w: World, t: nat, https: set<nat>) {
    t in w.cache.tasks && w.cache.tasks[t].Holding? && w.cache.tasks[t].product.value.http in https
  }

  /** A cached entry that is still served. */
  ghost predicate CachedAt(w: World, stage: string, https: set<nat>) {
    && stage in w.cache.cache && w.cache.cache[stage].product.value.http in https
    && w.cache.clock - w.cache.cache[stage].at < w.cache.ttl
  }

  ghost predicate PooledAt(w: World, key: PoolKey, https: set<nat>) {
    key in w.pool && w.pool[key] in https
  }

  // ---------------------------------------------------------------- without a carrier

  /** Nothing carries one of `https`, all of which were created before `bound`; the calls in `before` had
      returned already. */
  ghost predicate Clean(w: World, https: set<nat>, bound: nat, before: set<nat>) {
    && before <= w.cache.tasks.Keys && (forall t :: t in before ==> HasReturned(w, t))
    && bound <= |w.created| && (forall i :: i in https ==> i < bound)
    && (forall t :: !HeldBy(w, t, https))
    && (forall t :: t !in before ==> !Serves(w, t, https))
    && (forall stage :: !CachedAt(w, stage, https))
    && (forall key :: !PooledAt(w, key, https))
  }

  lemma CleanPool(w: World, row: ModelRow, https: set<nat>, bound: nat, before: set<nat>)
    requires Clean(w, https, bound, before)
    ensures Clean(Pooled(w, row), https, bound, before)
  {
    var p := Pooled(w, row);
    assert forall key :: PooledAt(p, key, https) && key != PoolKeyOf(row) ==> PooledAt(w, key, https);
    assert PooledAt(p, PoolKeyOf(row), https) ==> PooledAt(w, PoolKeyOf(row), https);
    assert forall t :: HeldBy(p, t, https) ==> HeldBy(w, t, https);
    assert forall t :: Serves(p, t, https) ==> Serves(w, t, https);
    assert forall stage :: CachedAt(p, stage, https) ==> CachedAt(w, stage, https);
  }

  /** What a segment does to the cache and its callers. */
  lemma CleanStep(w: World, e: Event<string, Client>, now: real, https: set<nat>, bound: nat, before: set<nat>)
    requires Clean(w, https, bound, before) && Enabled(w.cache, e) && w.cache.clock <= now
    requires e.Materialise? ==> e.value.http !in https
    ensures Clean(w.(cache := Step(w.cache, e, now)), https, bound, before)
  {
    var d := w.(cache := Step(w.cache, e, now));
    forall t
      ensures !HeldBy(d, t, https)
    {
      assert !HeldBy(w, t, https);
    }
    forall stage
      ensures !CachedAt(d, stage, https)
    {
      assert !CachedAt(w, stage, https);
      if e.Store? {
        assert !HeldBy(w, e.task, https);
      }
    }
    forall t | t !in before
      ensures !Serves(d, t, https)
    {
      ServedAfter(w, e, now, t, https);
    }
    assert forall key :: PooledAt(d, key, https) ==> PooledAt(w, key, https);
    assert forall t :: t in before ==> HasReturned(w, t);
  }

  lemma ServedAfter(w: World, e: Event<string, Client>, now: real, t: nat, https: set<nat>)
    requires Enabled(w.cache, e) && w.cache.clock <= now
    requires !Serves(w, t, https) && !HeldBy(w, t, https) && forall stage :: !CachedAt(w, stage, https)
    ensures !Serves(w.(cache := Step(w.cache, e, now)), t, https)
  {
    if e.Call? && e.task == t {
      assert !CachedAt(w, e.key, https);
    } else if e.Acquire? && e.task == t {
      assert !CachedAt(w, w.cache.tasks[t].key, https);
    }
  }

  lemma CleanSegment(w: World, e: Event<string, Client>, now: real, https: set<nat>, bound: nat, before: set<nat>)
    requires Clean(w, https, bound, before) && CanAct(w, Segment(e)) && w.cache.clock <= now
    ensures Clean(Act(w, Segment(e), now), https, bound, before)
  {
    if e.Materialise? {
      CleanPool(w, e.value.row, https, bound, before);
      assert !PooledAt(Pooled(w, e.value.row), PoolKeyOf(e.value.row), https);
      SameCache(w, e.value.row);
      CleanStep(Pooled(w, e.value.row), e, now, https, bound, before);
    } else {
      CleanStep(w, e, now, https, bound, before);
    }
    hide Clean, Step, Enabled;
  }

  lemma SameCache(w: World, row: ModelRow)
    ensures Pooled(w, row).cache == w.cache
  {
  }

  lemma CleanCleared(w: World, now: real, https: set<nat>, bound: nat, before: set<nat>)
    requires Clean(w, https, bound, before) && w.cache.clock <= now
    ensures Clean(Cleared(w, now), https, bound, before)
  {
    CleanStep(w, Drop(w.cache.cache.Keys), now, https, bound, before);
    var d := w.(cache := Step(w.cache, Drop(w.cache.cache.Keys), now));
    hide Step;
    CleanForgets(d, Cleared(w, now), https, bound, before);
  }

  /** Only cache, pool and what was created matter. */
  lemma CleanForgets(d: World, f: World, https: set<nat>, bound: nat, before: set<nat>)
    requires Clean(d, https, bound, before) && f.cache == d.cache && f.created == d.created
    requires f.pool == d.pool || f.pool == map[]
    ensures Clean(f, https, bound, before)
  {
    assert forall t :: HeldBy(f, t, https) ==> HeldBy(d, t, https);
    assert forall t :: Serves(f, t, https) ==> Serves(d, t, https);
    assert forall t :: HasReturned(d, t) ==> HasReturned(f, t);
    assert forall stage :: CachedAt(f, stage, https) ==> CachedAt(d, stage, https);
    assert forall key :: PooledAt(f, key, https) ==> PooledAt(d, key, https);
  }

  lemma CleanClose(w: World, a: Action, now: real, https: set<nat>, bound: nat, before: set<nat>)
    requires Clean(w, https, bound, before) && !a.Segment? && CanAct(w, a) && w.cache.clock <= now
    ensures Clean(Act(w, a, now), https, bound, before)
  {
    if a.StartClose? {
      if w.base == |w.created| {
        CleanCleared(w, now, https, bound, before);
      } else {
        CleanForgets(w, Act(w, a, now), https, bound, before);
      }
    } else {
      var c := w.closing.value;
      var d := w.(shut := if a.ok then w.shut + {c.next} else w.shut, closing := Some(Closing(c.next + 1, c.end)));
      CleanForgets(w, d, https, bound, before);
      if c.next + 1 >= c.end {
        CleanCleared(d, now, https, bound, before);
      }
    }
    hide Clean, Cleared;
  }

  lemma CleanAct(w: World, a: Action, now: real, https: set<nat>, bound: nat, before: set<nat>)
    requires Clean(w, https, bound, before)
    ensures Clean(Act(w, a, now), https, bound, before)
  {
    hide *;
    if now < w.cache.clock || !CanAct(w, a) {
      Idle(w, a, now);
    } else if a.Segment? {
      CleanSegment(w, a.e, now, https, bound, before);
    } else {
      CleanClose(w, a, now, https, bound, before);
    }
  }

  lemma {:induction false} CleanRun(w: World, acts: seq<(Action, real)>, https: set<nat>, bound: nat, before: set<nat>)
    requires Clean(w, https, bound, before)
    ensures Clean(ActAll(w, acts), https, bound, before)
  {
    if acts != [] {
      CleanRun(w, acts[..|acts| - 1], https, bound, before);
      CleanAct(ActAll(w, acts[..|acts| - 1]), acts[|acts| - 1].0, acts[|acts| - 1].1, https, bound, before);
    }
  }

  /** Some build, live entry or pooled client is one of `https`. */
  ghost predicate Carries(w: World, https: set<nat>) {
    || (exists t :: HeldBy(w, t, https))
    || (exists stage :: CachedAt(w, stage, https))
    || (exists key :: PooledAt(w, key, https))
  }

  lemma NoCarrierSuffices(w: World, https: set<nat>)
    requires !Carries(w, https) && forall i :: i in https ==> i < |w.created|
    ensures NeverServes(w, https)
  {
    var before := set t | t in w.cache.tasks && HasReturned(w, t);
    assert Clean(w, https, |w.created|, before);
    forall acts, t | !HasReturned(w, t)
      ensures !Serves(ActAll(w, acts), t, https)
    {
      CleanRun(w, acts, https, |w.created|, before);
    }
  }

  // ---------------------------------------------------------------- with one

  lemma ActSnoc(w: World, acts: seq<(Action, real)>, a: Action, now: real)
    ensures ActAll(w, acts + [(a, now)]) == Act(ActAll(w, acts), a, now)
  {
    assert (acts + [(a, now)])[..|acts|] == acts;
  }

  lemma ServedOnce(w: World, acts: seq<(Action, real)>, t: nat, https: set<nat>)
    requires !HasReturned(w, t) && Serves(ActAll(w, acts), t, https)
    ensures !NeverServes(w, https)
  {
  }

  lemma HeldIsServed(w: World, t: nat, https: set<nat>)
    requires HeldBy(w, t, https)
    ensures !NeverServes(w, https)
  {
    ActSnoc(w, [], Segment(Store(t)), w.cache.clock);
    ServedOnce(w, [] + [(Segment(Store(t)), w.cache.clock)], t, https);
  }

  /** Some task number is free. */
  lemma {:induction false} Bound(used: set<nat>) returns (u: nat)
    ensures forall t :: t in used ==> t < u
    decreases |used|
  {
    if used == {} {
      u := 0;
    } else {
      var t :| t in used;
      var v := Bound(used - {t});
      assert forall s :: s in used ==> s == t || s in used - {t};
      u := if v > t then v else t + 1;
    }
  }

  lemma CachedIsServed(w: World, stage: string, https: set<nat>)
    requires CachedAt(w, stage, https)
    ensures !NeverServes(w, https)
  {
    var u := Bound(w.cache.tasks.Keys);
    ActSnoc(w, [], Segment(Call(u, stage)), w.cache.clock);
    ServedOnce(w, [] + [(Segment(Call(u, stage)), w.cache.clock)], u, https);
  }

  /** A row for a pool key. */
  function RowOf(key: PoolKey): ModelRow {
    ModelRow(0, key.provider, Some(key.baseUrl), if key.digest.Of? then key.digest.secret else "", "", 0.0, 0)
  }

  lemma RowHasKey(key: PoolKey)
    requires key.digest != Of("")
    ensures PoolKeyOf(RowOf(key)) == key
  {
  }

  function ClientOf(w: World, key: PoolKey): Client
    requires key in w.pool
  {
    Client(RowOf(key), 0.0, 0, None, w.pool[key])
  }

  /** The build in flight, if any, fails. */
  lemma FreeTheLock(w: World) returns (acts: seq<(Action, real)>)
    requires WorldInv(w)
    ensures var d := ActAll(w, acts);
            && WorldInv(d) && !d.cache.locked && d.cache.clock == w.cache.clock
            && d.pool == w.pool && d.created == w.created && d.cache.tasks.Keys == w.cache.tasks.Keys
            && forall t :: HasReturned(d, t) ==> HasReturned(w, t)
  {
    acts := [];
    if w.cache.locked {
      var t :| t in w.cache.tasks && Building(w.cache.tasks[t]);
      acts := [] + [(Segment(Fail(t)), w.cache.clock)];
      ActSnoc(w, [], Segment(Fail(t)), w.cache.clock);
      ActInv(w, Segment(Fail(t)), w.cache.clock);
      hide WorldInv;
    }
  }

  lemma ForgetTheCache(w: World)
    requires WorldInv(w)
    ensures var d := Act(w, Segment(Drop(w.cache.cache.Keys)), w.cache.clock);
            && WorldInv(d) && d.cache.cache == map[] && d.cache.locked == w.cache.locked
            && d.cache.clock == w.cache.clock && d.cache.tasks == w.cache.tasks
            && d.pool == w.pool && d.created == w.created
  {
    ActInv(w, Segment(Drop(w.cache.cache.Keys)), w.cache.clock);
    assert w.cache.cache - w.cache.cache.Keys == map[];
    hide WorldInv;
  }

  /** A new call misses, takes the lock and reads. */
  predicate ReadsNext(w: World, d: World, u: nat) {
    && u in d.cache.tasks && d.cache.tasks[u].Reading? && d.cache.clock == w.cache.clock
    && d.pool == w.pool && d.created == w.created
  }

  lemma ReadNext(w: World, u: nat)
    requires w.cache.cache == map[] && !w.cache.locked && u !in w.cache.tasks
    ensures var d1 := Act(w, Segment(Call(u, "")), w.cache.clock);
            var d2 := Act(d1, Segment(Acquire(u)), w.cache.clock);
            ReadsNext(w, Act(d2, Segment(Read(u)), w.cache.clock), u)
  {
    var d1 := Act(w, Segment(Call(u, "")), w.cache.clock);
    assert d1.cache.tasks[u] == Waiting("") && d1.cache.cache == map[] && !d1.cache.locked;
    var d2 := Act(d1, Segment(Acquire(u)), w.cache.clock);
    assert d2.cache.tasks[u] == Opening("");
  }

  /** It is wired to the pooled client of its row, and returns it. */
  lemma WireAndReturn(w: World, u: nat, key: PoolKey, https: set<nat>)
    requires u in w.cache.tasks && w.cache.tasks[u].Reading? && PooledAt(w, key, https) && key.digest != Of("")
    ensures var d := Act(w, Segment(Materialise(u, ClientOf(w, key))), w.cache.clock);
            Serves(Act(d, Segment(Store(u)), w.cache.clock), u, https)
  {
    RowHasKey(key);
    var d := Act(w, Segment(Materialise(u, ClientOf(w, key))), w.cache.clock);
    assert d.cache.tasks[u].Holding? && d.cache.tasks[u].product.value == ClientOf(w, key);
  }

  lemma PooledKeyed(w: World, key: PoolKey)
    requires WorldInv(w) && key in w.pool
    ensures key.digest != Of("")
  {
    assert w.created[w.pool[key]] == key;
  }

  lemma PooledIsServed(w: World, key: PoolKey, https: set<nat>)
    requires WorldInv(w) && PooledAt(w, key, https)
    ensures !NeverServes(w, https)
  {
    var now := w.cache.clock;
    PooledKeyed(w, key);
    var acts := FreeTheLock(w);
    var w1 := ActAll(w, acts);
    var w2 := Act(w1, Segment(Drop(w1.cache.cache.Keys)), now);
    ForgetTheCache(w1);
    var u := Bound(w.cache.tasks.Keys);
    assert !HasReturned(w, u) && u !in w2.cache.tasks && PooledAt(w2, key, https);
    hide *;
    ServeFromPool(w, acts, w1, w2, u, key, https);
  }

  lemma ServeFromPool(w: World, acts: seq<(Action, real)>, w1: World, w2: World, u: nat, key: PoolKey,
                      https: set<nat>)
    requires w1 == ActAll(w, acts) && w2 == Act(w1, Segment(Drop(w1.cache.cache.Keys)), w2.cache.clock)
    requires w2.cache.cache == map[] && !w2.cache.locked && u !in w2.cache.tasks && !HasReturned(w, u)
    requires PooledAt(w2, key, https) && key.digest != Of("")
    ensures !NeverServes(w, https)
  {
    var now := w2.cache.clock;
    ActSnoc(w, acts, Segment(Drop(w1.cache.cache.Keys)), now);
    var a2 := acts + [(Segment(Drop(w1.cache.cache.Keys)), now)];
    ReadNext(w2, u);
    ActSnoc(w, a2, Segment(Call(u, "")), now);
    var a3 := a2 + [(Segment(Call(u, "")), now)];
    ActSnoc(w, a3, Segment(Acquire(u)), now);
    var a4 := a3 + [(Segment(Acquire(u)), now)];
    ActSnoc(w, a4, Segment(Read(u)), now);
    var a5 := a4 + [(Segment(Read(u)), now)];
    var w5 := ActAll(w, a5);
    assert ReadsNext(w2, w5, u);
    assert PooledAt(w5, key, https) && w5.cache.clock == now;
    WireAndReturn(w5, u, key, https);
    hide Act, PooledAt, Serves, NeverServes;
    ActSnoc(w, a5, Segment(Materialise(u, ClientOf(w5, key))), now);
    var a6 := a5 + [(Segment(Materialise(u, ClientOf(w5, key))), now)];
    ActSnoc(w, a6, Segment(Store(u)), now);
    ServedOnce(w, a6 + [(Segment(Store(u)), now)], u, https);
  }

  // ---------------------------------------------------------------- exactly when

  /** At any moment, no call is ever given a client that is closed or about to be closed exactly when no build
      in flight holds one, no live cache entry carries one and none is pooled. */
  lemma NeverServesDoomedIff(w: World)
    requires WorldInv(w)
    ensures NeverServes(w, Doomed(w)) <==> !Carries(w, Doomed(w))
  {
    var https := Doomed(w);
    if Carries(w, https) {
      if t :| HeldBy(w, t, https) {
        HeldIsServed(w, t, https);
      } else if stage :| CachedAt(w, stage, https) {
        CachedIsServed(w, stage, https);
      } else {
        var key :| PooledAt(w, key, https);
        PooledIsServed(w, key, https);
      }
    } else {
      NoCarrierSuffices(w, https);
    }
  }

  /** While a close waits for its clients, a later call can still be given one of them. */
  lemma ServesWhileClosing(w: World)
    requires WorldInv(w) && w.closing.Some?
    ensures !NeverServes(w, Doomed(w))
  {
    var next := w.closing.value.next;
    assert IsDoomed(w, next) && next in Doomed(w);
    assert PooledAt(w, w.created[next], Doomed(w));
    NeverServesDoomedIff(w);
  }

  lemma ShutIsDoomed(w: World)
    requires WorldInv(w) && w.closing.None?
    ensures Doomed(w) == w.shut
  {
    assert forall i :: i in w.shut ==> 0 <= i < |w.created| && IsDoomed(w, i);
  }

  /** Once a close has cleared both caches, no call is ever given a closed client exactly when no build in
      flight holds one. */
  lemma NeverServesAfterCloseIff(w: World, ok: bool, now: real)
    requires WorldInv(w) && w.closing.Some? && w.closing.value.next + 1 == w.closing.value.end && w.cache.clock <= now
    ensures var d := Act(w, ShutNext(ok), now);
            NeverServes(d, d.shut) <==> forall t :: !HeldBy(d, t, d.shut)
  {
    var d := Act(w, ShutNext(ok), now);
    ActInv(w, ShutNext(ok), now);
    ShutNextIs(w, ok, now);
    ShutIsDoomed(d);
    NeverServesDoomedIff(d);
    hide Act;
    assert Carries(d, d.shut) <==> exists t :: HeldBy(d, t, d.shut);
  }

  // ---------------------------------------------------------------- forgotten clients

  /** Client `i` is open, and was forgotten by a close or created while the one under way waits. */
  predicate Forgotten(w: World, i: nat) {
    && i < |w.created| && i !in w.shut
    && (i < w.base || (w.closing.Some? && w.closing.value.end <= i))
  }

  lemma ForgottenStays(w: World, a: Action, now: real, i: nat)
    requires WorldInv(w) && Forgotten(w, i)
    ensures Forgotten(Act(w, a, now), i)
  {
  }

  /** A client created while a close waits, or whose close failed, is never closed by any later one. */
  lemma {:induction false} ForgottenForEver(w: World, acts: seq<(Action, real)>, i: nat)
    requires WorldInv(w) && Forgotten(w, i)
    ensures i !in ActAll(w, acts).shut && Forgotten(ActAll(w, acts), i)
  {
    if acts != [] {
      ForgottenForEver(w, acts[..|acts| - 1], i);
      ActAllInv(w, acts[..|acts| - 1]);
      ForgottenStays(ActAll(w, acts[..|acts| - 1]), acts[|acts| - 1].0, acts[|acts| - 1].1, i);
    }
  }

  /** When a close ends, the clients it forgot without closing are those created while it waited and those
      whose own close failed. */
  lemma ForgottenAtCloseIff(w: World, ok: bool, now: real, i: nat)
    requires WorldInv(w) && w.closing.Some? && w.closing.value.next + 1 == w.closing.value.end && w.cache.clock <= now
    requires w.base <= i < |w.created|
    ensures Forgotten(Act(w, ShutNext(ok), now), i)
       <==> w.closing.value.end <= i || (i == w.closing.value.next && !ok) || (i < w.closing.value.next && i !in w.shut)
  {
    ShutNextIs(w, ok, now);
    hide Act;
  }

  // ---------------------------------------------------------------- from the start

  /** The first call of a resolver, up to its client. */
  function FirstBuild(c: Client): seq<(Action, real)> {
    [(Segment(Call(0, "a")), 0.0), (Segment(Acquire(0)), 0.0), (Segment(Read(0)), 0.0),
     (Segment(Materialise(0, c)), 0.0)]
  }

  predicate OneHeld(w: World, c: Client) {
    && 0 in w.cache.tasks && w.cache.tasks.Keys == {0} && w.cache.tasks[0].Holding?
    && w.cache.tasks[0].product.value == c && w.cache.tasks[0].product.key == "a"
    && |w.created| == 1 && w.base == 0 && w.shut == {} && w.closing.None?
    && w.cache.clock == 0.0 && w.cache.cache == map[]
  }

  lemma FirstBuildHolds(ttl: real, c: Client)
    requires c.http == 0
    ensures OneHeld(ActAll(InitialWorld(ttl), FirstBuild(c)), c)
    ensures ActAll(InitialWorld(ttl), FirstBuild(c)).cache.ttl == ttl
  {
    var w := InitialWorld(ttl);
    var a0: seq<(Action, real)> := [];
    var a1 := a0 + [(Segment(Call(0, "a")), 0.0)];
    var a2 := a1 + [(Segment(Acquire(0)), 0.0)];
    var a3 := a2 + [(Segment(Read(0)), 0.0)];
    var a4 := a3 + [(Segment(Materialise(0, c)), 0.0)];
    assert a4 == FirstBuild(c);
    ActSnoc(w, a0, Segment(Call(0, "a")), 0.0);
    assert ActAll(w, a1).cache.tasks[0] == Waiting("a");
    ActSnoc(w, a1, Segment(Acquire(0)), 0.0);
    assert ActAll(w, a2).cache.tasks[0] == Opening("a");
    ActSnoc(w, a2, Segment(Read(0)), 0.0);
    assert ActAll(w, a3).cache.tasks[0].Reading?;
    ActSnoc(w, a3, Segment(Materialise(0, c)), 0.0);
  }

  /** A build that holds its client when the close runs publishes and returns a closed one afterwards. */
  lemma BuildOutlivesClose(ttl: real, c: Client)
    requires c.http == 0
    ensures var d := ActAll(InitialWorld(ttl), FirstBuild(c) + [(StartClose, 0.0)] + [(ShutNext(true), 0.0)]
                                               + [(Segment(Store(0)), 0.0)]);
            d.closing.None? && Serves(d, 0, d.shut)
  {
    var w, a := InitialWorld(ttl), FirstBuild(c);
    FirstBuildHolds(ttl, c);
    ActSnoc(w, a, StartClose, 0.0);
    var a1 := a + [(StartClose, 0.0)];
    assert ActAll(w, a1).closing == Some(Closing(0, 1));
    ActSnoc(w, a1, ShutNext(true), 0.0);
    var a2 := a1 + [(ShutNext(true), 0.0)];
    assert ActAll(w, a2).shut == {0} && ActAll(w, a2).closing.None?;
    ActSnoc(w, a2, Segment(Store(0)), 0.0);
  }

  /** A call served from the stage cache while the close waits gets a client that is being closed. */
  lemma CacheHitDuringClose(ttl: real, c: Client)
    requires c.http == 0 && ttl > 0.0
    ensures var d := ActAll(InitialWorld(ttl), FirstBuild(c) + [(Segment(Store(0)), 0.0)] + [(StartClose, 0.0)]
                                               + [(Segment(Call(1, "a")), 0.0)]);
            d.closing.Some? && Serves(d, 1, Doomed(d))
  {
    var w, a := InitialWorld(ttl), FirstBuild(c);
    FirstBuildHolds(ttl, c);
    ActSnoc(w, a, Segment(Store(0)), 0.0);
    var a1 := a + [(Segment(Store(0)), 0.0)];
    var w1 := ActAll(w, a1);
    assert w1.cache.cache["a"].at == 0.0 && w1.cache.cache["a"].product.value == c && 1 !in w1.cache.tasks;
    ActSnoc(w, a1, StartClose, 0.0);
    var a2 := a1 + [(StartClose, 0.0)];
    assert ActAll(w, a2).closing == Some(Closing(0, 1));
    ActSnoc(w, a2, Segment(Call(1, "a")), 0.0);
    var d := ActAll(w, a2 + [(Segment(Call(1, "a")), 0.0)]);
    assert IsDoomed(d, 0) && |d.created| == 1;
  }
}
