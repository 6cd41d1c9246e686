/** The stage-to-model resolver: a TTL cache of clients over a pool of HTTP clients. */
module ModelResolver {
  import opened Wrappers
  import opened TtlCache

  /** The digest of an API key; hashing is taken to be injective. */
  datatype Digest = Anonymous | Of(secret: string)

  datatype PoolKey = PoolKey(provider: string, baseUrl: string, digest: Digest)

  datatype ModelRow = ModelRow(
    id: int, provider: string, baseUrl: Option<string>, apiKey: string, modelId: string,
    defaultTemperature: real, defaultMaxTokens: int)

  /** A stage's settings; zero tokens mean unset. */
  datatype StageRow = StageRow(temperature: Option<real>, maxTokens: Option<int>, prompt: Option<string>)

  /** `http` names the pooled HTTP client. */
  datatype Client = Client(
    row: ModelRow, temperature: real, maxTokens: int, prompt: Option<string>, http: nat)

  function PoolKeyOf(row: ModelRow): PoolKey {
    PoolKey(row.provider, if row.baseUrl.Some? then row.baseUrl.value else "",
            if row.apiKey == "" then Anonymous else Of(row.apiKey))
  }

  /** Stage settings override the model's defaults where they are set. */
  predicate Configures(c: Client, stage: Option<StageRow>, row: ModelRow) {
    && c.row == row
    && c.temperature == (if stage.Some? && stage.value.temperature.Some? then stage.value.temperature.value
                         else row.defaultTemperature)
    && c.maxTokens == (if stage.Some? && stage.value.maxTokens.Some? && stage.value.maxTokens.value != 0
                       then stage.value.maxTokens.value else row.defaultMaxTokens)
    && c.prompt == (if stage.Some? then stage.value.prompt else None)
  }

  /** The HTTP client of `c` was created for the endpoint and key of its row. */
  predicate Wired(c: Client, created: seq<PoolKey>) {
    c.http < |created| && created[c.http] == PoolKeyOf(c.row)
  }

  /** Since the pool was last cleared, one HTTP client was created per pool key, and it is the pooled one. */
  ghost predicate PoolOk(pool: map<PoolKey, nat>, created: seq<PoolKey>, base: nat) {
    && base <= |created|
    && (forall k :: k in pool ==> base <= pool[k] < |created| && created[pool[k]] == k)
    && (forall i :: base <= i < |created| ==> created[i] in pool && pool[created[i]] == i)
  }

  ghost predicate AllWired(s: State<string, Client>, created: seq<PoolKey>) {
    && (forall stage :: stage in s.cache ==> Wired(s.cache[stage].product.value, created))
    && (forall t :: t in s.tasks && (s.tasks[t].Holding? || s.tasks[t].Returned?) ==>
          Wired(s.tasks[t].product.value, created))
  }

  lemma WiredNext(s: State<string, Client>, e: Event<string, Client>, now: real, created: seq<PoolKey>)
    requires AllWired(s, created) && (e.Materialise? ==> Wired(e.value, created))
    ensures AllWired(Step(s, e, now), created)
  {
  }

  // ---------------------------------------------------------------- the resolver between its awaits

  /** A close under way: the clients of its snapshot from `next` to `end` are still to be closed. */
  datatype Closing = Closing(next: nat, end: nat)

  /** The stage cache with its callers, the pool, every HTTP client ever created (`base` of them before the
      pool was last cleared), the closed ones, and the close under way. */
  datatype World = World(
    cache: State<string, Client>, pool: map<PoolKey, nat>, created: seq<PoolKey>, base: nat,
    shut: set<nat>, closing: Option<Closing>)

  /** A segment of a resolve or an invalidation, or of a close: the snapshot, and one client at a time. */
  datatype Action = Segment(e: Event<string, Client>) | StartClose | ShutNext(ok: bool)

  function InitialWorld(ttl: real): World {
    World(Initial(ttl), map[], [], 0, {}, None)
  }

  /** The world with a pooled HTTP client for the endpoint and key of `row`. */
  function Pooled(w: World, row: ModelRow): World {
    var key := PoolKeyOf(row);
    if key in w.pool then w
    else w.(pool := w.pool[key := |w.created|], created := w.created + [key])
  }

  /** `c` is wired to the pooled HTTP client of its endpoint and key. */
  predicate FromPool(w: World, c: Client) {
    var p := Pooled(w, c.row);
    PoolKeyOf(c.row) in p.pool && c.http == p.pool[PoolKeyOf(c.row)]
  }

  predicate CanAct(w: World, a: Action) {
    match a
    case Segment(e) => Enabled(w.cache, e) && (e.Materialise? ==> FromPool(w, e.value))
    case StartClose => w.closing.None?
    case ShutNext(_) => w.closing.Some?
  }

  /** Both caches are forgotten. */
  function Cleared(w: World, now: real): World {
    w.(cache := Step(w.cache, Drop(w.cache.cache.Keys), now), pool := map[], base := |w.created|, closing := None)
  }

  /** One segment. An empty snapshot is cleared at once, the last client closed clears with it. */
  function Act(w: World, a: Action, now: real): World {
    if now < w.cache.clock || !CanAct(w, a) then w
    else
      match a
      case Segment(e) =>
        var p := if e.Materialise? then Pooled(w, e.value.row) else w;
        p.(cache := Step(w.cache, e, now))
      case StartClose =>
        if w.base == |w.created| then Cleared(w, now)
        else w.(closing := Some(Closing(w.base, |w.created|)))
      case ShutNext(ok) =>
        var c := w.closing.value;
        var d := w.(shut := if ok then w.shut + {c.next} else w.shut, closing := Some(Closing(c.next + 1, c.end)));
        if c.next + 1 >= c.end then Cleared(d, now) else d
  }

  function ActAll(w: World, acts: seq<(Action, real)>): World {
    if acts == [] then w
    else
      var last := acts[|acts| - 1];
      Act(ActAll(w, acts[..|acts| - 1]), last.0, last.1)
  }

  /** A digest other than that of no key is the digest of some key. */
  predicate Keyed(created: seq<PoolKey>) {
    forall i :: 0 <= i < |created| ==> created[i].digest != Of("")
  }

  /** The lock is held by a build. */
  ghost predicate LockOk(s: State<string, Client>) {
    s.locked ==> exists t :: t in s.tasks && Building(s.tasks[t])
  }

  /** Only clients forgotten by a close, or reached by the one under way, are closed. */
  ghost predicate ShutOk(w: World) {
    && (w.closing.Some? ==> w.base <= w.closing.value.next < w.closing.value.end <= |w.created|)
    && forall i :: i in w.shut ==> i < w.base || (w.closing.Some? && i < w.closing.value.next)
  }

  ghost predicate WorldInv(w: World) {
    && Inv(w.cache) && LockOk(w.cache) && AllWired(w.cache, w.created)
    && PoolOk(w.pool, w.created, w.base) && Keyed(w.created) && ShutOk(w)
  }

  lemma InitialWorldInv(ttl: real)
    ensures WorldInv(InitialWorld(ttl))
  {
    InitialInv<string, Client>(ttl);
  }

  lemma LockStep(s: State<string, Client>, e: Event<string, Client>, now: real)
    requires Inv(s) && LockOk(s)
    ensures LockOk(Step(s, e, now))
  {
    var d := Step(s, e, now);
    if now >= s.clock && Enabled(s, e) && d.locked {
      if e.Acquire? {
        if !s.locked {
          assert Building(d.tasks[e.task]);
        }
      } else if e.Read? || e.Materialise? {
        assert Building(d.tasks[e.task]);
      } else {
        var t :| t in s.tasks && Building(s.tasks[t]);
        if !e.Drop? && !e.Call? {
          StillBuilding(s, e, now, t);
        } else {
          assert d.tasks[t] == s.tasks[t];
        }
      }
    }
  }

  lemma StillBuilding(s: State<string, Client>, e: Event<string, Client>, now: real, t: nat)
    requires Inv(s) && now >= s.clock && Enabled(s, e) && (e.Store? || e.Fail?) && Step(s, e, now).locked
    requires t in s.tasks && Building(s.tasks[t])
    ensures t in Step(s, e, now).tasks && Building(Step(s, e, now).tasks[t])
  {
    assert e.Fail? && !Building(s.tasks[e.task]);
  }

  lemma PooledInv(w: World, row: ModelRow)
    requires WorldInv(w)
    ensures WorldInv(Pooled(w, row)) && PoolKeyOf(row) in Pooled(w, row).pool
    ensures Pooled(w, row).cache == w.cache && w.created <= Pooled(w, row).created
  {
  }

  lemma SegmentInv(w: World, e: Event<string, Client>, now: real)
    requires WorldInv(w) && CanAct(w, Segment(e)) && w.cache.clock <= now
    ensures WorldInv(Act(w, Segment(e), now))
  {
    var p := if e.Materialise? then Pooled(w, e.value.row) else w;
    if e.Materialise? {
      PooledInv(w, e.value.row);
    }
    StepInv(w.cache, e, now);
    LockStep(w.cache, e, now);
    WiredNext(w.cache, e, now, p.created);
  }

  lemma ClearedInv(w: World, now: real)
    requires Inv(w.cache) && LockOk(w.cache) && AllWired(w.cache, w.created) && w.cache.clock <= now
    requires Keyed(w.created) && w.base <= |w.created| && forall i :: i in w.shut ==> i < |w.created|
    ensures WorldInv(Cleared(w, now)) && Cleared(w, now).cache.cache == map[]
  {
    StepInv(w.cache, Drop(w.cache.cache.Keys), now);
    LockStep(w.cache, Drop(w.cache.cache.Keys), now);
    WiredNext(w.cache, Drop(w.cache.cache.Keys), now, w.created);
    assert w.cache.cache - w.cache.cache.Keys == map[];
  }

  lemma CloseInv(w: World, a: Action, now: real)
    requires WorldInv(w) && !a.Segment? && CanAct(w, a) && w.cache.clock <= now
    ensures WorldInv(Act(w, a, now))
  {
    if a.StartClose? {
      if w.base == |w.created| {
        ClearedInv(w, now);
      }
    } else {
      var c := w.closing.value;
      var d := w.(shut := if a.ok then w.shut + {c.next} else w.shut, closing := Some(Closing(c.next + 1, c.end)));
      if c.next + 1 >= c.end {
        ClearedInv(d, now);
      }
    }
  }

  lemma ActInv(w: World, a: Action, now: real)
    requires WorldInv(w)
    ensures WorldInv(Act(w, a, now))
  {
    hide *;
    if now < w.cache.clock || !CanAct(w, a) {
      Idle(w, a, now);
    } else if a.Segment? {
      SegmentInv(w, a.e, now);
    } else {
      CloseInv(w, a, now);
    }
  }

  lemma Idle(w: World, a: Action, now: real)
    requires now < w.cache.clock || !CanAct(w, a)
    ensures Act(w, a, now) == w
  {
  }

  lemma {:induction false} ActAllInv(w: World, acts: seq<(Action, real)>)
    requires WorldInv(w)
    ensures WorldInv(ActAll(w, acts))
  {
    if acts != [] {
      ActAllInv(w, acts[..|acts| - 1]);
      ActInv(ActAll(w, acts[..|acts| - 1]), acts[|acts| - 1].0, acts[|acts| - 1].1);
    }
  }

  lemma WiredToPool(w: World, c: Client)
    requires WorldInv(w) && PoolKeyOf(c.row) in w.pool && c.http == w.pool[PoolKeyOf(c.row)]
    ensures Wired(c, w.created) && w.base <= c.http
  {
  }

  /** What of the object a clearing leaves. */
  predicate Emptied(w: World, d: World, now: real) {
    && d.cache.cache == map[] && d.pool == map[] && d.base == |w.created| && d.closing.None?
    && d.cache.ttl == w.cache.ttl && d.cache.locked == w.cache.locked && d.cache.clock == now
    && d.cache.tasks == w.cache.tasks
  }

  lemma ClearedIs(w: World, now: real)
    requires w.cache.clock <= now
    ensures Emptied(w, Cleared(w, now), now) && Cleared(w, now).created == w.created && Cleared(w, now).shut == w.shut
  {
    assert w.cache.cache - w.cache.cache.Keys == map[];
  }

  lemma StartCloseIs(w: World, now: real)
    requires WorldInv(w) && w.closing.None? && w.cache.clock <= now
    ensures var d := Act(w, StartClose, now);
            && w.base <= |w.created| && d.created == w.created && d.shut == w.shut
            && (if w.base == |w.created| then Emptied(w, d, now)
                else d == w.(closing := Some(Closing(w.base, |w.created|))))
  {
    ClearedIs(w, now);
  }

  lemma ShutNextIs(w: World, ok: bool, now: real)
    requires WorldInv(w) && w.closing.Some? && w.cache.clock <= now
    ensures var d, c := Act(w, ShutNext(ok), now), w.closing.value;
            && d.created == w.created && d.shut == (if ok then w.shut + {c.next} else w.shut)
            && w.base <= c.next < c.end <= |w.created|
            && (if c.next + 1 == c.end then Emptied(w, d, now)
                else d == w.(shut := d.shut, closing := Some(Closing(c.next + 1, c.end))))
  {
    var c := w.closing.value;
    ClearedIs(w.(shut := if ok then w.shut + {c.next} else w.shut, closing := Some(Closing(c.next + 1, c.end))), now);
  }

  /** The client of a stage over its model. */
  function Materialised(stage: Option<StageRow>, row: ModelRow, http: nat): (c: Client)
    ensures Configures(c, stage, row) && c.http == http
  {
    Client(row,
           if stage.Some? && stage.value.temperature.Some? then stage.value.temperature.value
           else row.defaultTemperature,
           if stage.Some? && stage.value.maxTokens.Some? && stage.value.maxTokens.value != 0
           then stage.value.maxTokens.value else row.defaultMaxTokens,
           if stage.Some? then stage.value.prompt else None,
           http)
  }

  lemma MaterialiseIs(w: World, t: nat, c: Client, now: real)
    requires WorldInv(w) && t in w.cache.tasks && w.cache.tasks[t].Reading? && w.cache.clock <= now
    requires FromPool(w, c)
    ensures var d, p := Act(w, Segment(Materialise(t, c)), now), Pooled(w, c.row);
            && WorldInv(d) && Wired(c, d.created) && d.base <= c.http
            && d.created == p.created && d.pool == p.pool && d.base == p.base
            && d.cache.cache == p.cache.cache && d.cache.ttl == p.cache.ttl && d.cache.locked == p.cache.locked
  {
    PooledInv(w, c.row);
    WiredToPool(Pooled(w, c.row), c);
    ActInv(w, Segment(Materialise(t, c)), now);
  }

  lemma DropIs(w: World, keys: set<string>, now: real)
    requires WorldInv(w) && w.cache.clock <= now
    ensures var d := Act(w, Segment(Drop(keys)), now);
            && WorldInv(d) && d.cache.cache == w.cache.cache - keys
            && d.cache.ttl == w.cache.ttl && d.cache.locked == w.cache.locked
            && d.pool == w.pool && d.created == w.created && d.base == w.base
  {
    ActInv(w, Segment(Drop(keys)), now);
  }

  // ---------------------------------------------------------------- the object

  class Resolver {
    const ttl: real
    var stageCache: map<string, Slot<string, Client>>
    var httpClients: map<PoolKey, nat>
    var order: seq<nat>  // the pooled clients, in insertion order
    var lockHeld: bool
    var nextHttp: nat
    ghost var world: World

    constructor (ttl: real)
      ensures Valid() && world == InitialWorld(ttl)
    {
      this.ttl := ttl;
      stageCache, httpClients, order, lockHeld, nextHttp := map[], map[], [], false, 0;
      world := InitialWorld(ttl);
      new;
      InitialWorldInv(ttl);
    }

    ghost predicate Valid()
      reads this
    {
      && WorldInv(world)
      && world.cache.ttl == ttl && world.cache.cache == stageCache && world.cache.locked == lockHeld
      && world.pool == httpClients && |world.created| == nextHttp && order == Pending(world.base, nextHttp)
    }

    /** The lock-free fast path of a resolve. */
    method Begin(ghost t: nat, stage: string, now: real) returns (hit: Option<Product<string, Client>>)
      requires Valid() && world.cache.clock <= now && Enabled(world.cache, Call(t, stage))
      modifies this`world
      ensures Valid() && world == Act(old(world), Segment(Call(t, stage)), now)
      ensures hit == Fresh(stageCache, stage, now, ttl)
    {
      ActInv(world, Segment(Call(t, stage)), now);
      hit := Fresh(stageCache, stage, now, ttl);
      world := Act(world, Segment(Call(t, stage)), now);
      hide WorldInv;
    }

    /** The lock is granted: look again before building. */
    method Recheck(ghost t: nat, stage: string, now: real) returns (hit: Option<Product<string, Client>>)
      requires Valid() && world.cache.clock <= now
      requires Enabled(world.cache, Acquire(t)) && world.cache.tasks[t].key == stage
      modifies this`world, this`lockHeld
      ensures Valid() && world == Act(old(world), Segment(Acquire(t)), now)
      ensures hit == Fresh(stageCache, stage, now, ttl)
    {
      ActInv(world, Segment(Acquire(t)), now);
      world := Act(world, Segment(Acquire(t)), now);
      hit := Fresh(stageCache, stage, now, ttl);
      lockHeld := hit.None?;
      hide WorldInv;
    }

    /** The first row arrives; nothing of the object changes. */
    ghost method RowArrives(t: nat, now: real)
      requires Valid() && world.cache.clock <= now && t in world.cache.tasks && world.cache.tasks[t].Opening?
      modifies this`world
      ensures Valid() && world == Act(old(world), Segment(Read(t)), now)
    {
      ActInv(world, Segment(Read(t)), now);
      world := Act(world, Segment(Read(t)), now);
      hide WorldInv;
    }

    /** The build raised: nothing is stored and the lock is released. */
    method Abort(ghost t: nat, now: real)
      requires Valid() && world.cache.clock <= now && t in world.cache.tasks && Building(world.cache.tasks[t])
      modifies this`world, this`lockHeld
      ensures Valid() && world == Act(old(world), Segment(Fail(t)), now) && !lockHeld
    {
      ActInv(world, Segment(Fail(t)), now);
      world := Act(world, Segment(Fail(t)), now);
      lockHeld := false;
      hide WorldInv;
    }

    /** The pooled HTTP client of an endpoint and key, created on first use. */
    method HttpClientFor(row: ModelRow) returns (http: nat)
      requires Valid()
      modifies this`httpClients, this`order, this`nextHttp, this`world
      ensures Valid() && world == Pooled(old(world), row)
      ensures PoolKeyOf(row) in httpClients && http == httpClients[PoolKeyOf(row)]
      ensures world.created == if PoolKeyOf(row) in old(httpClients) then old(world.created)
                               else old(world.created) + [PoolKeyOf(row)]
    {
      PooledInv(world, row);
      var key := PoolKeyOf(row);
      if key in httpClients {
        return httpClients[key];
      }
      http := nextHttp;
      PendingSnoc(world.base, nextHttp);
      world := Pooled(world, row);
      nextHttp := nextHttp + 1;
      order := order + [http];
      httpClients := httpClients[key := http];
    }

    /** The rows are in: build the client. */
    method BuildClient(ghost t: nat, stage: Option<StageRow>, row: ModelRow, now: real) returns (c: Client)
      requires Valid() && world.cache.clock <= now && t in world.cache.tasks && world.cache.tasks[t].Reading?
      modifies this`world, this`httpClients, this`order, this`nextHttp
      ensures Valid() && world == Act(old(world), Segment(Materialise(t, c)), now)
      ensures Configures(c, stage, row) && Wired(c, world.created) && world.base <= c.http
    {
      ghost var before := world;
      var http := HttpClientFor(row);
      c := Materialised(stage, row, http);
      MaterialiseIs(before, t, c, now);
      hide WorldInv, Act, Pooled, Wired, Materialised;
      world := Act(before, Segment(Materialise(t, c)), now);
    }

    /** Store, release the lock, return. */
    method Publish(t: nat, product: Product<string, Client>, now: real)
      requires Valid() && world.cache.clock <= now
      requires t in world.cache.tasks && world.cache.tasks[t] == Holding(product)
      modifies this`stageCache, this`world, this`lockHeld
      ensures Valid() && world == Act(old(world), Segment(Store(t)), now)
    {
      ActInv(world, Segment(Store(t)), now);
      world := Act(world, Segment(Store(t)), now);
      stageCache := stageCache[product.key := Slot(now, product)];
      lockHeld := false;
      hide WorldInv;
    }

    /** invalidate: one stage, or all of them. */
    method Invalidate(stage: Option<string>, now: real)
      requires Valid() && world.cache.clock <= now
      modifies this`stageCache, this`world
      ensures Valid()
      ensures world == Act(old(world), Segment(Drop(if stage.Some? then {stage.value} else old(stageCache.Keys))), now)
    {
      ghost var keys := if stage.Some? then {stage.value} else stageCache.Keys;
      DropIs(world, keys, now);
      hide WorldInv, Act;
      world := Act(world, Segment(Drop(keys)), now);
      if stage.None? {
        assert stageCache - stageCache.Keys == map[];
        stageCache := map[];
      } else {
        stageCache := stageCache - {stage.value};
      }
    }

    /** aclose up to its first await: the clients to close. Without any, both caches are cleared at once. */
    method BeginClose(now: real) returns (snapshot: seq<nat>)
      requires Valid() && world.cache.clock <= now && world.closing.None?
      modifies this`stageCache, this`httpClients, this`order, this`world
      ensures Valid() && world == Act(old(world), StartClose, now)
      ensures snapshot == old(order) == Pending(old(world.base), nextHttp)
    {
      snapshot := order;
      StartCloseIs(world, now);
      ActInv(world, StartClose, now);
      hide WorldInv, Act;
      if snapshot == [] {
        stageCache, httpClients, order := map[], map[], [];
      }
      world := Act(world, StartClose, now);
    }

    /** One client's close returned, or raised and was logged; after the last one both caches are cleared. */
    method ShutClient(http: nat, ghost ok: bool, isLast: bool, now: real)
      requires Valid() && world.cache.clock <= now && world.closing.Some? && http == world.closing.value.next
      requires isLast == (world.closing.value.next + 1 == world.closing.value.end)
      modifies this`stageCache, this`httpClients, this`order, this`world
      ensures Valid() && world == Act(old(world), ShutNext(ok), now)
    {
      ShutNextIs(world, ok, now);
      ActInv(world, ShutNext(ok), now);
      hide WorldInv, Act;
      if isLast {
        stageCache, httpClients, order := map[], map[], [];
      }
      world := Act(world, ShutNext(ok), now);
    }

    /** aclose when nothing runs during its awaits: `closes(i)` says whether client `i` closes without raising. */
    method Close(ghost closes: nat -> bool, now: real)
      requires Valid() && world.cache.clock <= now && world.closing.None?
      modifies this`stageCache, this`httpClients, this`order, this`world
      ensures Valid() && stageCache == map[] && httpClients == map[] && world.closing.None?
      ensures world.created == old(world.created) && world.base == nextHttp == old(nextHttp)
      ensures forall i :: i in world.shut <==> i in old(world.shut) || (old(world.base) <= i < nextHttp && closes(i))
    {
      hide *;
      ghost var before := world;
      ValidFacts();
      CloseStarts(before, closes, now);
      var snapshot := BeginClose(now);
      for k := 0 to |snapshot|
        invariant Valid() && nextHttp == old(nextHttp) && ClosedUpTo(before, world, k, closes, now)
      {
        ValidFacts();
        CloseGoesOn(before, world, k, closes, now);
        ShutClient(snapshot[k], closes(snapshot[k]), k + 1 == |snapshot|, now);
      }
      ValidFacts();
      CloseEnds(before, world, |snapshot|, closes, now);
    }

    lemma ValidFacts()
      requires Valid()
      ensures WorldInv(world) && world.base <= |world.created| == nextHttp
      ensures world.cache.cache == stageCache && world.pool == httpClients
    {
    }
  }

  /** A close that began at `before` has dealt with `k` clients, nothing else having run. */
  ghost predicate ClosedUpTo(before: World, d: World, k: nat, closes: nat -> bool, now: real) {
    && d.created == before.created && d.cache.clock <= now
    && before.base + k <= |before.created|
    && (forall i :: i in d.shut <==> i in before.shut || (before.base <= i < before.base + k && closes(i)))
    && (if before.base + k < |before.created| then
          d.closing == Some(Closing(before.base + k, |before.created|)) && d.base == before.base
        else
          d.closing.None? && d.base == |before.created| && d.pool == map[] && d.cache.cache == map[])
  }

  lemma CloseStarts(w: World, closes: nat -> bool, now: real)
    requires WorldInv(w) && w.closing.None? && w.cache.clock <= now
    ensures ClosedUpTo(w, Act(w, StartClose, now), 0, closes, now)
  {
    StartCloseIs(w, now);
    hide WorldInv, Act;
  }

  lemma CloseGoesOn(before: World, d: World, k: nat, closes: nat -> bool, now: real)
    requires WorldInv(d) && ClosedUpTo(before, d, k, closes, now) && before.base + k < |before.created|
    ensures d.closing == Some(Closing(before.base + k, |before.created|)) && d.cache.clock <= now
    ensures ClosedUpTo(before, Act(d, ShutNext(closes(before.base + k)), now), k + 1, closes, now)
  {
    ShutNextIs(d, closes(before.base + k), now);
    hide WorldInv, Act;
  }

  lemma CloseEnds(before: World, d: World, k: nat, closes: nat -> bool, now: real)
    requires ClosedUpTo(before, d, k, closes, now) && before.base + k == |before.created|
    ensures d.closing.None? && d.base == |before.created| && d.pool == map[] && d.cache.cache == map[]
    ensures d.created == before.created
    ensures forall i :: i in d.shut <==> i in before.shut || (before.base <= i < |before.created| && closes(i))
  {
  }

  /** The clients numbered from `base` up to `end`. */
  function Pending(base: nat, end: nat): (ids: seq<nat>)
    ensures base <= end ==> |ids| == end - base && forall i :: 0 <= i < |ids| ==> ids[i] == base + i
    ensures base > end ==> ids == []
  {
    if base <= end then seq(end - base, i requires 0 <= i < end - base => base + i) else []
  }

  lemma PendingSnoc(base: nat, end: nat)
    requires base <= end
    ensures Pending(base, end + 1) == Pending(base, end) + [end]
  {
  }

  /** Between two clearings of the pool, clients share an HTTP client exactly when they agree on provider,
      base URL (a missing one counts as empty) and API key. */
  lemma SharedIffSameEndpoint(pool: map<PoolKey, nat>, created: seq<PoolKey>, base: nat, a: Client, b: Client)
    requires PoolOk(pool, created, base) && Wired(a, created) && Wired(b, created)
    requires base <= a.http && base <= b.http
    ensures a.http == b.http <==>
              && a.row.provider == b.row.provider && a.row.apiKey == b.row.apiKey
              && (if a.row.baseUrl.Some? then a.row.baseUrl.value else "")
                 == (if b.row.baseUrl.Some? then b.row.baseUrl.value else "")
  {
    assert pool[created[a.http]] == a.http && pool[created[b.http]] == b.http;
  }

  /** Of the HTTP clients created since the pool was last cleared, no two are for the same pool key. */
  lemma OneHttpClientPerKey(pool: map<PoolKey, nat>, created: seq<PoolKey>, base: nat, i: nat, j: nat)
    requires PoolOk(pool, created, base) && base <= i < j < |created|
    ensures created[i] != created[j]
  {
    assert pool[created[i]] == i && pool[created[j]] == j;
  }
}
