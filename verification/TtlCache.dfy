/** A TTL cache with double-checked locking, under every interleaving of its await points.

    A call runs as atomic segments: the lock-free fast path, the re-check once the lock is
    held, the first database read, materialisation, and the store that releases the lock. Between
    segments any other task may run, and entries may be dropped at any time. */
module TtlCache {
  import opened Wrappers

  /** What a build produced: who built it, for which key, and when its row was read. */
  datatype Product<K, V> = Product(builder: nat, key: K, value: V, readAt: real, readStep: nat)

  datatype Slot<K, V> = Slot(at: real, product: Product<K, V>)

  datatype Phase<K, V> =
    | Waiting(key: K)
    | Opening(key: K)
    | Reading(key: K, readAt: real, readStep: nat)
    | Holding(product: Product<K, V>)
    | Returned(key: K, product: Product<K, V>, at: real, mark: nat)
    | Failed

  /** History: stores and drops, in order. */
  datatype Mark<K, V> = Stored(slot: Slot<K, V>) | Dropped(keys: set<K>)

  /** `ttl`, `cache` and `locked` are the object; the rest is its callers and the history. */
  datatype State<K, V> = State(
    ttl: real, cache: map<K, Slot<K, V>>, locked: bool,
    tasks: map<nat, Phase<K, V>>, clock: real, steps: nat, history: seq<Mark<K, V>>)

  datatype Event<K, V> =
    | Call(task: nat, key: K)      // fast path
    | Acquire(task: nat)           // the lock is granted; re-check
    | Read(task: nat)              // the first row arrives
    | Materialise(task: nat, value: V)
    | Store(task: nat)             // store, release, return
    | Fail(task: nat)              // a raise or a cancellation
    | Drop(keys: set<K>)           // invalidate, aclose

  function Initial<K, V>(ttl: real): State<K, V> {
    State(ttl, map[], false, map[], 0.0, 0, [])
  }

  /** The cached product, if it is younger than the ttl. */
  function Fresh<K, V>(cache: map<K, Slot<K, V>>, key: K, now: real, ttl: real): Option<Product<K, V>> {
    if key in cache && now - cache[key].at < ttl then Some(cache[key].product) else None
  }

  predicate Building<K, V>(p: Phase<K, V>) {
    p.Opening? || p.Reading? || p.Holding?
  }

  function KeyOf<K, V>(p: Phase<K, V>): K
    requires Building(p)
  {
    if p.Holding? then p.product.key else p.key
  }

  predicate Enabled<K, V>(s: State<K, V>, e: Event<K, V>) {
    match e
    case Call(t, _) => t !in s.tasks
    case Acquire(t) => t in s.tasks && s.tasks[t].Waiting? && !s.locked
    case Read(t) => t in s.tasks && s.tasks[t].Opening?
    case Materialise(t, _) => t in s.tasks && s.tasks[t].Reading?
    case Store(t) => t in s.tasks && s.tasks[t].Holding?
    case Fail(t) => t in s.tasks && (s.tasks[t].Waiting? || Building(s.tasks[t]))
    case Drop(_) => true
  }

  /** One segment at `now`; the clock never goes back, and disabled segments do nothing. */
  function Step<K, V>(s: State<K, V>, e: Event<K, V>, now: real): State<K, V> {
    if now < s.clock || !Enabled(s, e) then s
    else
      var d := Move(s, e, now);
      d.(clock := now, steps := s.steps + 1)
  }

  function Move<K, V>(s: State<K, V>, e: Event<K, V>, now: real): State<K, V>
    requires Enabled(s, e)
  {
    match e
    case Call(t, key) =>
      var hit := Fresh(s.cache, key, now, s.ttl);
      s.(tasks := s.tasks[t := if hit.Some? then Returned(key, hit.value, now, |s.history|) else Waiting(key)])
    case Acquire(t) =>
      var key := s.tasks[t].key;
      var hit := Fresh(s.cache, key, now, s.ttl);
      if hit.Some? then s.(tasks := s.tasks[t := Returned(key, hit.value, now, |s.history|)])
      else s.(locked := true, tasks := s.tasks[t := Opening(key)])
    case Read(t) => s.(tasks := s.tasks[t := Reading(s.tasks[t].key, now, s.steps)])
    case Materialise(t, value) =>
      var p := s.tasks[t];
      s.(tasks := s.tasks[t := Holding(Product(t, p.key, value, p.readAt, p.readStep))])
    case Store(t) =>
      var p := s.tasks[t].product;
      s.(cache := s.cache[p.key := Slot(now, p)], locked := false,
         tasks := s.tasks[t := Returned(p.key, p, now, |s.history|)],
         history := s.history + [Stored(Slot(now, p))])
    case Fail(t) =>
      s.(locked := if Building(s.tasks[t]) then false else s.locked, tasks := s.tasks[t := Failed])
    case Drop(keys) => s.(cache := s.cache - keys, history := s.history + [Dropped(keys)])
  }

  function Run<K, V>(s: State<K, V>, es: seq<(Event<K, V>, real)>): State<K, V> {
    if es == [] then s
    else
      var last := es[|es| - 1];
      Step(Run(s, es[..|es| - 1]), last.0, last.1)
  }

  // ---------------------------------------------------------------- the history

  /** The last store of `key` that no drop has removed since. */
  function LiveStore<K, V>(h: seq<Mark<K, V>>, key: K): Option<Slot<K, V>> {
    if h == [] then None
    else
      match h[|h| - 1]
      case Stored(slot) => if slot.product.key == key then Some(slot) else LiveStore(h[..|h| - 1], key)
      case Dropped(keys) => if key in keys then None else LiveStore(h[..|h| - 1], key)
  }

  /** Every store replaced nothing younger than the ttl. */
  predicate Spaced<K, V>(h: seq<Mark<K, V>>, ttl: real) {
    h == []
    || (&& Spaced(h[..|h| - 1], ttl)
        && var m := h[|h| - 1];
           m.Stored? ==>
             var replaced := LiveStore(h[..|h| - 1], m.slot.product.key);
             replaced.Some? ==> m.slot.at - replaced.value.at >= ttl && m.slot.at >= replaced.value.at)
  }

  // ---------------------------------------------------------------- the invariant

  /** A returned product was built by the call itself, or was live and younger than the ttl. */
  ghost predicate Justified<K, V>(h: seq<Mark<K, V>>, ttl: real, t: nat, p: Phase<K, V>)
    requires p.Returned?
  {
    && p.product.key == p.key && p.mark <= |h| && p.product.readAt <= p.at
    && (|| p.product.builder == t
        || (var live := LiveStore(h[..p.mark], p.key);
            live.Some? && live.value.product == p.product && live.value.at <= p.at < live.value.at + ttl))
  }

  /** The entry a build replaces, if any, has expired. */
  ghost predicate Replaces<K, V>(s: State<K, V>, p: Phase<K, V>)
    requires Building(p)
  {
    KeyOf(p) in s.cache ==> s.clock - s.cache[KeyOf(p)].at >= s.ttl
  }

  ghost predicate TaskOk<K, V>(s: State<K, V>, t: nat) {
    t in s.tasks ==>
      var p := s.tasks[t];
      && (Building(p) ==> s.locked && Replaces(s, p))
      && (p.Reading? ==> p.readAt <= s.clock && p.readStep < s.steps)
      && (p.Holding? ==> p.product.builder == t && p.product.readAt <= s.clock && p.product.readStep < s.steps)
      && (p.Returned? ==> Justified(s.history, s.ttl, t, p))
  }

  /** The cache is what the history says. */
  ghost predicate SlotOk<K, V>(s: State<K, V>, key: K) {
    var live := LiveStore(s.history, key);
    && (key in s.cache <==> live.Some?)
    && (key in s.cache ==>
          && s.cache[key] == live.value && s.cache[key].product.key == key
          && s.cache[key].product.readAt <= s.cache[key].at <= s.clock)
  }

  /** At most one build is in flight. */
  ghost predicate SingleFlight<K, V>(s: State<K, V>) {
    forall t, u :: t in s.tasks && u in s.tasks && Building(s.tasks[t]) && Building(s.tasks[u]) ==> t == u
  }

  ghost predicate Inv<K(!new), V>(s: State<K, V>) {
    && SingleFlight(s)
    && Spaced(s.history, s.ttl)
    && (forall t :: TaskOk(s, t))
    && (forall key :: SlotOk(s, key))
  }

  lemma InitialInv<K(!new), V>(ttl: real)
    ensures Inv(Initial<K, V>(ttl))
  {
  }

  lemma HistorySnoc<K, V>(h: seq<Mark<K, V>>, m: Mark<K, V>)
    ensures (h + [m])[..|h|] == h && (h + [m])[|h|] == m
  {
  }

  /** Justifications survive a longer history. */
  lemma JustifiedLater<K, V>(h: seq<Mark<K, V>>, m: Mark<K, V>, ttl: real, t: nat, p: Phase<K, V>)
    requires p.Returned? && Justified(h, ttl, t, p)
    ensures Justified(h + [m], ttl, t, p)
  {
    assert (h + [m])[..p.mark] == h[..p.mark];
  }

  /** What a segment that leaves cache and history alone must establish. */
  ghost predicate Quiet<K, V>(s: State<K, V>, d: State<K, V>) {
    d.ttl == s.ttl && d.cache == s.cache && d.history == s.history && s.clock <= d.clock && s.steps <= d.steps
  }

  lemma QuietSlots<K(!new), V>(s: State<K, V>, d: State<K, V>)
    requires Quiet(s, d) && forall key :: SlotOk(s, key)
    ensures forall key :: SlotOk(d, key)
  {
    forall key
      ensures SlotOk(d, key)
    {
      assert SlotOk(s, key);
    }
  }

  /** Tasks that did not move stay fine when the lock stays with its holder. */
  lemma QuietTask<K, V>(s: State<K, V>, d: State<K, V>, u: nat)
    requires Quiet(s, d) && TaskOk(s, u) && u in s.tasks && u in d.tasks && d.tasks[u] == s.tasks[u]
    requires Building(s.tasks[u]) ==> d.locked
    ensures TaskOk(d, u)
  {
  }

  lemma CallInv<K(!new), V>(s: State<K, V>, e: Event<K, V>, now: real)
    requires Inv(s) && e.Call? && Enabled(s, e) && s.clock <= now
    ensures Inv(Step(s, e, now))
  {
    var d := Step(s, e, now);
    QuietSlots(s, d);
    assert SlotOk(s, e.key);
    assert s.history[..|s.history|] == s.history;
    forall u
      ensures TaskOk(d, u)
    {
      if u != e.task && u in s.tasks {
        assert TaskOk(s, u);
        QuietTask(s, d, u);
      }
    }
  }

  lemma AcquireInv<K(!new), V>(s: State<K, V>, e: Event<K, V>, now: real)
    requires Inv(s) && e.Acquire? && Enabled(s, e) && s.clock <= now
    ensures Inv(Step(s, e, now))
  {
    var d := Step(s, e, now);
    QuietSlots(s, d);
    assert SlotOk(s, s.tasks[e.task].key);
    assert s.history[..|s.history|] == s.history;
    assert forall u :: u in s.tasks && Building(s.tasks[u]) ==> TaskOk(s, u);
    forall u
      ensures TaskOk(d, u)
    {
      if u != e.task && u in s.tasks {
        assert TaskOk(s, u);
        QuietTask(s, d, u);
      }
    }
  }

  lemma WorkInv<K(!new), V>(s: State<K, V>, e: Event<K, V>, now: real)
    requires Inv(s) && (e.Read? || e.Materialise? || e.Fail?) && Enabled(s, e) && s.clock <= now
    ensures Inv(Step(s, e, now))
  {
    var d := Step(s, e, now);
    QuietSlots(s, d);
    assert TaskOk(s, e.task);
    forall u
      ensures TaskOk(d, u)
    {
      if u != e.task && u in s.tasks {
        assert TaskOk(s, u);
        QuietTask(s, d, u);
      }
    }
  }

  lemma StoreInv<K(!new), V>(s: State<K, V>, e: Event<K, V>, now: real)
    requires Inv(s) && e.Store? && Enabled(s, e) && s.clock <= now
    ensures Inv(Step(s, e, now))
  {
    var d, p := Step(s, e, now), s.tasks[e.task].product;
    var m := Stored(Slot(now, p));
    HistorySnoc(s.history, m);
    assert TaskOk(s, e.task) && SlotOk(s, p.key);
    forall key
      ensures SlotOk(d, key)
    {
      assert SlotOk(s, key);
    }
    forall u
      ensures TaskOk(d, u)
    {
      if u != e.task && u in s.tasks {
        assert TaskOk(s, u);
        if s.tasks[u].Returned? {
          JustifiedLater(s.history, m, s.ttl, u, s.tasks[u]);
        }
      }
    }
  }

  lemma DropInv<K(!new), V>(s: State<K, V>, e: Event<K, V>, now: real)
    requires Inv(s) && e.Drop? && s.clock <= now
    ensures Inv(Step(s, e, now))
  {
    var d := Step(s, e, now);
    HistorySnoc(s.history, Dropped(e.keys));
    forall key
      ensures SlotOk(d, key)
    {
      assert SlotOk(s, key);
    }
    forall u
      ensures TaskOk(d, u)
    {
      if u in s.tasks {
        assert TaskOk(s, u);
        if s.tasks[u].Returned? {
          JustifiedLater(s.history, Dropped(e.keys), s.ttl, u, s.tasks[u]);
        }
      }
    }
  }

  lemma StepInv<K(!new), V>(s: State<K, V>, e: Event<K, V>, now: real)
    requires Inv(s)
    ensures Inv(Step(s, e, now))
  {
    if now >= s.clock && Enabled(s, e) {
      match e
      case Call(_, _) => CallInv(s, e, now);
      case Acquire(_) => AcquireInv(s, e, now);
      case Store(_) => StoreInv(s, e, now);
      case Drop(_) => DropInv(s, e, now);
      case _ => WorkInv(s, e, now);
    }
  }

  lemma {:induction false} RunInv<K(!new), V>(s: State<K, V>, es: seq<(Event<K, V>, real)>)
    requires Inv(s)
    ensures Inv(Run(s, es))
  {
    if es != [] {
      RunInv(s, es[..|es| - 1]);
      StepInv(Run(s, es[..|es| - 1]), es[|es| - 1].0, es[|es| - 1].1);
    }
  }

  // ---------------------------------------------------------------- what callers get

  /** In every interleaving: at most one build is in flight, and every returned product was built
      by the call itself or had been stored less than a ttl ago with no drop since. */
  lemma EveryReturnIsJustified<K(!new), V>(ttl: real, es: seq<(Event<K, V>, real)>, t: nat)
    ensures var s := Run(Initial<K, V>(ttl), es);
            && SingleFlight(s)
            && (t in s.tasks && s.tasks[t].Returned? ==> Justified(s.history, ttl, t, s.tasks[t]))
  {
    InitialInv<K, V>(ttl);
    RunInv(Initial<K, V>(ttl), es);
    SameTtl(Initial<K, V>(ttl), es);
    assert TaskOk(Run(Initial<K, V>(ttl), es), t);
  }

  lemma {:induction false} SameTtl<K, V>(s: State<K, V>, es: seq<(Event<K, V>, real)>)
    ensures Run(s, es).ttl == s.ttl
  {
    if es != [] {
      SameTtl(s, es[..|es| - 1]);
    }
  }

  predicate StoreAt<K(==), V>(h: seq<Mark<K, V>>, i: int, key: K) {
    0 <= i < |h| && h[i].Stored? && h[i].slot.product.key == key
  }

  predicate DropAt<K(==), V>(h: seq<Mark<K, V>>, i: int, key: K) {
    0 <= i < |h| && h[i].Dropped? && key in h[i].keys
  }

  /** The live store after a store that was not dropped is that store or a later one. */
  lemma {:induction false} LiveSince<K, V>(h: seq<Mark<K, V>>, i: nat, key: K)
    requires StoreAt(h, i, key) && forall k :: i < k < |h| ==> !DropAt(h, k, key)
    ensures LiveStore(h, key).Some?
    ensures exists k :: i <= k && StoreAt(h, k, key) && h[k].slot == LiveStore(h, key).value
  {
    var n := |h| - 1;
    if StoreAt(h, n, key) {
      assert h[n].slot == LiveStore(h, key).value;
    } else {
      assert forall k :: i < k < n ==> DropAt(h[..n], k, key) == DropAt(h, k, key);
      assert StoreAt(h[..n], i, key);
      LiveSince(h[..n], i, key);
      var k :| i <= k && StoreAt(h[..n], k, key) && h[..n][k].slot == LiveStore(h[..n], key).value;
      assert !DropAt(h, n, key) && StoreAt(h, k, key);
    }
  }

  lemma {:induction false} SpacedPrefix<K, V>(h: seq<Mark<K, V>>, n: nat, ttl: real)
    requires Spaced(h, ttl) && n <= |h|
    ensures Spaced(h[..n], ttl)
  {
    if n < |h| {
      SpacedPrefix(h[..|h| - 1], n, ttl);
      assert h[..|h| - 1][..n] == h[..n];
    } else {
      assert h[..n] == h;
    }
  }

  /** Two stores of a key with no drop of it in between are at least a ttl apart. */
  lemma {:induction false} StoresApart<K, V>(h: seq<Mark<K, V>>, i: nat, j: nat, key: K, ttl: real)
    requires Spaced(h, ttl) && i < j && StoreAt(h, i, key) && StoreAt(h, j, key)
    requires forall k :: i < k < j ==> !DropAt(h, k, key)
    ensures h[j].slot.at - h[i].slot.at >= ttl && h[j].slot.at >= h[i].slot.at
    decreases j
  {
    var before := h[..j];
    SpacedPrefix(h, j + 1, ttl);
    assert h[..j + 1][..j] == before;
    assert forall k :: i < k < j ==> DropAt(before, k, key) == DropAt(h, k, key);
    assert StoreAt(before, i, key);
    LiveSince(before, i, key);
    var k :| i <= k && StoreAt(before, k, key) && before[k].slot == LiveStore(before, key).value;
    if k > i {
      assert StoreAt(h, k, key);
      StoresApart(h, i, k, key, ttl);
    }
  }

  /** In every interleaving, rebuilds of a key are at least a ttl apart unless it was dropped. */
  lemma RebuildsApart<K(!new), V>(ttl: real, es: seq<(Event<K, V>, real)>, i: nat, j: nat, key: K)
    requires var h := Run(Initial<K, V>(ttl), es).history;
             && i < j && StoreAt(h, i, key) && StoreAt(h, j, key)
             && forall k :: i < k < j ==> !DropAt(h, k, key)
    ensures var h := Run(Initial<K, V>(ttl), es).history; h[j].slot.at - h[i].slot.at >= ttl
  {
    InitialInv<K, V>(ttl);
    RunInv(Initial<K, V>(ttl), es);
    SameTtl(Initial<K, V>(ttl), es);
    StoresApart(Run(Initial<K, V>(ttl), es).history, i, j, key, ttl);
  }

  /** Every store happened at most `lookup` after its row was read. */
  predicate QuickLookups<K, V>(h: seq<Mark<K, V>>, lookup: real) {
    forall i :: 0 <= i < |h| && h[i].Stored? ==> h[i].slot.at - h[i].slot.product.readAt <= lookup
  }

  lemma {:induction false} LiveIsStored<K, V>(h: seq<Mark<K, V>>, key: K)
    requires LiveStore(h, key).Some?
    ensures exists i :: StoreAt(h, i, key) && h[i].slot == LiveStore(h, key).value
  {
    var n := |h| - 1;
    if StoreAt(h, n, key) {
    } else {
      LiveIsStored(h[..n], key);
      var i :| StoreAt(h[..n], i, key) && h[..n][i].slot == LiveStore(h[..n], key).value;
      assert StoreAt(h, i, key);
    }
  }

  /** A product served from the cache was true of the database at most a ttl and one lookup ago. */
  lemma ServedIsRecent<K(!new), V>(ttl: real, es: seq<(Event<K, V>, real)>, t: nat, lookup: real)
    requires var s := Run(Initial<K, V>(ttl), es);
             && t in s.tasks && s.tasks[t].Returned? && QuickLookups(s.history, lookup)
             && s.tasks[t].product.builder != t
    ensures var p := Run(Initial<K, V>(ttl), es).tasks[t];
            p.at - p.product.readAt < ttl + lookup
  {
    var s := Run(Initial<K, V>(ttl), es);
    var p := s.tasks[t];
    EveryReturnIsJustified<K, V>(ttl, es, t);
    LiveIsStored(s.history[..p.mark], p.key);
    var i :| StoreAt(s.history[..p.mark], i, p.key)
             && s.history[..p.mark][i].slot == LiveStore(s.history[..p.mark], p.key).value;
    assert s.history[i] == s.history[..p.mark][i];
  }

  // ---------------------------------------------------------------- invalidation

  /** No build of `key` is in flight with its row already read. */
  ghost predicate Settled<K, V>(s: State<K, V>, key: K) {
    forall t :: t in s.tasks && (s.tasks[t].Reading? || s.tasks[t].Holding?) ==> KeyOf(s.tasks[t]) != key
  }

  /** Calls that start after `s` never return a product whose row was read before `s`. */
  ghost predicate NeverStale<K(!new), V(!new)>(s: State<K, V>, key: K) {
    forall es, u :: u !in s.tasks ==> ReturnsFresh(Run(s, es), u, key, s.steps)
  }

  predicate ReturnsFresh<K(==), V>(s: State<K, V>, u: nat, key: K, since: nat) {
    u in s.tasks && s.tasks[u].Returned? && s.tasks[u].key == key ==> s.tasks[u].product.readStep >= since
  }

  predicate ReadSince<K, V>(p: Phase<K, V>, since: nat) {
    && (p.Reading? ==> p.readStep >= since)
    && (p.Holding? ==> p.product.readStep >= since)
  }

  /** Along a run from a drop of `key`: new calls read after it, and nothing older can reach them. */
  ghost predicate Clean<K, V>(s: State<K, V>, key: K, since: nat, before: set<nat>) {
    && since <= s.steps
    && (forall u :: u in s.tasks && u !in before ==> ReadSince(s.tasks[u], since))
    && (forall u :: u !in before ==> ReturnsFresh(s, u, key, since))
    && (|| s.ttl <= 0.0
        || (&& (key in s.cache ==> s.cache[key].product.readStep >= since)
            && forall u :: u in s.tasks && Building(s.tasks[u]) && KeyOf(s.tasks[u]) == key ==>
                 ReadSince(s.tasks[u], since)))
  }

  lemma CleanStep<K(!new), V>(s: State<K, V>, e: Event<K, V>, now: real, key: K, since: nat, before: set<nat>)
    requires Inv(s) && Clean(s, key, since, before) && before <= s.tasks.Keys
    ensures var d := Step(s, e, now); Clean(d, key, since, before) && before <= d.tasks.Keys
  {
    if now >= s.clock && Enabled(s, e) {
      assert SlotOk(s, key);
      if e.Call? || e.Acquire? {
        if s.ttl <= 0.0 {
          ExpiredAtOnce(s, key, now);
        }
      } else if e.Store? {
        assert TaskOk(s, e.task);
      }
    }
  }

  /** With a ttl that is not positive nothing is ever served from the cache. */
  lemma ExpiredAtOnce<K(!new), V>(s: State<K, V>, key: K, now: real)
    requires SlotOk(s, key) && s.clock <= now && s.ttl <= 0.0
    ensures Fresh(s.cache, key, now, s.ttl).None?
  {
  }

  lemma {:induction false} CleanRun<K(!new), V>(
      s: State<K, V>, es: seq<(Event<K, V>, real)>, key: K, since: nat, before: set<nat>)
    requires Inv(s) && Clean(s, key, since, before) && before <= s.tasks.Keys
    ensures Clean(Run(s, es), key, since, before) && before <= Run(s, es).tasks.Keys
  {
    if es != [] {
      var prefix := es[..|es| - 1];
      CleanRun(s, prefix, key, since, before);
      RunInv(s, prefix);
      CleanStep(Run(s, prefix), es[|es| - 1].0, es[|es| - 1].1, key, since, before);
    }
  }

  lemma RunSnoc<K, V>(s: State<K, V>, es: seq<(Event<K, V>, real)>, e: Event<K, V>, now: real)
    ensures Run(s, es + [(e, now)]) == Step(Run(s, es), e, now)
  {
    assert (es + [(e, now)])[..|es|] == es;
  }

  /** A build that already holds its row can still publish it. */
  lemma CanHold<K(!new), V>(s: State<K, V>, t: nat, key: K, value: V) returns (es: seq<(Event<K, V>, real)>)
    requires Inv(s) && t in s.tasks && (s.tasks[t].Reading? || s.tasks[t].Holding?) && KeyOf(s.tasks[t]) == key
    ensures var d := Run(s, es);
            && d.tasks.Keys == s.tasks.Keys && d.clock == s.clock && d.ttl == s.ttl
            && d.tasks[t].Holding? && d.tasks[t].product.key == key && d.tasks[t].product.readStep < s.steps
  {
    assert TaskOk(s, t);
    if s.tasks[t].Holding? {
      es := [];
    } else {
      es := [] + [(Materialise(t, value), s.clock)];
      RunSnoc(s, [], Materialise(t, value), s.clock);
    }
  }

  lemma CanServeStale<K(!new), V>(s: State<K, V>, t: nat, u: nat, key: K, value: V)
      returns (es: seq<(Event<K, V>, real)>)
    requires Inv(s) && t in s.tasks && (s.tasks[t].Reading? || s.tasks[t].Holding?) && KeyOf(s.tasks[t]) == key
    requires u !in s.tasks && s.ttl > 0.0
    ensures !ReturnsFresh(Run(s, es), u, key, s.steps)
  {
    var held := CanHold(s, t, key, value);
    var d := Run(s, held);
    var stored := held + [(Store(t), s.clock)];
    RunSnoc(s, held, Store(t), s.clock);
    var d' := Run(s, stored);
    assert d'.cache[key] == Slot(s.clock, d.tasks[t].product) && u !in d'.tasks;
    es := stored + [(Call(u, key), s.clock)];
    RunSnoc(s, stored, Call(u, key), s.clock);
  }

  /** Once `key` has been dropped, new calls never see an older row, exactly when no build of it
      was in flight with its row already read (or the ttl serves nothing anyway). */
  lemma DropTakesEffectIff<K(!new), V(!new)>(s: State<K, V>, key: K, u: nat, value: V)
    requires Inv(s) && key !in s.cache && u !in s.tasks
    ensures NeverStale(s, key) <==> s.ttl <= 0.0 || Settled(s, key)
  {
    if s.ttl <= 0.0 || Settled(s, key) {
      assert Clean(s, key, s.steps, s.tasks.Keys);
      forall es, v | v !in s.tasks
        ensures ReturnsFresh(Run(s, es), v, key, s.steps)
      {
        CleanRun(s, es, key, s.steps, s.tasks.Keys);
      }
    } else {
      var t :| t in s.tasks && (s.tasks[t].Reading? || s.tasks[t].Holding?) && KeyOf(s.tasks[t]) == key;
      var es := CanServeStale(s, t, u, key, value);
      assert !ReturnsFresh(Run(s, es), u, key, s.steps);
    }
  }

  /** A build that has read its row when the drop comes publishes it all the same. */
  lemma DropComesTooLate<K(!new), V(!new)>(ttl: real, key: K, value: V)
    requires ttl > 0.0
    ensures var es := [(Call(0, key), 0.0), (Acquire(0), 0.0), (Read(0), 0.0), (Drop({key}), 0.0)];
            var s := Run(Initial<K, V>(ttl), es);
            key !in s.cache && !NeverStale(s, key)
  {
    var s0 := Initial<K, V>(ttl);
    var es0: seq<(Event<K, V>, real)> := [];
    var es1 := es0 + [(Call(0, key), 0.0)];
    var es2 := es1 + [(Acquire(0), 0.0)];
    var es3 := es2 + [(Read(0), 0.0)];
    RunSnoc(s0, es0, Call(0, key), 0.0);
    RunSnoc(s0, es1, Acquire(0), 0.0);
    RunSnoc(s0, es2, Read(0), 0.0);
    RunSnoc(s0, es3, Drop({key}), 0.0);
    var s3 := Run(s0, es3);
    assert Run(s0, es1).tasks[0] == Waiting(key) && Run(s0, es2).tasks[0] == Opening(key);
    assert s3.tasks[0] == Reading(key, 0.0, 2) && 1 !in s3.tasks;
    var es := es3 + [(Drop({key}), 0.0)];
    assert es == [(Call(0, key), 0.0), (Acquire(0), 0.0), (Read(0), 0.0), (Drop({key}), 0.0)];
    InitialInv<K, V>(ttl);
    RunInv(s0, es);
    DropTakesEffectIff(Run(s0, es), key, 1, value);
  }
}
