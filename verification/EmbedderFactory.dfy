/** The embedder factory: one lock over two TTL caches, the active id and the services. */
module EmbedderFactory {
  import opened Wrappers
  import opened TtlCache

  datatype Key = Active | Service(id: nat)

  /** What is cached: the id of the active embedder, or a service built from an embedder's row. */
  datatype Value = ActiveId(id: nat) | Embedder(row: nat)

  type Slots = map<Key, Slot<Key, Value>>

  /** The two fields hold the entries of the two kinds of key. */
  ghost predicate Splits(all: Slots, services: map<nat, Slot<Key, Value>>, active: Option<Slot<Key, Value>>) {
    && (Active in all <==> active.Some?)
    && (Active in all ==> all[Active] == active.value)
    && (forall id :: Service(id) in all <==> id in services)
    && (forall id :: id in services ==> all[Service(id)] == services[id])
  }

  lemma DropSplits(all: Slots, services: map<nat, Slot<Key, Value>>, active: Option<Slot<Key, Value>>,
                   id: nat, stale: bool)
    requires Splits(all, services, active)
    ensures Splits(all - ({Service(id)} + (if stale then {Active} else {})), services - {id},
                   if stale then None else active)
  {
  }

  lemma StoreSplits(all: Slots, services: map<nat, Slot<Key, Value>>, active: Option<Slot<Key, Value>>,
                    slot: Slot<Key, Value>)
    requires Splits(all, services, active)
    ensures var key := slot.product.key;
            Splits(all[key := slot], if key.Service? then services[key.id := slot] else services,
                   if key.Active? then Some(slot) else active)
  {
  }

  class Factory {
    const ttl: real
    var services: map<nat, Slot<Key, Value>>
    var active: Option<Slot<Key, Value>>
    var lockHeld: bool
    ghost var model: State<Key, Value>  // the cache, its callers and its history

    constructor (ttl: real)
      ensures Valid() && model == Initial(ttl)
    {
      this.ttl := ttl;
      services, active, lockHeld, model := map[], None, false, Initial(ttl);
      new;
      InitialInv<Key, Value>(ttl);
    }

    ghost predicate Valid()
      reads this
    {
      && model.ttl == ttl && model.locked == lockHeld
      && Splits(model.cache, services, active) && Inv(model)
    }

    method Lookup(key: Key, now: real) returns (hit: Option<Product<Key, Value>>)
      requires Valid()
      ensures hit == Fresh(model.cache, key, now, ttl)
    {
      var slot := match key
        case Active => active
        case Service(id) => if id in services then Some(services[id]) else None;
      return if slot.Some? && now - slot.value.at < ttl then Some(slot.value.product) else None;
    }

    method Begin(ghost t: nat, key: Key, now: real) returns (hit: Option<Product<Key, Value>>)
      requires Valid() && model.clock <= now && Enabled(model, Call(t, key))
      modifies this`model
      ensures Valid() && model == Step(old(model), Call(t, key), now)
      ensures hit == Fresh(model.cache, key, now, ttl)
    {
      hit := Lookup(key, now);
      StepInv(model, Call(t, key), now);
      model := Step(model, Call(t, key), now);
    }

    method Recheck(ghost t: nat, key: Key, now: real) returns (hit: Option<Product<Key, Value>>)
      requires Valid() && model.clock <= now && Enabled(model, Acquire(t)) && model.tasks[t].key == key
      modifies this`model, this`lockHeld
      ensures Valid() && model == Step(old(model), Acquire(t), now)
      ensures hit == Fresh(model.cache, key, now, ttl)
    {
      hit := Lookup(key, now);
      StepInv(model, Acquire(t), now);
      model := Step(model, Acquire(t), now);
      lockHeld := hit.None?;
    }

    /** The first row arrives; nothing of the object changes. */
    ghost method RowArrives(t: nat, now: real)
      requires Valid() && model.clock <= now && t in model.tasks && model.tasks[t].Opening?
      modifies this`model
      ensures Valid() && model == Step(old(model), Read(t), now)
    {
      StepInv(model, Read(t), now);
      model := Step(model, Read(t), now);
    }

    /** The build raised: nothing is stored and the lock is released. */
    method Abort(ghost t: nat, now: real)
      requires Valid() && model.clock <= now && t in model.tasks && Building(model.tasks[t])
      modifies this`model, this`lockHeld
      ensures Valid() && model == Step(old(model), Fail(t), now) && !lockHeld
    {
      StepInv(model, Fail(t), now);
      model := Step(model, Fail(t), now);
      lockHeld := false;
    }

    method Publish(t: nat, product: Product<Key, Value>, now: real)
      requires Valid() && model.clock <= now && t in model.tasks && model.tasks[t] == Holding(product)
      modifies this
      ensures Valid() && model == Step(old(model), Store(t), now)
    {
      var slot := Slot(now, product);
      StepInv(model, Store(t), now);
      StoreSplits(model.cache, services, active, slot);
      model := Step(model, Store(t), now);
      match product.key {
        case Active => active := Some(slot);
        case Service(id) => services := services[id := slot];
      }
      lockHeld := false;
    }

    /** Dropping one embedder also drops the cached active id when it names that embedder. */
    method Invalidate(id: nat, now: real)
      requires Valid() && model.clock <= now
      modifies this
      ensures Valid()
      ensures var stale := old(active.Some? && active.value.product.value == ActiveId(id));
              model == Step(old(model), Drop({Service(id)} + (if stale then {Active} else {})), now)
    {
      var stale := active.Some? && active.value.product.value == ActiveId(id);
      ghost var e := Drop({Service(id)} + (if stale then {Active} else {}));
      StepInv(model, e, now);
      DropSplits(model.cache, services, active, id, stale);
      model := Step(model, e, now);
      services := services - {id};
      if stale {
        active := None;
      }
    }

    /** invalidate without an id, and the end of aclose. */
    method InvalidateAll(now: real)
      requires Valid() && model.clock <= now
      modifies this
      ensures Valid() && services == map[] && active == None
      ensures model == Step(old(model), Drop(old(model.cache.Keys)), now)
    {
      ghost var e := Drop(model.cache.Keys);
      StepInv(model, e, now);
      model := Step(model, e, now);
      assert model.cache == map[];
      services, active := map[], None;
    }
  }

  // ---------------------------------------------------------------- pairing

  /** The row of an embedder carries its id; the active id is what the database said when read.
      `db` gives the active embedder at every instant. */
  ghost predicate Truthful(key: Key, value: Value, readAt: real, db: real -> Option<nat>) {
    match key
    case Active => value.ActiveId? && db(readAt) == Some(value.id)
    case Service(id) => value == Embedder(id)
  }

  ghost predicate TruthfulStep(s: State<Key, Value>, e: Event<Key, Value>, db: real -> Option<nat>) {
    e.Materialise? && Enabled(s, e) ==>
      Truthful(s.tasks[e.task].key, e.value, s.tasks[e.task].readAt, db)
  }

  ghost predicate TruthfulRun(s: State<Key, Value>, es: seq<(Event<Key, Value>, real)>, db: real -> Option<nat>) {
    es == []
    || (TruthfulRun(s, es[..|es| - 1], db) && TruthfulStep(Run(s, es[..|es| - 1]), es[|es| - 1].0, db))
  }

  ghost predicate TruthfulProduct(p: Product<Key, Value>, db: real -> Option<nat>) {
    Truthful(p.key, p.value, p.readAt, db)
  }

  ghost predicate AllTruthful(s: State<Key, Value>, db: real -> Option<nat>) {
    && (forall key :: key in s.cache ==> TruthfulProduct(s.cache[key].product, db))
    && (forall t :: t in s.tasks && (s.tasks[t].Holding? || s.tasks[t].Returned?) ==>
          TruthfulProduct(s.tasks[t].product, db))
  }

  lemma {:induction false} TruthfulAlongRun(
      s: State<Key, Value>, es: seq<(Event<Key, Value>, real)>, db: real -> Option<nat>)
    requires AllTruthful(s, db) && TruthfulRun(s, es, db)
    ensures AllTruthful(Run(s, es), db)
  {
    if es != [] {
      TruthfulAlongRun(s, es[..|es| - 1], db);
      TruthfulNext(Run(s, es[..|es| - 1]), es[|es| - 1].0, es[|es| - 1].1, db);
    }
  }

  lemma TruthfulNext(s: State<Key, Value>, e: Event<Key, Value>, now: real, db: real -> Option<nat>)
    requires AllTruthful(s, db) && TruthfulStep(s, e, db)
    ensures AllTruthful(Step(s, e, now), db)
  {
  }

  /** for_active resolves the id, then the service for it. In every interleaving the service was
      built from the row of the returned id, and that id was the active one in the database at
      an instant no further back than a ttl and one lookup (or read by this very call), plus, when the
      pair is returned, the `rest` that resolving the service took. */
  lemma ForActivePairs(
      ttl: real, es: seq<(Event<Key, Value>, real)>, db: real -> Option<nat>, lookup: real, rest: real,
      t: nat, u: nat, id: nat)
    requires TruthfulRun(Initial<Key, Value>(ttl), es, db)
    requires var s := Run(Initial<Key, Value>(ttl), es);
             && QuickLookups(s.history, lookup)
             && t in s.tasks && s.tasks[t].Returned? && s.tasks[t].key == Active
             && s.tasks[t].product.value == ActiveId(id)
             && u in s.tasks && s.tasks[u].Returned? && s.tasks[u].key == Service(id)
             && s.tasks[u].at - s.tasks[t].at <= rest
    ensures var s := Run(Initial<Key, Value>(ttl), es);
            var read := s.tasks[t].product.readAt;
            && s.tasks[u].product.value == Embedder(id)
            && db(read) == Some(id)
            && (s.tasks[t].product.builder == t || s.tasks[t].at - read < ttl + lookup)
            && (s.tasks[t].product.builder == t || s.tasks[u].at - read < ttl + lookup + rest)
  {
    var s := Run(Initial<Key, Value>(ttl), es);
    TruthfulAlongRun(Initial<Key, Value>(ttl), es, db);
    EveryReturnIsJustified<Key, Value>(ttl, es, t);
    EveryReturnIsJustified<Key, Value>(ttl, es, u);
    if s.tasks[t].product.builder != t {
      ServedIsRecent<Key, Value>(ttl, es, t, lookup);
    }
  }
}
