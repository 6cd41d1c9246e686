/** The advisory-lock key of a source. */
module AdvisoryLock {
  /** A 128-bit id as its two halves. */
  datatype Id = Id(high: bv64, low: bv64)

  /** The halves folded by XOR, then masked to the positive bigints. */
  function LockKey(id: Id): bv64 {
    (id.high ^ id.low) & 0x7FFF_FFFF_FFFF_FFFF
  }

  function Fold(id: Id): bv64 {
    id.high ^ id.low
  }

  /** The key is a non-negative signed 64-bit value; ids with the halves exchanged share it. */
  lemma LockKeyFits(high: bv64, low: bv64)
    ensures LockKey(Id(high, low)) <= 0x7FFF_FFFF_FFFF_FFFF
    ensures LockKey(Id(high, low)) == LockKey(Id(low, high))
  {
    MaskFits(high ^ low);
    XorCommutes(high, low);
  }

  lemma MaskFits(x: bv64)
    ensures x & 0x7FFF_FFFF_FFFF_FFFF <= 0x7FFF_FFFF_FFFF_FFFF
  {
  }

  lemma XorCommutes(x: bv64, y: bv64)
    ensures x ^ y == y ^ x
  {
  }

  lemma KeyIsMaskedFold(id: Id)
    ensures LockKey(id) == Fold(id) & 0x7FFF_FFFF_FFFF_FFFF
  {
  }

  lemma MaskedEqual(x: bv64, y: bv64)
    ensures x & 0x7FFF_FFFF_FFFF_FFFF == y & 0x7FFF_FFFF_FFFF_FFFF <==> x == y || x ^ y == 0x8000_0000_0000_0000
  {
  }

  lemma KeysAgreeIff(x: bv64, y: bv64, k: bv64, k': bv64)
    requires k == x & 0x7FFF_FFFF_FFFF_FFFF && k' == y & 0x7FFF_FFFF_FFFF_FFFF
    ensures k == k' <==> x == y || x ^ y == 0x8000_0000_0000_0000
  {
    MaskedEqual(x, y);
  }

  /** Two ids share a key exactly when their folds differ in the top bit at most. */
  lemma SameKeyIff(a: Id, b: Id)
    ensures LockKey(a) == LockKey(b) <==> Fold(a) == Fold(b) || Fold(a) ^ Fold(b) == 0x8000_0000_0000_0000
  {
    hide LockKey, Fold;
    KeyIsMaskedFold(a);
    KeyIsMaskedFold(b);
    KeysAgreeIff(Fold(a), Fold(b), LockKey(a), LockKey(b));
  }
}

/** Single-flight of schema studies: an advisory lock around the check and the insert. */
module SchemaStudy {
  import opened AdvisoryLock

  // ---------------------------------------------------------------- states

  /** Phase words. `Connect` is the prefix of the failed state of the phase `Connecting`. */
  datatype Phase = Connect | Connecting | Inventory | Columns | Sampling | Describing | Indexing | Unknown(text: string)

  datatype StudyState = Queued | InPhase(phase: Phase) | Ready | ReadyPartial | Failed(phase: Phase)

  /** Whether `<phase>_FAILED` is one of the terminal states. */
  predicate FailedIsTerminal(p: Phase) {
    p != Connecting && !p.Unknown?
  }

  predicate Terminal(s: StudyState) {
    match s
    case Ready => true
    case ReadyPartial => true
    case Failed(p) => FailedIsTerminal(p)
    case _ => false
  }

  /** The failed states of the six phases, the two ready ones, and no others. A study that waits or is in some
      phase is still running. */
  lemma TerminalIff(s: StudyState)
    ensures Terminal(s) <==>
              s in {Ready, ReadyPartial, Failed(Connect), Failed(Inventory), Failed(Columns), Failed(Sampling),
                    Failed(Describing), Failed(Indexing)}
  {
  }

  /** failed_state_prefix: in-flight names are mapped, anything else becomes Inventory. */
  function FailedStatePrefix(p: Phase): Phase {
    match p
    case Connecting => Connect
    case Connect => Inventory
    case Unknown(_) => Inventory
    case _ => p
  }

  /** What a study run can raise. */
  datatype Failure = PhaseError(phase: Phase) | ConnectionFailure | TimeoutFailure | OtherFailure

  function PhaseFromException(e: Failure): Phase {
    match e
    case PhaseError(p) => FailedStatePrefix(p)
    case ConnectionFailure => Connect
    case TimeoutFailure => Connect
    case OtherFailure => Inventory
  }

  /** Every exception marks its study with a terminal state. */
  lemma ExceptionsTerminate(e: Failure)
    ensures Terminal(Failed(PhaseFromException(e)))
  {
  }

  /** Which failure each exception records: the inspector's own phase, the connection's when the network failed,
      and the inventory's for whatever is not known. */
  lemma FailureRecorded(e: Failure)
    ensures var failed := PhaseFromException(e);
            && (failed == Connect <==> e in {PhaseError(Connecting), ConnectionFailure, TimeoutFailure})
            && (failed == Inventory <==>
                  || e == PhaseError(Inventory) || e == PhaseError(Connect) || e == OtherFailure
                  || (e.PhaseError? && e.phase.Unknown?))
            && (forall p :: p in {Columns, Sampling, Describing, Indexing} ==> (failed == p <==> e == PhaseError(p)))
  {
  }

  /** The documentation lets a raiser pass the prefix directly; the code keeps it exactly when it
      is not the one prefix that differs from its phase name. */
  lemma PrefixKeptIff(p: Phase)
    requires FailedIsTerminal(p)
    ensures FailedStatePrefix(p) == p <==> p != Connect
  {
  }

  // ---------------------------------------------------------------- the protocol

  datatype Source = Source(id: Id)

  datatype Row = Row(source: Source, state: StudyState)

  /** A worker's transaction around the gate. */
  datatype Gate =
    | Locked(source: Source)             // holds the advisory lock
    | Clear(source: Source)              // saw no running study
    | Inserted(source: Source, id: nat)  // flushed a row nobody else sees yet

  /** Lock keys, and the function that derives them; nothing below depends on which one it is. */
  datatype Key = Key(bits: bv64)
  type Keying = Source -> Key

  /** Committed rows, advisory locks, open transactions. Every statement sees what was committed
      before it started, and a lock lives until its transaction ends. */
  datatype Db = Db(rows: map<nat, Row>, locks: map<Key, nat>, gates: map<nat, Gate>, nextId: nat)

  datatype Event =
    | Lock(worker: nat, source: Source)
    | Check(worker: nat)
    | Create(worker: nat)
    | Commit(worker: nat)
    | Rollback(worker: nat)
    | MarkCompleted(id: nat, partial: bool)
    | MarkFailed(id: nat, phase: Phase)
    | Enter(id: nat, phase: Phase)

  predicate Running(rows: map<nat, Row>, source: Source) {
    exists id :: id in rows && rows[id].source == source && !Terminal(rows[id].state)
  }

  predicate Enabled(key: Keying, d: Db, e: Event) {
    match e
    case Lock(w, source) => w !in d.gates && key(source) !in d.locks
    case Check(w) => w in d.gates && d.gates[w].Locked?
    case Create(w) => w in d.gates && d.gates[w].Clear?
    case Commit(w) => w in d.gates
    case Rollback(w) => w in d.gates
    case MarkCompleted(id, _) => id in d.rows
    case MarkFailed(id, _) => id in d.rows
    case Enter(id, _) => id in d.rows && !Terminal(d.rows[id].state)
  }

  function Release(key: Keying, d: Db, w: nat): Db
    requires w in d.gates
  {
    d.(locks := d.locks - {key(d.gates[w].source)}, gates := d.gates - {w})
  }

  function Step(key: Keying, d: Db, e: Event): Db {
    if !Enabled(key, d, e) then d
    else
      match e
      case Lock(w, source) =>
        d.(locks := d.locks[key(source) := w], gates := d.gates[w := Locked(source)])
      case Check(w) =>
        if Running(d.rows, d.gates[w].source) then Release(key, d, w)
        else d.(gates := d.gates[w := Clear(d.gates[w].source)])
      case Create(w) =>
        d.(gates := d.gates[w := Inserted(d.gates[w].source, d.nextId)], nextId := d.nextId + 1)
      case Commit(w) =>
        var g := d.gates[w];
        Release(key, if g.Inserted? then d.(rows := d.rows[g.id := Row(g.source, Queued)]) else d, w)
      case Rollback(w) => Release(key, d, w)
      case MarkCompleted(id, partial) =>
        d.(rows := d.rows[id := d.rows[id].(state := if partial then ReadyPartial else Ready)])
      case MarkFailed(id, phase) => d.(rows := d.rows[id := d.rows[id].(state := Failed(phase))])
      case Enter(id, phase) => d.(rows := d.rows[id := d.rows[id].(state := InPhase(phase))])
  }

  function Run(key: Keying, d: Db, es: seq<Event>): Db {
    if es == [] then d else Step(key, Run(key, d, es[..|es| - 1]), es[|es| - 1])
  }

  const Empty := Db(map[], map[], map[], 0)

  /** At most one study of a source is not terminal. */
  ghost predicate SingleFlight(d: Db) {
    forall i, j :: i in d.rows && j in d.rows && !Terminal(d.rows[i].state) && !Terminal(d.rows[j].state) ==>
      d.rows[i].source == d.rows[j].source ==> i == j
  }

  /** Who is past the gate holds the lock; who saw it clear can still rely on it. */
  predicate GateOk(key: Keying, d: Db, w: nat) {
    w in d.gates ==>
      var g := d.gates[w];
      && key(g.source) in d.locks && d.locks[key(g.source)] == w
      && (!g.Locked? ==> !Running(d.rows, g.source))
      && (g.Inserted? ==> g.id < d.nextId && g.id !in d.rows)
  }

  ghost predicate Inv(key: Keying, d: Db) {
    && SingleFlight(d)
    && (forall w :: GateOk(key, d, w))
    && (forall id :: id in d.rows ==> id < d.nextId)
    && DistinctInserts(d)
  }

  ghost predicate DistinctInserts(d: Db) {
    forall v, w :: v in d.gates && w in d.gates && d.gates[v].Inserted? && d.gates[w].Inserted? ==>
      d.gates[v].id == d.gates[w].id ==> v == w
  }

  /** A mark the study task makes leaves its row terminal. */
  predicate SoundMark(e: Event) {
    e.MarkFailed? ==> FailedIsTerminal(e.phase)
  }

  /** Rows change in place, and only a running row can stay running. */
  predicate OnlySettles(d: Db, d': Db) {
    && d'.locks == d.locks && d'.gates == d.gates && d'.nextId == d.nextId
    && d'.rows.Keys == d.rows.Keys
    && forall id :: id in d.rows ==>
         && d'.rows[id].source == d.rows[id].source
         && (Terminal(d.rows[id].state) ==> Terminal(d'.rows[id].state))
  }

  lemma SettlingInv(key: Keying, d: Db, d': Db)
    requires Inv(key, d) && OnlySettles(d, d')
    ensures Inv(key, d')
  {
    forall w
      ensures GateOk(key, d', w)
    {
      assert GateOk(key, d, w);
    }
  }

  lemma MarkInv(key: Keying, d: Db, e: Event)
    requires Inv(key, d) && Enabled(key, d, e) && SoundMark(e)
    requires e.MarkCompleted? || e.MarkFailed? || e.Enter?
    ensures Inv(key, Step(key, d, e))
  {
    assert OnlySettles(d, Step(key, d, e));
    SettlingInv(key, d, Step(key, d, e));
  }

  /** Two open transactions never share a key. */
  lemma DistinctKeys(key: Keying, d: Db, v: nat, w: nat)
    requires GateOk(key, d, v) && GateOk(key, d, w) && v in d.gates && w in d.gates && v != w
    ensures key(d.gates[v].source) != key(d.gates[w].source)
  {
  }

  lemma ReleaseInv(key: Keying, d: Db, w: nat)
    requires Inv(key, d) && w in d.gates
    ensures Inv(key, Release(key, d, w))
  {
    assert GateOk(key, d, w);
    forall v
      ensures GateOk(key, Release(key, d, w), v)
    {
      assert GateOk(key, d, v);
      if v in d.gates && v != w {
        DistinctKeys(key, d, v, w);
      }
    }
  }

  lemma GateInv(key: Keying, d: Db, e: Event)
    requires Inv(key, d) && Enabled(key, d, e) && (e.Lock? || e.Check? || e.Create?)
    ensures Inv(key, Step(key, d, e))
  {
    var d' := Step(key, d, e);
    if e.Check? && Running(d.rows, d.gates[e.worker].source) {
      ReleaseInv(key, d, e.worker);
    } else {
      assert GateOk(key, d, e.worker);
      assert forall v :: v in d.gates && d.gates[v].Inserted? ==> GateOk(key, d, v);
      forall v
        ensures GateOk(key, d', v)
      {
        assert GateOk(key, d, v);
      }
    }
  }

  /** The row becomes visible: nobody else relied on the source being clear. */
  lemma InsertInv(key: Keying, d: Db, w: nat)
    requires Inv(key, d) && w in d.gates && d.gates[w].Inserted?
    ensures var g := d.gates[w];
            var d' := d.(rows := d.rows[g.id := Row(g.source, Queued)], gates := d.gates[w := Locked(g.source)]);
            Inv(key, d')
  {
    var g := d.gates[w];
    var d' := d.(rows := d.rows[g.id := Row(g.source, Queued)], gates := d.gates[w := Locked(g.source)]);
    assert GateOk(key, d, w);
    assert forall id :: id in d.rows && d.rows[id].source == g.source ==> Terminal(d.rows[id].state);
    forall v
      ensures GateOk(key, d', v)
    {
      assert GateOk(key, d, v);
      if v in d.gates && v != w {
        DistinctKeys(key, d, v, w);
        OthersUnaffected(d.rows, g.id, Row(g.source, Queued), d.gates[v].source);
      }
    }
  }

  lemma OthersUnaffected(rows: map<nat, Row>, id: nat, row: Row, source: Source)
    requires id !in rows && row.source != source
    ensures Running(rows[id := row], source) ==> Running(rows, source)
  {
  }

  lemma CommitInv(key: Keying, d: Db, w: nat)
    requires Inv(key, d) && w in d.gates
    ensures Inv(key, Step(key, d, Commit(w)))
  {
    var g := d.gates[w];
    if g.Inserted? {
      var d' := d.(rows := d.rows[g.id := Row(g.source, Queued)], gates := d.gates[w := Locked(g.source)]);
      InsertInv(key, d, w);
      ReleaseInv(key, d', w);
      assert d'.gates - {w} == d.gates - {w};
      assert Release(key, d', w) == Step(key, d, Commit(w));
    } else {
      ReleaseInv(key, d, w);
    }
  }

  lemma StepInv(key: Keying, d: Db, e: Event)
    requires Inv(key, d) && SoundMark(e)
    ensures Inv(key, Step(key, d, e))
  {
    if Enabled(key, d, e) {
      match e
      case Commit(w) => CommitInv(key, d, w);
      case Rollback(w) => ReleaseInv(key, d, w);
      case Lock(_, _) => GateInv(key, d, e);
      case Check(_) => GateInv(key, d, e);
      case Create(_) => GateInv(key, d, e);
      case _ => MarkInv(key, d, e);
    }
  }

  /** Over all interleavings of workers, each source has at most one study that is not terminal,
      whatever the keys are: ids that fold to the same key only wait for each other. */
  lemma {:induction false} StudiesAreSingleFlight(key: Keying, es: seq<Event>)
    requires forall i :: 0 <= i < |es| ==> SoundMark(es[i])
    ensures Inv(key, Run(key, Empty, es))
  {
    if es != [] {
      StudiesAreSingleFlight(key, es[..|es| - 1]);
      StepInv(key, Run(key, Empty, es[..|es| - 1]), es[|es| - 1]);
    }
  }

  /** A worker that goes through the gate alone: it gets past exactly when no study of the source is running,
      and then its study waits under the next id. Either way it ends up without a transaction and the key is
      free again. */
  lemma GateRun(key: Keying, d: Db, w: nat, source: Source)
    requires Inv(key, d) && Enabled(key, d, Lock(w, source))
    ensures var locked := Step(key, d, Lock(w, source));
            var checked := Step(key, locked, Check(w));
            && Enabled(key, locked, Check(w))
            && (Enabled(key, checked, Create(w)) <==> !Running(d.rows, source))
            && (Running(d.rows, source) ==> checked == d)
            && (!Running(d.rows, source) ==>
                  Step(key, Step(key, checked, Create(w)), Commit(w))
                  == d.(rows := d.rows[d.nextId := Row(source, Queued)], nextId := d.nextId + 1))
            && (!Running(d.rows, source) ==> Step(key, checked, Rollback(w)) == d)
  {
    var locked := Step(key, d, Lock(w, source));
    assert locked.locks - {key(source)} == d.locks && locked.gates - {w} == d.gates;
    var checked := Step(key, locked, Check(w));
    if !Running(d.rows, source) {
      var created := Step(key, checked, Create(w));
      assert checked.locks - {key(source)} == d.locks && checked.gates - {w} == d.gates;
      assert created.locks - {key(source)} == d.locks && created.gates - {w} == d.gates;
    }
  }

  /** The keys the repository takes: the masked fold of the source's id. */
  function FoldedKey(source: Source): Key {
    Key(LockKey(source.id))
  }

  /** So studies are single-flight under the repository's own keys. */
  lemma FoldedStudiesAreSingleFlight(es: seq<Event>)
    requires forall i :: 0 <= i < |es| ==> SoundMark(es[i])
    ensures SingleFlight(Run(FoldedKey, Empty, es))
  {
    StudiesAreSingleFlight(FoldedKey, es);
  }

  /** While a worker is past the gate of one source, no other gets past the gate of a source whose id
      shares its key. */
  lemma CollidingSourcesWait(es: seq<Event>, w: nat, v: nat, other: Source)
    requires forall i :: 0 <= i < |es| ==> SoundMark(es[i])
    requires var d := Run(FoldedKey, Empty, es); w in d.gates && LockKey(d.gates[w].source.id) == LockKey(other.id)
    ensures !Enabled(FoldedKey, Run(FoldedKey, Empty, es), Lock(v, other))
  {
    var d := Run(FoldedKey, Empty, es);
    StudiesAreSingleFlight(FoldedKey, es);
    assert GateOk(FoldedKey, d, w);
  }

  /** Every lock is held by the transaction that took it. */
  predicate LocksHeld(key: Keying, d: Db) {
    forall k :: k in d.locks ==> d.locks[k] in d.gates && key(d.gates[d.locks[k]].source) == k
  }

  lemma StepLocksHeld(key: Keying, d: Db, e: Event)
    requires Inv(key, d) && LocksHeld(key, d)
    ensures LocksHeld(key, Step(key, d, e))
  {
    if Enabled(key, d, e) && (e.Check? || e.Commit? || e.Rollback?) {
      assert GateOk(key, d, e.worker);
    }
  }

  lemma {:induction false} RunLocksHeld(key: Keying, es: seq<Event>)
    requires forall i :: 0 <= i < |es| ==> SoundMark(es[i])
    ensures LocksHeld(key, Run(key, Empty, es))
  {
    if es != [] {
      StudiesAreSingleFlight(key, es[..|es| - 1]);
      RunLocksHeld(key, es[..|es| - 1]);
      StepLocksHeld(key, Run(key, Empty, es[..|es| - 1]), es[|es| - 1]);
    }
  }

  /** A worker is let to the gate of a source exactly when it has no open transaction and nobody is past the
      gate of a source that shares its key: no lock outlives its transaction. */
  lemma LockGrantedIff(es: seq<Event>, w: nat, source: Source)
    requires forall i :: 0 <= i < |es| ==> SoundMark(es[i])
    ensures var d := Run(FoldedKey, Empty, es);
            Enabled(FoldedKey, d, Lock(w, source))
            <==> w !in d.gates && forall v :: v in d.gates ==> LockKey(d.gates[v].source.id) != LockKey(source.id)
  {
    var d := Run(FoldedKey, Empty, es);
    RunLocksHeld(FoldedKey, es);
    forall v | v in d.gates && LockKey(d.gates[v].source.id) == LockKey(source.id)
      ensures !Enabled(FoldedKey, d, Lock(w, source))
    {
      CollidingSourcesWait(es, v, w, source);
    }
  }

  /** A failed mark on the only running study of a source frees the source exactly when its phase
      is a prefix of a terminal state; `Connecting`, the in-flight name, blocks it for ever. */
  lemma FailureUnblocksIff(key: Keying, d: Db, id: nat, phase: Phase)
    requires Inv(key, d) && id in d.rows && !Terminal(d.rows[id].state)
    ensures !Running(Step(key, d, MarkFailed(id, phase)).rows, d.rows[id].source) <==> FailedIsTerminal(phase)
  {
    var rows := Step(key, d, MarkFailed(id, phase)).rows;
    if !FailedIsTerminal(phase) {
      assert rows[id].source == d.rows[id].source && !Terminal(rows[id].state);
    }
  }

  /** A completed study is terminal, partial or not as it was marked, and frees its source. */
  lemma CompletionUnblocks(key: Keying, d: Db, id: nat, partial: bool)
    requires Inv(key, d) && id in d.rows && !Terminal(d.rows[id].state)
    ensures var rows := Step(key, d, MarkCompleted(id, partial)).rows;
            && rows.Keys == d.rows.Keys && rows[id].source == d.rows[id].source
            && (rows[id].state == ReadyPartial <==> partial) && (rows[id].state == Ready <==> !partial)
            && !Running(rows, d.rows[id].source)
            && forall other :: other in d.rows && other != id ==> rows[other] == d.rows[other]
  {
  }

  // ---------------------------------------------------------------- the repository

  /** The tables and the open transactions, changed statement by statement. */
  class StudyRepository {
    const key: Keying
    var rows: map<nat, Row>
    var locks: map<Key, nat>
    var gates: map<nat, Gate>
    var nextId: nat

    constructor (key: Keying)
      ensures Snapshot() == Empty && this.key == key
    {
      this.key := key;
      rows, locks, gates, nextId := map[], map[], map[], 0;
    }

    function Snapshot(): Db
      reads this
    {
      Db(rows, locks, gates, nextId)
    }

    /** Blocks until the key is free; here, the moment it is granted. */
    method LockForSource(w: nat, source: Source)
      requires Enabled(key, Snapshot(), Lock(w, source))
      modifies this`locks, this`gates
      ensures Snapshot() == Step(key, old(Snapshot()), Lock(w, source))
    {
      locks := locks[key(source) := w];
      gates := gates[w := Locked(source)];
    }

    /** The check; a worker that finds a running study leaves, which ends its transaction. */
    method IsRunning(w: nat) returns (running: bool)
      requires Enabled(key, Snapshot(), Check(w))
      modifies this`locks, this`gates
      ensures Snapshot() == Step(key, old(Snapshot()), Check(w))
      ensures running == Running(rows, old(gates[w].source))
    {
      var source := gates[w].source;
      running := Running(rows, source);
      if running {
        EndTransaction(w);
      } else {
        gates := gates[w := Clear(source)];
      }
    }

    /** The insert is flushed, and invisible to others until the commit. */
    method CreateStudy(w: nat) returns (id: nat)
      requires Enabled(key, Snapshot(), Create(w))
      modifies this`gates, this`nextId
      ensures Snapshot() == Step(key, old(Snapshot()), Create(w)) && id == old(nextId)
    {
      id := nextId;
      gates := gates[w := Inserted(gates[w].source, id)];
      nextId := nextId + 1;
    }

    method CommitTransaction(w: nat)
      requires Enabled(key, Snapshot(), Commit(w))
      modifies this`rows, this`locks, this`gates
      ensures Snapshot() == Step(key, old(Snapshot()), Commit(w))
    {
      var g := gates[w];
      if g.Inserted? {
        rows := rows[g.id := Row(g.source, Queued)];
      }
      EndTransaction(w);
    }

    method EndTransaction(w: nat)
      requires w in gates
      modifies this`locks, this`gates
      ensures Snapshot() == Release(key, old(Snapshot()), w)
    {
      locks := locks - {key(gates[w].source)};
      gates := gates - {w};
    }

    method CompleteStudy(id: nat, partial: bool)
      modifies this`rows
      ensures Snapshot() == Step(key, old(Snapshot()), MarkCompleted(id, partial))
      ensures id in rows ==> (partial <==> rows[id].state == ReadyPartial) && (!partial <==> rows[id].state == Ready)
    {
      if id in rows {
        rows := rows[id := rows[id].(state := if partial then ReadyPartial else Ready)];
      }
    }

    method FailStudy(id: nat, phase: Phase)
      modifies this`rows
      ensures Snapshot() == Step(key, old(Snapshot()), MarkFailed(id, phase))
    {
      if id in rows {
        rows := rows[id := rows[id].(state := Failed(phase))];
      }
    }
  }
}
