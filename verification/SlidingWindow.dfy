/** The Redis sorted-set window shared by the rate limiter and the account lockout: one atomic
    pipeline of trim, add, count and expire, refined to the full log of instants.

    The store and its callers share one clock. A key lives up to and including its expiry. */
module SlidingWindow {

  /** A sorted set whose members are their own scores. */
  datatype Entry = Entry(members: set<real>, expiry: real)

  // ---------------------------------------------------------------- the full log

  predicate Chronological(log: seq<real>) {
    && (log != [] ==> log[0] >= 0.0)
    && forall i, j :: 0 <= i < j < |log| ==> log[i] <= log[j]
  }

  /** The distinct logged instants in the window of length `window` that ends at `now`. */
  function Recent(log: seq<real>, now: real, window: int): set<real> {
    set t <- log | now - window as real < t <= now
  }

  /** What the pipeline counts: the window and the instant just added. */
  function Counted(log: seq<real>, now: real, window: int): set<real> {
    Recent(log, now, window) + {now}
  }

  function Last(log: seq<real>): real
    requires log != []
  {
    log[|log| - 1]
  }

  // ---------------------------------------------------------------- the compact form

  function Live<K(==)>(store: map<K, Entry>, key: K, now: real): set<real> {
    if key in store && now <= store[key].expiry then store[key].members else {}
  }

  /** The stored set of `key` holds exactly the window of its log, and outlives its members. */
  ghost predicate Matches<K>(store: map<K, Entry>, key: K, log: seq<real>, window: int) {
    if log == [] || window <= 0 then key !in store
    else
      && key in store
      && store[key].members == Recent(log, Last(log), window)
      && store[key].expiry == Last(log) + window as real
  }

  /** The store after the pipeline. An expiry that is not positive deletes the key. */
  function Slid<K>(store: map<K, Entry>, key: K, now: real, window: int, members: set<real>): map<K, Entry> {
    if window > 0 then store[key := Entry(members, now + window as real)] else store - {key}
  }

  /** The pipeline: trim, add, count, expire. */
  method Slide<K(==)>(store: map<K, Entry>, key: K, now: real, window: int, ghost log: seq<real>)
      returns (store': map<K, Entry>, count: nat)
    requires Chronological(log + [now]) && Matches(store, key, log, window)
    ensures count == |Counted(log + [now], now, window)|
    ensures store' == Slid(store, key, now, window, Counted(log + [now], now, window))
  {
    var members := Live(store, key, now);
    members := set t <- members | !(0.0 <= t <= now - window as real);
    members := members + {now};
    count := |members|;
    TrimmedIsCounted(store, key, now, window, log);
    store' := if window > 0 then store[key := Entry(members, now + window as real)] else store - {key};
  }

  /** The key now holds the window of the extended log; every other key is untouched. */
  lemma SlidMatches<K>(store: map<K, Entry>, key: K, now: real, window: int, log: seq<real>)
    ensures var store' := Slid(store, key, now, window, Counted(log + [now], now, window));
            && Matches(store', key, log + [now], window)
            && forall k, l, w :: k != key && Matches(store, k, l, w) ==> Matches(store', k, l, w)
  {
    AfterSlide(log, now, window);
  }

  lemma AfterSlide(log: seq<real>, now: real, window: int)
    ensures Last(log + [now]) == now
    ensures window > 0 ==> Counted(log + [now], now, window) == Recent(log + [now], now, window)
  {
    assert (log + [now])[|log|] == now;
  }

  lemma TrimmedIsCounted<K>(store: map<K, Entry>, key: K, now: real, window: int, log: seq<real>)
    requires Chronological(log + [now]) && Matches(store, key, log, window)
    ensures (set t <- Live(store, key, now) | !(0.0 <= t <= now - window as real)) + {now}
         == Counted(log + [now], now, window)
  {
    LiveIsRecent(store, key, now, window, log);
    TrimmedIsWindow(log, now, window);
    SnocRecent(log, now, window);
  }

  /** What survives of the log at `now`: everything once the key expired would be trimmed anyway. */
  function Remaining(log: seq<real>, now: real, window: int): set<real> {
    if log == [] || window <= 0 || now > Last(log) + window as real then {}
    else Recent(log, Last(log), window)
  }

  lemma LiveIsRecent<K>(store: map<K, Entry>, key: K, now: real, window: int, log: seq<real>)
    requires Matches(store, key, log, window)
    ensures Live(store, key, now) == Remaining(log, now, window)
  {
  }

  /** Neither expiry nor trimming ever drops an instant that the window still needs. */
  lemma TrimmedIsWindow(log: seq<real>, now: real, window: int)
    requires Chronological(log + [now])
    ensures (set t <- Remaining(log, now, window) | !(0.0 <= t <= now - window as real)) == Recent(log, now, window)
  {
    var trimmed := set t <- Remaining(log, now, window) | !(0.0 <= t <= now - window as real);
    forall t
      ensures t in trimmed <==> t in Recent(log, now, window)
    {
      if t in log {
        BeforeLast(log, now, t);
      }
    }
  }

  lemma BeforeLast(log: seq<real>, now: real, t: real)
    requires Chronological(log + [now]) && t in log
    ensures 0.0 <= t <= Last(log) <= now
  {
    var all := log + [now];
    var i :| 0 <= i < |log| && log[i] == t;
    assert all[i] == t && all[|log| - 1] == Last(log) && all[|log|] == now && all[0] == log[0];
  }

  lemma SnocRecent(log: seq<real>, now: real, window: int)
    ensures Counted(log + [now], now, window) == Recent(log, now, window) + {now}
  {
  }

  lemma ChronologicalPrefix(log: seq<real>, n: nat)
    requires Chronological(log) && n <= |log|
    ensures Chronological(log[..n])
  {
  }

  // ---------------------------------------------------------------- counting instants

  lemma SubsetSize(a: set<real>, b: set<real>)
    requires a <= b
    ensures |a| <= |b|
  {
    assert b == a + (b - a);
  }

  /** A window of a log has no more distinct instants than the log has entries. */
  lemma {:induction false} RecentIsShort(log: seq<real>, now: real, window: int)
    ensures |Recent(log, now, window)| <= |log|
  {
    if log != [] {
      var before := log[..|log| - 1];
      RecentIsShort(before, now, window);
      assert log == before + [Last(log)];
      SubsetSize(Recent(log, now, window), Recent(before, now, window) + {Last(log)});
    }
  }

  /** The last marked position. */
  lemma LastMarked(marks: seq<bool>) returns (i: nat)
    requires true in marks
    ensures i < |marks| && marks[i] && forall k :: i < k < |marks| ==> !marks[k]
  {
    i := |marks| - 1;
    while !marks[i]
      invariant 0 <= i < |marks|
      invariant forall k :: i < k < |marks| ==> !marks[k]
      invariant true in marks[..i + 1]
      decreases i
    {
      assert marks[..i + 1] == marks[..i] + [marks[i]];
      assert i > 0;
      i := i - 1;
    }
  }

  /** Instants that strictly increase are all counted. */
  lemma {:induction false} IncreasingAllCounted(log: seq<real>, now: real, window: int)
    requires forall i, j :: 0 <= i < j < |log| ==> log[i] < log[j]
    requires forall i :: 0 <= i < |log| ==> now - window as real < log[i] <= now
    ensures |Recent(log, now, window)| == |log|
  {
    if log != [] {
      var before, last := log[..|log| - 1], Last(log);
      IncreasingAllCounted(before, now, window);
      assert log == before + [last];
      assert last !in before;
      assert Recent(log, now, window) == Recent(before, now, window) + {last};
    }
  }
}
