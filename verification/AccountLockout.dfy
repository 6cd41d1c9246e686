/** Per-account lockout: two keys per email hash, refined to the failures since the last reset. */
module AccountLockout {
  import opened Wrappers
  import opened SlidingWindow

  datatype Settings = Settings(maxFails: int, window: int, lockFor: int, enabled: bool, strict: bool)

  /** check raises on Locked and Unavailable. */
  datatype Gate = Open | Locked(retryAfter: int) | Unavailable

  // ---------------------------------------------------------------- specification

  /** The failure `fails[i]` was the one too many: enough distinct instants in its window. */
  predicate Trips(fails: seq<real>, i: nat, s: Settings)
    requires i < |fails|
  {
    s.lockFor > 0 && |Counted(fails[..i + 1], fails[i], s.window)| >= s.maxFails
  }

  predicate LockedBy(fails: seq<real>, i: nat, now: real, s: Settings)
    requires i < |fails|
  {
    Trips(fails, i, s) && now <= fails[i] + s.lockFor as real
  }

  /** Some failure since the last reset locked the account, at most a lock duration ago. */
  predicate LockedAt(fails: seq<real>, now: real, s: Settings) {
    exists i :: 0 <= i < |fails| && LockedBy(fails, i, now, s)
  }

  /** The expiry of the locked key: set by the latest failure that trips. */
  function LockUntil(fails: seq<real>, s: Settings): Option<real> {
    if fails == [] then None
    else if Trips(fails, |fails| - 1, s) then Some(Last(fails) + s.lockFor as real)
    else LockUntil(fails[..|fails| - 1], s)
  }

  lemma {:induction false} LockUntilIsLatest(fails: seq<real>, now: real, s: Settings)
    requires Chronological(fails)
    ensures LockedAt(fails, now, s) <==> (LockUntil(fails, s).Some? && now <= LockUntil(fails, s).value)
    ensures LockUntil(fails, s).Some? ==> fails != [] && LockUntil(fails, s).value <= Last(fails) + s.lockFor as real
  {
    if fails != [] {
      var n := |fails| - 1;
      ChronologicalPrefix(fails, n);
      LockUntilIsLatest(fails[..n], now, s);
      LockedAtSnoc(fails, now, s);
      if n > 0 {
        assert fails[..n][n - 1] <= fails[n];
      }
    }
  }

  /** Whether a failure trips depends on the failures up to it only. */
  lemma PrefixTrips(fails: seq<real>, n: nat, i: nat, s: Settings)
    requires i < n <= |fails|
    ensures Trips(fails[..n], i, s) <==> Trips(fails, i, s)
  {
    assert fails[..n][..i + 1] == fails[..i + 1];
  }

  lemma PrefixLocks(fails: seq<real>, n: nat, i: nat, now: real, s: Settings)
    requires i < n <= |fails|
    ensures LockedBy(fails[..n], i, now, s) <==> LockedBy(fails, i, now, s)
  {
    PrefixTrips(fails, n, i, s);
  }

  lemma LockedAtSnoc(fails: seq<real>, now: real, s: Settings)
    requires fails != []
    ensures LockedAt(fails, now, s) <==>
              LockedAt(fails[..|fails| - 1], now, s) || LockedBy(fails, |fails| - 1, now, s)
  {
    hide *;
    var n := |fails| - 1;
    forall i: nat | i < n
      ensures LockedBy(fails[..n], i, now, s) <==> LockedBy(fails, i, now, s)
    {
      PrefixLocks(fails, n, i, now, s);
    }
    LocksAgree(fails, fails[..n], now, s);
  }

  lemma LocksAgree(fails: seq<real>, before: seq<real>, now: real, s: Settings)
    requires |fails| == |before| + 1
    requires forall i: nat :: i < |before| ==> (LockedBy(before, i, now, s) <==> LockedBy(fails, i, now, s))
    ensures LockedAt(fails, now, s) <==> LockedAt(before, now, s) || LockedBy(fails, |before|, now, s)
  {
  }

  // ---------------------------------------------------------------- the service

  /** The two keys of an account hold what its failures since the last reset say. */
  ghost predicate Holds<H>(failed: map<H, Entry>, locked: map<H, real>, hash: H, fails: seq<real>, s: Settings) {
    && Matches(failed, hash, fails, s.window)
    && (hash in locked <==> LockUntil(fails, s).Some?)
    && (hash in locked ==> locked[hash] == LockUntil(fails, s).value)
  }

  ghost predicate Consistent<H>(failed: map<H, Entry>, locked: map<H, real>, clock: real,
                                hash: H, fails: seq<real>, s: Settings) {
    && Chronological(fails) && (fails != [] ==> Last(fails) <= clock)
    && Holds(failed, locked, hash, fails, s)
  }

  ghost function FailsOf<H>(fails: map<H, seq<real>>, hash: H): seq<real> {
    if hash in fails then fails[hash] else []
  }

  ghost predicate AllConsistent<H(!new)>(failed: map<H, Entry>, locked: map<H, real>, clock: real,
                                         fails: map<H, seq<real>>, s: Settings) {
    && 0.0 <= clock
    && forall hash :: Consistent(failed, locked, clock, hash, FailsOf(fails, hash), s)
  }

  /** Redis reports the rest of a lifetime rounded to whole seconds, so the last half second of a
      key reads as zero; a missing key reads as -2. */
  function Ttl<H>(locked: map<H, real>, hash: H, now: real): int {
    if hash in locked && now <= locked[hash] then Rounded(locked[hash] - now) else -2
  }

  function Rounded(seconds: real): int {
    (seconds + 0.5).Floor
  }

  /** `wait` is `left` to within half a second, or the whole duration in the last half second. */
  predicate Near(wait: int, left: real, whole: int) {
    if left < 0.5 then wait == whole else left - 0.5 < wait as real <= left + 0.5
  }

  lemma RoundedIsNear(left: real)
    requires left >= 0.0
    ensures left - 0.5 < Rounded(left) as real <= left + 0.5
    ensures Rounded(left) > 0 <==> left >= 0.5
  {
  }

  class Lockout<H(==, !new)> {
    const settings: Settings
    var failed: map<H, Entry>
    var locked: map<H, real>
    ghost var clock: real
    ghost var fails: map<H, seq<real>>  // failures since the last reset, per account

    constructor (settings: Settings)
      ensures Valid() && this.settings == settings && fails == map[] && clock == 0.0
    {
      this.settings := settings;
      failed, locked, clock, fails := map[], map[], 0.0, map[];
    }

    ghost predicate Valid()
      reads this
    {
      AllConsistent(failed, locked, clock, fails, settings)
    }

    /** Raises exactly when the account is locked by its own failures; the reported wait is the
        rounded rest of the lock, or the whole duration in its last half second. */
    method Check(hash: H, now: real, up: bool) returns (gate: Gate)
      requires Valid() && clock <= now
      modifies this`clock
      ensures Valid() && clock == now
      ensures !settings.enabled ==> gate == Open
      ensures settings.enabled && !up ==> gate == if settings.strict then Unavailable else Open
      ensures settings.enabled && up ==>
                && (gate.Locked? <==> LockedAt(FailsOf(fails, hash), now, settings))
                && (gate.Locked? ==>
                      var until := LockUntil(FailsOf(fails, hash), settings);
                      && until.Some? && now <= until.value
                      && Near(gate.retryAfter, until.value - now, settings.lockFor))
                && !gate.Unavailable?
    {
      assert Consistent(failed, locked, clock, hash, FailsOf(fails, hash), settings);
      LockUntilIsLatest(FailsOf(fails, hash), now, settings);
      TimePasses(failed, locked, clock, now, fails, settings);
      clock := now;
      if !settings.enabled {
        return Open;
      }
      if !up {
        return if settings.strict then Unavailable else Open;
      }
      var ttl := Ttl(locked, hash, now);
      if ttl < 0 {
        return Open;
      }
      RoundedIsNear(locked[hash] - now);
      return Locked(if ttl > 0 then ttl else settings.lockFor);
    }

    /** A failure is logged for its account only; store errors lose it. */
    method RecordFailure(hash: H, now: real, up: bool)
      requires Valid() && clock <= now
      modifies this
      ensures Valid() && clock == now
      ensures fails == if settings.enabled && up then old(fails)[hash := FailsOf(old(fails), hash) + [now]]
                       else old(fails)
    {
      if !settings.enabled || !up {
        TimePasses(failed, locked, clock, now, fails, settings);
        clock := now;
        return;
      }
      ghost var log := FailsOf(fails, hash);
      FailureKeeps(failed, locked, clock, fails, hash, now, settings);
      hide AllConsistent, Counted, Slid;
      var failed', count := Slide(failed, hash, now, settings.window, log);
      // An expiry that is not positive is refused by the store, and the error swallowed.
      var locked' := if count >= settings.maxFails && settings.lockFor > 0
                     then locked[hash := now + settings.lockFor as real] else locked;
      failed, locked, clock := failed', locked', now;
      fails := fails[hash := log + [now]];
    }

    /** A successful login forgets the account's failures and its lock. */
    method Reset(hash: H, up: bool)
      requires Valid()
      modifies this`failed, this`locked, this`fails
      ensures Valid()
      ensures fails == if settings.enabled && up then old(fails)[hash := []] else old(fails)
    {
      if settings.enabled && up {
        AllNext(failed, locked, clock, fails, hash, failed - {hash}, locked - {hash}, [], clock, settings);
        failed, locked := failed - {hash}, locked - {hash};
        fails := fails[hash := []];
      }
    }
  }

  lemma ExtendChronology(log: seq<real>, clock: real, now: real)
    requires Chronological(log) && 0.0 <= clock <= now && (log != [] ==> Last(log) <= clock)
    ensures Chronological(log + [now])
  {
  }

  lemma TimePasses<H(!new)>(failed: map<H, Entry>, locked: map<H, real>, clock: real, now: real,
                            fails: map<H, seq<real>>, s: Settings)
    requires AllConsistent(failed, locked, clock, fails, s) && clock <= now
    ensures AllConsistent(failed, locked, now, fails, s)
  {
    assert forall d :: Consistent(failed, locked, clock, d, FailsOf(fails, d), s);
  }

  /** The key that holds the lock after one more failure, `counted` being the instants in its window. */
  function Relocked<H>(locked: map<H, real>, hash: H, now: real, count: int, s: Settings): map<H, real> {
    if count >= s.maxFails && s.lockFor > 0 then locked[hash := now + s.lockFor as real] else locked
  }

  /** What one failure does to the keys of its account. */
  lemma HoldsNext<H>(failed: map<H, Entry>, locked: map<H, real>, hash: H, log: seq<real>, now: real, s: Settings)
    requires Holds(failed, locked, hash, log, s)
    ensures var counted := Counted(log + [now], now, s.window);
            Holds(Slid(failed, hash, now, s.window, counted), Relocked(locked, hash, now, |counted|, s), hash,
                  log + [now], s)
  {
    var more := log + [now];
    assert more[..|more|] == more && more[..|more| - 1] == log && Last(more) == now;
    SlidMatches(failed, hash, now, s.window, log);
  }

  /** One more failure of one account: the store still says what the logs say. */
  lemma FailureKeeps<H(!new)>(failed: map<H, Entry>, locked: map<H, real>, clock: real, fails: map<H, seq<real>>,
                              hash: H, now: real, s: Settings)
    requires AllConsistent(failed, locked, clock, fails, s) && clock <= now
    ensures var log := FailsOf(fails, hash);
            var counted := Counted(log + [now], now, s.window);
            && Chronological(log + [now]) && Matches(failed, hash, log, s.window)
            && AllConsistent(Slid(failed, hash, now, s.window, counted), Relocked(locked, hash, now, |counted|, s), now,
                             fails[hash := log + [now]], s)
  {
    var log := FailsOf(fails, hash);
    var counted := Counted(log + [now], now, s.window);
    assert Consistent(failed, locked, clock, hash, log, s);
    ExtendChronology(log, clock, now);
    HoldsNext(failed, locked, hash, log, now, s);
    AllNext(failed, locked, clock, fails, hash, Slid(failed, hash, now, s.window, counted),
            Relocked(locked, hash, now, |counted|, s), log + [now], now, s);
  }

  /** Changing one account leaves the others as they were. */
  lemma AllNext<H(!new)>(failed: map<H, Entry>, locked: map<H, real>, clock: real, fails: map<H, seq<real>>,
                         hash: H, failed': map<H, Entry>, locked': map<H, real>, log': seq<real>, now: real,
                         s: Settings)
    requires AllConsistent(failed, locked, clock, fails, s) && clock <= now
    requires Consistent(failed', locked', now, hash, log', s)
    requires forall d :: d != hash ==> (d in failed' <==> d in failed) && (d in failed ==> failed'[d] == failed[d])
    requires forall d :: d != hash ==> (d in locked' <==> d in locked) && (d in locked ==> locked'[d] == locked[d])
    ensures AllConsistent(failed', locked', now, fails[hash := log'], s)
  {
    var fails' := fails[hash := log'];
    forall d
      ensures Consistent(failed', locked', now, d, FailsOf(fails', d), s)
    {
      if d != hash {
        assert Consistent(failed, locked, clock, d, FailsOf(fails, d), s);
      }
    }
  }

  // ---------------------------------------------------------------- the bound

  /** A failed login: the gate was open at `checked`, the failure recorded at `at`. */
  datatype Attempt = Attempt(checked: real, at: real)

  function FailTimes(attempts: seq<Attempt>): (fails: seq<real>)
    ensures |fails| == |attempts|
    ensures forall i :: 0 <= i < |attempts| ==> fails[i] == attempts[i].at
  {
    seq(|attempts|, i requires 0 <= i < |attempts| => attempts[i].at)
  }

  /** A run of sequential failed logins of one account without a successful one in between, each
      of which got past the check. */
  ghost predicate PassedTheGate(attempts: seq<Attempt>, s: Settings) {
    && Chronological(FailTimes(attempts))
    && (forall i :: 0 <= i < |attempts| ==> attempts[i].checked <= attempts[i].at)
    && (forall i :: 0 < i < |attempts| ==> attempts[i - 1].at <= attempts[i].checked)
    && (forall i :: 0 <= i < |attempts| ==> !LockedAt(FailTimes(attempts)[..i], attempts[i].checked, s))
  }

  /** The most guesses a window of any length-`window` interval can hold. */
  function GuessCap(s: Settings): nat {
    if s.maxFails > 1 then s.maxFails else 1
  }

  ghost predicate Bounded(attempts: seq<Attempt>, s: Settings) {
    forall now: real :: |Recent(FailTimes(attempts), now, s.window)| <= GuessCap(s)
  }

  function InWindow(fails: seq<real>, now: real, window: int): (marks: seq<bool>)
    ensures |marks| == |fails|
    ensures forall i :: 0 <= i < |fails| ==> marks[i] == (now - window as real < fails[i] <= now)
  {
    seq(|fails|, i requires 0 <= i < |fails| => now - window as real < fails[i] <= now)
  }

  /** The last failure of a window strictly before its latest instant had seen all the others. */
  lemma EarlierSeen(fails: seq<real>, now: real, window: int, m: real) returns (j: nat)
    requires Chronological(fails) && m in Recent(fails, now, window) && |Recent(fails, now, window)| > 1
    requires forall t <- Recent(fails, now, window) :: t <= m
    ensures j < |fails| && fails[j] < m && now - window as real < fails[j]
    ensures Recent(fails, now, window) - {m} <= Counted(fails[..j + 1], fails[j], window)
  {
    var recent := Recent(fails, now, window);
    var marks := seq(|fails|, i requires 0 <= i < |fails| => now - window as real < fails[i] < m);
    assert recent == (recent - {m}) + {m};
    var t := AnyMember(recent - {m});
    var k :| 0 <= k < |fails| && fails[k] == t;
    assert marks[k];
    j := LastMarked(marks);
    assert fails[j] < m && now - window as real < fails[j];
    forall i: nat | j < i < |fails|
      ensures !(now - window as real < fails[i] < m)
    {
      assert !marks[i];
    }
    hide Counted;
    forall t | t in recent && t != m
      ensures t in Counted(fails[..j + 1], fails[j], window)
    {
      SeenBy(fails, now, window, m, j, t);
    }
  }

  lemma SeenBy(fails: seq<real>, now: real, window: int, m: real, j: nat, t: real)
    requires Chronological(fails) && t in Recent(fails, now, window) && t < m && j < |fails| && fails[j] < m <= now
    requires forall i: nat :: j < i < |fails| ==> !(now - window as real < fails[i] < m)
    ensures t in Counted(fails[..j + 1], fails[j], window)
  {
    var k :| 0 <= k < |fails| && fails[k] == t;
    assert k <= j;
    assert fails[..j + 1][k] == t && fails[k] <= fails[j];
  }

  lemma AnyMember<T>(s: set<T>) returns (x: T)
    requires s != {}
    ensures x in s
  {
    x :| x in s;
  }

  /** The gate was open, so no failure less than a lock duration before it tripped. */
  lemma OpenGateSawNoTrip(attempts: seq<Attempt>, i: nat, j: nat, s: Settings)
    requires PassedTheGate(attempts, s) && j < i < |attempts|
    requires attempts[i].checked <= attempts[j].at + s.lockFor as real
    ensures !Trips(FailTimes(attempts), j, s)
  {
    var fails := FailTimes(attempts);
    PrefixTrips(fails, i, j, s);
    assert fails[..i][j] == fails[j];
    assert !LockedBy(fails[..i], j, attempts[i].checked, s);
  }

  /** If the lock outlasts the window, no window ever holds more failures than allowed. */
  lemma LongLockBounds(attempts: seq<Attempt>, now: real, s: Settings)
    requires PassedTheGate(attempts, s) && s.window <= Max(s.lockFor, 0)
    ensures |Recent(FailTimes(attempts), now, s.window)| <= GuessCap(s)
  {
    var fails := FailTimes(attempts);
    var recent := Recent(fails, now, s.window);
    if |recent| > 1 {
      var i := LatestFailure(fails, now, s.window);
      var j := EarlierSeen(fails, now, s.window, fails[i]);
      assert j < i;
      OpenGateSawNoTrip(attempts, i, j, s);
      SubsetSize(recent - {fails[i]}, Counted(fails[..j + 1], fails[j], s.window));
      assert |recent - {fails[i]}| == |recent| - 1;
    }
  }

  lemma LatestFailure(fails: seq<real>, now: real, window: int) returns (i: nat)
    requires Chronological(fails) && Recent(fails, now, window) != {}
    ensures i < |fails| && fails[i] in Recent(fails, now, window)
    ensures forall t <- Recent(fails, now, window) :: t <= fails[i]
  {
    var marks := InWindow(fails, now, window);
    var x := AnyMember(Recent(fails, now, window));
    var k :| 0 <= k < |fails| && fails[k] == x;
    assert marks[k];
    i := LastMarked(marks);
    LatestOf(fails, now, window, i);
  }

  lemma LatestOf(fails: seq<real>, now: real, window: int, i: nat)
    requires Chronological(fails) && i < |fails| && InWindow(fails, now, window)[i]
    requires forall k :: i < k < |fails| ==> !InWindow(fails, now, window)[k]
    ensures fails[i] in Recent(fails, now, window) && forall t <- Recent(fails, now, window) :: t <= fails[i]
  {
    forall t | t in Recent(fails, now, window)
      ensures t <= fails[i]
    {
      var k :| 0 <= k < |fails| && fails[k] == t;
      assert InWindow(fails, now, window)[k];
    }
  }

  // ---------------------------------------------------------------- sharpness

  /** `n` failures ever closer together, all before `half`. */
  function Burst(n: nat, half: real): (fails: seq<real>)
    requires half > 0.0
    ensures |fails| == n
    ensures forall i :: 0 <= i < n ==> 0.0 <= fails[i] < half
    ensures forall i, j :: 0 <= i < j < n ==> fails[i] < fails[j]
  {
    if n == 0 then []
    else
      var before := Burst(n - 1, half);
      before + [if n == 1 then 0.0 else (before[n - 2] + half) / 2.0]
  }

  /** The burst that locks, and one more failure once its lock has run out. */
  function BurstAndReturn(s: Settings, half: real): (fails: seq<real>)
    requires half > 0.0
    ensures |fails| == GuessCap(s) + 1
    ensures Chronological(fails) && forall i, j :: 0 <= i < j < |fails| ==> fails[i] < fails[j]
  {
    Burst(GuessCap(s), half) + [half + Max(s.lockFor, 0) as real]
  }

  /** Attempts whose check and failure coincide. */
  function Instant(fails: seq<real>): (attempts: seq<Attempt>)
    ensures FailTimes(attempts) == fails
    ensures forall i :: 0 <= i < |fails| ==> attempts[i] == Attempt(fails[i], fails[i])
  {
    seq(|fails|, i requires 0 <= i < |fails| => Attempt(fails[i], fails[i]))
  }

  /** The burst alone stays below the threshold until its last failure. */
  lemma BurstPasses(s: Settings, half: real)
    requires half > 0.0
    ensures PassedTheGate(Instant(BurstAndReturn(s, half)), s)
  {
    var fails := BurstAndReturn(s, half);
    forall i | 0 <= i < |fails|
      ensures !LockedAt(fails[..i], fails[i], s)
    {
      BurstOpenAt(s, half, i);
    }
    assert FailTimes(Instant(fails)) == fails;
  }

  lemma BurstOpenAt(s: Settings, half: real, i: nat)
    requires half > 0.0 && i <= GuessCap(s)
    ensures var fails := BurstAndReturn(s, half); !LockedAt(fails[..i], fails[i], s)
  {
    var fails := BurstAndReturn(s, half);
    forall j | 0 <= j < i
      ensures !LockedBy(fails[..i], j, fails[i], s)
    {
      CountedIsShort(fails[..i][..j + 1], fails[..i][j], s.window);
    }
  }

  lemma CountedIsShort(log: seq<real>, now: real, window: int)
    requires log != [] && Last(log) == now
    ensures |Counted(log, now, window)| <= |log|
  {
    var before := log[..|log| - 1];
    assert log == before + [now];
    SnocRecent(before, now, window);
    RecentIsShort(before, now, window);
  }

  lemma ShortLockOvershoots(s: Settings)
    requires s.window > Max(s.lockFor, 0)
    ensures exists attempts :: PassedTheGate(attempts, s) && !Bounded(attempts, s)
  {
    var half := (s.window - Max(s.lockFor, 0)) as real / 2.0;
    var fails := BurstAndReturn(s, half);
    var now := fails[GuessCap(s)];
    BurstPasses(s, half);
    assert now < s.window as real;
    IncreasingAllCounted(fails, now, s.window);
    assert FailTimes(Instant(fails)) == fails;
    assert |Recent(FailTimes(Instant(fails)), now, s.window)| > GuessCap(s);
    assert !Bounded(Instant(fails), s);
  }

  /** The lockout promises at most `maxFails` distinct failures in any window exactly when the
      lock lasts at least as long as the window (or the window is empty). */
  lemma BoundHoldsIffLockOutlastsWindow(s: Settings)
    ensures (forall attempts :: PassedTheGate(attempts, s) ==> Bounded(attempts, s))
       <==> s.window <= Max(s.lockFor, 0)
  {
    if s.window <= Max(s.lockFor, 0) {
      forall attempts, now: real | PassedTheGate(attempts, s)
        ensures |Recent(FailTimes(attempts), now, s.window)| <= GuessCap(s)
      {
        LongLockBounds(attempts, now, s);
      }
    } else {
      ShortLockOvershoots(s);
    }
  }

  /** Failures at one instant collapse into one, so any number of them leaves the account open
      as long as more than one failure is allowed. */
  lemma SameInstantNeverLocks(fails: seq<real>, at: real, now: real, s: Settings)
    requires s.maxFails >= 2 && forall i :: 0 <= i < |fails| ==> fails[i] == at
    ensures !LockedAt(fails, now, s)
  {
    forall i | 0 <= i < |fails|
      ensures !LockedBy(fails, i, now, s)
    {
      assert Counted(fails[..i + 1], fails[i], s.window) == {at};
    }
  }

  // ---------------------------------------------------------------- logging in

  datatype LoginOutcome = LockedOut(retryAfter: int) | Unauthorized | Disabled | Issued

  ghost function AttemptsOf<H>(attempts: map<H, seq<Attempt>>, hash: H): seq<Attempt> {
    if hash in attempts then attempts[hash] else []
  }

  /** The failures of an account since its last successful login all got past the check. */
  ghost predicate Gated<H>(attempts: map<H, seq<Attempt>>, fails: map<H, seq<real>>, hash: H, s: Settings) {
    && PassedTheGate(AttemptsOf(attempts, hash), s)
    && FailTimes(AttemptsOf(attempts, hash)) == FailsOf(fails, hash)
  }

  /** Logins over a store that answers; a locked account never reaches the password check. With the
      lockout disabled nothing is recorded. */
  class LoginService<H(==, !new)> {
    const lockout: Lockout<H>
    ghost var attempts: map<H, seq<Attempt>>

    constructor (settings: Settings)
      ensures Valid() && fresh(lockout) && lockout.settings == settings && attempts == map[]
    {
      lockout := new Lockout(settings);
      attempts := map[];
    }

    ghost predicate Valid()
      reads this, lockout
    {
      && lockout.Valid()
      && forall hash :: Gated(attempts, lockout.fails, hash, lockout.settings)
    }

    /** `verified`: the user exists and the password matches, decided between the two instants. */
    method Login(hash: H, checked: real, at: real, verified: bool, active: bool) returns (outcome: LoginOutcome)
      requires Valid() && lockout.clock <= checked <= at
      modifies this, lockout
      ensures Valid()
      ensures outcome.LockedOut? <==> lockout.settings.enabled
                                      && LockedAt(FailsOf(old(lockout.fails), hash), checked, lockout.settings)
      ensures !outcome.LockedOut? ==>
                outcome == if !verified then Unauthorized else if !active then Disabled else Issued
      ensures attempts ==
                if !lockout.settings.enabled then old(attempts)
                else if outcome == Unauthorized then
                  old(attempts)[hash := AttemptsOf(old(attempts), hash) + [Attempt(checked, at)]]
                else if outcome == Issued then old(attempts)[hash := []]
                else old(attempts)
    {
      var gate := lockout.Check(hash, checked, true);
      if gate.Locked? {
        return LockedOut(gate.retryAfter);
      }
      if !lockout.settings.enabled {
        return if !verified then Unauthorized else if !active then Disabled else Issued;
      }
      if !verified {
        assert Consistent(lockout.failed, lockout.locked, lockout.clock, hash,
                          FailsOf(lockout.fails, hash), lockout.settings);
        NextAttempt(attempts, lockout.fails, hash, checked, at, lockout.settings);
        lockout.RecordFailure(hash, at, true);
        attempts := attempts[hash := AttemptsOf(attempts, hash) + [Attempt(checked, at)]];
        return Unauthorized;
      }
      if !active {
        return Disabled;
      }
      Forgotten(attempts, lockout.fails, hash, lockout.settings);
      lockout.Reset(hash, true);
      attempts := attempts[hash := []];
      return Issued;
    }
  }

  lemma Forgotten<H(!new)>(attempts: map<H, seq<Attempt>>, fails: map<H, seq<real>>, hash: H, s: Settings)
    requires forall h :: Gated(attempts, fails, h, s)
    ensures var attempts', fails' := attempts[hash := []], fails[hash := []];
            forall h :: Gated(attempts', fails', h, s)
  {
    var attempts', fails' := attempts[hash := []], fails[hash := []];
    forall h
      ensures Gated(attempts', fails', h, s)
    {
      if h == hash {
        assert FailTimes([]) == [];
      } else {
        assert Gated(attempts, fails, h, s);
      }
    }
  }

  lemma NextAttempt<H(!new)>(attempts: map<H, seq<Attempt>>, fails: map<H, seq<real>>,
                             hash: H, checked: real, at: real, s: Settings)
    requires forall h :: Gated(attempts, fails, h, s)
    requires var log := FailsOf(fails, hash); log != [] ==> Last(log) <= checked
    requires 0.0 <= checked <= at && !LockedAt(FailsOf(fails, hash), checked, s)
    ensures var attempts' := attempts[hash := AttemptsOf(attempts, hash) + [Attempt(checked, at)]];
            var fails' := fails[hash := FailsOf(fails, hash) + [at]];
            forall h :: Gated(attempts', fails', h, s)
  {
    assert Gated(attempts, fails, hash, s);
    GateStep(AttemptsOf(attempts, hash), checked, at, s);
    var attempts' := attempts[hash := AttemptsOf(attempts, hash) + [Attempt(checked, at)]];
    var fails' := fails[hash := FailsOf(fails, hash) + [at]];
    forall h
      ensures Gated(attempts', fails', h, s)
    {
      assert Gated(attempts, fails, h, s);
    }
  }

  lemma GateStep(attempts: seq<Attempt>, checked: real, at: real, s: Settings)
    requires PassedTheGate(attempts, s) && 0.0 <= checked <= at
    requires attempts != [] ==> attempts[|attempts| - 1].at <= checked
    requires !LockedAt(FailTimes(attempts), checked, s)
    ensures var more := attempts + [Attempt(checked, at)];
            PassedTheGate(more, s) && FailTimes(more) == FailTimes(attempts) + [at]
  {
    var more, fails := attempts + [Attempt(checked, at)], FailTimes(attempts);
    assert FailTimes(more) == fails + [at];
    forall i | 0 <= i < |more|
      ensures !LockedAt(FailTimes(more)[..i], more[i].checked, s)
    {
      assert FailTimes(more)[..i] == fails[..i];
      assert i == |fails| ==> fails[..i] == fails;
    }
  }
}
