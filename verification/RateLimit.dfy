/** The IP rate limiter: rule matching and the sliding-window middleware. */
module RateLimit {
  import opened Wrappers
  import opened SlidingWindow

  /** Limits and windows come from settings; the check is by path prefix. */
  datatype Rule = Rule(prefix: string, limit: int, window: int)

  datatype Settings = Settings(
    loginLimit: int, loginWindow: int, refreshLimit: int, refreshWindow: int, apiLimit: int, apiWindow: int)

  const API: string := "/api/v1/"
  const LOGIN: string := "/api/v1/auth/login"
  const REFRESH: string := "/api/v1/auth/refresh"
  const MODEL_TEST: string := "/api/v1/admin/ai-models/test-connection"
  const EMBEDDER_TEST: string := "/api/v1/admin/embedders/test-connection"

  function Rules(s: Settings): seq<Rule> {
    [Rule(LOGIN, s.loginLimit, s.loginWindow), Rule(REFRESH, s.refreshLimit, s.refreshWindow),
     Rule(MODEL_TEST, 10, 60), Rule(EMBEDDER_TEST, 10, 60), Rule(API, s.apiLimit, s.apiWindow)]
  }

  // ---------------------------------------------------------------- matching

  /** No rule is shadowed by a shorter prefix listed before it. */
  predicate SpecificFirst(rules: seq<Rule>) {
    forall i, j :: 0 <= i < j < |rules| ==> !(rules[i].prefix <= rules[j].prefix)
  }

  /** `rules[k]` is the rule with the longest prefix matching `path`. */
  predicate LongestMatch(rules: seq<Rule>, path: string, k: nat) {
    && k < |rules| && rules[k].prefix <= path
    && forall j :: 0 <= j < |rules| && rules[j].prefix <= path ==> |rules[j].prefix| <= |rules[k].prefix|
  }

  /** `rules[k]` is the first rule matching `path`. */
  predicate FirstMatch(rules: seq<Rule>, path: string, k: nat) {
    k < |rules| && rules[k].prefix <= path && forall j :: 0 <= j < k ==> !(rules[j].prefix <= path)
  }

  /** The first match wins, which is the longest one in a well-ordered table. */
  lemma FirstIsLongest(rules: seq<Rule>, path: string, k: nat)
    requires SpecificFirst(rules) && FirstMatch(rules, path, k)
    ensures LongestMatch(rules, path, k)
  {
    forall j | 0 <= j < |rules| && rules[j].prefix <= path
      ensures |rules[j].prefix| <= |rules[k].prefix|
    {
      if j > k {
        PrefixesNest(rules[k].prefix, rules[j].prefix, path);
      }
    }
  }

  method MatchRule(rules: seq<Rule>, path: string) returns (rule: Option<Rule>)
    ensures rule.None? <==> forall r <- rules :: !(r.prefix <= path)
    ensures rule.Some? ==> exists k: nat :: FirstMatch(rules, path, k) && rules[k] == rule.value
  {
    for i := 0 to |rules|
      invariant forall k :: 0 <= k < i ==> !(rules[k].prefix <= path)
    {
      if rules[i].prefix <= path {
        assert FirstMatch(rules, path, i);
        return Some(rules[i]);
      }
    }
    return None;
  }

  lemma PrefixesNest(a: string, b: string, path: string)
    requires a <= path && b <= path && !(a <= b)
    ensures |b| < |a|
  {
  }

  /** `a` and `b` disagree at position `i`. */
  predicate DifferAt(a: string, b: string, i: nat) {
    i < |a| && i < |b| && a[i] != b[i]
  }

  lemma LoginRefresh()
    ensures DifferAt(LOGIN, REFRESH, 13)
  {
  }

  lemma LoginAdmin()
    ensures DifferAt(LOGIN, MODEL_TEST, 9) && DifferAt(LOGIN, EMBEDDER_TEST, 9)
  {
  }

  lemma RefreshAdmin()
    ensures DifferAt(REFRESH, MODEL_TEST, 9) && DifferAt(REFRESH, EMBEDDER_TEST, 9)
  {
  }

  lemma ModelEmbedder()
    ensures DifferAt(MODEL_TEST, EMBEDDER_TEST, 14)
  {
  }

  lemma AllUnderApi()
    ensures API < LOGIN && API < REFRESH && API < MODEL_TEST && API < EMBEDDER_TEST
  {
  }

  lemma PrefixesAgree(a: string, b: string, i: nat)
    requires DifferAt(a, b, i)
    ensures !(a <= b)
  {
  }

  /** The configured table is well ordered. */
  lemma RulesAreSpecificFirst(s: Settings)
    ensures SpecificFirst(Rules(s))
  {
    LoginRefresh();
    LoginAdmin();
    RefreshAdmin();
    ModelEmbedder();
    AllUnderApi();
    PrefixesAgree(LOGIN, REFRESH, 13);
    PrefixesAgree(LOGIN, MODEL_TEST, 9);
    PrefixesAgree(LOGIN, EMBEDDER_TEST, 9);
    PrefixesAgree(REFRESH, MODEL_TEST, 9);
    PrefixesAgree(REFRESH, EMBEDDER_TEST, 9);
    PrefixesAgree(MODEL_TEST, EMBEDDER_TEST, 14);
    SpecificFive(Rules(s), LOGIN, REFRESH, MODEL_TEST, EMBEDDER_TEST, API);
  }

  lemma SpecificFive(rs: seq<Rule>, p0: string, p1: string, p2: string, p3: string, p4: string)
    requires |rs| == 5 && rs[0].prefix == p0 && rs[1].prefix == p1 && rs[2].prefix == p2
    requires rs[3].prefix == p3 && rs[4].prefix == p4
    requires !(p0 <= p1) && !(p0 <= p2) && !(p0 <= p3) && !(p1 <= p2) && !(p1 <= p3) && !(p2 <= p3)
    requires p4 < p0 && p4 < p1 && p4 < p2 && p4 < p3
    ensures SpecificFirst(rs)
  {
  }

  /** Which limit a path of the API is under: logins and refreshes have their own, the two connection checks
      ten a minute, and everything else shares the limit of the API. */
  lemma LimitOfPath(s: Settings, path: string, k: nat)
    requires FirstMatch(Rules(s), path, k)
    ensures var (limit, window) := (Rules(s)[k].limit, Rules(s)[k].window);
            && (LOGIN <= path ==> (limit, window) == (s.loginLimit, s.loginWindow))
            && (REFRESH <= path ==> (limit, window) == (s.refreshLimit, s.refreshWindow))
            && (MODEL_TEST <= path || EMBEDDER_TEST <= path ==> (limit, window) == (10, 60))
            && (!(LOGIN <= path) && !(REFRESH <= path) && !(MODEL_TEST <= path) && !(EMBEDDER_TEST <= path) ==>
                  (limit, window) == (s.apiLimit, s.apiWindow))
  {
    LoginRefresh();
    LoginAdmin();
    RefreshAdmin();
    Clash(LOGIN, REFRESH, 13, path);
    Clash(LOGIN, MODEL_TEST, 9, path);
    Clash(LOGIN, EMBEDDER_TEST, 9, path);
    Clash(REFRESH, MODEL_TEST, 9, path);
    Clash(REFRESH, EMBEDDER_TEST, 9, path);
    FirstOfFive(Rules(s), path, k);
  }

  lemma Clash(a: string, b: string, i: nat, path: string)
    requires DifferAt(a, b, i)
    ensures !(a <= path && b <= path)
  {
  }

  lemma FirstOfFive(rs: seq<Rule>, path: string, k: nat)
    requires |rs| == 5 && FirstMatch(rs, path, k)
    ensures rs[0].prefix <= path ==> k == 0
    ensures !(rs[0].prefix <= path) && rs[1].prefix <= path ==> k == 1
    ensures !(rs[0].prefix <= path) && !(rs[1].prefix <= path) && (rs[2].prefix <= path || rs[3].prefix <= path) ==>
              k == 2 || k == 3
    ensures (forall i :: 0 <= i < 4 ==> !(rs[i].prefix <= path)) ==> k == 4
  {
  }

  /** The limiter covers exactly the API. */
  lemma RulesCoverTheApi(s: Settings, path: string)
    ensures (exists r :: r in Rules(s) && r.prefix <= path) <==> API <= path
  {
    var rs := Rules(s);
    AllUnderApi();
    if API <= path {
      assert rs[4] in rs;
    }
    forall r | r in rs && r.prefix <= path
      ensures API <= path
    {
      assert API <= r.prefix;
    }
  }

  // ---------------------------------------------------------------- the middleware

  datatype Client = Client(prefix: string, ip: string)

  /** What the caller sees; `remaining` is the header value. */
  datatype Outcome = Unlimited | Passed(remaining: int, resetAt: int) | Rejected(retryAfter: int, resetAt: int)

  /** One request that reached the store. */
  datatype Request = Request(at: real, admitted: bool)

  function Ats(log: seq<Request>): (ats: seq<real>)
    ensures |ats| == |log|
    ensures forall i :: 0 <= i < |log| ==> ats[i] == log[i].at
  {
    seq(|log|, i requires 0 <= i < |log| => log[i].at)
  }

  /** Every request, rejected ones included, was judged by the distinct instants of its window. */
  ghost predicate Judged(log: seq<Request>, limit: int, window: int) {
    && Chronological(Ats(log))
    && forall i :: 0 <= i < |log| ==>
         (log[i].admitted <==> |Counted(Ats(log)[..i + 1], log[i].at, window)| <= limit)
  }

  lemma AtsSnoc(log: seq<Request>, r: Request)
    ensures Ats(log + [r]) == Ats(log) + [r.at]
  {
  }

  lemma JudgedSnoc(log: seq<Request>, r: Request, limit: int, window: int)
    requires Judged(log, limit, window) && Chronological(Ats(log) + [r.at])
    requires r.admitted <==> |Counted(Ats(log) + [r.at], r.at, window)| <= limit
    ensures Judged(log + [r], limit, window)
  {
    AtsSnoc(log, r);
    var more := log + [r];
    forall i | 0 <= i < |more|
      ensures more[i].admitted <==> |Counted(Ats(more)[..i + 1], more[i].at, window)| <= limit
    {
      if i < |log| {
        assert Ats(more)[..i + 1] == Ats(log)[..i + 1];
      } else {
        assert Ats(more)[..i + 1] == Ats(log) + [r.at];
      }
    }
  }

  lemma ChronologicalSnoc(log: seq<real>, now: real)
    requires Chronological(log) && 0.0 <= now && (log != [] ==> Last(log) <= now)
    ensures Chronological(log + [now])
  {
  }

  ghost function LogOf(logs: map<Client, seq<Request>>, c: Client): seq<Request> {
    if c in logs then logs[c] else []
  }

  /** The stored set is the window of the log, and every logged request was judged by it. */
  ghost predicate Tracks(store: map<Client, Entry>, log: seq<Request>, clock: real, c: Client, rule: Rule) {
    && Judged(log, rule.limit, rule.window)
    && Matches(store, c, Ats(log), rule.window)
    && (log != [] ==> Last(Ats(log)) <= clock)
  }

  ghost predicate AllTracked(rules: seq<Rule>, store: map<Client, Entry>, logs: map<Client, seq<Request>>,
                             clock: real) {
    && SpecificFirst(rules) && 0.0 <= clock
    && forall c: Client, r :: r in rules && r.prefix == c.prefix ==> Tracks(store, LogOf(logs, c), clock, c, r)
  }

  /** What the reset header says: a window from now, in whole seconds. */
  function ResetAt(rule: Rule, now: real): int {
    now.Floor + rule.window
  }

  class RateLimiter {
    const rules: seq<Rule>
    var store: map<Client, Entry>
    ghost var clock: real
    ghost var logs: map<Client, seq<Request>>

    constructor (settings: Settings)
      ensures Valid() && rules == Rules(settings) && logs == map[] && clock == 0.0
    {
      rules := Rules(settings);
      store, clock, logs := map[], 0.0, map[];
      new;
      RulesAreSpecificFirst(settings);
    }

    ghost predicate Valid()
      reads this
    {
      AllTracked(rules, store, logs, clock)
    }

    /** One request at `now`; `up` says whether the store answers. */
    method Dispatch(path: string, ip: string, now: real, up: bool) returns (outcome: Outcome)
      requires Valid() && clock <= now
      modifies this
      ensures Valid() && clock == now
      ensures outcome.Unlimited? <==> forall r <- rules :: !(r.prefix <= path)
      ensures outcome.Unlimited? || !up ==> store == old(store) && logs == old(logs) && !outcome.Rejected?
      ensures !outcome.Unlimited? && !up ==>
                exists k: nat :: FirstMatch(rules, path, k) && LongestMatch(rules, path, k) &&
                  outcome == Passed(rules[k].limit, now.Floor + rules[k].window)
      ensures !outcome.Unlimited? && up ==>
                exists k: nat :: FirstMatch(rules, path, k) && LongestMatch(rules, path, k) &&
                  Served(Client(rules[k].prefix, ip), rules[k], now, outcome, old(logs), logs)
    {
      var rule := MatchRule(rules, path);
      if rule.None? {
        outcome := Unlimited;
        clock := now;
      } else {
        ghost var k: nat :| FirstMatch(rules, path, k) && rules[k] == rule.value;
        FirstIsLongest(rules, path, k);
        if !up {
          outcome := Passed(rule.value.limit, ResetAt(rule.value, now));
          clock := now;
        } else {
          outcome := Limit(rule.value, ip, now);
        }
      }
    }

    method Limit(rule: Rule, ip: string, now: real) returns (outcome: Outcome)
      requires Valid() && clock <= now && rule in rules
      modifies this
      ensures Valid() && clock == now && !outcome.Unlimited?
      ensures Served(Client(rule.prefix, ip), rule, now, outcome, old(logs), logs)
    {
      var client := Client(rule.prefix, ip);
      ghost var log := LogOf(logs, client);
      ServedNext(rules, store, logs, clock, client, rule, now);
      hide AllTracked, Counted, Slid, Judged;
      var store', count := Slide(store, client, now, rule.window, Ats(log));
      outcome := if count > rule.limit then Rejected(rule.window, ResetAt(rule, now))
                 else Passed(Max(0, rule.limit - count), ResetAt(rule, now));
      AtsSnoc(log, Request(now, outcome.Passed?));
      store := store';
      logs := logs[client := log + [Request(now, outcome.Passed?)]];
      clock := now;
    }
  }

  lemma ClientTracked(rules: seq<Rule>, store: map<Client, Entry>, logs: map<Client, seq<Request>>, clock: real,
                      client: Client, rule: Rule)
    requires AllTracked(rules, store, logs, clock) && rule in rules && client.prefix == rule.prefix
    ensures Tracks(store, LogOf(logs, client), clock, client, rule) && 0.0 <= clock
  {
  }

  lemma TrackedFacts(store: map<Client, Entry>, log: seq<Request>, clock: real, c: Client, rule: Rule, now: real)
    requires Tracks(store, log, clock, c, rule) && 0.0 <= clock <= now
    ensures Chronological(Ats(log) + [now]) && Matches(store, c, Ats(log), rule.window)
  {
    ChronologicalSnoc(Ats(log), now);
  }

  lemma SlidFrame(store: map<Client, Entry>, key: Client, now: real, window: int, counted: set<real>)
    ensures var store' := Slid(store, key, now, window, counted);
            forall d :: d != key ==> (d in store' <==> d in store) && (d in store ==> store'[d] == store[d])
  {
  }

  /** One more request of one client, judged by its window: the store still says what the logs say. */
  lemma ServedNext(rules: seq<Rule>, store: map<Client, Entry>, logs: map<Client, seq<Request>>, clock: real,
                   client: Client, rule: Rule, now: real)
    requires AllTracked(rules, store, logs, clock) && rule in rules && client.prefix == rule.prefix && clock <= now
    ensures var log := LogOf(logs, client);
            var counted := Counted(Ats(log) + [now], now, rule.window);
            var request := Request(now, |counted| <= rule.limit);
            && Chronological(Ats(log) + [now]) && Matches(store, client, Ats(log), rule.window)
            && AllTracked(rules, Slid(store, client, now, rule.window, counted), logs[client := log + [request]], now)
  {
    hide *;
    var log := LogOf(logs, client);
    var counted := Counted(Ats(log) + [now], now, rule.window);
    var request := Request(now, |counted| <= rule.limit);
    ClientTracked(rules, store, logs, clock, client, rule);
    TrackedFacts(store, log, clock, client, rule, now);
    TracksNext(store, log, clock, client, rule, request);
    SlidFrame(store, client, now, rule.window, counted);
    AllTrackedNext(rules, store, logs, clock, client, rule, Slid(store, client, now, rule.window, counted),
                   log + [request], now);
  }

  /** Serving a client keeps its log tracked. */
  lemma TracksNext(store: map<Client, Entry>, log: seq<Request>, clock: real, c: Client, rule: Rule, request: Request)
    requires Tracks(store, log, clock, c, rule) && 0.0 <= clock <= request.at
    requires request.admitted <==> |Counted(Ats(log) + [request.at], request.at, rule.window)| <= rule.limit
    ensures Ats(log + [request]) == Ats(log) + [request.at]
    ensures var counted := Counted(Ats(log) + [request.at], request.at, rule.window);
            Tracks(Slid(store, c, request.at, rule.window, counted), log + [request], request.at, c, rule)
  {
    AtsSnoc(log, request);
    ChronologicalSnoc(Ats(log), request.at);
    JudgedSnoc(log, request, rule.limit, rule.window);
    SlidMatches(store, c, request.at, rule.window, Ats(log));
    AfterSlide(Ats(log), request.at, rule.window);
  }

  lemma AllTrackedNext(rules: seq<Rule>, store: map<Client, Entry>, logs: map<Client, seq<Request>>, clock: real,
                       c: Client, rule: Rule, store': map<Client, Entry>, log': seq<Request>, now: real)
    requires AllTracked(rules, store, logs, clock) && rule in rules && c.prefix == rule.prefix && clock <= now
    requires Tracks(store', log', now, c, rule)
    requires forall d :: d != c ==> (d in store' <==> d in store) && (d in store ==> store'[d] == store[d])
    ensures AllTracked(rules, store', logs[c := log'], now)
  {
    SameRule(rules, rule);
    forall d: Client, r | r in rules && r.prefix == d.prefix
      ensures Tracks(store', LogOf(logs[c := log'], d), now, d, r)
    {
      if d == c {
        assert r == rule;
      } else {
        OtherTracked(store, store', clock, now, d, LogOf(logs, d), r);
      }
    }
  }

  /** Every other client stays tracked. */
  lemma OtherTracked(store: map<Client, Entry>, store': map<Client, Entry>, clock: real, now: real,
                     d: Client, log: seq<Request>, rule: Rule)
    requires clock <= now && Tracks(store, log, clock, d, rule)
    requires (d in store' <==> d in store) && (d in store ==> store'[d] == store[d])
    ensures Tracks(store', log, now, d, rule)
  {
  }

  /** A request is appended to its client's log, admitted or not; other logs are untouched. */
  ghost predicate Served(c: Client, rule: Rule, now: real, outcome: Outcome,
                         before: map<Client, seq<Request>>, after: map<Client, seq<Request>>) {
    var log := LogOf(before, c) + [Request(now, outcome.Passed?)];
    && after == before[c := log]
    && (outcome.Passed? ==>
          outcome.remaining == Max(0, rule.limit - |Counted(Ats(log), now, rule.window)|))
    && (outcome.Rejected? ==> outcome.retryAfter == rule.window)
    && (!outcome.Unlimited? ==> outcome.resetAt == now.Floor + rule.window)
  }

  lemma SameRule(rules: seq<Rule>, rule: Rule)
    requires SpecificFirst(rules) && rule in rules
    ensures forall r :: r in rules && r.prefix == rule.prefix ==> r == rule
  {
    forall r | r in rules && r.prefix == rule.prefix
      ensures r == rule
    {
      var i :| 0 <= i < |rules| && rules[i] == r;
      var j :| 0 <= j < |rules| && rules[j] == rule;
      assert rules[i].prefix <= rules[j].prefix && rules[j].prefix <= rules[i].prefix;
    }
  }

  // ---------------------------------------------------------------- the limit

  /** The distinct instants of admitted requests in the window that ends at `now`. */
  function Admitted(log: seq<Request>, now: real, window: int): set<real> {
    set r <- log | r.admitted && now - window as real < r.at <= now :: r.at
  }

  function AdmittedMarks(log: seq<Request>, now: real, window: int): (marks: seq<bool>)
    ensures |marks| == |log|
    ensures forall i :: 0 <= i < |log| ==>
      marks[i] == (log[i].admitted && now - window as real < log[i].at <= now)
  {
    seq(|log|, i requires 0 <= i < |log| => log[i].admitted && now - window as real < log[i].at <= now)
  }

  /** The admitted instants of a window were all counted when its last admitted request was. */
  lemma AdmittedWereCounted(log: seq<Request>, window: int, now: real, i: nat)
    requires Chronological(Ats(log)) && i < |log| && log[i].at <= now
    requires forall k :: i < k < |log| ==> !AdmittedMarks(log, now, window)[k]
    ensures Admitted(log, now, window) <= Counted(Ats(log)[..i + 1], log[i].at, window)
  {
    forall t | t in Admitted(log, now, window)
      ensures t in Counted(Ats(log)[..i + 1], log[i].at, window)
    {
      var r :| r in log && r.admitted && now - window as real < r.at <= now && r.at == t;
      var k :| 0 <= k < |log| && log[k] == r;
      CountedAt(log, window, now, i, k);
    }
  }

  lemma CountedAt(log: seq<Request>, window: int, now: real, i: nat, k: nat)
    requires Chronological(Ats(log)) && k < |log| && i < |log| && log[i].at <= now
    requires forall k :: i < k < |log| ==> !AdmittedMarks(log, now, window)[k]
    requires log[k].admitted && now - window as real < log[k].at <= now
    ensures log[k].at in Counted(Ats(log)[..i + 1], log[i].at, window)
  {
    assert AdmittedMarks(log, now, window)[k];
    assert Ats(log)[..i + 1][k] == log[k].at && Ats(log)[k] <= Ats(log)[i];
  }

  /** No window of any log admits requests at more than `limit` distinct instants. */
  lemma WindowAdmitsAtMostLimit(log: seq<Request>, limit: int, window: int, now: real)
    requires Judged(log, limit, window)
    ensures |Admitted(log, now, window)| <= Max(0, limit)
  {
    var marks := AdmittedMarks(log, now, window);
    if true in marks {
      var i := LastMarked(marks);
      AdmittedWereCounted(log, window, now, i);
      SubsetSize(Admitted(log, now, window), Counted(Ats(log)[..i + 1], log[i].at, window));
    } else {
      NoneMarked(log, window, now);
    }
  }

  lemma NoneMarked(log: seq<Request>, window: int, now: real)
    requires true !in AdmittedMarks(log, now, window)
    ensures Admitted(log, now, window) == {}
  {
    var marks := AdmittedMarks(log, now, window);
    assert forall k :: 0 <= k < |log| ==> marks[k] == (log[k].admitted && now - window as real < log[k].at <= now);
    assert forall k :: 0 <= k < |log| ==> !marks[k];
  }

  lemma BurstCounted(ats: seq<real>, limit: nat, window: int, i: nat)
    requires limit <= i < |ats| && forall j, k :: 0 <= j < k < |ats| ==> ats[j] < ats[k]
    requires ats[i - limit] > ats[i] - window as real
    ensures |Counted(ats[..i + 1], ats[i], window)| > limit
  {
    var burst := ats[i - limit..i + 1];
    forall k | 0 <= k < |burst|
      ensures ats[i] - window as real < burst[k] <= ats[i] && burst[k] in ats[..i + 1]
    {
      assert burst[k] == ats[i - limit + k] == ats[..i + 1][i - limit + k];
    }
    IncreasingAllCounted(burst, ats[i], window);
    SubsetSize(Recent(burst, ats[i], window), Counted(ats[..i + 1], ats[i], window));
  }

  function Elements(s: seq<real>): set<real> {
    set t <- s
  }

  lemma {:induction false} FewElements(s: seq<real>)
    ensures |Elements(s)| <= |s|
  {
    if s != [] {
      var before, last := s[..|s| - 1], s[|s| - 1];
      FewElements(before);
      assert s == before + [last];
      assert Elements(s) == Elements(before) + {last};
    }
  }

  /** The instants counted all lie behind position `from`. */
  lemma FewCounted(ats: seq<real>, window: int, i: nat, from: nat)
    requires from <= i < |ats| && forall j, k :: 0 <= j < k < |ats| ==> ats[j] < ats[k]
    requires from > 0 ==> ats[from - 1] <= ats[i] - window as real
    ensures |Counted(ats[..i + 1], ats[i], window)| <= i + 1 - from
  {
    var burst := ats[from..i + 1];
    forall t | t in Counted(ats[..i + 1], ats[i], window)
      ensures t in Elements(burst)
    {
      if t == ats[i] {
        assert burst[i - from] == t;
      } else {
        var k :| 0 <= k < |ats[..i + 1]| && ats[..i + 1][k] == t;
        assert k >= from;
        assert burst[k - from] == t;
      }
    }
    FewElements(burst);
    SubsetSize(Counted(ats[..i + 1], ats[i], window), Elements(burst));
  }

  /** The window of the `i`-th of distinct instants holds at most `limit` of them exactly when the instant `limit`
      places earlier, if there is one, has left it. */
  lemma CountFitsIff(ats: seq<real>, limit: int, window: int, i: nat)
    requires i < |ats| && forall j, k :: 0 <= j < k < |ats| ==> ats[j] < ats[k]
    ensures |Counted(ats[..i + 1], ats[i], window)| <= limit
       <==> limit >= 1 && (i < limit || ats[i - limit] <= ats[i] - window as real)
  {
    assert ats[i] in Counted(ats[..i + 1], ats[i], window);
    if limit >= 1 {
      if i < limit {
        FewCounted(ats, window, i, 0);
      } else if ats[i - limit] <= ats[i] - window as real {
        FewCounted(ats, window, i, i - limit + 1);
      } else {
        BurstCounted(ats, limit, window, i);
      }
    }
  }

  /** A client that waits out the window it is told, without sending, is judged by its next request alone. */
  lemma RetryAfterSuffices(ats: seq<real>, now: real, window: int)
    requires Chronological(ats) && (ats != [] ==> Last(ats) + window as real <= now)
    ensures Counted(ats + [now], now, window) == {now}
  {
    assert forall k :: 0 <= k < |ats| ==> ats[k] <= Last(ats);
  }

  /** A client that waits until the reset time it is told, which is cut to whole seconds, is judged by its next
      request and those it sent in the second of the last one. */
  lemma ResetSeesLastSecond(ats: seq<real>, window: int)
    requires Chronological(ats) && ats != [] && window >= 1
    ensures var second := Last(ats).Floor as real;
            var reset := second + window as real;
            && reset > Last(ats)
            && Counted(ats + [reset], reset, window) == (set t <- ats | t > second) + {reset}
  {
    var second := Last(ats).Floor as real;
    var reset := second + window as real;
    assert forall k :: 0 <= k < |ats| ==> ats[k] <= Last(ats);
    forall t
      ensures t in Counted(ats + [reset], reset, window) <==> t in (set t <- ats | t > second) + {reset}
    {
      if t in ats {
        assert t in ats + [reset];
      }
    }
  }

  /** Rejected requests count too: of requests at distinct instants one is admitted exactly when the request
      `limit` places before it, admitted or not, is a whole window back. */
  lemma AdmittedIff(log: seq<Request>, limit: int, window: int, i: nat)
    requires Judged(log, limit, window) && i < |log|
    requires forall j, k :: 0 <= j < k < |log| ==> log[j].at < log[k].at
    ensures log[i].admitted
       <==> limit >= 1 && (i < limit || log[i - limit].at <= log[i].at - window as real)
  {
    CountFitsIff(Ats(log), limit, window, i);
  }

  /** A client that keeps sending more than `limit` requests a window is admitted `limit` times and
      never again. */
  lemma PersistentClientIsShutOut(log: seq<Request>, limit: nat, window: int, i: nat)
    requires Judged(log, limit, window) && i < |log|
    requires forall j, k :: 0 <= j < k < |log| ==> log[j].at < log[k].at
    requires forall j :: limit <= j < |log| ==> log[j - limit].at > log[j].at - window as real
    ensures log[i].admitted <==> i < limit
  {
    AdmittedIff(log, limit, window, i);
  }

  /** A request every twenty seconds, the first two of them admitted. */
  function Paced(n: nat): (log: seq<Request>)
    ensures |log| == n && forall k :: 0 <= k < n ==> log[k] == Request(20.0 * k as real, k < 2)
  {
    seq(n, k requires 0 <= k < n => Request(20.0 * k as real, k < 2))
  }

  /** Under two requests a minute, a client that sends one every twenty seconds is shut out after two,
      however long it goes on. */
  lemma SteadyClientIsShutOut(n: nat)
    ensures Judged(Paced(n), 2, 60)
  {
    var log := Paced(n);
    forall i: nat | i < n
      ensures log[i].admitted <==> |Counted(Ats(log)[..i + 1], log[i].at, 60)| <= 2
    {
      CountFitsIff(Ats(log), 2, 60, i);
    }
  }
}
