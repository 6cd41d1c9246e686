/** The single-page fetch: manual redirects, a capped body, and the cause walk. */
module WebFetch {
  import opened Wrappers

  const MAX_REDIRECTS := 3
  const MAX_BYTES := 5 * 1024 * 1024

  type Bytes = seq<bv8>

  /** Hosts and schemes are compared lower-cased. */
  datatype Url = Url(scheme: string, host: string, rest: string)

  /** How a body ends after its chunks. */
  datatype Ending = Complete | Stalls | Breaks | Garbled

  /** What a request at one hop meets. `location` is already resolved against the request. */
  datatype Reply =
    | Response(status: int, location: Option<Url>, chunks: seq<Bytes>, ending: Ending)
    | TimedOut
    | ConnectFailed(unresolved: bool)  // a name-resolution failure lies on its cause chain
    | NetworkFailed
    | ProtocolFailed

  datatype Outcome =
    | Fetched(status: int, body: Bytes, url: Url)
    | Blocked | CrossDomain(host: string) | TooManyRedirects(status: int) | TooLarge
    | AuthRequired(status: int) | ClientError(status: int) | ServerError(status: int)
    | Timeout | Unresolved(host: string) | Refused
    | Uncaught  // a protocol error is none of the exceptions the fetch translates
    | LoopExhausted

  /** The outside world: the reply to a URL and the address check, both at a given hop. */
  datatype World = World(reply: (nat, Url) -> Reply, safe: (nat, Url) -> bool)

  // ---------------------------------------------------------------- the capped body

  function Join(chunks: seq<Bytes>, n: nat): Bytes
    requires n <= |chunks|
  {
    if n == 0 then [] else Join(chunks, n - 1) + chunks[n - 1]
  }

  function Body(chunks: seq<Bytes>): Bytes {
    Join(chunks, |chunks|)
  }

  lemma {:induction false} JoinGrows(chunks: seq<Bytes>, n: nat, m: nat)
    requires n <= m <= |chunks|
    ensures |Join(chunks, n)| <= |Join(chunks, m)|
  {
    if n < m {
      JoinGrows(chunks, n, m - 1);
    }
  }

  datatype Reading = Whole(body: Bytes) | OverCap | Interrupted(ending: Ending)

  /** The whole body, exactly when it fits under the cap and arrives whole. A body over the cap is refused
      however it would have ended. */
  method ReadCappedBody(chunks: seq<Bytes>, ending: Ending) returns (reading: Reading)
    ensures reading.OverCap? <==> |Body(chunks)| > MAX_BYTES
    ensures reading.Whole? <==> |Body(chunks)| <= MAX_BYTES && ending == Complete
    ensures reading.Whole? ==> reading.body == Body(chunks)
    ensures reading.Interrupted? ==> reading.ending == ending
  {
    var total, joined := 0, [];
    for i := 0 to |chunks|
      invariant joined == Join(chunks, i) && total == |joined| <= MAX_BYTES
    {
      total := total + |chunks[i]|;
      if total > MAX_BYTES {
        JoinGrows(chunks, i + 1, |chunks|);
        return OverCap;
      }
      joined := joined + chunks[i];
    }
    return if ending == Complete then Whole(joined) else Interrupted(ending);
  }

  // ---------------------------------------------------------------- the redirect loop

  predicate Redirects(r: Reply) {
    r.Response? && 300 <= r.status < 400 && r.location.Some?
  }

  /** A redirect target may be followed: web scheme, safe address, the original host. */
  predicate Allowed(w: World, hop: nat, start: Url, target: Url) {
    (target.scheme == "http" || target.scheme == "https") && w.safe(hop, target) && target.host == start.host
  }

  /** `b` is the allowed redirect target of the reply to `a`. */
  predicate Follows(w: World, hop: nat, start: Url, a: Url, b: Url) {
    var r := w.reply(hop, a);
    Redirects(r) && r.location.value == b && Allowed(w, hop, start, b)
  }

  /** A response that is delivered: not an error status, and no redirect. */
  predicate Delivers(r: Reply) {
    r.Response? && !Redirects(r) && !(400 <= r.status < 600)
  }

  /** A delivered body that ends in `ending` before it reaches the cap. */
  predicate CutShort(r: Reply, ending: Ending) {
    Delivers(r) && r.ending == ending != Complete && |Body(r.chunks)| <= MAX_BYTES
  }

  /** How the loop ends on the reply to `url` at `hop`, if it does not go on. */
  predicate EndsWith(w: World, hop: nat, start: Url, url: Url, outcome: Outcome) {
    var r := w.reply(hop, url);
    match outcome
    case Fetched(status, body, final) =>
      && Delivers(r) && status == r.status && r.ending == Complete
      && body == Body(r.chunks) && |body| <= MAX_BYTES && final == url
    case TooLarge => Delivers(r) && |Body(r.chunks)| > MAX_BYTES
    case Blocked => Redirects(r) && !((r.location.value.scheme == "http" || r.location.value.scheme == "https")
                                      && w.safe(hop, r.location.value))
    case CrossDomain(host) =>
      && Redirects(r) && host == r.location.value.host && host != start.host
      && (r.location.value.scheme == "http" || r.location.value.scheme == "https") && w.safe(hop, r.location.value)
    case TooManyRedirects(status) =>
      hop == MAX_REDIRECTS && Redirects(r) && Allowed(w, hop, start, r.location.value) && status == r.status
    case AuthRequired(status) => r.Response? && r.status == status && (status == 401 || status == 403)
    case ClientError(status) =>
      r.Response? && r.status == status && 400 <= status < 500 && status != 401 && status != 403
    case ServerError(status) => r.Response? && r.status == status && 500 <= status < 600
    case Timeout => r.TimedOut? || CutShort(r, Stalls)
    case Unresolved(host) => r.ConnectFailed? && r.unresolved && host == url.host
    case Refused => r.NetworkFailed? || (r.ConnectFailed? && !r.unresolved) || CutShort(r, Breaks)
    case Uncaught => r.ProtocolFailed? || CutShort(r, Garbled)
    case LoopExhausted => false
  }

  /** For every server: the requests form a chain of allowed redirects from the first URL, there
      are at most four, and the last reply alone decides the outcome. The raise behind the loop
      is never reached. */
  method StreamWithRedirects(start: Url, w: World) returns (outcome: Outcome, requested: seq<Url>)
    ensures 1 <= |requested| <= 4 && requested[0] == start
    ensures forall i :: 0 <= i < |requested| - 1 ==> Follows(w, i, start, requested[i], requested[i + 1])
    ensures EndsWith(w, |requested| - 1, start, requested[|requested| - 1], outcome)
  {
    var current := start;
    requested := [];
    for hop := 0 to MAX_REDIRECTS + 1
      invariant |requested| == hop
      invariant hop > 0 ==> requested[0] == start && Follows(w, hop - 1, start, requested[hop - 1], current)
      invariant hop == 0 ==> current == start
      invariant forall i :: 0 <= i < hop - 1 ==> Follows(w, i, start, requested[i], requested[i + 1])
      invariant hop <= MAX_REDIRECTS
    {
      requested := requested + [current];
      var more;
      outcome, more := OneHop(start, w, hop, current);
      if more.None? {
        return;
      }
      current := more.value;
    }
    outcome := LoopExhausted;
  }

  /** One request: an outcome, or the next URL. */
  method OneHop(start: Url, w: World, hop: nat, current: Url) returns (outcome: Outcome, more: Option<Url>)
    requires hop <= MAX_REDIRECTS
    ensures more.Some? ==> hop < MAX_REDIRECTS && Follows(w, hop, start, current, more.value)
    ensures more.None? ==> EndsWith(w, hop, start, current, outcome)
  {
    outcome, more := LoopExhausted, None;
    var r := w.reply(hop, current);
    match r {
      case TimedOut => return Timeout, None;
      case ConnectFailed(unresolved) => return if unresolved then Unresolved(current.host) else Refused, None;
      case NetworkFailed => return Refused, None;
      case ProtocolFailed => return Uncaught, None;
      case Response(status, location, chunks, ending) =>
        if 300 <= status < 400 && location.Some? {
          var next := location.value;
          if next.scheme != "http" && next.scheme != "https" {
            return Blocked, None;
          }
          if !w.safe(hop, next) {
            return Blocked, None;
          }
          if next.host != start.host {
            return CrossDomain(next.host), None;
          }
          if hop >= MAX_REDIRECTS {
            return TooManyRedirects(status), None;
          }
          return LoopExhausted, Some(next);
        }
        if status == 401 || status == 403 {
          return AuthRequired(status), None;
        }
        if 400 <= status < 500 {
          return ClientError(status), None;
        }
        if 500 <= status < 600 {
          return ServerError(status), None;
        }
        var reading := ReadCappedBody(chunks, ending);
        match reading {
          case Whole(body) => return Fetched(status, body, current), None;
          case OverCap => return TooLarge, None;
          case Interrupted(how) =>
            return if how == Stalls then Timeout else if how == Breaks then Refused else Uncaught, None;
        }
    }
  }

  /** Given the world, chain and outcome are determined: no two fetches of one server differ. */
  lemma {:induction false} ChainIsUnique(w: World, start: Url, a: seq<Url>, b: seq<Url>, x: Outcome, y: Outcome, i: nat)
    requires a != [] && b != [] && a[0] == b[0] == start && i < |a| && i < |b|
    requires forall k :: 0 <= k < |a| - 1 ==> Follows(w, k, start, a[k], a[k + 1])
    requires forall k :: 0 <= k < |b| - 1 ==> Follows(w, k, start, b[k], b[k + 1])
    requires EndsWith(w, |a| - 1, start, a[|a| - 1], x) && EndsWith(w, |b| - 1, start, b[|b| - 1], y)
    requires |a| <= MAX_REDIRECTS + 1 && |b| <= MAX_REDIRECTS + 1
    ensures a[i] == b[i]
    ensures i == |a| - 1 ==> |b| == |a| && x == y
  {
    if i > 0 {
      ChainIsUnique(w, start, a, b, x, y, i - 1);
      assert Follows(w, i - 1, start, a[i - 1], a[i]) && Follows(w, i - 1, start, b[i - 1], b[i]);
    }
    if i == |a| - 1 {
      if i < |b| - 1 {
        assert Follows(w, i, start, b[i], b[i + 1]);
        EndsOrFollows(w, i, start, a[i], b[i + 1], x);
      }
      OutcomeIsUnique(w, i, start, a[i], x, y);
    }
  }

  /** A reply that may be followed below the limit ends nothing. */
  lemma EndsOrFollows(w: World, hop: nat, start: Url, url: Url, target: Url, outcome: Outcome)
    requires Follows(w, hop, start, url, target) && EndsWith(w, hop, start, url, outcome)
    ensures outcome.TooManyRedirects? && hop == MAX_REDIRECTS
  {
  }

  lemma OutcomeIsUnique(w: World, hop: nat, start: Url, url: Url, x: Outcome, y: Outcome)
    requires EndsWith(w, hop, start, url, x) && EndsWith(w, hop, start, url, y)
    ensures x == y
  {
  }
}

/** The cause chain of an exception. */
module CauseChain {

  class Exc {
    var cause: Exc?
    var context: Exc?
    const isTarget: bool
    constructor (isTarget: bool)
      ensures cause == null && context == null && this.isTarget == isTarget
    {
      this.isTarget := isTarget;
      cause, context := null, null;
    }

    function Next(): Exc?
      reads this
    {
      if cause != null then cause else context
    }
  }

  /** All exceptions reachable from one are among finitely many. */
  ghost predicate Closed(all: set<Exc>)
    reads all
  {
    forall e :: e in all ==> (e.cause == null || e.cause in all) && (e.context == null || e.context in all)
  }

  /** The `n`-th link of the chain: an explicit cause wins over the implicit context. */
  ghost function Link(exc: Exc, n: nat, all: set<Exc>): (r: Exc?)
    requires exc in all && Closed(all)
    reads all
    ensures r == null || r in all
  {
    if n == 0 then exc
    else
      var before := Link(exc, n - 1, all);
      if before == null then null else if before.cause != null then before.cause else before.context
  }

  /** The walk ends, on cyclic chains too, and finds the target exactly when it lies on the chain. */
  method HasCause(exc: Exc, ghost all: set<Exc>) returns (found: bool)
    requires exc in all && Closed(all)
    ensures found <==> exists n: nat :: var e := Link(exc, n, all); e != null && e.isTarget
  {
    var seen: set<Exc> := {};
    var cur: Exc? := exc;
    ghost var n: nat := 0;
    while cur != null && cur !in seen
      invariant cur == Link(exc, n, all) && (cur == null || cur in all)
      invariant seen <= all && (n == 0 ==> cur == exc) && (n > 0 ==> exc in seen)
      invariant forall e :: e in seen ==> !e.isTarget && (e.Next() == cur || (e.Next() != null && e.Next() in seen))
      decreases |all - seen|
    {
      if cur.isTarget {
        return true;
      }
      assert all - (seen + {cur}) < all - seen;
      SmallerSet(all - (seen + {cur}), all - seen);
      seen := seen + {cur};
      cur := cur.Next();
      n := n + 1;
    }
    forall m: nat
      ensures var e := Link(exc, m, all); e == null || e in seen
    {
      Trapped(exc, m, all, seen);
    }
    found := false;
  }

  lemma SmallerSet(a: set<Exc>, b: set<Exc>)
    requires a < b
    ensures |a| < |b|
  {
    assert b == a + (b - a);
    assert b - a != {};
  }

  /** A set closed under the links holds the whole chain. */
  lemma {:induction false} Trapped(exc: Exc, m: nat, all: set<Exc>, seen: set<Exc>)
    requires exc in all && Closed(all) && exc in seen
    requires forall e :: e in seen ==> e.Next() == null || e.Next() in seen
    ensures var e := Link(exc, m, all); e == null || e in seen
  {
    if m > 0 {
      Trapped(exc, m - 1, all, seen);
      var before := Link(exc, m - 1, all);
      assert before != null ==> before.Next() == null || before.Next() in seen;
    }
  }
}
