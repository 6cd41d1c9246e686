/** The optional critique loop of the v2 graph: reflector back to query analysis. */
module Reflector {
  import opened PipelineGraph

  /** One visit to the reflector: the inputs it reads and what the model answered. A blank
      answer or query ends the visit before the model is asked. */
  datatype Lap = Lap(blank: bool, satisfied: bool)

  /** `feedback` is the pending retry request; nothing but the reflector ever writes it. */
  datatype Loop = Loop(feedback: bool, retries: int)

  const FreshLoop := Loop(false, 0)

  /** The node: a blank visit leaves the state as it is. */
  function Reflect(s: Loop, lap: Lap, maxRetries: int): Loop {
    if lap.blank then s
    else if lap.satisfied || s.retries >= maxRetries then s.(feedback := false)
    else Loop(true, s.retries + 1)
  }

  /** The conditional edge. */
  function RouteAfterReflect(s: Loop): Stage {
    if s.feedback then QueryAnalyzer else FormatResponse
  }

  /** The state after `laps` visits. */
  function After(laps: seq<Lap>, maxRetries: int): Loop {
    if laps == [] then FreshLoop else Reflect(After(laps[..|laps| - 1], maxRetries), laps[|laps| - 1], maxRetries)
  }

  /** Every one of `laps` sent the run back to query analysis. */
  predicate AllLooped(laps: seq<Lap>, maxRetries: int) {
    laps == []
    || (AllLooped(laps[..|laps| - 1], maxRetries) && RouteAfterReflect(After(laps, maxRetries)) == QueryAnalyzer)
  }

  function Blanks(laps: seq<Lap>): nat {
    if laps == [] then 0 else Blanks(laps[..|laps| - 1]) + (if laps[|laps| - 1].blank then 1 else 0)
  }

  /** The edges taken are edges of every v2 graph with the reflector. */
  lemma LoopsInGraph(s: Loop, guarded: bool, clarify: bool)
    ensures RouteAfterReflect(s) in Successors(V2(guarded, clarify, true), PipelineGraph.Reflector)
    ensures RouteAfterReflect(s) == QueryAnalyzer <==> s.feedback
  {
  }

  /** A lap loops again exactly when the model asked for a retry the budget still covers, or
      when it was blank while an earlier request is still pending. */
  lemma LoopsAgainIff(laps: seq<Lap>, lap: Lap, maxRetries: int)
    requires AllLooped(laps, maxRetries)
    ensures AllLooped(laps + [lap], maxRetries) <==>
              if lap.blank then laps != []
              else !lap.satisfied && After(laps, maxRetries).retries < maxRetries
  {
    var more := laps + [lap];
    assert more[..|laps|] == laps;
    if laps != [] {
      assert After(laps, maxRetries).feedback;
    }
  }

  /** Every loop is paid for with a retry or came from a blank lap. */
  lemma {:induction false} LoopsAccounted(laps: seq<Lap>, maxRetries: int)
    requires AllLooped(laps, maxRetries)
    ensures After(laps, maxRetries).retries == |laps| - Blanks(laps)
    ensures laps != [] ==> |laps| - Blanks(laps) <= maxRetries
  {
    if |laps| >= 1 {
      var before, lap := laps[..|laps| - 1], laps[|laps| - 1];
      LoopsAccounted(before, maxRetries);
      assert laps == before + [lap];
      LoopsAgainIff(before, lap, maxRetries);
    }
  }

  /** The first loop was requested, so not all of them are blank. */
  lemma {:induction false} SomeRequest(laps: seq<Lap>, maxRetries: int)
    requires AllLooped(laps, maxRetries) && laps != []
    ensures Blanks(laps) < |laps|
  {
    var before, lap := laps[..|laps| - 1], laps[|laps| - 1];
    if before == [] {
      assert laps == [] + [lap];
      LoopsAgainIff([], lap, maxRetries);
    } else {
      SomeRequest(before, maxRetries);
    }
  }

  /** `requests` requested retries, then `blanks` blank answers. */
  function Stuck(requests: nat, blanks: nat): seq<Lap> {
    if blanks > 0 then Stuck(requests, blanks - 1) + [Lap(true, false)]
    else if requests > 0 then Stuck(requests - 1, 0) + [Lap(false, false)]
    else []
  }

  lemma {:induction false} StuckLoops(requests: nat, blanks: nat, maxRetries: int)
    requires requests <= maxRetries && (blanks > 0 ==> requests > 0)
    ensures AllLooped(Stuck(requests, blanks), maxRetries)
    ensures |Stuck(requests, blanks)| == requests + blanks && Blanks(Stuck(requests, blanks)) == blanks
    decreases requests, blanks
  {
    hide AllLooped, Blanks, After;
    if blanks > 0 {
      StuckLoops(requests, blanks - 1, maxRetries);
      OneMoreLoop(Stuck(requests, blanks - 1), Lap(true, false), maxRetries);
    } else if requests > 0 {
      StuckLoops(requests - 1, 0, maxRetries);
      OneMoreLoop(Stuck(requests - 1, 0), Lap(false, false), maxRetries);
    } else {
      NoLoops(maxRetries);
    }
  }

  lemma NoLoops(maxRetries: int)
    ensures AllLooped([], maxRetries) && Blanks([]) == 0
  {
  }

  lemma OneMoreLoop(laps: seq<Lap>, lap: Lap, maxRetries: int)
    requires AllLooped(laps, maxRetries)
    requires if lap.blank then laps != [] else !lap.satisfied && |laps| - Blanks(laps) < maxRetries
    ensures AllLooped(laps + [lap], maxRetries)
    ensures Blanks(laps + [lap]) == Blanks(laps) + (if lap.blank then 1 else 0)
  {
    LoopsAccounted(laps, maxRetries);
    LoopsAgainIff(laps, lap, maxRetries);
    assert (laps + [lap])[..|laps|] == laps;
  }

  /** Some run loops `n` times in a row on at most `blanks` blank drafts. */
  ghost predicate CanLoop(n: nat, blanks: nat, maxRetries: int) {
    exists laps :: AllLooped(laps, maxRetries) && |laps| == n && Blanks(laps) <= blanks
  }

  /** A run can loop exactly as often as it has retries and blank drafts, provided one retry is allowed. */
  lemma LoopsPossibleIff(n: nat, blanks: nat, maxRetries: int)
    ensures CanLoop(n, blanks, maxRetries) <==> n == 0 || (maxRetries >= 1 && n <= maxRetries + blanks)
  {
    if CanLoop(n, blanks, maxRetries) && n > 0 {
      var laps :| AllLooped(laps, maxRetries) && |laps| == n && Blanks(laps) <= blanks;
      LoopsAccounted(laps, maxRetries);
      SomeRequest(laps, maxRetries);
    }
    if n == 0 {
      assert AllLooped([], maxRetries) && Blanks([]) == 0;
    } else if maxRetries >= 1 && n <= maxRetries + blanks {
      var requests := if n <= maxRetries then n else maxRetries;
      StuckLoops(requests, n - requests, maxRetries);
    }
  }

  ghost predicate CanLoopTimes(n: nat, maxRetries: int) {
    exists blanks: nat :: CanLoop(n, blanks, maxRetries)
  }

  /** The loop has no bound at all as soon as a single retry is allowed: after one request,
      blank drafts loop for ever, because a blank visit does not clear the request. */
  lemma UnboundedIffRetriesAllowed(maxRetries: int)
    ensures (forall n: nat :: CanLoopTimes(n, maxRetries)) <==> maxRetries >= 1
  {
    if maxRetries >= 1 {
      forall n: nat
        ensures CanLoopTimes(n, maxRetries)
      {
        LoopsPossibleIff(n, n, maxRetries);
      }
    } else if CanLoopTimes(1, maxRetries) {
      var blanks: nat :| CanLoop(1, blanks, maxRetries);
      LoopsPossibleIff(1, blanks, maxRetries);
    }
  }

  /** Without blank drafts the loop stops: no run has more loops than retries. */
  lemma StopsWhenDraftsAreReal(laps: seq<Lap>, maxRetries: int)
    requires AllLooped(laps, maxRetries) && forall i :: 0 <= i < |laps| ==> !laps[i].blank
    ensures |laps| <= if maxRetries > 0 then maxRetries else 0
  {
    NoBlanks(laps);
    LoopsAccounted(laps, maxRetries);
  }

  lemma {:induction false} NoBlanks(laps: seq<Lap>)
    requires forall i :: 0 <= i < |laps| ==> !laps[i].blank
    ensures Blanks(laps) == 0
  {
    if laps != [] {
      NoBlanks(laps[..|laps| - 1]);
    }
  }
}
