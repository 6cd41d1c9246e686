/** Every finished path of the three graphs, written out. */
module PipelinePaths {
  import opened PipelineGraph

  // ---------------------------------------------------------------- the words

  function WayOut(f: Flavour): seq<Stage> {
    if f.guarded then [GuardrailOutput, Finish] else [Finish]
  }

  predicate MayAsk(f: Flavour) {
    f.V2? ==> f.clarify
  }

  function Check(f: Flavour): seq<Stage> {
    if f.guarded then [GuardrailInput] else []
  }

  /** The input check, where it comes first. */
  function FirstCheck(f: Flavour): seq<Stage> {
    if f.V1? then [] else Check(f)
  }

  /** The stage that may ask back, if there is one. */
  function Asker(f: Flavour): seq<Stage> {
    if f.Agentic? then [Planner] else if MayAsk(f) then [CheckClarification] else []
  }

  /** Up to the choice between asking back and answering. */
  function WayIn(f: Flavour): seq<Stage> {
    [Begin, LoadHistory] + (FirstCheck(f) + Asker(f))
  }

  /** The input check ended the turn. */
  function Blocked(f: Flavour): seq<Stage> {
    [Begin, LoadHistory] + ((if f.V1? then [CheckClarification] else []) + [GuardrailInput, Finish])
  }

  function Asked(f: Flavour): seq<Stage> {
    WayIn(f) + ([HandleClarification] + WayOut(f))
  }

  /** One lap of the v2 graph, through text-to-query or past it. */
  function Lap(text: bool, reflector: bool): seq<Stage> {
    (if text then [QueryAnalyzer, SourceRouter, TextToQuery, RetrieveContext, GenerateResponse]
     else [QueryAnalyzer, SourceRouter, RetrieveContext, GenerateResponse])
    + (if reflector then [Reflector] else [])
  }

  function Laps(laps: seq<bool>, reflector: bool): seq<Stage> {
    if laps == [] then [] else Lap(laps[0], reflector) + Laps(laps[1..], reflector)
  }

  const ATTEMPT: seq<Stage> := [BudgetStep, AdvanceStep, ExecuteStep, VerifyStep]

  /** One round of the agentic graph: an attempt, and a revision of the plan if there was one. */
  function Round(revised: bool): seq<Stage> {
    ATTEMPT + (if revised then [BudgetReplan, Replan] else [])
  }

  function Rounds(rounds: seq<bool>): seq<Stage> {
    if rounds == [] then [] else Round(rounds[0]) + Rounds(rounds[1..])
  }

  /** How the rounds can end: failure admitted at once, a step or a revision the gate refused, or a last
      step that passed. */
  datatype Ending = Failed | StepRefused | RevisionRefused | Completed

  function EndStages(e: Ending): seq<Stage> {
    match e
    case Failed => [SynthesizeFailure]
    case StepRefused => [BudgetStep, SynthesizeFailure]
    case RevisionRefused => ATTEMPT + [BudgetReplan, SynthesizeFailure]
    case Completed => ATTEMPT
  }

  /** The work that leads to a formatted answer. */
  ghost predicate Work(f: Flavour, w: seq<Stage>) {
    match f
    case V1(_) => w == Check(f) + [RetrieveContext, GenerateResponse]
    case V2(_, _, reflector) =>
      exists laps: seq<bool> :: |laps| >= 1 && (reflector || |laps| == 1) && w == Laps(laps, reflector)
    case Agentic(_) =>
      exists rounds: seq<bool>, e: Ending :: w == Rounds(rounds) + (EndStages(e) + [GenerateResponse])
  }

  function Answered(f: Flavour, w: seq<Stage>): seq<Stage> {
    WayIn(f) + (w + ([FormatResponse] + WayOut(f)))
  }

  // ---------------------------------------------------------------- walks

  /** From some stage to the end. */
  predicate Walk(f: Flavour, s: seq<Stage>)
    requires s != []
  {
    && s[|s| - 1] == Finish
    && forall i :: 0 <= i < |s| - 1 ==> s[i + 1] in Successors(f, s[i])
  }

  lemma Follows(f: Flavour, s: seq<Stage>, i: nat)
    requires s != [] && Walk(f, s) && i < |s| - 1
    ensures s[i + 1] in Successors(f, s[i])
  {
  }

  lemma Peel(f: Flavour, s: seq<Stage>) returns (t: seq<Stage>)
    requires s != [] && Walk(f, s) && s[0] != Finish
    ensures t != [] && s == [s[0]] + t && Walk(f, t) && t[0] in Successors(f, s[0])
  {
    t := s[1..];
    Follows(f, s, 0);
    forall i | 0 <= i < |t| - 1
      ensures t[i + 1] in Successors(f, t[i])
    {
      Follows(f, s, i + 1);
    }
  }

  lemma EndsAtFinish(f: Flavour, s: seq<Stage>)
    requires s != [] && Walk(f, s) && s[0] == Finish
    ensures s == [Finish]
  {
    if |s| > 1 {
      Follows(f, s, 0);
    }
  }

  /** The way out of a stage whose text is checked. */
  lemma LeavesBy(f: Flavour, s: seq<Stage>)
    requires s != [] && Walk(f, s) && (s[0] == FormatResponse || s[0] == HandleClarification)
    ensures s == [s[0]] + WayOut(f) && (s[0] == HandleClarification ==> MayAsk(f))
  {
    var t := Peel(f, s);
    if f.guarded {
      var u := Peel(f, t);
      EndsAtFinish(f, u);
    } else {
      EndsAtFinish(f, t);
    }
  }

  // ---------------------------------------------------------------- every finished path is a word

  lemma {:induction false} LapsOf(f: Flavour, s: seq<Stage>) returns (laps: seq<bool>)
    requires f.V2? && s != [] && Walk(f, s) && s[0] == QueryAnalyzer
    ensures |laps| >= 1 && (f.reflector || |laps| == 1)
    ensures s == Laps(laps, f.reflector) + ([FormatResponse] + WayOut(f))
    decreases |s|
  {
    var text, t := OneLap(f, s);
    if t[0] == FormatResponse {
      laps := [text];
      LeavesBy(f, t);
      assert Laps(laps, f.reflector) == Lap(text, f.reflector);
    } else {
      var rest := LapsOf(f, t);
      laps := [text] + rest;
      assert laps[1..] == rest;
      assert Laps(laps, f.reflector) == Lap(text, f.reflector) + Laps(rest, f.reflector);
    }
  }

  lemma OneLap(f: Flavour, s: seq<Stage>) returns (text: bool, t: seq<Stage>)
    requires f.V2? && s != [] && Walk(f, s) && s[0] == QueryAnalyzer
    ensures t != [] && s == Lap(text, f.reflector) + t && Walk(f, t)
    ensures t[0] == FormatResponse || (f.reflector && t[0] == QueryAnalyzer)
  {
    hide Walk;
    t := Peel(f, s);
    t := Peel(f, t);
    text := t[0] == TextToQuery;
    if text {
      t := Peel(f, t);
    }
    assert s == (if text then [QueryAnalyzer, SourceRouter, TextToQuery] else [QueryAnalyzer, SourceRouter]) + t;
    t := AfterRetrieval(f, t);
  }

  lemma AfterRetrieval(f: Flavour, s: seq<Stage>) returns (t: seq<Stage>)
    requires f.V2? && s != [] && Walk(f, s) && s[0] == RetrieveContext
    ensures t != [] && Walk(f, t)
    ensures s == (if f.reflector then [RetrieveContext, GenerateResponse, Reflector]
                  else [RetrieveContext, GenerateResponse]) + t
    ensures t[0] == FormatResponse || (f.reflector && t[0] == QueryAnalyzer)
  {
    hide Walk;
    t := Peel(f, s);
    t := Peel(f, t);
    if f.reflector {
      t := Peel(f, t);
    }
  }

  /** An attempt, from the stage after the gate that admitted it. */
  lemma OneAttempt(f: Flavour, s: seq<Stage>) returns (t: seq<Stage>)
    requires f.Agentic? && s != [] && Walk(f, s) && s[0] == AdvanceStep
    ensures t != [] && [BudgetStep] + s == ATTEMPT + t && Walk(f, t) && t[0] in Successors(f, VerifyStep)
  {
    hide Walk;
    t := Peel(f, s);
    t := Peel(f, t);
    t := Peel(f, t);
  }

  /** The answer and the way out. */
  function Closing(f: Flavour): seq<Stage> {
    [GenerateResponse, FormatResponse] + WayOut(f)
  }

  /** What is left of an agentic turn, from a gate or from the failure node on. */
  predicate Remains(f: Flavour, s: seq<Stage>, rounds: seq<bool>, e: Ending) {
    s == Rounds(rounds) + (EndStages(e) + Closing(f))
  }

  lemma OneMoreRound(f: Flavour, s: seq<Stage>, revised: bool, rounds: seq<bool>, e: Ending)
    requires Remains(f, s, rounds, e)
    ensures Remains(f, Round(revised) + s, [revised] + rounds, e)
  {
    hide Round, EndStages, Closing;
    assert ([revised] + rounds)[1..] == rounds;
    assert Rounds([revised] + rounds) == Round(revised) + Rounds(rounds);
    hide Rounds;
  }

  lemma AnswerFollows(f: Flavour, t: seq<Stage>)
    requires f.Agentic? && t != [] && Walk(f, t) && (t[0] == SynthesizeFailure || t[0] == GenerateResponse)
    ensures t == (if t[0] == SynthesizeFailure then [SynthesizeFailure] else []) + Closing(f)
  {
    hide Walk;
    var u := t;
    if t[0] == SynthesizeFailure {
      u := Peel(f, t);
    }
    var v := Peel(f, u);
    LeavesBy(f, v);
  }

  lemma Ends(f: Flavour, s: seq<Stage>, e: Ending)
    requires s == EndStages(e) + Closing(f)
    ensures Remains(f, s, [], e)
  {
    assert Rounds([]) + s == s;
  }

  lemma {:induction false} RoundsOf(f: Flavour, s: seq<Stage>) returns (rounds: seq<bool>, e: Ending)
    requires f.Agentic? && s != [] && Walk(f, s) && (s[0] == BudgetStep || s[0] == SynthesizeFailure)
    ensures Remains(f, s, rounds, e)
    decreases |s|
  {
    hide Walk, Remains, Closing;
    if s[0] == SynthesizeFailure {
      AnswerFollows(f, s);
      Ends(f, s, Failed);
      return [], Failed;
    }
    var t := Peel(f, s);
    if t[0] == SynthesizeFailure {
      AnswerFollows(f, t);
      Ends(f, s, StepRefused);
      return [], StepRefused;
    }
    var u := OneAttempt(f, t);
    rounds, e := AfterAttempt(f, s, u);
  }

  lemma {:induction false} AfterAttempt(f: Flavour, s: seq<Stage>, u: seq<Stage>) returns (rounds: seq<bool>, e: Ending)
    requires f.Agentic? && u != [] && Walk(f, u) && u[0] in Successors(f, VerifyStep) && s == ATTEMPT + u
    ensures Remains(f, s, rounds, e)
    decreases |u| + 1
  {
    hide Walk, Remains, Closing;
    if u[0] == GenerateResponse {
      AnswerFollows(f, u);
      Ends(f, s, Completed);
      return [], Completed;
    }
    if u[0] != BudgetReplan {
      rounds, e := RoundsOf(f, u);
      OneMoreRound(f, u, false, rounds, e);
      assert s == Round(false) + u;
      return [false] + rounds, e;
    }
    var v := Peel(f, u);
    if v[0] == SynthesizeFailure {
      AnswerFollows(f, v);
      Ends(f, s, RevisionRefused);
      return [], RevisionRefused;
    }
    var w := Peel(f, v);
    rounds, e := RoundsOf(f, w);
    OneMoreRound(f, w, true, rounds, e);
    assert s == Round(true) + w;
    return [true] + rounds, e;
  }

  // ---------------------------------------------------------------- every word is a finished path

  lemma Prepend(f: Flavour, n: Stage, s: seq<Stage>)
    requires s != [] && Walk(f, s) && s[0] in Successors(f, n)
    ensures Walk(f, [n] + s)
  {
  }

  lemma WayOutWalks(f: Flavour, n: Stage)
    requires n == FormatResponse || (n == HandleClarification && MayAsk(f))
    ensures Walk(f, [n] + WayOut(f))
  {
  }

  lemma {:induction false} LapsWalk(f: Flavour, laps: seq<bool>)
    requires f.V2? && |laps| >= 1 && (f.reflector || |laps| == 1)
    ensures var s := Laps(laps, f.reflector) + ([FormatResponse] + WayOut(f));
            Walk(f, s) && s[0] == QueryAnalyzer
  {
    var tail := [FormatResponse] + WayOut(f);
    WayOutWalks(f, FormatResponse);
    FirstLap(laps, f.reflector, tail);
    hide Walk, WayOut, Lap, Laps;
    if |laps| == 1 {
      LapWalks(f, laps[0], tail);
    } else {
      LapsWalk(f, laps[1..]);
      LapWalks(f, laps[0], Laps(laps[1..], f.reflector) + tail);
    }
  }

  lemma FirstLap(laps: seq<bool>, reflector: bool, tail: seq<Stage>)
    requires laps != []
    ensures Laps(laps, reflector) + tail == Lap(laps[0], reflector) + (Laps(laps[1..], reflector) + tail)
    ensures |laps| == 1 ==> Laps(laps, reflector) + tail == Lap(laps[0], reflector) + tail
  {
    assert |laps| == 1 ==> Laps(laps[1..], reflector) == [];
    hide Lap;
  }

  lemma RetrievalWalks(f: Flavour, s: seq<Stage>) returns (t: seq<Stage>)
    requires f.V2? && s != [] && Walk(f, s)
    requires s[0] == FormatResponse || (f.reflector && s[0] == QueryAnalyzer)
    ensures t == (if f.reflector then [RetrieveContext, GenerateResponse, Reflector]
                  else [RetrieveContext, GenerateResponse]) + s
    ensures Walk(f, t)
  {
    hide Walk;
    t := s;
    if f.reflector {
      Prepend(f, Reflector, t);
      t := [Reflector] + t;
    }
    Prepend(f, GenerateResponse, t);
    t := [GenerateResponse] + t;
    Prepend(f, RetrieveContext, t);
    t := [RetrieveContext] + t;
  }

  lemma LapWalks(f: Flavour, text: bool, s: seq<Stage>)
    requires f.V2? && s != [] && Walk(f, s)
    requires s[0] == FormatResponse || (f.reflector && s[0] == QueryAnalyzer)
    ensures Walk(f, Lap(text, f.reflector) + s) && (Lap(text, f.reflector) + s)[0] == QueryAnalyzer
  {
    hide Walk;
    var t := RetrievalWalks(f, s);
    if text {
      Prepend(f, TextToQuery, t);
      t := [TextToQuery] + t;
    }
    Prepend(f, SourceRouter, t);
    Prepend(f, QueryAnalyzer, [SourceRouter] + t);
    assert [QueryAnalyzer] + ([SourceRouter] + t) == Lap(text, f.reflector) + s;
  }

  lemma AttemptWalks(f: Flavour, s: seq<Stage>)
    requires f.Agentic? && s != [] && Walk(f, s) && s[0] in Successors(f, VerifyStep)
    ensures Walk(f, ATTEMPT + s)
  {
    hide Walk;
    Prepend(f, VerifyStep, s);
    Prepend(f, ExecuteStep, [VerifyStep] + s);
    Prepend(f, AdvanceStep, [ExecuteStep] + ([VerifyStep] + s));
    Prepend(f, BudgetStep, [AdvanceStep] + ([ExecuteStep] + ([VerifyStep] + s)));
    assert ATTEMPT + s == [BudgetStep] + ([AdvanceStep] + ([ExecuteStep] + ([VerifyStep] + s)));
  }

  lemma ClosingWalks(f: Flavour)
    requires f.Agentic?
    ensures Closing(f) != [] && Walk(f, Closing(f)) && Closing(f)[0] == GenerateResponse
  {
    WayOutWalks(f, FormatResponse);
    Prepend(f, GenerateResponse, [FormatResponse] + WayOut(f));
    assert [GenerateResponse] + ([FormatResponse] + WayOut(f)) == Closing(f);
  }

  lemma EndWalks(f: Flavour, e: Ending)
    requires f.Agentic?
    ensures var s := EndStages(e) + Closing(f);
            s != [] && Walk(f, s) && s[0] in {BudgetStep, SynthesizeFailure}
  {
    ClosingWalks(f);
    hide Walk, Closing;
    Prepend(f, SynthesizeFailure, Closing(f));
    var failed := [SynthesizeFailure] + Closing(f);
    match e
    case Failed =>
    case StepRefused =>
      Prepend(f, BudgetStep, failed);
      assert EndStages(e) + Closing(f) == [BudgetStep] + failed;
    case RevisionRefused =>
      Prepend(f, BudgetReplan, failed);
      AttemptWalks(f, [BudgetReplan] + failed);
      assert EndStages(e) + Closing(f) == ATTEMPT + ([BudgetReplan] + failed);
    case Completed =>
      AttemptWalks(f, Closing(f));
  }

  lemma {:induction false} RoundsWalk(f: Flavour, rounds: seq<bool>, e: Ending)
    requires f.Agentic?
    ensures var s := Rounds(rounds) + (EndStages(e) + Closing(f));
            s != [] && Walk(f, s) && s[0] in {BudgetStep, SynthesizeFailure}
  {
    hide Walk, EndStages, Closing, Round;
    if rounds == [] {
      EndWalks(f, e);
      assert Rounds(rounds) + (EndStages(e) + Closing(f)) == EndStages(e) + Closing(f);
    } else {
      var rest := Rounds(rounds[1..]) + (EndStages(e) + Closing(f));
      RoundsWalk(f, rounds[1..], e);
      RoundWalks(f, rounds[0], rest);
      assert Rounds(rounds) + (EndStages(e) + Closing(f)) == Round(rounds[0]) + rest;
    }
  }

  lemma RoundWalks(f: Flavour, revised: bool, s: seq<Stage>)
    requires f.Agentic? && s != [] && Walk(f, s) && s[0] in {BudgetStep, SynthesizeFailure}
    ensures Walk(f, Round(revised) + s) && (Round(revised) + s)[0] == BudgetStep
  {
    hide Walk;
    if revised {
      Prepend(f, Replan, s);
      Prepend(f, BudgetReplan, [Replan] + s);
      AttemptWalks(f, [BudgetReplan] + ([Replan] + s));
      assert Round(revised) + s == ATTEMPT + ([BudgetReplan] + ([Replan] + s));
    } else {
      AttemptWalks(f, s);
      assert Round(revised) + s == ATTEMPT + s;
    }
  }

  // ---------------------------------------------------------------- the finished paths

  ghost predicate Finished(f: Flavour, p: seq<Stage>) {
    Path(f, p) && p[|p| - 1] == Finish
  }

  lemma FinishedIsWalk(f: Flavour, p: seq<Stage>)
    ensures Finished(f, p) <==> p != [] && p[0] == Begin && Walk(f, p)
  {
  }

  /** Where the stage that may ask back, or else the way in, leads. */
  function Choices(f: Flavour): set<Stage> {
    match f
    case V1(_) => {HandleClarification} + (if f.guarded then {GuardrailInput} else {RetrieveContext})
    case V2(_, clarify, _) => {QueryAnalyzer} + (if clarify then {HandleClarification} else {})
    case Agentic(_) => {HandleClarification, SynthesizeFailure, BudgetStep}
  }

  lemma PeelCheck(f: Flavour, s: seq<Stage>) returns (t: seq<Stage>)
    requires s != [] && Walk(f, s) && s[0] in Successors(f, LoadHistory)
    ensures t != [] && Walk(f, t) && s == FirstCheck(f) + t
    ensures t[0] in (if FirstCheck(f) == [] then Successors(f, LoadHistory) else Successors(f, GuardrailInput))
  {
    hide Walk;
    t := s;
    if f.guarded && !f.V1? {
      t := Peel(f, s);
    }
  }

  lemma PeelAsker(f: Flavour, s: seq<Stage>) returns (t: seq<Stage>)
    requires s != [] && Walk(f, s) && s[0] != Finish
    requires s[0] in (if FirstCheck(f) == [] then Successors(f, LoadHistory) else Successors(f, GuardrailInput))
    ensures t != [] && Walk(f, t) && s == Asker(f) + t && t[0] in Choices(f)
  {
    hide Walk;
    t := s;
    if MayAsk(f) {
      t := Peel(f, s);
    }
  }

  lemma Nested(a: seq<Stage>, b: seq<Stage>, c: seq<Stage>, d: seq<Stage>)
    ensures a + (b + (c + d)) == (a + (b + c)) + d
  {
  }

  lemma Enters(f: Flavour, p: seq<Stage>) returns (s: seq<Stage>)
    requires p != [] && Walk(f, p) && p[0] == Begin
    ensures (f.guarded && p == Blocked(f)) || (s != [] && Walk(f, s) && s[0] in Choices(f) && p == WayIn(f) + s)
  {
    hide Walk;
    var t := Peel(f, p);
    var u := Peel(f, t);
    assert p == [Begin, LoadHistory] + u;
    var v := PeelCheck(f, u);
    if v[0] == Finish {
      EndsAtFinish(f, v);
      return v;
    }
    s := PeelAsker(f, v);
    Nested([Begin, LoadHistory], FirstCheck(f), Asker(f), s);
    hide Successors, FirstCheck, Asker;
  }

  lemma V1Work(f: Flavour, s: seq<Stage>) returns (w: seq<Stage>)
    requires f.V1? && s != [] && Walk(f, s) && s[0] in Choices(f) && s[0] != HandleClarification
    ensures (f.guarded && s == [GuardrailInput, Finish]) || (Work(f, w) && s == w + ([FormatResponse] + WayOut(f)))
  {
    var t := s;
    w := Check(f) + [RetrieveContext, GenerateResponse];
    if f.guarded {
      t := Peel(f, t);
      if t[0] == Finish {
        EndsAtFinish(f, t);
        return;
      }
    }
    t := Peel(f, t);
    t := Peel(f, t);
    LeavesBy(f, t);
  }

  lemma AgenticWork(f: Flavour, s: seq<Stage>) returns (w: seq<Stage>)
    requires f.Agentic? && s != [] && Walk(f, s) && s[0] in {BudgetStep, SynthesizeFailure}
    ensures Work(f, w) && s == w + ([FormatResponse] + WayOut(f))
  {
    hide Walk;
    var rounds, e := RoundsOf(f, s);
    hide Rounds, EndStages;
    w := Rounds(rounds) + (EndStages(e) + [GenerateResponse]);
  }

  lemma FinishedIsWord(f: Flavour, p: seq<Stage>) returns (w: seq<Stage>)
    requires Finished(f, p)
    ensures (f.guarded && p == Blocked(f)) || (MayAsk(f) && p == Asked(f)) || (Work(f, w) && p == Answered(f, w))
  {
    FinishedIsWalk(f, p);
    hide Walk, Finished;
    var s := Enters(f, p);
    w := [];
    if !(f.guarded && p == Blocked(f)) {
      if s[0] == HandleClarification {
        LeavesBy(f, s);
      } else if f.V1? {
        w := V1Work(f, s);
        assert f.guarded ==> WayIn(f) + [GuardrailInput, Finish] == Blocked(f);
      } else if f.V2? {
        var laps := LapsOf(f, s);
        w := Laps(laps, f.reflector);
      } else {
        w := AgenticWork(f, s);
      }
    }
  }

  lemma V1Walks(f: Flavour)
    requires f.V1?
    ensures var s := Check(f) + [RetrieveContext, GenerateResponse] + ([FormatResponse] + WayOut(f));
            Walk(f, s) && s[0] in Choices(f)
  {
    var rest := [FormatResponse] + WayOut(f);
    WayOutWalks(f, FormatResponse);
    hide Walk;
    Prepend(f, GenerateResponse, rest);
    Prepend(f, RetrieveContext, [GenerateResponse] + rest);
    var s := [RetrieveContext] + ([GenerateResponse] + rest);
    if f.guarded {
      Prepend(f, GuardrailInput, s);
      s := [GuardrailInput] + s;
    }
    assert Check(f) + [RetrieveContext, GenerateResponse] + rest == s;
  }

  lemma WorkWalks(f: Flavour, w: seq<Stage>)
    requires Work(f, w)
    ensures var s := w + ([FormatResponse] + WayOut(f));
            s != [] && Walk(f, s) && s[0] in Choices(f)
  {
    if f.V1? {
      V1Walks(f);
    } else if f.V2? {
      var laps: seq<bool> :| |laps| >= 1 && (f.reflector || |laps| == 1) && w == Laps(laps, f.reflector);
      hide Walk, Laps;
      LapsWalk(f, laps);
    } else {
      var rounds, e :| w == Rounds(rounds) + (EndStages(e) + [GenerateResponse]);
      hide Walk, Rounds, EndStages;
      RoundsWalk(f, rounds, e);
      assert w + ([FormatResponse] + WayOut(f)) == Rounds(rounds) + (EndStages(e) + Closing(f));
    }
  }

  lemma AskerWalks(f: Flavour, s: seq<Stage>)
    requires s != [] && Walk(f, s) && s[0] in Choices(f)
    ensures Walk(f, Asker(f) + s)
    ensures (Asker(f) + s)[0] in Successors(f, if FirstCheck(f) == [] then LoadHistory else GuardrailInput)
  {
    hide Walk;
    if f.Agentic? {
      Prepend(f, Planner, s);
    } else if MayAsk(f) {
      Prepend(f, CheckClarification, s);
    } else {
      assert Asker(f) + s == s;
    }
  }

  lemma CheckWalks(f: Flavour, s: seq<Stage>)
    requires s != [] && Walk(f, s)
    requires s[0] in Successors(f, if FirstCheck(f) == [] then LoadHistory else GuardrailInput)
    ensures Walk(f, FirstCheck(f) + s) && (FirstCheck(f) + s)[0] in Successors(f, LoadHistory)
  {
    hide Walk;
    if f.guarded && !f.V1? {
      Prepend(f, GuardrailInput, s);
    } else {
      assert FirstCheck(f) + s == s;
    }
  }

  lemma WayInWalks(f: Flavour, s: seq<Stage>)
    requires s != [] && Walk(f, s) && s[0] in Choices(f)
    ensures Walk(f, WayIn(f) + s) && (WayIn(f) + s)[0] == Begin
  {
    hide Walk, Asker, FirstCheck, Choices;
    AskerWalks(f, s);
    CheckWalks(f, Asker(f) + s);
    var t := FirstCheck(f) + (Asker(f) + s);
    Prepend(f, LoadHistory, t);
    Prepend(f, Begin, [LoadHistory] + t);
    assert [Begin] + ([LoadHistory] + t) == [Begin, LoadHistory] + t;
    Nested([Begin, LoadHistory], FirstCheck(f), Asker(f), s);
  }

  lemma BlockedIsFinished(f: Flavour)
    requires f.guarded
    ensures Finished(f, Blocked(f))
  {
  }

  lemma AskedIsFinished(f: Flavour)
    requires MayAsk(f)
    ensures Finished(f, Asked(f))
  {
    WayOutWalks(f, HandleClarification);
    WayInWalks(f, [HandleClarification] + WayOut(f));
    FinishedIsWalk(f, Asked(f));
  }

  lemma AnsweredIsFinished(f: Flavour, w: seq<Stage>)
    requires Work(f, w)
    ensures Finished(f, Answered(f, w))
  {
    WorkWalks(f, w);
    WayInWalks(f, w + ([FormatResponse] + WayOut(f)));
    FinishedIsWalk(f, Answered(f, w));
  }

  /** The finished paths of each graph, over unbounded loops, are exactly these: the input check blocked
      the turn, or the graph asked back, or it did its work, formatted the answer and let it out. The work
      of the rollback graph is one retrieval; that of the v2 graph any number of laps, one without the
      reflector; that of the agentic graph any number of attempts and revisions with one of four endings. */
  lemma FinishedPaths(f: Flavour, p: seq<Stage>)
    ensures Finished(f, p)
       <==> || (f.guarded && p == Blocked(f))
            || (MayAsk(f) && p == Asked(f))
            || exists w :: Work(f, w) && p == Answered(f, w)
  {
    if Finished(f, p) {
      var w := FinishedIsWord(f, p);
    } else {
      if f.guarded {
        BlockedIsFinished(f);
      }
      if MayAsk(f) {
        AskedIsFinished(f);
      }
      forall w | Work(f, w)
        ensures Finished(f, Answered(f, w))
      {
        AnsweredIsFinished(f, w);
      }
    }
  }

  // ---------------------------------------------------------------- how a turn ends

  const WORKING: set<Stage> := RETRIEVAL + STEP_LOOP + REVISION + {GuardrailInput, PipelineGraph.Reflector}

  lemma {:induction false} LapStages(laps: seq<bool>, reflector: bool)
    ensures forall n :: n in Laps(laps, reflector) ==> n in WORKING
    ensures laps != [] ==> GenerateResponse in Laps(laps, reflector)
  {
    if laps != [] {
      LapStages(laps[1..], reflector);
      var lap := Lap(laps[0], reflector);
      assert lap[if laps[0] then 4 else 3] == GenerateResponse;
      assert forall n :: n in lap ==> n in WORKING;
    }
  }

  lemma {:induction false} RoundStages(rounds: seq<bool>)
    ensures forall n :: n in Rounds(rounds) ==> n in WORKING
  {
    if rounds != [] {
      RoundStages(rounds[1..]);
      assert forall n :: n in Round(rounds[0]) ==> n in WORKING;
    }
  }

  lemma WorkStages(f: Flavour, w: seq<Stage>)
    requires Work(f, w)
    ensures GenerateResponse in w && forall n :: n in w ==> n in WORKING
  {
    if f.V1? {
      assert w[|w| - 1] == GenerateResponse;
    } else if f.V2? {
      var laps: seq<bool> :| |laps| >= 1 && (f.reflector || |laps| == 1) && w == Laps(laps, f.reflector);
      LapStages(laps, f.reflector);
    } else {
      var rounds, e :| w == Rounds(rounds) + (EndStages(e) + [GenerateResponse]);
      RoundStages(rounds);
      assert forall n :: n in EndStages(e) ==> n in WORKING;
    }
  }

  /** The turn was stopped by the input check, or asked back, or generated and formatted an answer: one
      of the three. */
  predicate EndsOneWay(p: seq<Stage>)
    requires |p| >= 2
  {
    && (p[|p| - 2] == GuardrailInput || HandleClarification in p || GenerateResponse in p)
    && (p[|p| - 2] == GuardrailInput ==> HandleClarification !in p && GenerateResponse !in p)
    && (HandleClarification in p ==> GenerateResponse !in p)
    && (FormatResponse in p <==> GenerateResponse in p)
  }

  lemma WayInStages(f: Flavour)
    ensures forall n :: n in WayIn(f) ==> n in {Begin, LoadHistory, GuardrailInput, CheckClarification, Planner}
  {
  }

  lemma AskedEnds(f: Flavour)
    ensures |Asked(f)| >= 2 && EndsOneWay(Asked(f))
  {
    WayInStages(f);
    var p, rest := Asked(f), [HandleClarification] + WayOut(f);
    assert p == WayIn(f) + rest && rest[0] == HandleClarification;
    hide WayIn;
  }

  lemma JoinedEnds(a: seq<Stage>, b: seq<Stage>, c: seq<Stage>)
    requires HandleClarification !in a && HandleClarification !in b && HandleClarification !in c
    requires GenerateResponse in b && FormatResponse in c && |c| >= 2 && c[|c| - 2] != GuardrailInput
    ensures |a + (b + c)| >= 2 && EndsOneWay(a + (b + c))
  {
    assert (a + (b + c))[|a| + |b| + |c| - 2] == c[|c| - 2];
  }

  lemma AnsweredEnds(f: Flavour, w: seq<Stage>)
    requires Work(f, w)
    ensures |Answered(f, w)| >= 2 && EndsOneWay(Answered(f, w))
  {
    WayInStages(f);
    WorkStages(f, w);
    hide WayIn, Work, EndsOneWay;
    var tail := [FormatResponse] + WayOut(f);
    assert tail[0] == FormatResponse;
    JoinedEnds(WayIn(f), w, tail);
  }

  lemma TurnEnds(f: Flavour, p: seq<Stage>)
    requires Finished(f, p)
    ensures |p| >= 2 && EndsOneWay(p)
  {
    var w := FinishedIsWord(f, p);
    AskedEnds(f);
    hide Finished, Work, Asked, Answered, WayIn;
    if Work(f, w) {
      AnsweredEnds(f, w);
    }
  }
}
