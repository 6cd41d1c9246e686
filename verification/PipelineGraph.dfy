/** The three graph topologies, built edge by edge, and what every path through them meets. */
module PipelineGraph {
  import opened AgentState
  import L = AgentLoop

  datatype Stage =
    | Begin | LoadHistory | CheckClarification | HandleClarification | GuardrailInput | GuardrailOutput
    | QueryAnalyzer | SourceRouter | TextToQuery | RetrieveContext | Reflector
    | Planner | BudgetStep | AdvanceStep | ExecuteStep | VerifyStep | BudgetReplan | Replan
    | SynthesizeFailure | GenerateResponse | FormatResponse | Finish

  datatype Flavour =
    | V1(guarded: bool)
    | V2(guarded: bool, clarify: bool, reflector: bool)
    | Agentic(guarded: bool)

  /** build_pipeline: sandbox-only agentic graph, then v2, then the rollback graph. */
  function Select(agenticOn: bool, sandbox: bool, v2On: bool, hasRepository: bool,
                  guarded: bool, clarify: bool, reflector: bool): Flavour {
    if agenticOn && sandbox && hasRepository then Agentic(guarded)
    else if v2On && hasRepository then V2(guarded, clarify, reflector)
    else V1(guarded)
  }

  // ---------------------------------------------------------------- specification

  function Closing(f: Flavour): set<Stage> {
    {if f.guarded then GuardrailOutput else Finish}
  }

  /** Where each stage may lead. */
  function Successors(f: Flavour, n: Stage): set<Stage> {
    match n
    case Begin => {LoadHistory}
    case FormatResponse => Closing(f)
    case GuardrailOutput => if f.guarded then {Finish} else {}
    case HandleClarification => if f.V2? && !f.clarify then {} else Closing(f)
    case _ =>
      match f
      case V1(g) => SuccessorsV1(g, n)
      case V2(g, c, r) => SuccessorsV2(g, if c then CheckClarification else QueryAnalyzer, r, n)
      case Agentic(g) => SuccessorsAgentic(g, n)
  }

  function SuccessorsV1(guarded: bool, n: Stage): set<Stage> {
    match n
    case LoadHistory => {CheckClarification}
    case CheckClarification => {HandleClarification, if guarded then GuardrailInput else RetrieveContext}
    case GuardrailInput => if guarded then {Finish, RetrieveContext} else {}
    case RetrieveContext => {GenerateResponse}
    case GenerateResponse => {FormatResponse}
    case _ => {}
  }

  /** `first` is the stage after the input check. */
  function SuccessorsV2(guarded: bool, first: Stage, reflector: bool, n: Stage): set<Stage> {
    match n
    case LoadHistory => {if guarded then GuardrailInput else first}
    case GuardrailInput => if guarded then {Finish, first} else {}
    case CheckClarification => if first == n then {HandleClarification, QueryAnalyzer} else {}
    case QueryAnalyzer => {SourceRouter}
    case SourceRouter => {TextToQuery, RetrieveContext}
    case TextToQuery => {RetrieveContext}
    case RetrieveContext => {GenerateResponse}
    case GenerateResponse => {if reflector then Reflector else FormatResponse}
    case Reflector => if reflector then {QueryAnalyzer, FormatResponse} else {}
    case _ => {}
  }

  function SuccessorsAgentic(guarded: bool, n: Stage): set<Stage> {
    match n
    case LoadHistory => {if guarded then GuardrailInput else Planner}
    case GuardrailInput => if guarded then {Finish, Planner} else {}
    case Planner => {HandleClarification, SynthesizeFailure, BudgetStep}
    case BudgetStep => {SynthesizeFailure, AdvanceStep}
    case AdvanceStep => {ExecuteStep}
    case ExecuteStep => {VerifyStep}
    case VerifyStep => {BudgetStep, BudgetReplan, GenerateResponse, SynthesizeFailure}
    case BudgetReplan => {SynthesizeFailure, Replan}
    case Replan => {SynthesizeFailure, BudgetStep}
    case SynthesizeFailure => {GenerateResponse}
    case GenerateResponse => {FormatResponse}
    case _ => {}
  }

  /** Which stages the deployment gets: the planner under the sandbox setting alone, query analysis in the v2
      graph, each option where it is switched on, and the rollback graph where there is no source repository. */
  lemma SelectedStages(agenticOn: bool, sandbox: bool, v2On: bool, hasRepository: bool,
                       guarded: bool, clarify: bool, reflector: bool)
    ensures var declared := Declared(Select(agenticOn, sandbox, v2On, hasRepository, guarded, clarify, reflector));
            var agentic := agenticOn && sandbox && hasRepository;
            var v2 := !agentic && v2On && hasRepository;
            && (Planner in declared <==> agentic)
            && (QueryAnalyzer in declared <==> v2)
            && (RetrieveContext in declared <==> !agentic)
            && (CheckClarification in declared <==> !agentic && (v2 ==> clarify))
            && (Reflector in declared <==> v2 && reflector)
            && (GuardrailInput in declared <==> guarded) && (GuardrailOutput in declared <==> guarded)
  {
  }

  // ---------------------------------------------------------------- the builders

  const RETRIEVAL: set<Stage> := {QueryAnalyzer, SourceRouter, TextToQuery, RetrieveContext}
  const CLARIFICATION: set<Stage> := {CheckClarification, HandleClarification}
  const STEP_LOOP: set<Stage> := {BudgetStep, AdvanceStep, ExecuteStep, VerifyStep}
  const REVISION: set<Stage> := {BudgetReplan, Replan, SynthesizeFailure, GenerateResponse}

  /** The stages a graph declares besides the guardrails. */
  function Core(f: Flavour): set<Stage> {
    match f
    case V1(_) => {LoadHistory, FormatResponse, RetrieveContext, GenerateResponse} + CLARIFICATION
    case V2(_, c, r) =>
      {LoadHistory, FormatResponse} + RETRIEVAL + (if c then CLARIFICATION else {})
      + ({GenerateResponse} + (if r then {Reflector} else {}))
    case Agentic(_) => {LoadHistory, FormatResponse, Planner, HandleClarification} + STEP_LOOP + REVISION
  }

  function Declared(f: Flavour): set<Stage> {
    Core(f) + (if f.guarded then {GuardrailInput, GuardrailOutput} else {})
  }

  /** The graphs are wired part by part. */
  datatype Part = Entry | Clarification | Middle | Answer | Exit

  function PartOf(n: Stage): Part {
    match n
    case Begin => Entry
    case LoadHistory => Entry
    case GuardrailInput => Entry
    case Planner => Clarification
    case CheckClarification => Clarification
    case HandleClarification => Clarification
    case FormatResponse => Exit
    case GuardrailOutput => Exit
    case GenerateResponse => Answer
    case Reflector => Answer
    case BudgetReplan => Answer
    case Replan => Answer
    case SynthesizeFailure => Answer
    case _ => Middle
  }

  /** `edges` are the specified edges of the stages in `parts`. */
  ghost predicate Wires(edges: set<(Stage, Stage)>, f: Flavour, parts: set<Part>) {
    forall n, m :: (n, m) in edges <==> PartOf(n) in parts && m in Successors(f, n)
  }

  const ALL_PARTS: set<Part> := {Entry, Clarification, Middle, Answer, Exit}

  /** The wired graph is the specified one. */
  lemma AllWired(edges: set<(Stage, Stage)>, f: Flavour, n: Stage, m: Stage)
    requires Wires(edges, f, ALL_PARTS)
    ensures (n, m) in edges <==> m in Successors(f, n)
  {
    assert PartOf(n) in ALL_PARTS;
  }

  /** What compiling a graph checks: every edge joins declared stages. */
  lemma EdgesJoinDeclared(f: Flavour, n: Stage, m: Stage)
    requires m in Successors(f, n)
    ensures n == Begin || n in Declared(f)
    ensures m == Finish || m in Declared(f)
  {
    if PartOf(n) == Middle {
    } else if PartOf(n) == Answer {
    } else {
    }
  }

  /** The graph under construction; `wired` says which parts have their edges. */
  class Workflow {
    var nodes: set<Stage>
    var edges: set<(Stage, Stage)>
    ghost const flavour: Flavour
    ghost var wired: set<Part>

    constructor (ghost flavour: Flavour)
      ensures nodes == {} && wired == {} && this.flavour == flavour && Wires(edges, flavour, {})
    {
      nodes, edges, wired := {}, {}, {};
      this.flavour := flavour;
    }

    method AddNodes(ns: set<Stage>)
      modifies this`nodes
      ensures nodes == old(nodes) + ns
    {
      nodes := nodes + ns;
    }

    method AddEdge(n: Stage, target: Stage)
      modifies this`edges
      ensures edges == old(edges) + {(n, target)}
    {
      edges := edges + {(n, target)};
    }

    method AddConditionalEdges(n: Stage, targets: set<Stage>)
      modifies this`edges
      ensures forall a, b :: (a, b) in edges <==> (a, b) in old(edges) || (a == n && b in targets)
    {
      edges := edges + (set m <- targets :: (n, m));
    }

    /** The text leaves through the output check when there is one. */
    method Close(n: Stage, guarded: bool)
      modifies this`edges
      ensures edges == old(edges) + {(n, if guarded then GuardrailOutput else Finish)}
    {
      if guarded {
        AddEdge(n, GuardrailOutput);
      } else {
        AddEdge(n, Finish);
      }
    }

    /** The input check wraps the v2 and the agentic graph. */
    method WireEntry(first: Stage, guarded: bool)
      requires Wires(edges, flavour, wired)
      requires Successors(flavour, LoadHistory) == {if guarded then GuardrailInput else first}
      requires Successors(flavour, GuardrailInput) == if guarded then {Finish, first} else {}
      modifies this`edges, this`wired
      ensures wired == old(wired) + {Entry} && Wires(edges, flavour, wired)
    {
      AddEdge(Begin, LoadHistory);
      if guarded {
        AddEdge(LoadHistory, GuardrailInput);
        AddConditionalEdges(GuardrailInput, {Finish, first});
      } else {
        AddEdge(LoadHistory, first);
      }
      wired := wired + {Entry};
    }

    /** The output check wraps every graph. */
    method WireExit(guarded: bool)
      requires Wires(edges, flavour, wired) && guarded == flavour.guarded
      modifies this`edges, this`wired
      ensures wired == old(wired) + {Exit} && Wires(edges, flavour, wired)
    {
      Close(FormatResponse, guarded);
      if guarded {
        AddEdge(GuardrailOutput, Finish);
      }
      wired := wired + {Exit};
    }

    method AddGuardrails(guarded: bool)
      modifies this`nodes
      ensures nodes == old(nodes) + (if guarded then {GuardrailInput, GuardrailOutput} else {})
    {
      if guarded {
        AddNodes({GuardrailInput, GuardrailOutput});
      }
    }
  }

  // ---------------------------------------------------------------- the rollback graph

  /** Here the clarification check comes before the input check. */
  method WireEntryV1(w: Workflow, guarded: bool)
    requires w.flavour == V1(guarded) && Wires(w.edges, w.flavour, w.wired)
    modifies w`edges, w`wired
    ensures w.wired == old(w.wired) + {Entry} && Wires(w.edges, w.flavour, w.wired)
  {
    w.AddEdge(Begin, LoadHistory);
    w.AddEdge(LoadHistory, CheckClarification);
    if guarded {
      w.AddConditionalEdges(GuardrailInput, {Finish, RetrieveContext});
    }
    w.wired := w.wired + {Entry};
  }

  method WireClarificationV1(w: Workflow, guarded: bool)
    requires w.flavour == V1(guarded) && Wires(w.edges, w.flavour, w.wired)
    modifies w`edges, w`wired
    ensures w.wired == old(w.wired) + {Clarification} && Wires(w.edges, w.flavour, w.wired)
  {
    w.AddConditionalEdges(CheckClarification,
                          {HandleClarification, if guarded then GuardrailInput else RetrieveContext});
    w.Close(HandleClarification, guarded);
    w.wired := w.wired + {Clarification};
  }

  method WireAnswerV1(w: Workflow)
    requires w.flavour.V1? && Wires(w.edges, w.flavour, w.wired)
    modifies w`edges, w`wired
    ensures w.wired == old(w.wired) + {Middle, Answer} && Wires(w.edges, w.flavour, w.wired)
  {
    w.AddEdge(RetrieveContext, GenerateResponse);
    w.AddEdge(GenerateResponse, FormatResponse);
    w.wired := w.wired + {Middle, Answer};
  }

  method BuildV1(guarded: bool) returns (w: Workflow)
    ensures fresh(w) && w.nodes == Declared(V1(guarded)) && Wires(w.edges, V1(guarded), ALL_PARTS)
  {
    w := new Workflow(V1(guarded));
    w.AddNodes({LoadHistory, FormatResponse, RetrieveContext, GenerateResponse} + CLARIFICATION);
    w.AddGuardrails(guarded);
    WireEntryV1(w, guarded);
    WireClarificationV1(w, guarded);
    WireAnswerV1(w);
    w.WireExit(guarded);
    assert w.wired == ALL_PARTS;
  }

  // ---------------------------------------------------------------- the v2 graph

  method WireClarification(w: Workflow, guarded: bool, clarify: bool)
    requires w.flavour.V2? && w.flavour.guarded == guarded && w.flavour.clarify == clarify
    requires Wires(w.edges, w.flavour, w.wired)
    modifies w`edges, w`wired
    ensures w.wired == old(w.wired) + {Clarification} && Wires(w.edges, w.flavour, w.wired)
  {
    if clarify {
      w.AddConditionalEdges(CheckClarification, {HandleClarification, QueryAnalyzer});
      w.Close(HandleClarification, guarded);
    }
    w.wired := w.wired + {Clarification};
  }

  method WireRetrieval(w: Workflow)
    requires w.flavour.V2? && Wires(w.edges, w.flavour, w.wired)
    modifies w`edges, w`wired
    ensures w.wired == old(w.wired) + {Middle} && Wires(w.edges, w.flavour, w.wired)
  {
    w.AddEdge(QueryAnalyzer, SourceRouter);
    w.AddConditionalEdges(SourceRouter, {TextToQuery, RetrieveContext});
    w.AddEdge(TextToQuery, RetrieveContext);
    w.AddEdge(RetrieveContext, GenerateResponse);
    w.wired := w.wired + {Middle};
  }

  method WireReflector(w: Workflow, reflector: bool)
    requires w.flavour.V2? && w.flavour.reflector == reflector && Wires(w.edges, w.flavour, w.wired)
    modifies w`edges, w`wired
    ensures w.wired == old(w.wired) + {Answer} && Wires(w.edges, w.flavour, w.wired)
  {
    if reflector {
      w.AddEdge(GenerateResponse, Reflector);
      w.AddConditionalEdges(Reflector, {QueryAnalyzer, FormatResponse});
    } else {
      w.AddEdge(GenerateResponse, FormatResponse);
    }
    w.wired := w.wired + {Answer};
  }

  method BuildV2(guarded: bool, clarify: bool, reflector: bool) returns (w: Workflow)
    ensures fresh(w) && w.nodes == Declared(V2(guarded, clarify, reflector))
    ensures Wires(w.edges, V2(guarded, clarify, reflector), ALL_PARTS)
  {
    w := new Workflow(V2(guarded, clarify, reflector));
    w.AddNodes({LoadHistory, FormatResponse} + RETRIEVAL);
    if clarify {
      w.AddNodes(CLARIFICATION);
    }
    w.AddNodes({GenerateResponse} + (if reflector then {Reflector} else {}));
    w.AddGuardrails(guarded);
    w.WireEntry(if clarify then CheckClarification else QueryAnalyzer, guarded);
    WireClarification(w, guarded, clarify);
    WireRetrieval(w);
    WireReflector(w, reflector);
    w.WireExit(guarded);
    assert w.wired == ALL_PARTS;
  }

  // ---------------------------------------------------------------- the agentic graph

  method WirePlanner(w: Workflow, guarded: bool)
    requires w.flavour == Agentic(guarded) && Wires(w.edges, w.flavour, w.wired)
    modifies w`edges, w`wired
    ensures w.wired == old(w.wired) + {Clarification} && Wires(w.edges, w.flavour, w.wired)
  {
    w.AddConditionalEdges(Planner, {HandleClarification, SynthesizeFailure, BudgetStep});
    w.Close(HandleClarification, guarded);
    w.wired := w.wired + {Clarification};
  }

  method WireStepLoop(w: Workflow)
    requires w.flavour.Agentic? && Wires(w.edges, w.flavour, w.wired)
    modifies w`edges, w`wired
    ensures w.wired == old(w.wired) + {Middle} && Wires(w.edges, w.flavour, w.wired)
  {
    w.AddConditionalEdges(BudgetStep, {SynthesizeFailure, AdvanceStep});
    w.AddEdge(AdvanceStep, ExecuteStep);
    w.AddEdge(ExecuteStep, VerifyStep);
    w.AddConditionalEdges(VerifyStep, {BudgetStep, BudgetReplan, GenerateResponse, SynthesizeFailure});
    w.wired := w.wired + {Middle};
  }

  method WireRevision(w: Workflow)
    requires w.flavour.Agentic? && Wires(w.edges, w.flavour, w.wired)
    modifies w`edges, w`wired
    ensures w.wired == old(w.wired) + {Answer} && Wires(w.edges, w.flavour, w.wired)
  {
    w.AddConditionalEdges(BudgetReplan, {SynthesizeFailure, Replan});
    w.AddConditionalEdges(Replan, {SynthesizeFailure, BudgetStep});
    w.AddEdge(SynthesizeFailure, GenerateResponse);
    w.AddEdge(GenerateResponse, FormatResponse);
    w.wired := w.wired + {Answer};
  }

  method BuildAgentic(guarded: bool) returns (w: Workflow)
    ensures fresh(w) && w.nodes == Declared(Agentic(guarded))
    ensures Wires(w.edges, Agentic(guarded), ALL_PARTS)
  {
    w := new Workflow(Agentic(guarded));
    w.AddNodes({LoadHistory, FormatResponse, Planner, HandleClarification} + STEP_LOOP + REVISION);
    w.AddGuardrails(guarded);
    w.WireEntry(Planner, guarded);
    WirePlanner(w, guarded);
    WireStepLoop(w);
    WireRevision(w);
    w.WireExit(guarded);
    assert w.wired == ALL_PARTS;
  }

  // ---------------------------------------------------------------- paths

  predicate Path(f: Flavour, p: seq<Stage>) {
    && p != [] && p[0] == Begin
    && forall i :: 0 <= i < |p| - 1 ==> p[i + 1] in Successors(f, p[i])
  }

  /** The stages that may run before the input check. */
  predicate Preliminary(f: Flavour, n: Stage) {
    n == Begin || n == LoadHistory || (f.V1? && n == CheckClarification)
  }

  /** The stages a path may visit without ever passing the input check. */
  predicate Bypass(f: Flavour, n: Stage) {
    Preliminary(f, n) || (f.V1? && (n == HandleClarification || n == GuardrailOutput || n == Finish))
  }

  lemma {:induction false} PreliminariesFirst(f: Flavour, p: seq<Stage>, i: nat)
    requires f.guarded && Path(f, p) && i < |p|
    requires p[i] == GuardrailInput || Preliminary(f, p[i])
    ensures forall k :: 0 <= k < i ==> Preliminary(f, p[k])
  {
    if i > 0 {
      assert p[i] in Successors(f, p[i - 1]);
      PreliminariesFirst(f, p, i - 1);
    }
  }

  lemma {:induction false} BypassOrChecked(f: Flavour, p: seq<Stage>, i: nat)
    requires f.guarded && Path(f, p) && i < |p|
    ensures Bypass(f, p[i]) || GuardrailInput in p[..i + 1]
  {
    if i > 0 {
      BypassOrChecked(f, p, i - 1);
      assert p[i] in Successors(f, p[i - 1]);
      if GuardrailInput in p[..i] {
        assert p[..i] <= p[..i + 1];
      } else {
        assert p[i] == p[..i + 1][i];
      }
    }
  }

  /** With a guardrail service the input check dominates every other stage of the v2 and the
      agentic graph, however often they loop; in the rollback graph the clarification branch
      alone escapes it. */
  lemma InputCheckDominates(f: Flavour, p: seq<Stage>, i: nat)
    requires f.guarded && Path(f, p) && i < |p|
    ensures !Bypass(f, p[i]) && p[i] != GuardrailInput ==> GuardrailInput in p[..i]
    ensures p[i] == GuardrailInput ==> forall k :: 0 <= k < i ==> Preliminary(f, p[k])
  {
    BypassOrChecked(f, p, i);
    if p[i] == GuardrailInput {
      PreliminariesFirst(f, p, i);
    } else if GuardrailInput in p[..i + 1] {
      assert p[..i + 1] == p[..i] + [p[i]];
    }
  }

  /** Some path answers the user without having checked the input. */
  ghost predicate AnswersUnchecked(f: Flavour) {
    exists p :: Path(f, p) && p[|p| - 1] == Finish && GuardrailInput !in p
  }

  /** Which deployments, all with a guardrail service, can answer an unchecked input: exactly
      those that select the rollback graph. */
  lemma UncheckedAnswerIffRollback(
      agenticOn: bool, sandbox: bool, v2On: bool, hasRepository: bool, clarify: bool, reflector: bool)
    ensures AnswersUnchecked(Select(agenticOn, sandbox, v2On, hasRepository, true, clarify, reflector))
       <==> !(agenticOn && sandbox && hasRepository) && !(v2On && hasRepository)
  {
    var f := Select(agenticOn, sandbox, v2On, hasRepository, true, clarify, reflector);
    if f.V1? {
      var p := [Begin, LoadHistory, CheckClarification, HandleClarification, GuardrailOutput, Finish];
      assert Path(f, p);
      assert p[|p| - 1] == Finish && GuardrailInput !in p;
    } else {
      forall p | Path(f, p) && p[|p| - 1] == Finish
        ensures GuardrailInput in p
      {
        BypassOrChecked(f, p, |p| - 1);
        assert p[..|p|] == p;
      }
    }
  }

  /** In every graph with a guardrail service, a finished path either stopped at the input
      check, having run nothing else, or its last stage was the output check. */
  lemma EveryAnswerIsChecked(f: Flavour, p: seq<Stage>)
    requires f.guarded && Path(f, p) && p[|p| - 1] == Finish
    ensures |p| >= 2
    ensures var last := p[|p| - 2];
            || last == GuardrailOutput
            || (last == GuardrailInput && forall k :: 0 <= k < |p| - 2 ==> Preliminary(f, p[k]))
  {
    var i := |p| - 2;
    assert p[i + 1] in Successors(f, p[i]);
    if p[i] == GuardrailInput {
      PreliminariesFirst(f, p, i);
    }
  }

  // ---------------------------------------------------------------- what an answer rests on

  /** The edges into the stages of an answer. */
  lemma EdgeInto(f: Flavour, n: Stage, m: Stage)
    requires m in Successors(f, n)
    ensures m != Begin
    ensures m == FormatResponse ==> n == if f.V2? && f.reflector then Reflector else GenerateResponse
    ensures m == Reflector ==> n == GenerateResponse && f.V2? && f.reflector
    ensures m == GenerateResponse ==>
              if f.Agentic? then n == VerifyStep || n == SynthesizeFailure else n == RetrieveContext
    ensures m == RetrieveContext && f.V2? ==> n == SourceRouter || n == TextToQuery
    ensures m == TextToQuery ==> n == SourceRouter
    ensures m == SourceRouter ==> n == QueryAnalyzer
    ensures m == VerifyStep ==> n == ExecuteStep
    ensures m == ExecuteStep ==> n == AdvanceStep
    ensures m == AdvanceStep ==> n == BudgetStep
  {
  }

  /** The edge by which a path reached its stage `i`. */
  lemma Back(f: Flavour, p: seq<Stage>, i: nat)
    requires Path(f, p) && i < |p| && p[i] != Begin
    ensures i > 0 && p[i] in Successors(f, p[i - 1])
  {
    assert i > 0 ==> p[i - 1 + 1] in Successors(f, p[i - 1]);
  }

  lemma RetrievalIsPrepared(f: Flavour, p: seq<Stage>, i: nat)
    requires Path(f, p) && i < |p| && f.V2? && p[i] == RetrieveContext
    ensures || (i >= 2 && p[i - 2] == QueryAnalyzer && p[i - 1] == SourceRouter)
            || (i >= 3 && p[i - 3] == QueryAnalyzer && p[i - 2] == SourceRouter && p[i - 1] == TextToQuery)
  {
    hide Path, Successors;
    Back(f, p, i);
    EdgeInto(f, p[i - 1], p[i]);
    Back(f, p, i - 1);
    EdgeInto(f, p[i - 2], p[i - 1]);
    if p[i - 1] == TextToQuery {
      Back(f, p, i - 2);
      EdgeInto(f, p[i - 3], p[i - 2]);
    }
  }

  /** Every verified step was executed just before, and its dispatch passed the gate. */
  lemma VerifiedIsGated(f: Flavour, p: seq<Stage>, i: nat)
    requires Path(f, p) && i < |p| && p[i] == VerifyStep
    ensures i >= 3 && p[i - 3] == BudgetStep && p[i - 2] == AdvanceStep && p[i - 1] == ExecuteStep
  {
    hide Path, Successors;
    Back(f, p, i);
    EdgeInto(f, p[i - 1], p[i]);
    Back(f, p, i - 1);
    EdgeInto(f, p[i - 2], p[i - 1]);
    Back(f, p, i - 2);
    EdgeInto(f, p[i - 3], p[i - 2]);
  }

  /** Whatever a graph generates, it has prepared just before, in every loop anew: the rollback graph
      retrieved, the v2 graph analysed the query, chose sources and retrieved, and the agentic graph
      passed the gate, executed and verified a step, or admitted failure. */
  lemma AnswerIsPrepared(f: Flavour, p: seq<Stage>, i: nat)
    requires Path(f, p) && i < |p| && p[i] == GenerateResponse
    ensures f.V1? ==> i >= 1 && p[i - 1] == RetrieveContext
    ensures f.V2? ==>
              || (i >= 3 && p[i - 3..i] == [QueryAnalyzer, SourceRouter, RetrieveContext])
              || (i >= 4 && p[i - 4..i] == [QueryAnalyzer, SourceRouter, TextToQuery, RetrieveContext])
    ensures f.Agentic? ==>
              || (i >= 4 && p[i - 4..i] == [BudgetStep, AdvanceStep, ExecuteStep, VerifyStep])
              || (i >= 1 && p[i - 1] == SynthesizeFailure)
  {
    hide Path, Successors;
    Back(f, p, i);
    EdgeInto(f, p[i - 1], p[i]);
    if f.V2? {
      RetrievalIsPrepared(f, p, i - 1);
    } else if p[i - 1] == VerifyStep {
      VerifiedIsGated(f, p, i - 1);
    }
  }

  /** What is formatted was generated just before, and reviewed in between exactly when there is a
      reflector. */
  lemma FormattedIsGenerated(f: Flavour, p: seq<Stage>, i: nat)
    requires Path(f, p) && i < |p|
    ensures p[i] == FormatResponse ==>
              if f.V2? && f.reflector then i >= 2 && p[i - 2..i] == [GenerateResponse, Reflector]
              else i >= 1 && p[i - 1] == GenerateResponse
    ensures p[i] == Reflector ==> f.V2? && f.reflector && i >= 1 && p[i - 1] == GenerateResponse
  {
    hide Path, Successors;
    if p[i] == FormatResponse || p[i] == Reflector {
      Back(f, p, i);
      EdgeInto(f, p[i - 1], p[i]);
      if p[i - 1] == Reflector {
        Back(f, p, i - 1);
        EdgeInto(f, p[i - 2], p[i - 1]);
      }
    }
  }

  // ---------------------------------------------------------------- runs of the agentic graph

  function StageOf(n: L.Node): Stage {
    match n
    case LoadHistory => LoadHistory
    case GuardrailInput => GuardrailInput
    case Planner => Planner
    case HandleClarification => HandleClarification
    case BudgetStep => BudgetStep
    case AdvanceStep => AdvanceStep
    case ExecuteStep => ExecuteStep
    case VerifyStep => VerifyStep
    case BudgetReplan => BudgetReplan
    case Replan => Replan
    case SynthesizeFailure => SynthesizeFailure
    case GenerateResponse => GenerateResponse
    case FormatResponse => FormatResponse
    case GuardrailOutput => GuardrailOutput
    case End => Finish
    case Raised => Finish
  }

  predicate Branching(n: L.Node) {
    n == L.Planner || n == L.VerifyStep || n == L.Replan || n == L.BudgetStep || n == L.BudgetReplan
  }

  lemma VerifyFollowsEdge(c: L.Config, e: L.Env)
    requires c.node == L.VerifyStep
    ensures L.Next(c, e).node in {L.BudgetStep, L.BudgetReplan, L.GenerateResponse, L.SynthesizeFailure, L.Raised}
  {
  }

  lemma PlanFollowsEdge(c: L.Config, e: L.Env)
    requires c.node == L.Planner || c.node == L.Replan
    ensures L.Next(c, e).node in {L.BudgetStep, L.SynthesizeFailure, L.HandleClarification}
    ensures c.node == L.Replan ==> L.Next(c, e).node != L.HandleClarification
  {
  }

  lemma GateFollowsEdge(c: L.Config, e: L.Env)
    requires c.node == L.BudgetStep || c.node == L.BudgetReplan
    ensures L.Next(c, e).node
         in {L.SynthesizeFailure, if c.node == L.BudgetStep then L.AdvanceStep else L.Replan}
  {
  }

  lemma BranchFollowsEdge(c: L.Config, e: L.Env)
    requires Branching(c.node) && L.Next(c, e).node != L.Raised
    ensures StageOf(L.Next(c, e).node) in Successors(Agentic(c.guarded), StageOf(c.node))
  {
    hide L.Next;
    if c.node == L.VerifyStep {
      VerifyFollowsEdge(c, e);
    } else if c.node == L.Planner || c.node == L.Replan {
      PlanFollowsEdge(c, e);
    } else {
      GateFollowsEdge(c, e);
    }
  }

  /** Every step of a turn follows an edge of the agentic graph. */
  lemma StepFollowsEdge(c: L.Config, e: L.Env)
    requires !L.Stopped(c) && L.Next(c, e).node != L.Raised
    requires c.node == L.GuardrailInput || c.node == L.GuardrailOutput ==> c.guarded
    ensures StageOf(L.Next(c, e).node) in Successors(Agentic(c.guarded), StageOf(c.node))
  {
    if Branching(c.node) {
      BranchFollowsEdge(c, e);
    }
  }

  /** The stages a run has been through, its current one last. */
  function Trace(c: L.Config, es: seq<L.Env>): seq<Stage> {
    if es == [] then [Begin, StageOf(c.node)]
    else
      var prefix := es[..|es| - 1];
      if L.Stopped(L.Run(c, prefix)) then Trace(c, prefix)
      else Trace(c, prefix) + [StageOf(L.Run(c, es).node)]
  }

  lemma PathSnoc(f: Flavour, p: seq<Stage>, n: Stage)
    requires Path(f, p) && n in Successors(f, p[|p| - 1])
    ensures Path(f, p + [n])
  {
  }

  lemma NextKeepsGuard(c: L.Config, e: L.Env)
    ensures L.Next(c, e).guarded == c.guarded
  {
    if Branching(c.node) {
    }
  }

  /** Every turn that does not raise is a path of the graph built for it, so dominance of the
      input check and the check of every answer hold of every turn. */
  lemma {:induction false} RunIsPath(s: L.Config, es: seq<L.Env>)
    requires s.node == L.LoadHistory && L.Run(s, es).node != L.Raised
    ensures var c, p := L.Run(s, es), Trace(s, es);
            && c.guarded == s.guarded
            && (c.node == L.GuardrailInput || c.node == L.GuardrailOutput ==> s.guarded)
            && Path(Agentic(s.guarded), p) && p[|p| - 1] == StageOf(c.node)
  {
    if es != [] {
      var prefix, e := es[..|es| - 1], es[|es| - 1];
      RunIsPath(s, prefix);
      ExtendTrace(L.Run(s, prefix), e, Trace(s, prefix));
    }
  }

  lemma ExtendTrace(c: L.Config, e: L.Env, p: seq<Stage>)
    requires L.Next(c, e).node != L.Raised && Path(Agentic(c.guarded), p) && p[|p| - 1] == StageOf(c.node)
    requires c.node == L.GuardrailInput || c.node == L.GuardrailOutput ==> c.guarded
    ensures var d := L.Next(c, e);
            && d.guarded == c.guarded
            && (d.node == L.GuardrailInput || d.node == L.GuardrailOutput ==> c.guarded)
            && (if L.Stopped(c) then d == c else Path(Agentic(c.guarded), p + [StageOf(d.node)]))
  {
    NextKeepsGuard(c, e);
    if !L.Stopped(c) {
      StepFollowsEdge(c, e);
      PathSnoc(Agentic(c.guarded), p, StageOf(L.Next(c, e).node));
    }
  }

  /** A guarded path to the end was stopped by the input check before the planner ran, or ended
      right after the output check. */
  lemma PathIsChecked(p: seq<Stage>)
    requires Path(Agentic(true), p) && p[|p| - 1] == Finish
    ensures |p| >= 2
    ensures p[|p| - 2] == GuardrailOutput
            || (p[|p| - 2] == GuardrailInput && Planner !in p && GenerateResponse !in p)
  {
    EveryAnswerIsChecked(Agentic(true), p);
    if p[|p| - 2] == GuardrailInput {
      forall k | 0 <= k < |p|
        ensures p[k] != Planner && p[k] != GenerateResponse
      {
        if k < |p| - 2 {
          assert Preliminary(Agentic(true), p[k]);
        }
      }
    }
  }

  /** So is every guarded turn. */
  lemma EveryTurnIsChecked(sources: set<string>, budget: Budget, es: seq<L.Env>)
    requires L.Run(L.Start(true, sources, budget), es).node == L.End
    ensures var p := Trace(L.Start(true, sources, budget), es);
            && |p| >= 2 && p[|p| - 1] == Finish
            && (p[|p| - 2] == GuardrailOutput
                || (p[|p| - 2] == GuardrailInput && Planner !in p && GenerateResponse !in p))
  {
    RunIsPath(L.Start(true, sources, budget), es);
    PathIsChecked(Trace(L.Start(true, sources, budget), es));
  }
}
