/** The server-sent event stream of a chat turn. */
module ChatStream {
  import opened Wrappers

  // ---------------------------------------------------------------- what the graph emits

  /** A field of an untyped record. */
  datatype Field = Absent | Text(text: string) | NotText

  datatype RawOption = NotARecord | Record(sourceId: Field, altId: Field, name: Field, recommended: Option<bool>)

  /** The final state of the graph, as far as the streamer reads it. `answer` is None when the key
      is absent; a null answer reads as the empty one. */
  datatype GraphOutput = GraphOutput(
    answer: Option<string>, clarify: bool, question: string, options: Option<seq<RawOption>>)

  /** The state delta of one intermediate node; payloads that are not records are dropped. */
  datatype NodeOutput =
    | Malformed
    | Delta(replan: Option<int>, plan: Option<int>, steps: seq<int>, budget: Option<int>)

  datatype Event =
    | Token(content: string)
    | GraphEnd(output: Option<GraphOutput>)  // None: not a record
    | NodeEnd(runId: string, node: NodeOutput)
    | Other

  /** How the event source ends. */
  datatype Ending = Exhausted | Interrupted(message: string) | Crashed

  datatype Save = Saved(messageId: string) | SaveFails

  // ---------------------------------------------------------------- what goes on the wire

  datatype WireOption = WireOption(id: string, title: string, recommended: Option<bool>)

  datatype ErrorCode = PipelineError | EmptyResponse | PersistError

  datatype Frame =
    | Given(raw: string)
    | DeltaFrame(token: string)
    | ReplanFrame(data: int) | PlanFrame(data: int) | StepFrame(data: int) | BudgetFrame(data: int)
    | Clarification(question: Option<string>, options: Option<seq<WireOption>>)  // no question: the stock wording
    | Error(code: ErrorCode)
    | Done(messageId: string)

  predicate Terminal(f: Frame) {
    f.Clarification? || f.Error? || f.Done?
  }

  predicate NonTerminal(frames: seq<Frame>) {
    forall i :: 0 <= i < |frames| ==> !Terminal(frames[i]) && !frames[i].Given?
  }

  /** What the reader has accumulated. */
  function Deltas(frames: seq<Frame>): string {
    if frames == [] then ""
    else
      var last := frames[|frames| - 1];
      Deltas(frames[..|frames| - 1]) + (if last.DeltaFrame? then last.token else "")
  }

  lemma {:induction false} DeltasConcat(a: seq<Frame>, b: seq<Frame>)
    ensures Deltas(a + b) == Deltas(a) + Deltas(b)
  {
    if b == [] {
      assert a + b == a;
    } else {
      var b' := b[..|b| - 1];
      assert (a + b)[..|a + b| - 1] == a + b';
      DeltasConcat(a, b');
    }
  }

  // ---------------------------------------------------------------- clarification options

  const MIN_OPTIONS := 2
  const MAX_OPTIONS := 4

  function SidOf(o: RawOption): Option<string> {
    if o.NotARecord? then None
    else
      var sid := if o.sourceId.Absent? || o.sourceId == Text("") then o.altId else o.sourceId;
      if sid.Text? then Some(sid.text) else None
  }

  /** The label is the trusted name, or the id itself. */
  function WireOf(o: RawOption, sid: string): WireOption {
    WireOption(sid,
               if o.Record? && o.name.Text? && o.name.text != "" then o.name.text else sid,
               if o.Record? then o.recommended else None)
  }

  function Ids(kept: seq<WireOption>): (ids: seq<string>)
    ensures |ids| == |kept|
    ensures forall i :: 0 <= i < |kept| ==> ids[i] == kept[i].id
  {
    seq(|kept|, i requires 0 <= i < |kept| => kept[i].id)
  }

  /** The options naming a permitted source not named before. */
  function Kept(raw: seq<RawOption>, permitted: set<string>): seq<WireOption> {
    if raw == [] then []
    else
      var kept, o := Kept(raw[..|raw| - 1], permitted), raw[|raw| - 1];
      var sid := SidOf(o);
      if sid.None? || sid.value !in permitted || sid.value in Ids(kept) then kept
      else kept + [WireOf(o, sid.value)]
  }

  predicate NoRepeats(ids: seq<string>) {
    forall i, j :: 0 <= i < j < |ids| ==> ids[i] != ids[j]
  }

  predicate Offers(raw: seq<RawOption>, sid: string) {
    exists i :: 0 <= i < |raw| && SidOf(raw[i]) == Some(sid)
  }

  /** Exactly the offered permitted sources are kept, each once. */
  lemma {:induction false} KeptFacts(raw: seq<RawOption>, permitted: set<string>)
    ensures var ids := Ids(Kept(raw, permitted));
            && (forall sid :: sid in ids <==> sid in permitted && Offers(raw, sid))
            && NoRepeats(ids)
  {
    if raw != [] {
      var before, o := raw[..|raw| - 1], raw[|raw| - 1];
      var kept, sid := Kept(before, permitted), SidOf(o);
      KeptFacts(before, permitted);
      forall s
        ensures Offers(raw, s) <==> Offers(before, s) || sid == Some(s)
      {
        OffersSnoc(raw, s);
      }
      if sid.Some? && sid.value in permitted && sid.value !in Ids(kept) {
        assert Ids(kept + [WireOf(o, sid.value)]) == Ids(kept) + [sid.value];
      }
    }
  }

  lemma OffersSnoc(raw: seq<RawOption>, sid: string)
    requires raw != []
    ensures Offers(raw, sid) <==> Offers(raw[..|raw| - 1], sid) || SidOf(raw[|raw| - 1]) == Some(sid)
  {
    var before := raw[..|raw| - 1];
    if Offers(before, sid) {
      var i :| 0 <= i < |before| && SidOf(before[i]) == Some(sid);
      assert SidOf(raw[i]) == Some(sid);
    }
    if Offers(raw, sid) {
      var i :| 0 <= i < |raw| && SidOf(raw[i]) == Some(sid);
      if i < |before| {
        assert SidOf(before[i]) == Some(sid);
      }
    }
  }

  lemma {:induction false} KeptGrows(raw: seq<RawOption>, n: nat, permitted: set<string>)
    requires n <= |raw|
    ensures Kept(raw[..n], permitted) <= Kept(raw, permitted)
  {
    if n == |raw| {
      assert raw[..n] == raw;
    } else {
      assert raw[..|raw| - 1][..n] == raw[..n];
      KeptGrows(raw[..|raw| - 1], n, permitted);
    }
  }

  /** The options on the wire: the first four kept ones, or none when fewer than two are kept. */
  function Offered(raw: seq<RawOption>, permitted: set<string>): Option<seq<WireOption>> {
    var kept := Kept(raw, permitted);
    if |kept| < MIN_OPTIONS then None else Some(kept[..Min(|kept|, MAX_OPTIONS)])
  }

  method BuildClarificationFrame(question: Option<string>, raw: Option<seq<RawOption>>, permitted: set<string>)
      returns (frame: Frame)
    ensures frame == Clarification(question, Offered(if raw.Some? then raw.value else [], permitted))
  {
    var options := if raw.Some? then raw.value else [];
    var payload, seen: set<string> := [], {};
    var i := 0;
    while i < |options| && |payload| < MAX_OPTIONS
      invariant 0 <= i <= |options|
      invariant payload == Kept(options[..i], permitted) && |payload| <= MAX_OPTIONS
      invariant forall sid :: sid in seen <==> sid in Ids(payload)
    {
      assert options[..i + 1][..i] == options[..i];
      var sid := SidOf(options[i]);
      if sid.Some? && sid.value in permitted && sid.value !in seen {
        seen := seen + {sid.value};
        assert Ids(payload + [WireOf(options[i], sid.value)]) == Ids(payload) + [sid.value];
        payload := payload + [WireOf(options[i], sid.value)];
      }
      i := i + 1;
    }
    KeptGrows(options, i, permitted);
    assert i == |options| ==> options[..i] == options;
    assert payload == Kept(options, permitted)[..|payload|];
    assert |payload| == Min(|Kept(options, permitted)|, MAX_OPTIONS);
    var emit := if |payload| >= MIN_OPTIONS then Some(payload) else None;
    return Clarification(question, emit);
  }

  /** Options reach the wire exactly when at least two distinct permitted sources are offered;
      each is permitted, none repeats, and there are at most four. */
  lemma OfferedFacts(raw: seq<RawOption>, permitted: set<string>)
    ensures Offered(raw, permitted).Some? <==>
              exists a, b :: a != b && a in permitted && b in permitted && Offers(raw, a) && Offers(raw, b)
    ensures Offered(raw, permitted).Some? ==>
              var options := Offered(raw, permitted).value;
              && 2 <= |options| <= 4
              && (forall i :: 0 <= i < |options| ==> options[i].id in permitted && Offers(raw, options[i].id))
              && (forall i, j :: 0 <= i < j < |options| ==> options[i].id != options[j].id)
  {
    var kept, ids := Kept(raw, permitted), Ids(Kept(raw, permitted));
    KeptFacts(raw, permitted);
    assert forall i :: 0 <= i < |kept| ==> ids[i] == kept[i].id && ids[i] in ids;
    if |kept| >= 2 {
      assert ids[0] != ids[1] && ids[0] in ids && ids[1] in ids;
    }
    if a, b :| a != b && a in permitted && b in permitted && Offers(raw, a) && Offers(raw, b) {
      assert a in ids && b in ids;
    }
  }

  /** The source an option names: its source id, or the alternative key when that is missing or empty. */
  predicate Names(o: RawOption, sid: string) {
    && o.Record?
    && ((o.sourceId == Text(sid) && sid != "")
        || ((o.sourceId.Absent? || o.sourceId == Text("")) && o.altId == Text(sid)))
  }

  lemma SidOfIsNamed(o: RawOption, sid: string)
    ensures SidOf(o) == Some(sid) <==> Names(o, sid)
  {
  }

  /** `wire` shows option `o`: under its trusted name, or the bare id when it has none. */
  predicate Shows(wire: WireOption, o: RawOption) {
    && Names(o, wire.id)
    && wire.title == (if o.name.Text? && |o.name.text| > 0 then o.name.text else wire.id)
    && wire.recommended == o.recommended
  }

  /** Each of `kept` shows the first option that names its source, and they keep their order. */
  predicate FirstMentions(raw: seq<RawOption>, kept: seq<WireOption>, at: seq<nat>) {
    && |at| == |kept|
    && (forall k :: 0 <= k < |at| ==> at[k] < |raw| && Shows(kept[k], raw[at[k]]))
    && (forall k, i :: 0 <= k < |at| && 0 <= i < at[k] ==> !Names(raw[i], kept[k].id))
    && (forall k, l :: 0 <= k < l < |at| ==> at[k] < at[l])
  }

  lemma OneMoreMention(raw: seq<RawOption>, o: RawOption, kept: seq<WireOption>, at: seq<nat>, wire: WireOption)
    requires FirstMentions(raw, kept, at) && Shows(wire, o)
    requires forall i :: 0 <= i < |raw| ==> !Names(raw[i], wire.id)
    ensures FirstMentions(raw + [o], kept + [wire], at + [|raw|])
  {
    hide Shows, Names;
  }

  lemma {:induction false} KeptShowsFirst(raw: seq<RawOption>, permitted: set<string>) returns (at: seq<nat>)
    ensures FirstMentions(raw, Kept(raw, permitted), at)
  {
    if raw == [] {
      at := [];
    } else {
      var before, o := raw[..|raw| - 1], raw[|raw| - 1];
      at := KeptShowsFirst(before, permitted);
      assert raw == before + [o];
      if Kept(raw, permitted) != Kept(before, permitted) {
        var sid := SidOf(o).value;
        NotNamedBefore(before, permitted, sid);
        SidOfIsNamed(o, sid);
        OneMoreMention(before, o, Kept(before, permitted), at, WireOf(o, sid));
        at := at + [|before|];
      }
    }
  }

  lemma NotNamedBefore(raw: seq<RawOption>, permitted: set<string>, sid: string)
    requires sid in permitted && sid !in Ids(Kept(raw, permitted))
    ensures forall i :: 0 <= i < |raw| ==> !Names(raw[i], sid)
  {
    KeptFacts(raw, permitted);
    forall i | 0 <= i < |raw|
      ensures !Names(raw[i], sid)
    {
      SidOfIsNamed(raw[i], sid);
      assert !Offers(raw, sid);
    }
  }

  /** What the wire shows of the options: for each source the first one that names it, in order. */
  lemma OfferedShowsFirst(raw: seq<RawOption>, permitted: set<string>) returns (at: seq<nat>)
    requires Offered(raw, permitted).Some?
    ensures FirstMentions(raw, Offered(raw, permitted).value, at)
  {
    at := KeptShowsFirst(raw, permitted);
    at := at[..|Offered(raw, permitted).value|];
  }

  // ---------------------------------------------------------------- node frames

  function StepFrames(steps: seq<int>): (frames: seq<Frame>)
    ensures |frames| == |steps|
    ensures forall i :: 0 <= i < |steps| ==> frames[i] == StepFrame(steps[i])
  {
    seq(|steps|, i requires 0 <= i < |steps| => StepFrame(steps[i]))
  }

  /** Replan before its fresh plan. */
  function PlanFrames(replan: Option<int>, plan: Option<int>): seq<Frame> {
    match (replan, plan)
    case (None, None) => []
    case (Some(r), None) => [ReplanFrame(r)]
    case (None, Some(p)) => [PlanFrame(p)]
    case (Some(r), Some(p)) => [ReplanFrame(r), PlanFrame(p)]
  }

  function BudgetFrames(budget: Option<int>): seq<Frame> {
    if budget.Some? then [BudgetFrame(budget.value)] else []
  }

  /** The plan frames, then the steps in order, then the budget. */
  function NodeFrames(node: NodeOutput): seq<Frame> {
    if node.Malformed? then []
    else PlanFrames(node.replan, node.plan) + StepFrames(node.steps) + BudgetFrames(node.budget)
  }

  /** The four kinds of progress frame. */
  datatype Channel = Replanning | Planning | Stepping | Budgeting

  predicate On(f: Frame, c: Channel) {
    match c
    case Replanning => f.ReplanFrame?
    case Planning => f.PlanFrame?
    case Stepping => f.StepFrame?
    case Budgeting => f.BudgetFrame?
  }

  /** The payloads `frames` carry on one channel, in order. */
  function Payloads(frames: seq<Frame>, c: Channel): seq<int> {
    if frames == [] then []
    else
      var last := frames[|frames| - 1];
      Payloads(frames[..|frames| - 1], c) + (if On(last, c) then [last.data] else [])
  }

  function Optional(payload: Option<int>): seq<int> {
    if payload.Some? then [payload.value] else []
  }

  predicate Progress(f: Frame) {
    f.ReplanFrame? || f.PlanFrame? || f.StepFrame? || f.BudgetFrame?
  }

  /** Progress frames only: a revision before any plan, a plan before any step, the budget last. */
  predicate InOrder(frames: seq<Frame>) {
    && (forall i :: 0 <= i < |frames| ==> Progress(frames[i]))
    && (forall i, j :: 0 <= i < j < |frames| ==>
          && (frames[j].ReplanFrame? ==> frames[i].ReplanFrame?)
          && (frames[j].PlanFrame? ==> frames[i].ReplanFrame? || frames[i].PlanFrame?)
          && (frames[j].StepFrame? ==> !frames[i].BudgetFrame?))
  }

  /** What the record of a completion holds for one channel. */
  function Recorded(node: NodeOutput, c: Channel): seq<int>
    requires !node.Malformed?
  {
    match c
    case Replanning => Optional(node.replan)
    case Planning => Optional(node.plan)
    case Stepping => node.steps
    case Budgeting => Optional(node.budget)
  }

  /** `frames` report a completion: each payload of its record once, on its own channel, and nothing else. */
  ghost predicate Reports(frames: seq<Frame>, node: NodeOutput) {
    if node.Malformed? then frames == []
    else InOrder(frames) && forall c :: Payloads(frames, c) == Recorded(node, c)
  }

  lemma {:induction false} PayloadsConcat(a: seq<Frame>, b: seq<Frame>, c: Channel)
    ensures Payloads(a + b, c) == Payloads(a, c) + Payloads(b, c)
  {
    if b == [] {
      assert a + b == a;
    } else {
      var b' := b[..|b| - 1];
      assert (a + b)[..|a + b| - 1] == a + b';
      PayloadsConcat(a, b', c);
    }
  }

  lemma {:induction false} StepPayloads(steps: seq<int>, c: Channel)
    ensures Payloads(StepFrames(steps), c) == if c == Stepping then steps else []
  {
    if steps != [] {
      var n := |steps| - 1;
      assert StepFrames(steps)[..n] == StepFrames(steps[..n]);
      assert steps == steps[..n] + [steps[n]];
      StepPayloads(steps[..n], c);
    }
  }

  lemma PlanPayloads(replan: Option<int>, plan: Option<int>, c: Channel)
    ensures Payloads(PlanFrames(replan, plan), c)
         == match c { case Replanning => Optional(replan) case Planning => Optional(plan) case _ => [] }
  {
    if replan.Some? && plan.Some? {
      assert PlanFrames(replan, plan) == PlanFrames(replan, None) + PlanFrames(None, plan);
      PayloadsConcat(PlanFrames(replan, None), PlanFrames(None, plan), c);
    }
  }

  lemma {:induction false} NothingOn(frames: seq<Frame>, c: Channel)
    requires forall i :: 0 <= i < |frames| ==> !On(frames[i], c)
    ensures Payloads(frames, c) == []
  {
    if frames != [] {
      NothingOn(frames[..|frames| - 1], c);
    }
  }

  function ChannelOf(f: Frame): (c: Channel)
    requires Progress(f)
    ensures On(f, c)
  {
    match f
    case ReplanFrame(_) => Replanning
    case PlanFrame(_) => Planning
    case StepFrame(_) => Stepping
    case _ => Budgeting
  }

  function Place(c: Channel): nat {
    match c
    case Replanning => 0
    case Planning => 1
    case Stepping => 2
    case Budgeting => 3
  }

  /** The last frame is the last payload of its channel, and nothing is on a later channel. */
  lemma LastFrame(frames: seq<Frame>)
    requires InOrder(frames) && frames != []
    ensures var last := frames[|frames| - 1];
            && Progress(last)
            && Payloads(frames, ChannelOf(last)) != []
            && Payloads(frames, ChannelOf(last))[|Payloads(frames, ChannelOf(last))| - 1] == last.data
            && forall c :: Place(ChannelOf(last)) < Place(c) ==> Payloads(frames, c) == []
  {
    forall c | Place(ChannelOf(frames[|frames| - 1])) < Place(c)
      ensures Payloads(frames, c) == []
    {
      NothingOn(frames, c);
    }
  }

  lemma SameLast(a: seq<Frame>, b: seq<Frame>)
    requires InOrder(a) && InOrder(b) && a != [] && b != [] && forall c :: Payloads(a, c) == Payloads(b, c)
    ensures a[|a| - 1] == b[|b| - 1]
  {
    LastFrame(a);
    LastFrame(b);
    hide InOrder, Payloads;
    var c, d := ChannelOf(a[|a| - 1]), ChannelOf(b[|b| - 1]);
    assert Payloads(a, c) == Payloads(b, c) && Payloads(a, d) == Payloads(b, d);
    assert Place(c) == Place(d);
  }

  lemma Shorter(frames: seq<Frame>, c: Channel)
    requires frames != []
    ensures On(frames[|frames| - 1], c) ==>
              Payloads(frames[..|frames| - 1], c) == Payloads(frames, c)[..|Payloads(frames, c)| - 1]
    ensures !On(frames[|frames| - 1], c) ==> Payloads(frames[..|frames| - 1], c) == Payloads(frames, c)
  {
  }

  /** What the channels carry leaves one order only. */
  lemma {:induction false} ReportIsUnique(a: seq<Frame>, b: seq<Frame>)
    requires InOrder(a) && InOrder(b) && forall c :: Payloads(a, c) == Payloads(b, c)
    ensures a == b
  {
    if a == [] || b == [] {
      if a != [] {
        LastFrame(a);
      }
      if b != [] {
        LastFrame(b);
      }
    } else {
      SameLast(a, b);
      var a', b' := a[..|a| - 1], b[..|b| - 1];
      forall c
        ensures Payloads(a', c) == Payloads(b', c)
      {
        assert Payloads(a, c) == Payloads(b, c);
        Shorter(a, c);
        Shorter(b, c);
      }
      ReportIsUnique(a', b');
    }
  }

  lemma NodeFramesInOrder(node: NodeOutput)
    requires !node.Malformed?
    ensures InOrder(NodeFrames(node))
  {
  }

  lemma BudgetPayloads(budget: Option<int>, c: Channel)
    ensures Payloads(BudgetFrames(budget), c) == if c == Budgeting then Optional(budget) else []
  {
  }

  lemma NodeFramesCarry(node: NodeOutput, c: Channel)
    requires !node.Malformed?
    ensures Payloads(NodeFrames(node), c) == Recorded(node, c)
  {
    hide PlanFrames, StepFrames, BudgetFrames, Payloads;
    var plans, steps, budget := PlanFrames(node.replan, node.plan), StepFrames(node.steps), BudgetFrames(node.budget);
    PayloadsConcat(plans, steps, c);
    PayloadsConcat(plans + steps, budget, c);
    PlanPayloads(node.replan, node.plan, c);
    StepPayloads(node.steps, c);
    BudgetPayloads(node.budget, c);
  }

  lemma NodeFramesReport(node: NodeOutput)
    ensures Reports(NodeFrames(node), node)
  {
    if !node.Malformed? {
      NodeFramesInOrder(node);
      forall c
        ensures Payloads(NodeFrames(node), c) == Recorded(node, c)
      {
        NodeFramesCarry(node, c);
      }
      hide NodeFrames, Payloads, InOrder, Recorded;
    }
  }

  /** The frames of a completion are the only ones that report it. */
  lemma ReportsIff(frames: seq<Frame>, node: NodeOutput)
    ensures Reports(frames, node) <==> frames == NodeFrames(node)
  {
    NodeFramesReport(node);
    if Reports(frames, node) && !node.Malformed? {
      ReportIsUnique(frames, NodeFrames(node));
    }
  }

  method AppendSteps(before: seq<Frame>, steps: seq<int>) returns (frames: seq<Frame>)
    ensures frames == before + StepFrames(steps)
  {
    frames := before;
    for i := 0 to |steps|
      invariant |frames| == |before| + i && frames[..|before|] == before
      invariant forall k :: 0 <= k < i ==> frames[|before| + k] == StepFrame(steps[k])
    {
      frames := frames + [StepFrame(steps[i])];
    }
    assert frames[|before|..] == StepFrames(steps);
  }

  method AgenticFrames(node: NodeOutput) returns (frames: seq<Frame>)
    ensures frames == NodeFrames(node)
    ensures Reports(frames, node)
  {
    NodeFramesReport(node);
    frames := [];
    if node.Malformed? {
      return;
    }
    if node.replan.Some? {
      frames := frames + [ReplanFrame(node.replan.value)];
    }
    if node.plan.Some? {
      frames := frames + [PlanFrame(node.plan.value)];
    }
    assert frames == PlanFrames(node.replan, node.plan);
    frames := AppendSteps(frames, node.steps);
    var last := [];
    if node.budget.Some? {
      last := [BudgetFrame(node.budget.value)];
    }
    assert last == BudgetFrames(node.budget);
    frames := frames + last;
  }

  /** Neither the end, nor given, nor text. */
  predicate Silent(frames: seq<Frame>) {
    NonTerminal(frames) && forall i :: 0 <= i < |frames| ==> !frames[i].DeltaFrame?
  }

  lemma SilentConcat(a: seq<Frame>, b: seq<Frame>)
    requires Silent(a) && Silent(b)
    ensures Silent(a + b)
  {
  }

  lemma PartsAreSilent(node: NodeOutput)
    requires !node.Malformed?
    ensures Silent(PlanFrames(node.replan, node.plan)) && Silent(StepFrames(node.steps))
    ensures Silent(BudgetFrames(node.budget))
  {
  }

  lemma NodeFramesAreSilent(node: NodeOutput)
    ensures NonTerminal(NodeFrames(node)) && Deltas(NodeFrames(node)) == ""
  {
    if !node.Malformed? {
      PartsAreSilent(node);
      hide PlanFrames, StepFrames, BudgetFrames, Silent;
      SilentConcat(PlanFrames(node.replan, node.plan), StepFrames(node.steps));
      SilentConcat(PlanFrames(node.replan, node.plan) + StepFrames(node.steps), BudgetFrames(node.budget));
      SilentIsSilent(NodeFrames(node));
    }
  }

  lemma SilentIsSilent(frames: seq<Frame>)
    requires Silent(frames)
    ensures NonTerminal(frames) && Deltas(frames) == ""
  {
    NoDeltas(frames);
  }

  lemma {:induction false} NoDeltas(frames: seq<Frame>)
    requires forall i :: 0 <= i < |frames| ==> !frames[i].DeltaFrame?
    ensures Deltas(frames) == ""
  {
    if frames != [] {
      NoDeltas(frames[..|frames| - 1]);
    }
  }

  // ---------------------------------------------------------------- the run as a whole

  /** A node completion surfaced again under the same run id. */
  predicate Repeats(events: seq<Event>, k: nat)
    requires k < |events|
  {
    && events[k].NodeEnd? && events[k].runId != ""
    && exists j :: 0 <= j < k && events[j].NodeEnd? && events[j].runId == events[k].runId
  }

  /** What event `k` puts on the wire. */
  function Contribution(events: seq<Event>, k: nat): seq<Frame>
    requires k < |events|
  {
    match events[k]
    case Token(content) => if content != "" then [DeltaFrame(content)] else []
    case NodeEnd(_, node) => if Repeats(events, k) then [] else NodeFrames(node)
    case _ => []
  }

  function Flatten(parts: seq<seq<Frame>>, n: nat): seq<Frame>
    requires n <= |parts|
  {
    if n == 0 then [] else Flatten(parts, n - 1) + parts[n - 1]
  }

  function Parts(events: seq<Event>): (parts: seq<seq<Frame>>)
    ensures |parts| == |events|
    ensures forall k :: 0 <= k < |events| ==> parts[k] == Contribution(events, k)
  {
    seq(|events|, k requires 0 <= k < |events| => Contribution(events, k))
  }

  /** The frames of the first `n` events, in order. */
  function Body(events: seq<Event>, n: nat): seq<Frame>
    requires n <= |events|
  {
    Flatten(Parts(events), n)
  }

  /** What the loop remembers: the latest answer any graph output carried, the streamed text, and
      the latest graph output. */
  datatype Memory = Memory(answer: string, streamed: string, output: Option<GraphOutput>)

  function Absorb(m: Memory, e: Event): Memory {
    match e
    case Token(content) => m.(streamed := m.streamed + content)
    case GraphEnd(Some(o)) => Memory(if o.answer.Some? then o.answer.value else m.answer, m.streamed, Some(o))
    case _ => m
  }

  function Recall(events: seq<Event>, n: nat): Memory
    requires n <= |events|
  {
    if n == 0 then Memory("", "", None) else Absorb(Recall(events, n - 1), events[n - 1])
  }

  function Streamed(events: seq<Event>): string {
    Recall(events, |events|).streamed
  }

  predicate BadEvent(e: Event) {
    e.GraphEnd? && e.output.None?
  }

  function FirstBad(events: seq<Event>, from: nat): (n: nat)
    requires from <= |events|
    ensures from <= n <= |events|
    decreases |events| - from
  {
    if from == |events| || BadEvent(events[from]) then from else FirstBad(events, from + 1)
  }

  /** How many events are processed: up to the first graph output that is not a record. */
  function Processed(events: seq<Event>): nat {
    FirstBad(events, 0)
  }

  /** The graph's answer is preferred; the streamed text only stands in for a missing one. */
  function FinalAnswer(events: seq<Event>): string {
    var m := Recall(events, |events|);
    if m.answer == "" then m.streamed else m.answer
  }

  /** The stream ended by itself, every graph output was a record, and there is an answer to ship. */
  predicate Answers(events: seq<Event>, ending: Ending) {
    ending.Exhausted? && Processed(events) == |events| && Ships(FinalAnswer(events), Recall(events, |events|).output)
  }

  /** The corrective delta: the part of the answer that was not streamed. */
  function Tail(answer: string, streamed: string): seq<Frame> {
    if answer != streamed && streamed <= answer then [DeltaFrame(answer[|streamed|..])] else []
  }

  function Ask(question: string): Option<string> {
    if question == "" then None else Some(question)
  }

  predicate Ships(answer: string, output: Option<GraphOutput>) {
    !(output.Some? && output.value.clarify) && answer != ""
  }

  function Conclusion(answer: string, output: Option<GraphOutput>, permitted: set<string>,
                      persist: bool, save: Option<Save>): Option<Frame> {
    if output.Some? && output.value.clarify then
      Some(Clarification(Ask(output.value.question),
                         Offered(if output.value.options.Some? then output.value.options.value else [], permitted)))
    else if answer == "" then Some(Error(EmptyResponse))
    else if !persist then Some(Done(""))
    else
      match save
      case None => None
      case Some(SaveFails) => Some(Error(PersistError))
      case Some(Saved(id)) => Some(Done(id))
  }

  function Last(closing: Option<Frame>): seq<Frame> {
    if closing.Some? then [closing.value] else []
  }

  /** The frame that ends the stream; None when it ends by a raise. */
  function Closing(events: seq<Event>, ending: Ending, permitted: set<string>, persist: bool, save: Option<Save>)
      : Option<Frame>
  {
    if Processed(events) < |events| || ending.Crashed? then Some(Error(PipelineError))
    else if ending.Interrupted? then Some(Clarification(Ask(ending.message), None))
    else Conclusion(FinalAnswer(events), Recall(events, |events|).output, permitted, persist, save)
  }

  function Givens(raw: seq<string>): (frames: seq<Frame>)
    ensures |frames| == |raw|
    ensures forall i :: 0 <= i < |raw| ==> frames[i] == Given(raw[i])
  {
    seq(|raw|, i requires 0 <= i < |raw| => Given(raw[i]))
  }

  /** Everything between the given frames and the closing one. */
  function Middle(events: seq<Event>, ending: Ending): seq<Frame> {
    Body(events, Processed(events))
    + (if Answers(events, ending) then Tail(FinalAnswer(events), Streamed(events)) else [])
  }

  /** The run ids seen so far. */
  ghost predicate Tracks(seen: set<string>, events: seq<Event>, n: nat)
    requires n <= |events|
  {
    forall id :: id in seen <==> id != "" && exists j :: 0 <= j < n && events[j].NodeEnd? && events[j].runId == id
  }

  /** What event `e` ships, given the run ids already shipped. */
  function Shipped(e: Event, seen: set<string>): seq<Frame> {
    match e
    case Token(content) => if content != "" then [DeltaFrame(content)] else []
    case NodeEnd(runId, node) => if runId in seen then [] else NodeFrames(node)
    case _ => []
  }

  function Remember(e: Event, seen: set<string>): set<string> {
    if e.NodeEnd? && e.runId != "" then seen + {e.runId} else seen
  }

  lemma RepeatsIffSeen(seen: set<string>, events: seq<Event>, n: nat)
    requires n < |events| && Tracks(seen, events, n)
    ensures Shipped(events[n], seen) == Contribution(events, n)
  {
  }

  lemma TracksNext(seen: set<string>, events: seq<Event>, n: nat)
    requires n < |events| && Tracks(seen, events, n)
    ensures Tracks(Remember(events[n], seen), events, n + 1)
  {
    forall id
      ensures id in Remember(events[n], seen) <==>
                id != "" && exists j :: 0 <= j < n + 1 && events[j].NodeEnd? && events[j].runId == id
    {
      if id in seen {
        var j :| 0 <= j < n && events[j].NodeEnd? && events[j].runId == id;
      }
    }
  }

  /** Ship event `n`, unless its node completion was shipped before. */
  method Ship(events: seq<Event>, n: nat, seen: set<string>) returns (frames: seq<Frame>, seen': set<string>)
    requires n < |events| && Tracks(seen, events, n)
    ensures frames == Contribution(events, n) && Tracks(seen', events, n + 1)
  {
    var e := events[n];
    RepeatsIffSeen(seen, events, n);
    TracksNext(seen, events, n);
    frames, seen' := [], seen;
    if e.Token? && e.content != "" {
      frames := [DeltaFrame(e.content)];
    } else if e.NodeEnd? {
      if e.runId !in seen {
        frames := AgenticFrames(e.node);
      }
      if e.runId != "" {
        seen' := seen + {e.runId};
      }
    }
  }

  /** The event loop: what it ships and what it remembers. */
  method Consume(events: seq<Event>)
      returns (frames: seq<Frame>, answer: string, streamed: string, output: Option<GraphOutput>, crashed: bool)
    ensures crashed <==> Processed(events) < |events|
    ensures frames == Body(events, Processed(events))
    ensures !crashed ==> Memory(answer, streamed, output) == Recall(events, |events|)
  {
    frames, answer, streamed, output, crashed := [], "", "", None, false;
    var seen: set<string> := {};
    ghost var parts := Parts(events);
    for i := 0 to |events|
      invariant frames == Flatten(parts, i)
      invariant Memory(answer, streamed, output) == Recall(events, i)
      invariant Tracks(seen, events, i)
      invariant !crashed && Processed(events) == FirstBad(events, i)
    {
      var e := events[i];
      if BadEvent(e) {
        crashed := true;
        break;
      }
      var more;
      more, seen := Ship(events, i, seen);
      frames := frames + more;
      if e.Token? {
        streamed := streamed + e.content;
      } else if e.GraphEnd? {
        output := e.output;
        if e.output.value.answer.Some? {
          answer := e.output.value.answer.value;
        }
      }
    }
  }

  /** What follows a loop that neither crashed nor was interrupted. */
  method Conclude(answer: string, streamed: string, output: Option<GraphOutput>, permitted: set<string>,
                  persist: bool, save: Option<Save>)
      returns (tail: seq<Frame>, closing: Option<Frame>, persisted: Option<string>)
    ensures closing == Conclusion(answer, output, permitted, persist, save)
    ensures tail == if Ships(answer, output) then Tail(answer, streamed) else []
    ensures persisted == if Ships(answer, output) && persist && save.Some? && save.value.Saved?
                         then Some(answer) else None
  {
    tail, closing, persisted := [], None, None;
    if output.Some? && output.value.clarify {
      var frame := BuildClarificationFrame(Ask(output.value.question), output.value.options, permitted);
      closing := Some(frame);
      return;
    }
    if answer == "" {
      closing := Some(Error(EmptyResponse));
      return;
    }
    if answer != streamed && streamed <= answer {
      tail := [DeltaFrame(answer[|streamed|..])];
    }
    var messageId := "";
    if persist {
      if save.None? {
        return;
      }
      if save.value.SaveFails? {
        closing := Some(Error(PersistError));
        return;
      }
      persisted := Some(answer);
      messageId := save.value.messageId;
    }
    closing := Some(Done(messageId));
  }

  /** The whole stream. `save` is what the caller's persistence callback would do, None when there
      is no callback; `persisted` is the text it stored. */
  method RunPipelineStream(given: seq<string>, events: seq<Event>, ending: Ending, permitted: set<string>,
                           persist: bool, save: Option<Save>)
      returns (frames: seq<Frame>, raised: bool, persisted: Option<string>)
    ensures raised <==> Closing(events, ending, permitted, persist, save).None?
    ensures frames == Givens(given) + Middle(events, ending)
                      + Last(Closing(events, ending, permitted, persist, save))
    ensures persisted == if Answers(events, ending) && persist && save.Some? && save.value.Saved?
                         then Some(FinalAnswer(events)) else None
  {
    persisted := None;
    var body, answer, streamed, output, crashed := Consume(events);
    var tail, closing := [], Some(Error(PipelineError));
    if !crashed && ending.Exhausted? {
      if streamed != "" && answer == "" {
        answer := streamed;
      }
      tail, closing, persisted := Conclude(answer, streamed, output, permitted, persist, save);
    } else if !crashed && ending.Interrupted? {
      closing := Some(Clarification(Ask(ending.message), None));
    }
    raised := closing.None?;
    assert body + tail == Middle(events, ending);
    frames := Givens(given) + (body + tail) + (if raised then [] else [closing.value]);
  }

  // ---------------------------------------------------------------- guarantees

  lemma Joined(a: seq<Frame>, b: seq<Frame>)
    requires NonTerminal(a) && NonTerminal(b)
    ensures NonTerminal(a + b) && Deltas(a + b) == Deltas(a) + Deltas(b)
  {
    DeltasConcat(a, b);
  }

  lemma {:induction false} FlattenFacts(parts: seq<seq<Frame>>, streams: seq<string>, n: nat)
    requires n <= |parts| && |streams| == |parts| + 1 && streams[0] == ""
    requires forall k :: 0 <= k < |parts| ==> NonTerminal(parts[k]) && streams[k + 1] == streams[k] + Deltas(parts[k])
    ensures NonTerminal(Flatten(parts, n)) && Deltas(Flatten(parts, n)) == streams[n]
  {
    if n > 0 {
      FlattenFacts(parts, streams, n - 1);
      Joined(Flatten(parts, n - 1), parts[n - 1]);
      assert streams[n - 1 + 1] == streams[n - 1] + Deltas(parts[n - 1]);
    }
  }

  function Streams(events: seq<Event>): (streams: seq<string>)
    ensures |streams| == |events| + 1
    ensures forall k :: 0 <= k <= |events| ==> streams[k] == Recall(events, k).streamed
  {
    seq(|events| + 1, k requires 0 <= k <= |events| => Recall(events, k).streamed)
  }

  /** The body is silent about the end and ships exactly the streamed text. */
  lemma BodyFacts(events: seq<Event>, n: nat)
    requires n <= |events|
    ensures NonTerminal(Body(events, n)) && Deltas(Body(events, n)) == Recall(events, n).streamed
  {
    var parts, streams := Parts(events), Streams(events);
    forall k | 0 <= k < |events|
      ensures NonTerminal(parts[k]) && streams[k + 1] == streams[k] + Deltas(parts[k])
    {
      ContributionFacts(events, k);
      RecallNext(events, k);
    }
    FlattenFacts(parts, streams, n);
  }

  lemma RecallNext(events: seq<Event>, k: nat)
    requires k < |events|
    ensures Recall(events, k + 1).streamed
         == Recall(events, k).streamed + (if events[k].Token? then events[k].content else "")
  {
  }

  lemma ContributionFacts(events: seq<Event>, k: nat)
    requires k < |events|
    ensures NonTerminal(Contribution(events, k))
    ensures Deltas(Contribution(events, k)) == if events[k].Token? then events[k].content else ""
  {
    if events[k].NodeEnd? {
      NodeFramesAreSilent(events[k].node);
    }
  }

  lemma MiddleEndsNothing(events: seq<Event>, ending: Ending)
    ensures NonTerminal(Middle(events, ending))
  {
    var body, tail := Body(events, Processed(events)), Tail(FinalAnswer(events), Streamed(events));
    BodyFacts(events, Processed(events));
    Joined(body, tail);
    assert body + [] == body;
  }

  lemma ConclusionFacts(answer: string, output: Option<GraphOutput>, permitted: set<string>,
                        persist: bool, save: Option<Save>)
    ensures var closing := Conclusion(answer, output, permitted, persist, save);
            && (closing.None? <==> persist && save.None? && Ships(answer, output))
            && (closing.Some? ==> Terminal(closing.value))
            && (closing.Some? && closing.value.Done? ==> Ships(answer, output))
  {
  }

  /** The wire grammar, for every event source and every way it can end: the given frames, then
      frames that end nothing, then exactly one terminal frame. The one exception is an answer that
      should be persisted without a callback to do it: then the stream raises with no terminal frame. */
  lemma StreamGrammar(events: seq<Event>, ending: Ending, permitted: set<string>, persist: bool, save: Option<Save>)
    ensures NonTerminal(Middle(events, ending))
    ensures var closing := Closing(events, ending, permitted, persist, save);
            && (closing.None? <==> persist && save.None? && Answers(events, ending))
            && (closing.Some? ==> Terminal(closing.value))
            && (closing.Some? && closing.value.Done? ==> Answers(events, ending))
  {
    MiddleEndsNothing(events, ending);
    ConclusionFacts(FinalAnswer(events), Recall(events, |events|).output, permitted, persist, save);
    hide Middle, NonTerminal, Conclusion;
  }

  /** Some graph output is no record. */
  predicate Broken(events: seq<Event>) {
    exists k :: 0 <= k < |events| && BadEvent(events[k])
  }

  lemma {:induction false} FirstBadFacts(events: seq<Event>, from: nat)
    requires from <= |events|
    ensures FirstBad(events, from) < |events| <==> exists k :: from <= k < |events| && BadEvent(events[k])
    decreases |events| - from
  {
    if from < |events| {
      FirstBadFacts(events, from + 1);
    }
  }

  lemma ProcessedIff(events: seq<Event>)
    ensures Processed(events) <= |events| && (Processed(events) < |events| <==> Broken(events))
  {
    FirstBadFacts(events, 0);
  }

  /** The graph asked back in its last output. */
  predicate AsksBack(events: seq<Event>) {
    var output := Recall(events, |events|).output;
    output.Some? && output.value.clarify
  }

  /** Which frame ends the stream, for every way it can go. A crash, or a graph output that is no record,
      comes before anything else; then an interruption; then a graph that asks back, whatever it answered. */
  lemma ClosingIff(events: seq<Event>, ending: Ending, permitted: set<string>, persist: bool, save: Option<Save>)
    ensures var closing := Closing(events, ending, permitted, persist, save);
            var crashed := ending.Crashed? || Broken(events);
            var complete := !crashed && !ending.Interrupted?;
            && (closing == Some(Error(PipelineError)) <==> crashed)
            && (closing.Some? && closing.value.Clarification?
                <==> !crashed && (ending.Interrupted? || AsksBack(events)))
            && (closing == Some(Error(EmptyResponse)) <==> complete && !AsksBack(events) && FinalAnswer(events) == "")
            && (Answers(events, ending) <==> complete && !AsksBack(events) && FinalAnswer(events) != "")
            && (closing == Some(Error(PersistError)) <==>
                  Answers(events, ending) && persist && save == Some(SaveFails))
            && (forall id :: closing == Some(Done(id)) <==>
                  Answers(events, ending) && if persist then save == Some(Saved(id)) else id == "")
  {
    ProcessedIff(events);
    hide Recall, FinalAnswer, Offered, Processed, Broken;
  }

  /** What a stream that asks back asks: the message of the interruption alone, or the question and the
      permitted options of the last graph output. An empty question leaves the wording to the reader. */
  lemma QuestionAsked(events: seq<Event>, ending: Ending, permitted: set<string>, persist: bool, save: Option<Save>)
    requires !ending.Crashed? && !Broken(events) && (ending.Interrupted? || AsksBack(events))
    ensures var closing := Closing(events, ending, permitted, persist, save);
            var output := Recall(events, |events|).output;
            var asked := if ending.Interrupted? then ending.message else output.value.question;
            && closing.Some? && closing.value.Clarification?
            && closing.value.question == (if asked == "" then None else Some(asked))
            && closing.value.options == (if ending.Interrupted? || output.value.options.None? then None
                                         else Offered(output.value.options.value, permitted))
  {
    ProcessedIff(events);
    hide Recall, FinalAnswer, Processed, Broken;
  }

  /** What the reader accumulated is the persisted answer exactly when the answer extends what was
      streamed; a rewritten answer is not retracted. */
  lemma DeltasAreTheAnswerIff(events: seq<Event>, ending: Ending)
    requires Answers(events, ending)
    ensures Deltas(Middle(events, ending)) == FinalAnswer(events)
       <==> Streamed(events) <= FinalAnswer(events)
  {
    var answer, streamed := FinalAnswer(events), Streamed(events);
    BodyFacts(events, |events|);
    DeltasConcat(Body(events, |events|), Tail(answer, streamed));
    if streamed <= answer {
      assert answer == streamed + answer[|streamed|..];
      assert Deltas([DeltaFrame(answer[|streamed|..])]) == "" + answer[|streamed|..];
    }
  }

  predicate CarriesAnswer(e: Event) {
    e.GraphEnd? && e.output.Some? && e.output.value.answer.Some?
  }

  /** The last of the first `n` events that is a graph output with an answer; -1 when none is. */
  function LatestAnswer(events: seq<Event>, n: nat): (k: int)
    requires n <= |events|
    ensures -1 <= k < n && (k >= 0 ==> CarriesAnswer(events[k]))
    ensures forall j :: k < j < n ==> !CarriesAnswer(events[j])
  {
    if n == 0 then -1 else if CarriesAnswer(events[n - 1]) then n - 1 else LatestAnswer(events, n - 1)
  }

  lemma {:induction false} RecalledAnswer(events: seq<Event>, n: nat)
    requires n <= |events|
    ensures var k := LatestAnswer(events, n);
            Recall(events, n).answer == if k >= 0 then events[k].output.value.answer.value else ""
  {
    if n > 0 {
      RecalledAnswer(events, n - 1);
    }
  }

  /** The clarification flag, its question and its options are those of the last graph output, whether or
      not that output carries an answer. */
  lemma {:induction false} RecalledOutput(events: seq<Event>, n: nat)
    requires n <= |events|
    ensures forall k: nat :: k < n && IsOutput(events[k]) && (forall j :: k < j < n ==> !IsOutput(events[j])) ==>
              Recall(events, n).output == events[k].output
    ensures (forall j :: 0 <= j < n ==> !IsOutput(events[j])) ==> Recall(events, n).output.None?
  {
    if n > 0 {
      RecalledOutput(events, n - 1);
      if IsOutput(events[n - 1]) {
        assert Recall(events, n).output == events[n - 1].output;
      } else {
        assert Recall(events, n).output == Recall(events, n - 1).output;
      }
    }
  }

  predicate IsOutput(e: Event) {
    e.GraphEnd? && e.output.Some?
  }

  /** The answer shipped is the streamed text unless the last graph output to carry an answer carries a
      non-empty one: the graph is preferred to the stream. */
  lemma GraphOverridesStreamIff(events: seq<Event>)
    ensures var k := LatestAnswer(events, |events|);
            && (k >= 0 && events[k].output.value.answer.value != "" ==>
                  FinalAnswer(events) == events[k].output.value.answer.value)
            && (FinalAnswer(events) != Streamed(events)
                <==> k >= 0 && events[k].output.value.answer.value !in ["", Streamed(events)])
  {
    RecalledAnswer(events, |events|);
    hide Recall, LatestAnswer;
  }

  /** One token "a", then the graph answers "b": the reader has accumulated "a", "b" is persisted. */
  lemma RewrittenAnswerIsUnread()
    ensures var events := [Token("a"), GraphEnd(Some(GraphOutput(Some("b"), false, "", None)))];
            && Answers(events, Exhausted) && FinalAnswer(events) == "b"
            && Deltas(Middle(events, Exhausted)) == "a"
  {
    var out := GraphOutput(Some("b"), false, "", None);
    var events := [Token("a"), GraphEnd(Some(out))];
    assert Recall(events, 1) == Memory("", "a", None);
    assert Recall(events, 2) == Memory("b", "a", Some(out));
    assert FirstBad(events, 1) == FirstBad(events, 2) == 2;
    BodyFacts(events, 2);
    assert "a"[0] != "b"[0];
    assert Middle(events, Exhausted) == Body(events, 2) + [];
  }

  predicate SameRun(events: seq<Event>, i: nat, j: nat)
    requires i < |events| && j < |events|
  {
    events[i].NodeEnd? && events[j].NodeEnd? && events[i].runId == events[j].runId
  }

  /** However often a node completion surfaces under one run id, it is reported once: by the first of the
      events, while the others ship nothing. */
  lemma {:induction false} EachCompletionOnce(events: seq<Event>, j: nat) returns (first: nat)
    requires j < |events| && events[j].NodeEnd? && events[j].runId != ""
    ensures first <= j && SameRun(events, first, j)
    ensures Reports(Contribution(events, first), events[first].node)
    ensures forall k :: 0 <= k < |events| && k != first && SameRun(events, k, j) ==> Contribution(events, k) == []
  {
    if Repeats(events, j) {
      var i :| 0 <= i < j && events[i].NodeEnd? && events[i].runId == events[j].runId;
      first := EachCompletionOnce(events, i);
    } else {
      first := j;
      NodeFramesReport(events[j].node);
    }
  }
}
