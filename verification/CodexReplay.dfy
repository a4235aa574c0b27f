/**
 * The Codex adapter: the tool bridge collects the dispatched calls and results, the transcript is built
 * from them, and one step is journalled.
 */
module CodexReplay {
  import opened Options
  import opened Json
  import opened Transcript
  import opened ConversationStore
  import opened Replay

  datatype ToolPair = ToolPair(call: Part, result: Part)

  /** How one tool request of the model ended. */
  datatype Request =
    | NoDispatcher
    | DispatchThrew
    | Dispatched(callId: string, name: string, args: Json, result: Json)

  function PairOf(r: Request): ToolPair
    requires r.Dispatched?
  {
    ToolPair(ToolCall(r.callId, r.name, r.args), ToolResult(r.callId, r.name, r.result))
  }

  function Collected(requests: seq<Request>): seq<ToolPair> {
    if requests == [] then []
    else
      var last := requests[|requests| - 1];
      Collected(requests[..|requests| - 1]) + if last.Dispatched? then [PairOf(last)] else []
  }

  function Counted(requests: seq<Request>): nat {
    if requests == [] then 0
    else Counted(requests[..|requests| - 1]) + if requests[|requests| - 1].NoDispatcher? then 0 else 1
  }

  /** The bridge of one run. */
  class Bridge {
    var count: nat
    var toolParts: seq<ToolPair>
    ghost var handled: seq<Request>

    ghost predicate Valid()
      reads this
    {
      count == Counted(handled) && toolParts == Collected(handled)
    }

    constructor ()
      ensures Valid() && handled == []
    {
      count, toolParts, handled := 0, [], [];
    }

    /** The call is counted before the dispatch; its parts are kept only when the dispatch returns. */
    method Handle(request: Request)
      requires Valid()
      modifies this
      ensures Valid() && handled == old(handled) + [request]
    {
      handled := handled + [request];
      assert handled[..|handled| - 1] == old(handled);
      if request.NoDispatcher? { return; }
      count := count + 1;
      if request.DispatchThrew? { return; }
      toolParts := toolParts + [PairOf(request)];
    }
  }

  function WithReasoning(turns: seq<Turn>, texts: seq<string>): seq<Turn> {
    if texts == [] then turns
    else
      var before := WithReasoning(turns, texts[..|texts| - 1]);
      var text := texts[|texts| - 1];
      if text != "" then Push(before, Assistant, [ReasoningPart(text)]) else before
  }

  function WithTools(turns: seq<Turn>, pairs: seq<ToolPair>): seq<Turn> {
    if pairs == [] then turns
    else
      var last := pairs[|pairs| - 1];
      Push(Push(WithTools(turns, pairs[..|pairs| - 1]), Assistant, [last.call]), Tool, [last.result])
  }

  function Conversation(spec: AgentSpec, reasoning: seq<string>, pairs: seq<ToolPair>, finalText: string, output: Json): seq<Turn> {
    var worked := WithTools(WithReasoning([SystemTurn(spec), InputTurn(spec)], reasoning), pairs);
    var answered := if finalText != "" then Push(worked, Assistant, [TextPart(finalText)]) else worked;
    if spec.hasOutputSchema && output != Null then Push(answered, Assistant, [OutputPart(output)]) else answered
  }

  method DeriveConversation(spec: AgentSpec, reasoning: seq<string>, pairs: seq<ToolPair>, finalText: string, output: Json)
    returns (turns: seq<Turn>)
    ensures turns == Conversation(spec, reasoning, pairs, finalText, output)
  {
    turns := [SystemTurn(spec), InputTurn(spec)];
    ghost var opening := turns;
    for r := 0 to |reasoning|
      invariant turns == WithReasoning(opening, reasoning[..r])
    {
      assert reasoning[..r + 1][..r] == reasoning[..r];
      if reasoning[r] != "" { turns := turns + [Turn(Assistant, |turns|, [ReasoningPart(reasoning[r])])]; }
    }
    assert reasoning[..|reasoning|] == reasoning;
    ghost var thought := turns;
    for p := 0 to |pairs|
      invariant turns == WithTools(thought, pairs[..p])
    {
      assert pairs[..p + 1][..p] == pairs[..p];
      turns := turns + [Turn(Assistant, |turns|, [pairs[p].call])];
      turns := turns + [Turn(Tool, |turns|, [pairs[p].result])];
    }
    assert pairs[..|pairs|] == pairs;
    if finalText != "" { turns := turns + [Turn(Assistant, |turns|, [TextPart(finalText)])]; }
    if spec.hasOutputSchema && output != Null { turns := turns + [Turn(Assistant, |turns|, [OutputPart(output)])]; }
  }

  datatype LlmStep = LlmStep(finalText: string, output: Json, reasoningCount: nat)

  /** What the live run returns; `output` is null without an output schema. */
  function LiveResult(spec: AgentSpec, reasoning: seq<string>, requests: seq<Request>, finalText: string, answer: Json): RunResult {
    var output := if spec.hasOutputSchema then answer else Null;
    RunResult(finalText, output, Conversation(spec, reasoning, Collected(requests), finalText, output), 1 + Counted(requests))
  }

  function Journalled(spec: AgentSpec, reasoning: seq<string>, finalText: string, answer: Json): map<nat, LlmStep> {
    map[0 := LlmStep(finalText, if spec.hasOutputSchema then answer else Null, |reasoning|)]
  }

  /** The result rebuilt from the one step and the transcript. */
  function Rebuilt(spec: AgentSpec, step: LlmStep, conversation: seq<Turn>): RunResult {
    RunResult(step.finalText, if spec.hasOutputSchema then step.output else Null, conversation, 1 + CountCalls(AllParts(conversation)))
  }

  function Replayed(spec: AgentSpec, journal: map<nat, LlmStep>, rows: seq<Row>): Option<RunResult> {
    if 0 !in journal then None
    else Some(Rebuilt(spec, journal[0], ReattachTrustedSystemTurn(Codex, spec, Rehydrated(rows))))
  }

  /** Every dispatch came back, with an id and a name the store accepts. */
  predicate AllReturned(requests: seq<Request>) {
    forall r | 0 <= r < |requests| :: !requests[r].DispatchThrew?
  }

  predicate AllNamed(requests: seq<Request>) {
    forall r | 0 <= r < |requests| && requests[r].Dispatched? :: requests[r].callId != "" && requests[r].name != ""
  }

  lemma {:induction false} CollectedCount(requests: seq<Request>)
    ensures |Collected(requests)| <= Counted(requests)
    ensures |Collected(requests)| == Counted(requests) <==> AllReturned(requests)
    decreases |requests|
  {
    if requests != [] {
      var n := |requests| - 1;
      CollectedCount(requests[..n]);
      assert AllReturned(requests) <==> AllReturned(requests[..n]) && !requests[n].DispatchThrew?;
    }
  }

  predicate ValidPair(pair: ToolPair) { ValidPart(pair.call) && ValidPart(pair.result) }

  predicate ValidPairs(pairs: seq<ToolPair>) {
    forall p | 0 <= p < |pairs| :: ValidPair(pairs[p])
  }

  lemma {:induction false} ValidPairsSnoc(pairs: seq<ToolPair>, last: ToolPair)
    ensures ValidPairs(pairs + [last]) <==> ValidPairs(pairs) && ValidPair(last)
  {
    var all := pairs + [last];
    assert all[|pairs|] == last;
    assert forall p | 0 <= p < |pairs| :: all[p] == pairs[p];
  }

  lemma {:induction false} CollectedValid(requests: seq<Request>)
    ensures ValidPairs(Collected(requests)) <==> AllNamed(requests)
    ensures forall p | 0 <= p < |Collected(requests)| :: Collected(requests)[p].call.ToolCall? && Collected(requests)[p].result.ToolResult?
    decreases |requests|
  {
    if requests != [] {
      var n := |requests| - 1;
      CollectedValid(requests[..n]);
      var before, all := Collected(requests[..n]), Collected(requests);
      if requests[n].Dispatched? {
        assert all == before + [PairOf(requests[n])];
        ValidPairsSnoc(before, PairOf(requests[n]));
      } else {
        assert all == before;
      }
      assert AllNamed(requests) <==> AllNamed(requests[..n]) && (requests[n].Dispatched? ==> requests[n].callId != "" && requests[n].name != "");
    }
  }

  lemma {:induction false} ReasoningShape(spec: AgentSpec, turns: seq<Turn>, texts: seq<string>)
    requires Shape(turns, spec, true, 0)
    ensures Shape(WithReasoning(turns, texts), spec, true, 0)
    decreases |texts|
  {
    if texts != [] {
      var n := |texts| - 1;
      ReasoningShape(spec, turns, texts[..n]);
      ShapePush(WithReasoning(turns, texts[..n]), spec, true, 0, Assistant, ReasoningPart(texts[n]));
    }
  }

  lemma {:induction false} PairShape(spec: AgentSpec, turns: seq<Turn>, valid: bool, calls: nat, pair: ToolPair)
    requires Shape(turns, spec, valid, calls) && pair.call.ToolCall? && pair.result.ToolResult?
    ensures Shape(Push(Push(turns, Assistant, [pair.call]), Tool, [pair.result]), spec, valid && ValidPair(pair), calls + 1)
  {
    ShapePush(turns, spec, valid, calls, Assistant, pair.call);
    ShapePush(Push(turns, Assistant, [pair.call]), spec, valid && ValidPart(pair.call), calls + 1, Tool, pair.result);
  }

  lemma {:induction false} WithToolsSnoc(turns: seq<Turn>, pairs: seq<ToolPair>, last: ToolPair)
    ensures WithTools(turns, pairs + [last]) == Push(Push(WithTools(turns, pairs), Assistant, [last.call]), Tool, [last.result])
  {
    assert (pairs + [last])[..|pairs|] == pairs;
  }

  lemma {:induction false} ToolsShape(spec: AgentSpec, turns: seq<Turn>, pairs: seq<ToolPair>)
    requires Shape(turns, spec, true, 0)
    requires forall p | 0 <= p < |pairs| :: pairs[p].call.ToolCall? && pairs[p].result.ToolResult?
    ensures Shape(WithTools(turns, pairs), spec, ValidPairs(pairs), |pairs|)
    decreases |pairs|
  {
    if pairs != [] {
      var before, last := pairs[..|pairs| - 1], pairs[|pairs| - 1];
      ToolsShape(spec, turns, before);
      PairShape(spec, WithTools(turns, before), ValidPairs(before), |before|, last);
      WithToolsSnoc(turns, before, last);
      ValidPairsSnoc(before, last);
      assert before + [last] == pairs;
    }
  }

  lemma {:induction false} ConversationShape(spec: AgentSpec, reasoning: seq<string>, pairs: seq<ToolPair>, finalText: string, output: Json)
    requires forall p | 0 <= p < |pairs| :: pairs[p].call.ToolCall? && pairs[p].result.ToolResult?
    ensures Shape(Conversation(spec, reasoning, pairs, finalText, output), spec, ValidPairs(pairs), |pairs|)
  {
    var opening := [SystemTurn(spec), InputTurn(spec)];
    ShapeOpening(spec);
    ReasoningShape(spec, opening, reasoning);
    ToolsShape(spec, WithReasoning(opening, reasoning), pairs);
    ClosingShape(spec, WithTools(WithReasoning(opening, reasoning), pairs), ValidPairs(pairs), |pairs|, finalText, output);
  }

  lemma {:induction false} ClosingShape(spec: AgentSpec, worked: seq<Turn>, valid: bool, calls: nat, finalText: string, output: Json)
    requires Shape(worked, spec, valid, calls)
    ensures var answered := if finalText != "" then Push(worked, Assistant, [TextPart(finalText)]) else worked;
      Shape(if spec.hasOutputSchema && output != Null then Push(answered, Assistant, [OutputPart(output)]) else answered, spec, valid, calls)
  {
    ShapePush(worked, spec, valid, calls, Assistant, TextPart(finalText));
    var answered := if finalText != "" then Push(worked, Assistant, [TextPart(finalText)]) else worked;
    ShapePush(answered, spec, valid, calls, Assistant, OutputPart(output));
  }

  lemma {:induction false} LiveShape(spec: AgentSpec, reasoning: seq<string>, requests: seq<Request>, finalText: string, answer: Json)
    ensures Shape(LiveResult(spec, reasoning, requests, finalText, answer).conversation, spec, AllNamed(requests), |Collected(requests)|)
  {
    CollectedValid(requests);
    ConversationShape(spec, reasoning, Collected(requests), finalText, if spec.hasOutputSchema then answer else Null);
  }

  lemma {:induction false} ReplayOf(spec: AgentSpec, step: LlmStep, conversation: seq<Turn>, counted: nat, valid: bool, calls: nat)
    requires Shape(conversation, spec, valid, calls)
    requires spec.hasOutputSchema || step.output == Null
    ensures Replayed(spec, map[0 := step], Stored(conversation)) == Some(RunResult(step.finalText, step.output, conversation, 1 + counted))
      <==> valid && counted == calls
  {
    TranscriptReplays(Codex, spec, conversation);
    RebuiltIff(spec, step, ReattachTrustedSystemTurn(Codex, spec, Rehydrated(Stored(conversation))), conversation, counted, calls);
  }

  lemma {:induction false} RebuiltIff(spec: AgentSpec, step: LlmStep, back: seq<Turn>, conversation: seq<Turn>, counted: nat, calls: nat)
    requires CountCalls(AllParts(conversation)) == calls && (spec.hasOutputSchema || step.output == Null)
    ensures Rebuilt(spec, step, back) == RunResult(step.finalText, step.output, conversation, 1 + counted)
      <==> back == conversation && counted == calls
  {
  }

  /**
   * Replaying a successful run gives its result exactly when every dispatch returned and every call had
   * an id and a name: a dispatch that threw was counted live but left no part to count on replay.
   */
  lemma {:induction false} ReplayInvertsRun(spec: AgentSpec, reasoning: seq<string>, requests: seq<Request>, finalText: string, answer: Json)
    ensures var live := LiveResult(spec, reasoning, requests, finalText, answer);
      Replayed(spec, Journalled(spec, reasoning, finalText, answer), Stored(live.conversation)) == Some(live)
      <==> AllReturned(requests) && AllNamed(requests)
  {
    var live := LiveResult(spec, reasoning, requests, finalText, answer);
    CollectedCount(requests);
    LiveShape(spec, reasoning, requests, finalText, answer);
    ReplayOf(spec, LlmStep(finalText, live.output, |reasoning|), live.conversation, Counted(requests), AllNamed(requests), |Collected(requests)|);
  }
}
