/**
 * The Pi adapter's transcript, from the session's messages, and its replay.
 */
module PiTranscript {
  import opened Options
  import opened Json
  import opened Transcript
  import opened ConversationStore
  import opened Replay
  import opened TurnReplay

  datatype Block =
    | TextBlock(text: Option<string>)
    | ThinkingBlock(thinking: Option<string>)
    | ToolCallBlock(id: string, name: string, arguments: Option<Json>)
    | OtherBlock

  datatype Content = Plain(text: string) | Blocks(blocks: seq<Block>)

  datatype Message =
    | AssistantMessage(content: Content)
    | ToolResultMessage(toolCallId: string, toolName: Option<string>, result: Json)
    | UserMessage

  datatype Derivation = Derivation(turns: seq<Turn>, sawAssistantText: bool)

  function Start(spec: AgentSpec): Derivation { Derivation([SystemTurn(spec), InputTurn(spec)], false) }

  function BlockStep(d: Derivation, block: Block): Derivation {
    match block
    case TextBlock(Some(text)) => Derivation(Push(d.turns, Assistant, [TextPart(text)]), true)
    case ThinkingBlock(Some(thinking)) => d.(turns := Push(d.turns, Assistant, [ReasoningPart(thinking)]))
    case ToolCallBlock(id, name, arguments) =>
      if id == "" || name == "" then d
      else d.(turns := Push(d.turns, Assistant, [ToolCall(id, name, if arguments.Some? then arguments.value else Null)]))
    case _ => d
  }

  function BlockSteps(d: Derivation, blocks: seq<Block>): Derivation {
    if blocks == [] then d else BlockStep(BlockSteps(d, blocks[..|blocks| - 1]), blocks[|blocks| - 1])
  }

  function ResultName(turns: seq<Turn>, toolCallId: string, toolName: Option<string>): string {
    match toolName
    case Some(name) => name
    case None => match FirstCallName(AllParts(turns), toolCallId) case Some(name) => name case None => "tool"
  }

  function MessageStep(d: Derivation, m: Message): Derivation {
    match m
    case AssistantMessage(Blocks(blocks)) => BlockSteps(d, blocks)
    case ToolResultMessage(id, toolName, result) =>
      if id == "" then d else d.(turns := Push(d.turns, Tool, [ToolResult(id, ResultName(d.turns, id, toolName), result)]))
    case _ => d
  }

  function Derive(spec: AgentSpec, messages: seq<Message>): Derivation {
    if messages == [] then Start(spec)
    else MessageStep(Derive(spec, messages[..|messages| - 1]), messages[|messages| - 1])
  }

  function JoinTexts(blocks: seq<Block>): string {
    if blocks == [] then ""
    else
      var last := blocks[|blocks| - 1];
      JoinTexts(blocks[..|blocks| - 1]) + if last.TextBlock? && last.text.Some? then last.text.value else ""
  }

  function ExtractText(content: Content): string {
    match content case Plain(text) => text case Blocks(blocks) => JoinTexts(blocks)
  }

  /** The text of the last assistant message, empty when there is none. */
  function LastAssistantText(messages: seq<Message>): string {
    if messages == [] then ""
    else
      var last := messages[|messages| - 1];
      if last.AssistantMessage? then ExtractText(last.content) else LastAssistantText(messages[..|messages| - 1])
  }

  function Conversation(spec: AgentSpec, messages: seq<Message>): seq<Turn> {
    var d := Derive(spec, messages);
    var finalText := LastAssistantText(messages);
    if !d.sawAssistantText && finalText != "" then Push(d.turns, Assistant, [TextPart(finalText)]) else d.turns
  }

  /** The loop over an assistant message's blocks. */
  method DeriveBlocks(turns: seq<Turn>, sawAssistantText: bool, blocks: seq<Block>) returns (turns': seq<Turn>, sawAssistantText': bool)
    ensures Derivation(turns', sawAssistantText') == BlockSteps(Derivation(turns, sawAssistantText), blocks)
  {
    turns', sawAssistantText' := turns, sawAssistantText;
    for b := 0 to |blocks|
      invariant Derivation(turns', sawAssistantText') == BlockSteps(Derivation(turns, sawAssistantText), blocks[..b])
    {
      assert blocks[..b + 1][..b] == blocks[..b];
      var index := |turns'|;
      match blocks[b]
      case TextBlock(Some(text)) =>
        turns' := turns' + [Turn(Assistant, index, [TextPart(text)])];
        sawAssistantText' := true;
      case ThinkingBlock(Some(thinking)) => turns' := turns' + [Turn(Assistant, index, [ReasoningPart(thinking)])];
      case ToolCallBlock(id, name, arguments) =>
        if id != "" && name != "" {
          var args := if arguments.Some? then arguments.value else Null;
          turns' := turns' + [Turn(Assistant, index, [ToolCall(id, name, args)])];
        }
      case _ =>
    }
    assert blocks[..|blocks|] == blocks;
  }

  /** The loop over the messages. */
  method DeriveConversation(spec: AgentSpec, messages: seq<Message>) returns (turns: seq<Turn>)
    ensures turns == Conversation(spec, messages)
  {
    turns := [SystemTurn(spec), InputTurn(spec)];
    var sawAssistantText := false;
    for m := 0 to |messages|
      invariant Derivation(turns, sawAssistantText) == Derive(spec, messages[..m])
    {
      assert messages[..m + 1][..m] == messages[..m];
      match messages[m]
      case AssistantMessage(Blocks(blocks)) => turns, sawAssistantText := DeriveBlocks(turns, sawAssistantText, blocks);
      case ToolResultMessage(id, toolName, result) =>
        if id != "" {
          turns := turns + [Turn(Tool, |turns|, [ToolResult(id, ResultName(turns, id, toolName), result)])];
        }
      case _ =>
    }
    assert messages[..|messages|] == messages;
    if !sawAssistantText {
      var finalText := "";
      var m := |messages|;
      while m > 0 && !messages[m - 1].AssistantMessage?
        invariant 0 <= m <= |messages|
        invariant LastAssistantText(messages[..m]) == LastAssistantText(messages)
      {
        assert messages[..m][..m - 1] == messages[..m - 1];
        m := m - 1;
      }
      if m > 0 { finalText := ExtractText(messages[m - 1].content); }
      if finalText != "" { turns := turns + [Turn(Assistant, |turns|, [TextPart(finalText)])]; }
    }
  }

  /** A result that names its tool, and names it with the empty string: the store will refuse it. */
  predicate IsNameless(m: Message) { m.ToolResultMessage? && m.toolCallId != "" && m.toolName == Some("") }

  predicate NoNameless(messages: seq<Message>) {
    forall m | 0 <= m < |messages| :: !IsNameless(messages[m])
  }

  /** The transcript's shape, however many calls it holds. */
  ghost predicate Shaped(turns: seq<Turn>, spec: AgentSpec, valid: bool) { exists calls: nat :: Shape(turns, spec, valid, calls) }

  lemma {:induction false} ShapedPush(turns: seq<Turn>, spec: AgentSpec, valid: bool, role: Role, part: Part)
    requires Shaped(turns, spec, valid) && role != System
    ensures Shaped(Push(turns, role, [part]), spec, valid && ValidPart(part))
  {
    var calls: nat :| Shape(turns, spec, valid, calls);
    ShapePush(turns, spec, valid, calls, role, part);
  }

  /** Every call's name is non-empty, so a result that does not name its tool gets a name. */
  predicate CallsNamed(parts: seq<Part>) {
    forall k | 0 <= k < |parts| && parts[k].ToolCall? :: parts[k].callId != "" && parts[k].name != ""
  }

  ghost predicate Sound(d: Derivation, spec: AgentSpec, valid: bool) {
    Shaped(d.turns, spec, valid) && CallsNamed(AllParts(d.turns))
  }

  lemma {:induction false} SoundPush(d: Derivation, spec: AgentSpec, valid: bool, role: Role, part: Part, saw: bool)
    requires Sound(d, spec, valid) && role != System
    requires part.ToolCall? ==> ValidPart(part)
    ensures Sound(Derivation(Push(d.turns, role, [part]), saw), spec, valid && ValidPart(part))
  {
    ShapedPush(d.turns, spec, valid, role, part);
    AllPartsPush(d.turns, role, [part]);
  }

  lemma {:induction false} BlocksSound(d: Derivation, blocks: seq<Block>, spec: AgentSpec, valid: bool)
    requires Sound(d, spec, valid)
    ensures Sound(BlockSteps(d, blocks), spec, valid)
    decreases |blocks|
  {
    if blocks != [] {
      var n := |blocks| - 1;
      BlocksSound(d, blocks[..n], spec, valid);
      var before := BlockSteps(d, blocks[..n]);
      match blocks[n]
      case TextBlock(Some(text)) => SoundPush(before, spec, valid, Assistant, TextPart(text), true);
      case ThinkingBlock(Some(thinking)) => SoundPush(before, spec, valid, Assistant, ReasoningPart(thinking), before.sawAssistantText);
      case ToolCallBlock(id, name, arguments) =>
        if id != "" && name != "" {
          SoundPush(before, spec, valid, Assistant, ToolCall(id, name, if arguments.Some? then arguments.value else Null), before.sawAssistantText);
        }
      case _ =>
    }
  }

  lemma {:induction false} ResultNameEmptyIff(turns: seq<Turn>, id: string, toolName: Option<string>)
    requires CallsNamed(AllParts(turns))
    ensures ResultName(turns, id, toolName) == "" <==> toolName == Some("")
  {
    FirstCallIsFirst(AllParts(turns), id);
    assert "tool"[0] == 't';
  }

  lemma {:induction false} DerivedSound(spec: AgentSpec, messages: seq<Message>)
    ensures Sound(Derive(spec, messages), spec, NoNameless(messages))
    decreases |messages|
  {
    if messages == [] {
      ShapeOpening(spec);
      OpeningParts(spec);
    } else {
      var n := |messages| - 1;
      var before, valid := Derive(spec, messages[..n]), NoNameless(messages[..n]);
      DerivedSound(spec, messages[..n]);
      assert NoNameless(messages) <==> valid && !IsNameless(messages[n]);
      match messages[n]
      case AssistantMessage(Blocks(blocks)) => BlocksSound(before, blocks, spec, valid);
      case ToolResultMessage(id, toolName, result) =>
        if id != "" {
          ResultNameEmptyIff(before.turns, id, toolName);
          SoundPush(before, spec, valid, Tool, ToolResult(id, ResultName(before.turns, id, toolName), result), before.sawAssistantText);
        }
      case _ =>
    }
  }

  lemma {:induction false} OpeningParts(spec: AgentSpec)
    ensures CallsNamed(AllParts(Start(spec).turns))
  {
    assert [SystemTurn(spec)] == Push([], System, [TextPart(spec.instructions)]);
    assert Start(spec).turns == Push([SystemTurn(spec)], User, [TextPart(spec.input)]);
    AllPartsPush([], System, [TextPart(spec.instructions)]);
    AllPartsPush([SystemTurn(spec)], User, [TextPart(spec.input)]);
  }

  lemma {:induction false} ConversationShaped(spec: AgentSpec, messages: seq<Message>)
    ensures Shaped(Conversation(spec, messages), spec, NoNameless(messages))
  {
    DerivedSound(spec, messages);
    ShapedPush(Derive(spec, messages).turns, spec, NoNameless(messages), Assistant, TextPart(LastAssistantText(messages)));
  }

  function AssistantMessages(messages: seq<Message>): nat {
    if messages == [] then 0
    else AssistantMessages(messages[..|messages| - 1]) + if messages[|messages| - 1].AssistantMessage? then 1 else 0
  }

  /** One step per assistant message, and one for a run without any. */
  function StepTotal(messages: seq<Message>): nat {
    if AssistantMessages(messages) == 0 then 1 else AssistantMessages(messages)
  }

  /**
   * A successful run, its tool handler having run `toolEvents` times, replays to its own result exactly under
   * `Recovers`: a result with the empty string for a tool name makes its transcript unstorable, and within the
   * turn bound each call of the transcript and no other must have been counted.
   */
  lemma {:induction false} RunReplaysIff(spec: AgentSpec, messages: seq<Message>, output: Json, toolEvents: nat)
    requires spec.hasOutputSchema || output == Null
    ensures var conversation := Conversation(spec, messages);
      var turns, finalText := StepTotal(messages), LastAssistantText(messages);
      Replayed(spec, FromSteps(Steps(turns, finalText, output)), Stored(conversation))
        == Some(LiveResult(turns, finalText, output, conversation, toolEvents))
      <==> Recovers(spec, turns, finalText, output, NoNameless(messages), CountCalls(AllParts(conversation)), toolEvents)
  {
    ConversationShaped(spec, messages);
    var conversation := Conversation(spec, messages);
    var calls: nat :| Shape(conversation, spec, NoNameless(messages), calls);
    ReplayInvertsRun(spec, StepTotal(messages), LastAssistantText(messages), output, conversation, NoNameless(messages), calls, toolEvents);
  }

  function OneCall(id: string, name: string, arguments: Json): seq<Message> {
    [AssistantMessage(Blocks([ToolCallBlock(id, name, Some(arguments))]))]
  }

  lemma {:induction false} OneCallIsRecorded(spec: AgentSpec, id: string, name: string, arguments: Json)
    requires id != "" && name != ""
    ensures Shape(Conversation(spec, OneCall(id, name, arguments)), spec, true, 1)
  {
    var call := ToolCall(id, name, arguments);
    OneCallTurns(spec, id, name, arguments);
    ShapeOpening(spec);
    ShapePush(Start(spec).turns, spec, true, 0, Assistant, call);
  }

  lemma {:induction false} OneCallTurns(spec: AgentSpec, id: string, name: string, arguments: Json)
    requires id != "" && name != ""
    ensures Conversation(spec, OneCall(id, name, arguments)) == Push(Start(spec).turns, Assistant, [ToolCall(id, name, arguments)])
    ensures StepTotal(OneCall(id, name, arguments)) == 1 && LastAssistantText(OneCall(id, name, arguments)) == ""
  {
    var blocks := [ToolCallBlock(id, name, Some(arguments))];
    var messages := OneCall(id, name, arguments);
    assert blocks[..0] == [];
    assert messages[..0] == [];
    assert JoinTexts(blocks) == "";
    var d := BlockSteps(Start(spec), blocks);
    assert BlockSteps(Start(spec), []) == Start(spec);
    assert d == BlockStep(BlockSteps(Start(spec), blocks[..0]), blocks[0]);
    assert Derive(spec, messages) == d;
    assert AssistantMessages(messages) == 1;
  }

  /** A call refused before the tool handler ran stands in the transcript: replay reports a step more than the run did. */
  lemma {:induction false} RefusedCallAddsAStep(spec: AgentSpec, id: string, name: string, arguments: Json)
    requires id != "" && name != ""
    ensures var conversation := Conversation(spec, OneCall(id, name, arguments));
      var replay := Replayed(spec, FromSteps(Steps(StepTotal(OneCall(id, name, arguments)), "", Null)), Stored(conversation));
      replay.Some? && replay.value.stepCount == LiveResult(StepTotal(OneCall(id, name, arguments)), "", Null, conversation, 0).stepCount + 1
  {
    OneCallIsRecorded(spec, id, name, arguments);
    OneCallTurns(spec, id, name, arguments);
    ReplayCountsRecordedCalls(spec, 1, "", Null, Conversation(spec, OneCall(id, name, arguments)), 1);
  }
}
