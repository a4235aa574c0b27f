/**
 * The Anthropic adapter's transcript, re-derived from the content blocks observed on the message
 * stream. The blocks are untrusted: only sanctioned tools' calls, and results of such calls, get in.
 */
module AnthropicTranscript {
  import opened Options
  import opened Json
  import opened Transcript

  /** A content block by its type; a text, id, name or id of a call that is missing is None or empty. */
  datatype Block =
    | TextBlock(text: Option<string>)
    | ThinkingBlock(thinking: Option<string>)
    | ToolUse(id: string, name: string, input: Option<Json>)
    | ToolResultBlock(toolUseId: string, content: Json)
    | OtherBlock

  datatype Sender = FromAssistant | FromUser

  datatype Message = Message(sender: Sender, content: seq<Block>)

  /** A block and who sent it. */
  datatype Entry = Entry(sender: Sender, block: Block)

  /** The allowlist of a run, or none (a re-derivation without quarantine). */
  datatype Policy = NoQuarantine | Allow(names: set<string>)

  const MCP_PREFIX := "mcp__rayspec__"

  predicate IsSanctionedTool(name: string, policy: Policy) {
    policy.NoQuarantine? || name in policy.names || MCP_PREFIX <= name
  }

  /** What the loop carries from block to block. */
  datatype Derivation = Derivation(turns: seq<Turn>, quarantinedIds: set<string>, sawAssistantText: bool)

  /** How a result's content becomes neutral data; the transcript claims hold whatever it does. */
  type Normalize = Json -> Json

  function Start(spec: AgentSpec): Derivation {
    Derivation([SystemTurn(spec), InputTurn(spec)], {}, false)
  }

  predicate IsCall(b: Block) { b.ToolUse? && b.id != "" && b.name != "" }
  predicate IsResult(b: Block) { b.ToolResultBlock? && b.toolUseId != "" }

  function ArgsOf(input: Option<Json>): Json {
    match input case Some(j) => j case None => Null
  }

  /** Whether a result is kept: its id is not quarantined and, under an allowlist, a sanctioned call has it. */
  predicate KeepsResult(parts: seq<Part>, quarantinedIds: set<string>, id: string, policy: Policy) {
    && id !in quarantinedIds
    && (policy.NoQuarantine? ||
        var name := FirstCallName(parts, id);
        name.Some? && IsSanctionedTool(name.value, policy))
  }

  function ToolNameForCall(parts: seq<Part>, id: string): string {
    match FirstCallName(parts, id) case Some(name) => name case None => "tool"
  }

  /** One block. */
  function Step(d: Derivation, e: Entry, policy: Policy, normalize: Normalize): Derivation {
    match e.block
    case TextBlock(Some(text)) =>
      if e.sender.FromAssistant? then d.(turns := Push(d.turns, Assistant, [TextPart(text)]), sawAssistantText := true) else d
    case ThinkingBlock(Some(thinking)) => d.(turns := Push(d.turns, Assistant, [ReasoningPart(thinking)]))
    case ToolUse(id, name, input) =>
      if !IsCall(e.block) then d
      else if !IsSanctionedTool(name, policy) then d.(quarantinedIds := d.quarantinedIds + {id})
      else d.(turns := Push(d.turns, Assistant, [ToolCall(id, name, ArgsOf(input))]))
    case ToolResultBlock(id, content) =>
      if !IsResult(e.block) || !KeepsResult(AllParts(d.turns), d.quarantinedIds, id, policy) then d
      else d.(turns := Push(d.turns, Tool, [ToolResult(id, ToolNameForCall(AllParts(d.turns), id), normalize(content))]))
    case _ => d
  }

  function Derive(d: Derivation, entries: seq<Entry>, policy: Policy, normalize: Normalize): Derivation {
    if entries == [] then d
    else Step(Derive(d, entries[..|entries| - 1], policy, normalize), entries[|entries| - 1], policy, normalize)
  }

  function BlockEntries(sender: Sender, blocks: seq<Block>): seq<Entry> {
    seq(|blocks|, i requires 0 <= i < |blocks| => Entry(sender, blocks[i]))
  }

  function Entries(observed: seq<Message>): seq<Entry> {
    if observed == [] then []
    else
      var n := |observed| - 1;
      Entries(observed[..n]) + BlockEntries(observed[n].sender, observed[n].content)
  }

  /** The transcript: the derived turns, closed with the final answer when no assistant text surfaced. */
  function Conversation(spec: AgentSpec, entries: seq<Entry>, finalText: string, policy: Policy, normalize: Normalize): seq<Turn> {
    var d := Derive(Start(spec), entries, policy, normalize);
    if !d.sawAssistantText && finalText != "" then Push(d.turns, Assistant, [TextPart(finalText)]) else d.turns
  }

  lemma {:induction false} DeriveSnoc(d: Derivation, entries: seq<Entry>, e: Entry, policy: Policy, normalize: Normalize)
    ensures Derive(d, entries + [e], policy, normalize) == Step(Derive(d, entries, policy, normalize), e, policy, normalize)
  {
    assert (entries + [e])[..|entries|] == entries;
  }

  /** The ids one block quarantines. */
  lemma {:induction false} StepQuarantine(d: Derivation, e: Entry, policy: Policy, normalize: Normalize)
    ensures Step(d, e, policy, normalize).quarantinedIds ==
      d.quarantinedIds + if IsCall(e.block) && !IsSanctionedTool(e.block.name, policy) then {e.block.id} else {}
  {
  }

  /** One block of the loop: what it pushes, quarantines and notes. */
  method ObserveBlock(turns: seq<Turn>, quarantinedIds: set<string>, sawAssistantText: bool, e: Entry, policy: Policy, normalize: Normalize)
    returns (turns': seq<Turn>, quarantinedIds': set<string>, sawAssistantText': bool)
    ensures Derivation(turns', quarantinedIds', sawAssistantText') ==
      Step(Derivation(turns, quarantinedIds, sawAssistantText), e, policy, normalize)
  {
    turns', quarantinedIds', sawAssistantText' := turns, quarantinedIds, sawAssistantText;
    var index := |turns|;
    match e.block
    case TextBlock(Some(text)) =>
      if e.sender.FromAssistant? {
        turns' := turns + [Turn(Assistant, index, [TextPart(text)])];
        sawAssistantText' := true;
      }
    case ThinkingBlock(Some(thinking)) =>
      turns' := turns + [Turn(Assistant, index, [ReasoningPart(thinking)])];
    case ToolUse(id, name, input) =>
      if id != "" && name != "" {
        if !IsSanctionedTool(name, policy) {
          quarantinedIds' := quarantinedIds + {id};
        } else {
          turns' := turns + [Turn(Assistant, index, [ToolCall(id, name, ArgsOf(input))])];
        }
      }
    case ToolResultBlock(id, content) =>
      if id != "" && KeepsResult(AllParts(turns), quarantinedIds, id, policy) {
        turns' := turns + [Turn(Tool, index, [ToolResult(id, ToolNameForCall(AllParts(turns), id), normalize(content))])];
      }
    case _ =>
  }

  /** The loop over one message's blocks. */
  method ObserveMessage(d: Derivation, msg: Message, policy: Policy, normalize: Normalize, ghost start: Derivation, ghost before: seq<Entry>)
    returns (d': Derivation)
    requires d == Derive(start, before, policy, normalize)
    ensures d' == Derive(start, before + BlockEntries(msg.sender, msg.content), policy, normalize)
  {
    var turns, quarantinedIds, sawAssistantText := d.turns, d.quarantinedIds, d.sawAssistantText;
    assert before + BlockEntries(msg.sender, msg.content[..0]) == before;
    for b := 0 to |msg.content|
      invariant Derivation(turns, quarantinedIds, sawAssistantText) ==
        Derive(start, before + BlockEntries(msg.sender, msg.content[..b]), policy, normalize)
    {
      var e := Entry(msg.sender, msg.content[b]);
      ghost var entries := before + BlockEntries(msg.sender, msg.content[..b]);
      DeriveSnoc(start, entries, e, policy, normalize);
      assert before + BlockEntries(msg.sender, msg.content[..b + 1]) == entries + [e];
      turns, quarantinedIds, sawAssistantText := ObserveBlock(turns, quarantinedIds, sawAssistantText, e, policy, normalize);
    }
    assert msg.content[..|msg.content|] == msg.content;
    d' := Derivation(turns, quarantinedIds, sawAssistantText);
  }

  /** The re-derivation loop over the messages. */
  method DeriveConversationFromObserved(spec: AgentSpec, observed: seq<Message>, finalText: string, policy: Policy, normalize: Normalize)
    returns (turns: seq<Turn>)
    ensures turns == Conversation(spec, Entries(observed), finalText, policy, normalize)
  {
    var d := Start(spec);
    for m := 0 to |observed|
      invariant d == Derive(Start(spec), Entries(observed[..m]), policy, normalize)
    {
      d := ObserveMessage(d, observed[m], policy, normalize, Start(spec), Entries(observed[..m]));
      assert observed[..m + 1][..m] == observed[..m];
    }
    assert observed[..|observed|] == observed;
    turns := d.turns;
    if !d.sawAssistantText && finalText != "" {
      turns := turns + [Turn(Assistant, |turns|, [TextPart(finalText)])];
    }
  }
}
