/**
 * What every derived Anthropic transcript satisfies, whatever the stream contained.
 */
module TranscriptInvariant {
  import opened Options
  import opened Transcript
  import opened AnthropicTranscript

  /** One part to a turn, and the role that part belongs under. */
  predicate RoleMatches(turn: Turn) {
    && |turn.parts| == 1
    && match turn.parts[0] {
         case TextPart(_) => turn.role == Assistant
         case ReasoningPart(_) => turn.role == Assistant
         case ToolCall(_, _, _) => turn.role == Assistant
         case ToolResult(_, _, _) => turn.role == Tool
         case OutputPart(_) => false
         case ErrorPart(_) => false
       }
  }

  predicate SinglePart(turns: seq<Turn>) {
    forall k | 0 <= k < |turns| :: |turns[k].parts| == 1
  }

  /** The first call with an id in the turns before position `j` stands at position `i`. */
  predicate FirstCallAt(turns: seq<Turn>, i: nat, j: nat, id: string)
    requires j <= |turns| && SinglePart(turns)
  {
    && i < j
    && turns[i].parts[0].ToolCall? && turns[i].parts[0].callId == id
    && forall k | 0 <= k < i :: !(turns[k].parts[0].ToolCall? && turns[k].parts[0].callId == id)
  }

  /** The result at position `j` carries the name of the first call with its id, which stands before it. */
  ghost predicate ResultFollowsCall(turns: seq<Turn>, j: nat)
    requires j < |turns| && SinglePart(turns) && turns[j].parts[0].ToolResult?
  {
    exists i: nat :: FirstCallAt(turns, i, j, turns[j].parts[0].callId) && turns[i].parts[0].name == turns[j].parts[0].name
  }

  /** What a turn after the first two must be. */
  ghost predicate TrustedTurn(turns: seq<Turn>, j: nat, names: set<string>)
    requires j < |turns| && SinglePart(turns)
  {
    var part := turns[j].parts[0];
    && RoleMatches(turns[j])
    && (part.ToolCall? ==> IsSanctionedTool(part.name, Allow(names)))
    && (part.ToolResult? ==> ResultFollowsCall(turns, j))
  }

  /** The promise of the re-derivation under an allowlist. */
  ghost predicate Trusted(turns: seq<Turn>, spec: AgentSpec, names: set<string>) {
    && |turns| >= 2 && turns[0] == SystemTurn(spec) && turns[1] == InputTurn(spec)
    && WellIndexed(turns)
    && SinglePart(turns)
    && (forall j | 2 <= j < |turns| :: TrustedTurn(turns, j, names))
  }

  /** With one part to a turn, a part's position is its turn's. */
  lemma {:induction false} PartsOfSingletons(turns: seq<Turn>)
    requires SinglePart(turns)
    ensures |AllParts(turns)| == |turns|
    ensures forall k | 0 <= k < |turns| :: AllParts(turns)[k] == turns[k].parts[0]
  {
    if turns != [] {
      PartsOfSingletons(turns[..|turns| - 1]);
    }
  }

  /** A found name is the name of the first call with that id. */
  lemma {:induction false} FirstCallTurn(turns: seq<Turn>, id: string)
    requires SinglePart(turns)
    requires FirstCallName(AllParts(turns), id).Some?
    ensures exists i: nat :: FirstCallAt(turns, i, |turns|, id) && turns[i].parts[0].name == FirstCallName(AllParts(turns), id).value
  {
    var parts := AllParts(turns);
    PartsOfSingletons(turns);
    FirstCallIsFirst(parts, id);
    var k :| 0 <= k < |parts| && parts[k].ToolCall? && parts[k].callId == id && parts[k].name == FirstCallName(parts, id).value
      && forall m | 0 <= m < k :: !(parts[m].ToolCall? && parts[m].callId == id);
    forall m | 0 <= m < k ensures !(turns[m].parts[0].ToolCall? && turns[m].parts[0].callId == id) {
      assert parts[m] == turns[m].parts[0];
    }
    assert FirstCallAt(turns, k, |turns|, id);
  }

  lemma {:induction false} ResultStillFollows(turns: seq<Turn>, last: Turn, j: nat)
    requires j < |turns| && SinglePart(turns) && |last.parts| == 1
    requires turns[j].parts[0].ToolResult? && ResultFollowsCall(turns, j)
    ensures ResultFollowsCall(turns + [last], j)
  {
    var i: nat :| FirstCallAt(turns, i, j, turns[j].parts[0].callId) && turns[i].parts[0].name == turns[j].parts[0].name;
    assert FirstCallAt(turns + [last], i, j, turns[j].parts[0].callId);
  }

  lemma {:induction false} NewResultFollows(turns: seq<Turn>, last: Turn)
    requires SinglePart(turns) && |last.parts| == 1 && last.parts[0].ToolResult?
    requires FirstCallName(AllParts(turns), last.parts[0].callId) == Some(last.parts[0].name)
    ensures SinglePart(turns + [last])
    ensures ResultFollowsCall(turns + [last], |turns|)
  {
    FirstCallTurn(turns, last.parts[0].callId);
    var i: nat :| FirstCallAt(turns, i, |turns|, last.parts[0].callId) && turns[i].parts[0].name == last.parts[0].name;
    assert FirstCallAt(turns + [last], i, |turns|, last.parts[0].callId);
  }

  lemma {:induction false} TurnStaysTrusted(turns: seq<Turn>, last: Turn, j: nat, names: set<string>)
    requires j < |turns| && SinglePart(turns) && |last.parts| == 1
    requires TrustedTurn(turns, j, names)
    ensures SinglePart(turns + [last]) && TrustedTurn(turns + [last], j, names)
  {
    assert (turns + [last])[j] == turns[j];
    if turns[j].parts[0].ToolResult? {
      ResultStillFollows(turns, last, j);
    }
  }

  /** Appending one turn keeps the promise when that turn meets it. */
  lemma {:induction false} TrustedPush(turns: seq<Turn>, spec: AgentSpec, names: set<string>, role: Role, part: Part)
    requires Trusted(turns, spec, names)
    requires RoleMatches(Turn(role, |turns|, [part]))
    requires part.ToolCall? ==> IsSanctionedTool(part.name, Allow(names))
    requires part.ToolResult? ==> FirstCallName(AllParts(turns), part.callId) == Some(part.name)
    ensures Trusted(Push(turns, role, [part]), spec, names)
  {
    var last := Turn(role, |turns|, [part]);
    var grown := turns + [last];
    assert SinglePart(grown);
    assert WellIndexed(grown);
    forall j | 2 <= j < |grown| ensures TrustedTurn(grown, j, names) {
      if j < |turns| {
        TurnStaysTrusted(turns, last, j, names);
      } else if part.ToolResult? {
        NewResultFollows(turns, last);
      }
    }
  }

  lemma {:induction false} StepKeepsTrust(d: Derivation, e: Entry, spec: AgentSpec, names: set<string>, normalize: Normalize)
    requires Trusted(d.turns, spec, names)
    ensures Trusted(Step(d, e, Allow(names), normalize).turns, spec, names)
  {
    match e.block
    case TextBlock(Some(text)) => TrustedPush(d.turns, spec, names, Assistant, TextPart(text));
    case ThinkingBlock(Some(thinking)) => TrustedPush(d.turns, spec, names, Assistant, ReasoningPart(thinking));
    case ToolUse(id, name, input) =>
      if IsCall(e.block) && IsSanctionedTool(name, Allow(names)) {
        TrustedPush(d.turns, spec, names, Assistant, ToolCall(id, name, ArgsOf(input)));
      }
    case ToolResultBlock(id, content) =>
      if IsResult(e.block) && KeepsResult(AllParts(d.turns), d.quarantinedIds, id, Allow(names)) {
        TrustedPush(d.turns, spec, names, Tool, ToolResult(id, ToolNameForCall(AllParts(d.turns), id), normalize(content)));
      }
    case _ =>
  }

  lemma {:induction false} DeriveKeepsTrust(spec: AgentSpec, entries: seq<Entry>, names: set<string>, normalize: Normalize)
    ensures Trusted(Derive(Start(spec), entries, Allow(names), normalize).turns, spec, names)
    decreases |entries|
  {
    if entries != [] {
      var n := |entries| - 1;
      DeriveKeepsTrust(spec, entries[..n], names, normalize);
      StepKeepsTrust(Derive(Start(spec), entries[..n], Allow(names), normalize), entries[n], spec, names, normalize);
    }
  }

  /**
   * For every stream: indices are positions; turns 0 and 1 are the trusted instructions and input and no
   * other turn is a system or user turn; every call is sanctioned; every result follows a call with its
   * id and carries the first such call's name.
   */
  lemma {:induction false} TranscriptIsTrusted(spec: AgentSpec, entries: seq<Entry>, finalText: string, names: set<string>, normalize: Normalize)
    ensures Trusted(Conversation(spec, entries, finalText, Allow(names), normalize), spec, names)
  {
    DeriveKeepsTrust(spec, entries, names, normalize);
    var d := Derive(Start(spec), entries, Allow(names), normalize);
    if !d.sawAssistantText && finalText != "" {
      TrustedPush(d.turns, spec, names, Assistant, TextPart(finalText));
    }
  }
}
