/**
 * A successful Anthropic run and its replay.
 */
module AnthropicReplay {
  import opened Options
  import opened Json
  import opened Transcript
  import opened AnthropicTranscript
  import opened ConversationStore
  import opened Replay
  import opened TurnReplay

  lemma {:induction false} PartsValid(turns: seq<Turn>)
    requires AllValid(turns)
    ensures forall k | 0 <= k < |AllParts(turns)| :: ValidPart(AllParts(turns)[k])
    decreases |turns|
  {
    if turns != [] {
      var n := |turns| - 1;
      forall i, j | 0 <= i < n && 0 <= j < |turns[..n][i].parts| ensures ValidPart(turns[..n][i].parts[j]) {
        assert turns[..n][i] == turns[i];
      }
      PartsValid(turns[..n]);
    }
  }

  lemma {:induction false} CallNameNotEmpty(turns: seq<Turn>, id: string)
    requires AllValid(turns)
    ensures ToolNameForCall(AllParts(turns), id) != ""
  {
    PartsValid(turns);
    FirstCallIsFirst(AllParts(turns), id);
    assert "tool"[0] == 't';
  }

  ghost predicate Storable(turns: seq<Turn>, spec: AgentSpec) { exists calls: nat :: Shape(turns, spec, true, calls) }

  lemma {:induction false} StorablePush(turns: seq<Turn>, spec: AgentSpec, role: Role, part: Part)
    requires Storable(turns, spec) && role != System && ValidPart(part)
    ensures Storable(Push(turns, role, [part]), spec)
  {
    var calls: nat :| Shape(turns, spec, true, calls);
    ShapePush(turns, spec, true, calls, role, part);
  }

  lemma {:induction false} StepStorable(d: Derivation, e: Entry, spec: AgentSpec, policy: Policy, normalize: Normalize)
    requires Storable(d.turns, spec)
    ensures Storable(Step(d, e, policy, normalize).turns, spec)
  {
    match e.block
    case TextBlock(Some(text)) => StorablePush(d.turns, spec, Assistant, TextPart(text));
    case ThinkingBlock(Some(thinking)) => StorablePush(d.turns, spec, Assistant, ReasoningPart(thinking));
    case ToolUse(id, name, input) =>
      if IsCall(e.block) {
        StorablePush(d.turns, spec, Assistant, ToolCall(id, name, ArgsOf(input)));
      }
    case ToolResultBlock(id, content) =>
      if IsResult(e.block) {
        var calls: nat :| Shape(d.turns, spec, true, calls);
        CallNameNotEmpty(d.turns, id);
        StorablePush(d.turns, spec, Tool, ToolResult(id, ToolNameForCall(AllParts(d.turns), id), normalize(content)));
      }
    case _ =>
  }

  lemma {:induction false} DeriveStorable(spec: AgentSpec, entries: seq<Entry>, policy: Policy, normalize: Normalize)
    ensures Storable(Derive(Start(spec), entries, policy, normalize).turns, spec)
    decreases |entries|
  {
    if entries == [] {
      ShapeOpening(spec);
    } else {
      var n := |entries| - 1;
      DeriveStorable(spec, entries[..n], policy, normalize);
      StepStorable(Derive(Start(spec), entries[..n], policy, normalize), entries[n], spec, policy, normalize);
    }
  }

  /** Whatever the stream contained, the derived transcript is storable, so it replays. */
  lemma {:induction false} ConversationStorable(spec: AgentSpec, entries: seq<Entry>, finalText: string, policy: Policy, normalize: Normalize)
    ensures Storable(Conversation(spec, entries, finalText, policy, normalize), spec)
  {
    DeriveStorable(spec, entries, policy, normalize);
    StorablePush(Derive(Start(spec), entries, policy, normalize).turns, spec, Assistant, TextPart(finalText));
  }

  /**
   * A successful run, its tool handler having run `toolEvents` times, replays to its own result exactly under
   * `Recovers`: within the turn bound, exactly when each call of the transcript was counted and no other.
   */
  lemma {:induction false} RunReplaysIff(spec: AgentSpec, entries: seq<Entry>, turns: nat, finalText: string, output: Json, policy: Policy, normalize: Normalize, toolEvents: nat)
    requires turns > 0 && (spec.hasOutputSchema || output == Null)
    ensures var conversation := Conversation(spec, entries, finalText, policy, normalize);
      Replayed(spec, FromSteps(Steps(turns, finalText, output)), Stored(conversation))
        == Some(LiveResult(turns, finalText, output, conversation, toolEvents))
      <==> Recovers(spec, turns, finalText, output, true, CountCalls(AllParts(conversation)), toolEvents)
  {
    ConversationStorable(spec, entries, finalText, policy, normalize);
    var conversation := Conversation(spec, entries, finalText, policy, normalize);
    var calls: nat :| Shape(conversation, spec, true, calls);
    ReplayInvertsRun(spec, turns, finalText, output, conversation, true, calls, toolEvents);
  }

  function OneCall(id: string, name: string, args: Json): seq<Entry> { [Entry(FromAssistant, ToolUse(id, MCP_PREFIX + name, Some(args)))] }

  lemma {:induction false} OneCallIsRecorded(spec: AgentSpec, id: string, name: string, args: Json, normalize: Normalize)
    requires id != ""
    ensures Shape(Conversation(spec, OneCall(id, name, args), "", Allow({}), normalize), spec, true, 1)
  {
    var e := OneCall(id, name, args)[0];
    var call := ToolCall(id, MCP_PREFIX + name, args);
    DeriveSnoc(Start(spec), [], e, Allow({}), normalize);
    assert [] + [e] == OneCall(id, name, args);
    assert Step(Start(spec), e, Allow({}), normalize).turns == Push(Start(spec).turns, Assistant, [call]);
    ShapeOpening(spec);
    ShapePush(Start(spec).turns, spec, true, 0, Assistant, call);
  }

  /**
   * A run of one turn whose only call, to one of the run's own tools, was refused before the tool handler ran:
   * replay reports a step more than the run did.
   */
  lemma {:induction false} RefusedCallAddsAStep(spec: AgentSpec, id: string, name: string, args: Json, normalize: Normalize)
    requires id != ""
    ensures var conversation := Conversation(spec, OneCall(id, name, args), "", Allow({}), normalize);
      var replay := Replayed(spec, FromSteps(Steps(1, "", Null)), Stored(conversation));
      replay.Some? && replay.value.stepCount == LiveResult(1, "", Null, conversation, 0).stepCount + 1
  {
    OneCallIsRecorded(spec, id, name, args, normalize);
    ReplayCountsRecordedCalls(spec, 1, "", Null, Conversation(spec, OneCall(id, name, args), "", Allow({}), normalize), 1);
  }

  /** The streamed transcript always has its two opening turns, so the JSONL file and the last-resort projection are never reached. */
  lemma {:induction false} StreamIsAlwaysPreferred(spec: AgentSpec, entries: seq<Entry>, finalText: string, policy: Policy, normalize: Normalize)
    ensures |Conversation(spec, entries, finalText, policy, normalize)| > 1
  {
    TurnsOnlyGrow(spec, entries, policy, normalize);
  }

  lemma {:induction false} TurnsOnlyGrow(spec: AgentSpec, entries: seq<Entry>, policy: Policy, normalize: Normalize)
    ensures |Derive(Start(spec), entries, policy, normalize).turns| >= 2
    decreases |entries|
  {
    if entries != [] {
      TurnsOnlyGrow(spec, entries[..|entries| - 1], policy, normalize);
    }
  }
}
