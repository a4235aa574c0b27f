/**
 * The OpenAI adapter: transcript from the SDK history, one journalled step per model response, and the
 * replay that walks the journal to its first gap.
 */
module OpenAiReplay {
  import opened Options
  import opened Json
  import opened JsonbOrder
  import opened JsonText
  import opened Transcript
  import opened ConversationStore
  import opened Replay

  datatype ItemRole = ItemSystem | ItemUser | ItemAssistant

  /** A history item with its text or arguments already extracted. */
  datatype Item =
    | Message(role: ItemRole, text: string)
    | Reasoning(text: string)
    | FunctionCall(callId: string, name: string, args: Json)
    | FunctionResult(callId: string, name: string, output: Json)
    | UnknownItem

  datatype Derivation = Derivation(turns: seq<Turn>, sawAssistantText: bool)

  function Step(d: Derivation, item: Item): Derivation {
    match item
    case Message(ItemUser, text) => if text != "" then d.(turns := Push(d.turns, User, [TextPart(text)])) else d
    case Message(ItemAssistant, text) =>
      if text != "" then Derivation(Push(d.turns, Assistant, [TextPart(text)]), true) else d
    case Reasoning(text) => if text != "" then d.(turns := Push(d.turns, Assistant, [ReasoningPart(text)])) else d
    case FunctionCall(id, name, args) =>
      if id != "" && name != "" then d.(turns := Push(d.turns, Assistant, [ToolCall(id, name, args)])) else d
    case FunctionResult(id, name, output) =>
      if id != "" && name != "" then d.(turns := Push(d.turns, Tool, [ToolResult(id, name, output)])) else d
    case _ => d
  }

  function Derive(spec: AgentSpec, history: seq<Item>): Derivation {
    if history == [] then Derivation([SystemTurn(spec)], false)
    else Step(Derive(spec, history[..|history| - 1]), history[|history| - 1])
  }

  function Closed(spec: AgentSpec, d: Derivation, finalText: string, output: Json): seq<Turn> {
    var answered := if !d.sawAssistantText && finalText != "" then Push(d.turns, Assistant, [TextPart(finalText)]) else d.turns;
    if spec.hasOutputSchema && output != Null then Push(answered, Assistant, [OutputPart(output)]) else answered
  }

  function Conversation(spec: AgentSpec, history: seq<Item>, finalText: string, output: Json): seq<Turn> {
    Closed(spec, Derive(spec, history), finalText, output)
  }

  method DeriveConversation(spec: AgentSpec, history: seq<Item>, finalText: string, output: Json) returns (turns: seq<Turn>)
    ensures turns == Conversation(spec, history, finalText, output)
  {
    turns := [SystemTurn(spec)];
    var index := 1;
    var sawAssistantText := false;
    for h := 0 to |history|
      invariant index == |turns|
      invariant Derivation(turns, sawAssistantText) == Derive(spec, history[..h])
    {
      assert history[..h + 1][..h] == history[..h];
      match history[h]
      case Message(ItemUser, text) =>
        if text != "" { turns := turns + [Turn(User, index, [TextPart(text)])]; index := index + 1; }
      case Message(ItemAssistant, text) =>
        if text != "" {
          turns := turns + [Turn(Assistant, index, [TextPart(text)])];
          index := index + 1;
          sawAssistantText := true;
        }
      case Reasoning(text) =>
        if text != "" { turns := turns + [Turn(Assistant, index, [ReasoningPart(text)])]; index := index + 1; }
      case FunctionCall(id, name, args) =>
        if id != "" && name != "" { turns := turns + [Turn(Assistant, index, [ToolCall(id, name, args)])]; index := index + 1; }
      case FunctionResult(id, name, output) =>
        if id != "" && name != "" { turns := turns + [Turn(Tool, index, [ToolResult(id, name, output)])]; index := index + 1; }
      case _ =>
    }
    assert history[..|history|] == history;
    if !sawAssistantText && finalText != "" { turns := turns + [Turn(Assistant, index, [TextPart(finalText)])]; index := index + 1; }
    if spec.hasOutputSchema && output != Null { turns := turns + [Turn(Assistant, index, [OutputPart(output)])]; }
  }

  /** The neutral projection of one model response; only the last carries the final output. */
  datatype LlmStep = LlmStep(responseIndex: nat, isFinal: bool, finalOutput: Option<Doc>)

  /** A final output as the journal's `jsonb` column gives it back. */
  function Kept(finalOutput: Option<Doc>): Option<Doc> {
    match finalOutput case Some(d) => Some(Jsonb(d)) case None => None
  }

  /** A run without responses still journals one step. */
  function StepTotal(responses: nat): nat { if responses == 0 then 1 else responses }

  /** The steps of a run as they are read back. */
  function Steps(responses: nat, finalOutput: Option<Doc>): seq<LlmStep> {
    var last := StepTotal(responses) - 1;
    seq(last + 1, (i: nat) => LlmStep(i, i == last, if i == last then Kept(finalOutput) else None))
  }

  function Journalled(responses: nat, finalOutput: Option<Doc>): map<nat, LlmStep> {
    FromSteps(Steps(responses, finalOutput))
  }

  /** One step per response and no other, numbered in order; the last is final and alone carries the output. */
  ghost predicate OneStepEach(journal: map<nat, LlmStep>, n: nat, finalOutput: Option<Doc>) {
    && (forall i: nat :: i in journal <==> i < n)
    && (forall i: nat | i < n :: journal[i] == LlmStep(i, i == n - 1,
          if i == n - 1 && finalOutput.Some? then Some(Jsonb(finalOutput.value)) else None))
  }

  lemma {:induction false} JournalHolds(responses: nat, finalOutput: Option<Doc>)
    ensures OneStepEach(Journalled(responses, finalOutput), StepTotal(responses), finalOutput)
  {
    var steps, n := Steps(responses, finalOutput), StepTotal(responses);
    forall i: nat | i < n
      ensures Journalled(responses, finalOutput)[i] == LlmStep(i, i == n - 1,
        if i == n - 1 && finalOutput.Some? then Some(Jsonb(finalOutput.value)) else None)
    {
      assert FromSteps(steps)[i] == steps[i];
      assert steps[i] == LlmStep(i, i == n - 1, if i == n - 1 then Kept(finalOutput) else None);
      assert finalOutput.Some? ==> Kept(finalOutput) == Some(Jsonb(finalOutput.value));
      assert finalOutput.None? ==> Kept(finalOutput) == None;
    }
  }

  method JournalResponses(responses: nat, finalOutput: Option<Doc>) returns (journal: map<nat, LlmStep>, llmStepCount: nat)
    ensures journal == Journalled(responses, finalOutput) && llmStepCount == StepTotal(responses)
    ensures llmStepCount == if responses == 0 then 1 else responses
    ensures OneStepEach(journal, llmStepCount, finalOutput)
  {
    JournalHolds(responses, finalOutput);
    journal, llmStepCount := map[], 0;
    ghost var steps := Steps(responses, finalOutput);
    if responses > 0 {
      for i := 0 to responses
        invariant llmStepCount == i
        invariant journal == FromSteps(steps[..i])
      {
        FromStepsSnoc(steps, i);
        journal := journal[i := LlmStep(i, i == responses - 1, if i == responses - 1 then Kept(finalOutput) else None)];
        llmStepCount := llmStepCount + 1;
      }
      assert steps[..responses] == steps;
    } else {
      journal := journal[0 := LlmStep(0, true, Kept(finalOutput))];
      llmStepCount := llmStepCount + 1;
      FromStepsSnoc(steps, 0);
      assert steps[..1] == steps && steps[..0] == [];
    }
  }

  /** The final text: a string as it is, anything else serialised, an absent or null output as the empty string. */
  function FinalText(finalOutput: Option<Doc>, numeral: Numeral): string {
    match finalOutput
    case Some(DStr(text)) => text
    case None => Stringify(DStr(""), numeral)
    case Some(DNull) => Stringify(DStr(""), numeral)
    case Some(d) => Stringify(d, numeral)
  }

  function Output(spec: AgentSpec, finalOutput: Option<Doc>): Json {
    if spec.hasOutputSchema && finalOutput.Some? then ValueOf(finalOutput.value) else Null
  }

  /** What the live run returns. */
  function LiveResult(spec: AgentSpec, history: seq<Item>, responses: nat, finalOutput: Option<Doc>, numeral: Numeral): RunResult {
    var finalText, output := FinalText(finalOutput, numeral), Output(spec, finalOutput);
    var conversation := Conversation(spec, history, finalText, output);
    RunResult(finalText, output, conversation, StepTotal(responses) + CountCalls(AllParts(conversation)))
  }

  /** The result rebuilt from the final output of the last step, the number of steps, and the transcript. */
  function Rebuilt(spec: AgentSpec, finalOutput: Option<Doc>, steps: nat, conversation: seq<Turn>, numeral: Numeral): RunResult {
    RunResult(FinalText(finalOutput, numeral), Output(spec, finalOutput), conversation, steps + CountCalls(AllParts(conversation)))
  }

  /** What a journal and the stored rows replay to. */
  function Replayed(spec: AgentSpec, journal: map<nat, LlmStep>, rows: seq<Row>, numeral: Numeral): Option<RunResult> {
    if 0 !in journal then None
    else
      var steps := Gap(journal, 0);
      Some(Rebuilt(spec, journal[steps - 1].finalOutput, steps, ReattachTrustedSystemTurn(OpenAi, spec, Rehydrated(rows)), numeral))
  }

  /** The walk to the first gap. */
  method Walk(journal: map<nat, LlmStep>) returns (lastOutput: Option<Doc>, stepCount: nat)
    requires 0 in journal
    ensures stepCount == Gap(journal, 0) && lastOutput == journal[stepCount - 1].finalOutput
    ensures stepCount !in journal && forall k: nat | k < stepCount :: k in journal
  {
    lastOutput := journal[0].finalOutput;
    stepCount := 1;
    while stepCount in journal
      invariant 1 <= stepCount
      invariant forall k: nat | k < stepCount :: k in journal
      invariant lastOutput == journal[stepCount - 1].finalOutput
      decreases |journal.Keys| - stepCount
    {
      RangeFits(journal.Keys, stepCount + 1);
      lastOutput := journal[stepCount].finalOutput;
      stepCount := stepCount + 1;
    }
  }

  method ReplayFromJournal(spec: AgentSpec, journal: map<nat, LlmStep>, rows: seq<Row>, numeral: Numeral) returns (result: Option<RunResult>)
    ensures result == Replayed(spec, journal, rows, numeral)
  {
    if 0 !in journal { return None; }
    var lastOutput, stepCount := Walk(journal);
    var rehydrated := RehydrateConversation(rows);
    result := Some(Rebuilt(spec, lastOutput, stepCount, ReattachTrustedSystemTurn(OpenAi, spec, rehydrated), numeral));
  }

  lemma {:induction false} DerivedIsSound(spec: AgentSpec, history: seq<Item>)
    ensures OpensTrusted(Derive(spec, history).turns, spec) && AllValid(Derive(spec, history).turns)
    decreases |history|
  {
    if history != [] {
      DerivedIsSound(spec, history[..|history| - 1]);
      StepIsSound(spec, Derive(spec, history[..|history| - 1]), history[|history| - 1]);
    }
  }

  /** An item that is read adds at most one part, and a valid one. */
  lemma {:induction false} StepIsSound(spec: AgentSpec, d: Derivation, item: Item)
    requires OpensTrusted(d.turns, spec) && AllValid(d.turns)
    ensures OpensTrusted(Step(d, item).turns, spec) && AllValid(Step(d, item).turns)
  {
    match item
    case Message(ItemUser, text) => SoundPush(spec, d.turns, User, TextPart(text));
    case Message(ItemAssistant, text) => SoundPush(spec, d.turns, Assistant, TextPart(text));
    case Reasoning(text) => SoundPush(spec, d.turns, Assistant, ReasoningPart(text));
    case FunctionCall(id, name, args) => if id != "" && name != "" { SoundPush(spec, d.turns, Assistant, ToolCall(id, name, args)); }
    case FunctionResult(id, name, output) => if id != "" && name != "" { SoundPush(spec, d.turns, Tool, ToolResult(id, name, output)); }
    case _ =>
  }

  lemma {:induction false} SoundPush(spec: AgentSpec, turns: seq<Turn>, role: Role, part: Part)
    requires OpensTrusted(turns, spec) && AllValid(turns) && role != System && ValidPart(part)
    ensures OpensTrusted(Push(turns, role, [part]), spec) && AllValid(Push(turns, role, [part]))
  {
    OpensTrustedPush(turns, spec, role, [part]);
    AllValidPush(turns, role, [part]);
  }

  lemma {:induction false} ConversationIsSound(spec: AgentSpec, history: seq<Item>, finalText: string, output: Json)
    ensures OpensTrusted(Conversation(spec, history, finalText, output), spec) && AllValid(Conversation(spec, history, finalText, output))
  {
    DerivedIsSound(spec, history);
  }

  lemma {:induction false} LastStep(responses: nat, finalOutput: Option<Doc>)
    ensures var journal := Journalled(responses, finalOutput);
      0 in journal && Gap(journal, 0) == StepTotal(responses) && journal[StepTotal(responses) - 1].finalOutput == Kept(finalOutput)
  {
    GapOfSteps(Steps(responses, finalOutput));
  }

  lemma {:induction false} RebuiltFrom(spec: AgentSpec, responses: nat, finalOutput: Option<Doc>, conversation: seq<Turn>, numeral: Numeral)
    requires OpensTrusted(conversation, spec) && AllValid(conversation)
    ensures Replayed(spec, Journalled(responses, finalOutput), Stored(conversation), numeral)
      == Some(Rebuilt(spec, Kept(finalOutput), StepTotal(responses), conversation, numeral))
  {
    LastStep(responses, finalOutput);
    ReplayedTranscript(OpenAi, spec, conversation);
  }

  predicate WellFormedOutput(finalOutput: Option<Doc>) { finalOutput.Some? ==> WellFormed(finalOutput.value) }

  lemma {:induction false} OutputKept(spec: AgentSpec, finalOutput: Option<Doc>)
    requires WellFormedOutput(finalOutput)
    ensures Output(spec, Kept(finalOutput)) == Output(spec, finalOutput)
  {
    if finalOutput.Some? {
      JsonbKeepsValue(finalOutput.value);
    }
  }

  lemma {:induction false} LiveIsSound(spec: AgentSpec, history: seq<Item>, responses: nat, finalOutput: Option<Doc>, numeral: Numeral)
    ensures var conversation := LiveResult(spec, history, responses, finalOutput, numeral).conversation;
      OpensTrusted(conversation, spec) && AllValid(conversation)
  {
    ConversationIsSound(spec, history, FinalText(finalOutput, numeral), Output(spec, finalOutput));
  }

  /**
   * Replaying a successful run gives its output, transcript and step count, for every run; the final text is the
   * serialised form of what the journal gives back.
   */
  lemma {:induction false} ReplayInvertsRun(spec: AgentSpec, history: seq<Item>, responses: nat, finalOutput: Option<Doc>, numeral: Numeral)
    requires WellFormedOutput(finalOutput)
    ensures var live := LiveResult(spec, history, responses, finalOutput, numeral);
      Replayed(spec, Journalled(responses, finalOutput), Stored(live.conversation), numeral)
      == Some(live.(finalText := FinalText(Kept(finalOutput), numeral)))
    ensures var live := LiveResult(spec, history, responses, finalOutput, numeral);
      && live.output == (if spec.hasOutputSchema && finalOutput.Some? then ValueOf(finalOutput.value) else Null)
      && live.stepCount == (if responses == 0 then 1 else responses) + CountCalls(AllParts(live.conversation))
  {
    var live := LiveResult(spec, history, responses, finalOutput, numeral);
    LiveIsSound(spec, history, responses, finalOutput, numeral);
    RebuiltFrom(spec, responses, finalOutput, live.conversation, numeral);
    OutputKept(spec, finalOutput);
    RebuiltIsLive(spec, history, responses, finalOutput, numeral);
  }

  lemma {:induction false} RebuiltIsLive(spec: AgentSpec, history: seq<Item>, responses: nat, finalOutput: Option<Doc>, numeral: Numeral)
    requires Output(spec, Kept(finalOutput)) == Output(spec, finalOutput)
    ensures var live := LiveResult(spec, history, responses, finalOutput, numeral);
      Rebuilt(spec, Kept(finalOutput), StepTotal(responses), live.conversation, numeral) == live.(finalText := FinalText(Kept(finalOutput), numeral))
  {
  }

  /** An output that is absent, or whose every object lists its properties in the order they are read back in. */
  predicate OrderSurvives(finalOutput: Option<Doc>) { finalOutput.None? || InReadOrder(finalOutput.value) }

  lemma {:induction false} FinalTextKeptIff(finalOutput: Option<Doc>, numeral: Numeral)
    requires WellFormedOutput(finalOutput)
    ensures FinalText(Kept(finalOutput), numeral) == FinalText(finalOutput, numeral) <==> OrderSurvives(finalOutput)
  {
    if finalOutput.Some? {
      var d := finalOutput.value;
      JsonbKeepsOrderIff(d);
      JsonbKeepsValue(d);
      ReadOrderIsWellFormed(Jsonb(d));
      StringifyKeepsOrder(Jsonb(d), d, numeral);
    }
  }

  /** A run replays to its own result, final text included, exactly when storing its output keeps the order of properties. */
  lemma {:induction false} RunReplaysIff(spec: AgentSpec, history: seq<Item>, responses: nat, finalOutput: Option<Doc>, numeral: Numeral)
    requires WellFormedOutput(finalOutput)
    ensures var live := LiveResult(spec, history, responses, finalOutput, numeral);
      Replayed(spec, Journalled(responses, finalOutput), Stored(live.conversation), numeral) == Some(live) <==> OrderSurvives(finalOutput)
  {
    ReplayInvertsRun(spec, history, responses, finalOutput, numeral);
    FinalTextKeptIff(finalOutput, numeral);
  }

  /** A structured output that lists a longer key before a shorter one. */
  function SummaryFirst(summary: Doc, id: Doc): Option<Doc> { Some(DObj([Field("summary", summary), Field("id", id)])) }

  /** Such an output replays with its properties exchanged, so with another final text. */
  lemma {:induction false} SummaryFirstIsReordered(spec: AgentSpec, history: seq<Item>, responses: nat, summary: Doc, id: Doc, numeral: Numeral)
    requires WellFormed(summary) && WellFormed(id)
    ensures var live := LiveResult(spec, history, responses, SummaryFirst(summary, id), numeral);
      Replayed(spec, Journalled(responses, SummaryFirst(summary, id)), Stored(live.conversation), numeral) != Some(live)
  {
    SummaryFirstOrder(summary, id);
    RunReplaysIff(spec, history, responses, SummaryFirst(summary, id), numeral);
  }

  lemma {:induction false} SummaryFirstOrder(summary: Doc, id: Doc)
    requires WellFormed(summary) && WellFormed(id)
    ensures WellFormedOutput(SummaryFirst(summary, id)) && !OrderSurvives(SummaryFirst(summary, id))
  {
    var fields := SummaryFirst(summary, id).value.fields;
    LongerIsLater("summary", "id");
    assert !Before(fields[0].key, fields[1].key);
  }

  lemma {:induction false} LongerIsLater(a: string, b: string)
    requires a == "summary" && b == "id"
    ensures !Before(a, b) && a != b
  {
    assert a[0] == 's' && b[0] == 'i';
    AsciiLength(a);
    AsciiLength(b);
  }

  lemma {:induction false} AsciiLength(key: string)
    requires forall i | 0 <= i < |key| :: key[i] <= 'z'
    ensures Utf8Length(key) == |key|
    decreases |key|
  {
    if key != "" {
      AsciiLength(key[..|key| - 1]);
    }
  }
}
