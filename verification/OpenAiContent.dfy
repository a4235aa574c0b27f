/**
 * What an OpenAI transcript contains: the history's items that carry something, each with its own content.
 */
module OpenAiContent {
  import opened Sequences
  import opened Json
  import opened Transcript
  import opened TranscriptClosing
  import opened OpenAiReplay

  /** A user's or assistant's text and reasoning that is not empty, a call or result with an id and a name. */
  predicate Stays(item: Item) {
    match item
    case Message(role, text) => role != ItemSystem && text != ""
    case Reasoning(text) => text != ""
    case FunctionCall(id, name, _) => id != "" && name != ""
    case FunctionResult(id, name, _) => id != "" && name != ""
    case UnknownItem => false
  }

  predicate IsImage(item: Item, said: Said) {
    match item
    case Message(role, text) => said.part == TextPart(text) && said.role == if role == ItemUser then User else Assistant
    case Reasoning(text) => said == Said(Assistant, ReasoningPart(text))
    case FunctionCall(id, name, args) => said == Said(Assistant, ToolCall(id, name, args))
    case FunctionResult(id, name, output) => said == Said(Tool, ToolResult(id, name, output))
    case UnknownItem => false
  }

  predicate IsAnswer(item: Item) { item.Message? && item.role == ItemAssistant && item.text != "" }

  predicate Answered(history: seq<Item>) { exists h :: 0 <= h < |history| && IsAnswer(history[h]) }

  function Opening(spec: AgentSpec): seq<Turn> { [Turn(System, 0, [TextPart(spec.instructions)])] }

  ghost predicate Records(spec: AgentSpec, d: Derivation, history: seq<Item>, ks: seq<nat>, said: seq<Said>) {
    && d.turns == Opening(spec) + TurnsOf(said, 1)
    && IsRecord(history, ks, said, Stays, IsImage)
    && (d.sawAssistantText <==> Answered(history))
  }

  lemma {:induction false} AnsweredSnoc(history: seq<Item>, item: Item)
    ensures Answered(history + [item]) <==> Answered(history) || IsAnswer(item)
  {
    var all := history + [item];
    assert all[|history|] == item;
    assert forall h | 0 <= h < |history| :: all[h] == history[h];
  }

  /** What one item adds, exactly when it stays. */
  lemma {:induction false} StepAdds(d: Derivation, item: Item) returns (x: Said)
    ensures Step(d, item).turns == if Stays(item) then Push(d.turns, x.role, [x.part]) else d.turns
    ensures Step(d, item).sawAssistantText <==> d.sawAssistantText || IsAnswer(item)
    ensures Stays(item) ==> IsImage(item, x)
  {
    x := Said(User, TextPart(""));
    match item
    case Message(role, text) => x := Said(if role == ItemUser then User else Assistant, TextPart(text));
    case Reasoning(text) => x := Said(Assistant, ReasoningPart(text));
    case FunctionCall(id, name, args) => x := Said(Assistant, ToolCall(id, name, args));
    case FunctionResult(id, name, output) => x := Said(Tool, ToolResult(id, name, output));
    case UnknownItem =>
  }

  lemma {:induction false} NextRecord(spec: AgentSpec, d: Derivation, history: seq<Item>, item: Item, ks: seq<nat>, said: seq<Said>)
    returns (ks': seq<nat>, said': seq<Said>)
    requires Records(spec, d, history, ks, said)
    ensures Records(spec, Step(d, item), history + [item], ks', said')
  {
    var x := StepAdds(d, item);
    AnsweredSnoc(history, item);
    if Stays(item) {
      ks', said' := ks + [|history|], said + [x];
      RecordGrows(history, item, ks, said, x, Stays, IsImage);
      TurnsOfSnoc(Opening(spec), said, x);
    } else {
      ks', said' := ks, said;
      RecordSkips(history, item, ks, said, Stays, IsImage);
    }
  }

  lemma {:induction false} DerivedRecord(spec: AgentSpec, history: seq<Item>) returns (ks: seq<nat>, said: seq<Said>)
    ensures Records(spec, Derive(spec, history), history, ks, said)
    decreases |history|
  {
    if history == [] {
      ks, said := [], [];
      assert Opening(spec) + TurnsOf([], 1) == Opening(spec);
    } else {
      var before, item := history[..|history| - 1], history[|history| - 1];
      assert before + [item] == history;
      ks, said := DerivedRecord(spec, before);
      ks, said := NextRecord(spec, Derive(spec, before), before, item, ks, said);
    }
  }

  /**
   * Whatever the history: behind the trusted instructions stand exactly the items that stay, in order, with their own
   * texts, arguments and results; then the final text, exactly when no assistant text came and it is not empty; then
   * the structured output, exactly when the run has a schema and an output.
   */
  lemma {:induction false} TranscriptIsTheHistory(spec: AgentSpec, history: seq<Item>, finalText: string, output: Json)
    returns (ks: seq<nat>, said: seq<Said>)
    ensures IsRecord(history, ks, said, Stays, IsImage)
    ensures Conversation(spec, history, finalText, output) ==
      Opening(spec) + TurnsOf((said + if Answered(history) then [] else Answer(finalText)) + StructuredAnswer(spec, output), 1)
  {
    ks, said := DerivedRecord(spec, history);
    var answer := if Answered(history) then [] else Answer(finalText);
    TurnsOfMore(Opening(spec), said, answer);
    TurnsOfMore(Opening(spec), said + answer, StructuredAnswer(spec, output));
  }
}
