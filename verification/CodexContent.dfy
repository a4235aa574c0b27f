/**
 * What a Codex transcript contains: the reasoning that is not empty, then each returned call with its result.
 */
module CodexContent {
  import opened Sequences
  import opened Json
  import opened Transcript
  import opened TranscriptClosing
  import opened CodexReplay

  predicate NotEmpty(text: string) { text != "" }
  predicate IsThought(text: string, said: Said) { said == Said(Assistant, ReasoningPart(text)) }

  predicate Returned(r: Request) { r.Dispatched? }

  predicate IsExchange(r: Request, pair: ToolPair) {
    && r.Dispatched?
    && pair.call == ToolCall(r.callId, r.name, r.args)
    && pair.result == ToolResult(r.callId, r.name, r.result)
  }

  /** Each exchange in turn: the assistant's call, the tool's result. */
  function Exchanged(pairs: seq<ToolPair>): seq<Said> {
    seq(2 * |pairs|, i requires 0 <= i < 2 * |pairs| =>
      if i % 2 == 0 then Said(Assistant, pairs[i / 2].call) else Said(Tool, pairs[i / 2].result))
  }

  lemma {:induction false} ExchangedSnoc(pairs: seq<ToolPair>, last: ToolPair)
    ensures Exchanged(pairs + [last]) == Exchanged(pairs) + [Said(Assistant, last.call), Said(Tool, last.result)]
  {
  }

  lemma {:induction false} CollectedAre(requests: seq<Request>) returns (ks: seq<nat>)
    ensures IsRecord(requests, ks, Collected(requests), Returned, IsExchange)
    decreases |requests|
  {
    ks := [];
    if requests != [] {
      var before, r := requests[..|requests| - 1], requests[|requests| - 1];
      assert before + [r] == requests;
      ks := CollectedAre(before);
      if Returned(r) {
        RecordGrows(before, r, ks, Collected(before), PairOf(r), Returned, IsExchange);
        ks := ks + [|before|];
      } else {
        RecordSkips(before, r, ks, Collected(before), Returned, IsExchange);
      }
    }
  }

  lemma {:induction false} Thoughts(opening: seq<Turn>, texts: seq<string>) returns (ks: seq<nat>, said: seq<Said>)
    ensures IsRecord(texts, ks, said, NotEmpty, IsThought)
    ensures WithReasoning(opening, texts) == opening + TurnsOf(said, |opening|)
    decreases |texts|
  {
    ks, said := [], [];
    if texts == [] {
      assert opening + TurnsOf([], |opening|) == opening;
    } else {
      var before, text := texts[..|texts| - 1], texts[|texts| - 1];
      assert before + [text] == texts;
      ks, said := Thoughts(opening, before);
      if NotEmpty(text) {
        var x := Said(Assistant, ReasoningPart(text));
        RecordGrows(before, text, ks, said, x, NotEmpty, IsThought);
        TurnsOfSnoc(opening, said, x);
        ks, said := ks + [|before|], said + [x];
      } else {
        RecordSkips(before, text, ks, said, NotEmpty, IsThought);
      }
    }
  }

  lemma {:induction false} Tools(opening: seq<Turn>, said: seq<Said>, pairs: seq<ToolPair>)
    ensures WithTools(opening + TurnsOf(said, |opening|), pairs) == opening + TurnsOf(said + Exchanged(pairs), |opening|)
    decreases |pairs|
  {
    if pairs == [] {
      assert said + Exchanged([]) == said;
    } else {
      var before, last := pairs[..|pairs| - 1], pairs[|pairs| - 1];
      assert before + [last] == pairs;
      var call, result := Said(Assistant, last.call), Said(Tool, last.result);
      Tools(opening, said, before);
      WithToolsSnoc(opening + TurnsOf(said, |opening|), before, last);
      TurnsOfSnoc(opening, said + Exchanged(before), call);
      TurnsOfSnoc(opening, said + Exchanged(before) + [call], result);
      ExchangedSnoc(before, last);
      assert said + Exchanged(before) + [call] + [result] == said + Exchanged(pairs);
    }
  }

  /**
   * Whatever the run: behind the trusted opening stand the reasoning texts that are not empty, in order; then, for each
   * request whose dispatch returned and for no other, its call with the arguments and its result; then the final text,
   * when it is not empty, and the structured output, when the run has a schema and an answer.
   */
  lemma {:induction false} TranscriptIsTheRun(spec: AgentSpec, reasoning: seq<string>, requests: seq<Request>, finalText: string, answer: Json)
    returns (rs: seq<nat>, thoughts: seq<Said>, ks: seq<nat>, pairs: seq<ToolPair>)
    ensures IsRecord(reasoning, rs, thoughts, NotEmpty, IsThought)
    ensures IsRecord(requests, ks, pairs, Returned, IsExchange)
    ensures LiveResult(spec, reasoning, requests, finalText, answer).conversation ==
      Opening(spec) + TurnsOf(thoughts + Exchanged(pairs) + Answer(finalText) + StructuredAnswer(spec, answer), 2)
  {
    rs, thoughts := Thoughts(Opening(spec), reasoning);
    ks := CollectedAre(requests);
    pairs := Collected(requests);
    Tools(Opening(spec), thoughts, pairs);
    var worked := thoughts + Exchanged(pairs);
    TurnsOfMore(Opening(spec), worked, Answer(finalText));
    TurnsOfMore(Opening(spec), worked + Answer(finalText), StructuredAnswer(spec, answer));
  }
}
