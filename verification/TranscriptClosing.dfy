/**
 * How a transcript of one part a turn closes.
 */
module TranscriptClosing {
  import opened Json
  import opened Transcript

  /** The answer, then the structured output of a run with a schema. */
  function Answer(finalText: string): seq<Said> {
    if finalText == "" then [] else [Said(Assistant, TextPart(finalText))]
  }

  function StructuredAnswer(spec: AgentSpec, output: Json): seq<Said> {
    if spec.hasOutputSchema && output != Null then [Said(Assistant, OutputPart(output))] else []
  }

  lemma {:induction false} TurnsOfMore(opening: seq<Turn>, said: seq<Said>, more: seq<Said>)
    requires |more| <= 1
    ensures (if more == [] then opening + TurnsOf(said, |opening|)
             else Push(opening + TurnsOf(said, |opening|), more[0].role, [more[0].part])) == opening + TurnsOf(said + more, |opening|)
  {
    if more == [] {
      assert said + more == said;
    } else {
      assert more == [more[0]];
      TurnsOfSnoc(opening, said, more[0]);
    }
  }
}
