/**
 * The Anthropic and Pi adapters' journal: one step per model turn, the last one carrying the answer and
 * the number of turns, and a replay that probes forward as far as that number or the turn limit allows.
 */
module TurnReplay {
  import opened Options
  import opened Json
  import opened Transcript
  import opened ConversationStore
  import opened Replay

  datatype StepOutput =
    | TurnStep(turnIndex: nat)
    | FinalStep(finalText: string, output: Json, turnCount: nat)

  function Steps(turns: nat, finalText: string, output: Json): seq<StepOutput> {
    seq(turns, (i: nat) => if i == turns - 1 then FinalStep(finalText, output, turns) else TurnStep(i))
  }

  method JournalTurns(turns: nat, finalText: string, output: Json) returns (journal: map<nat, StepOutput>)
    ensures journal == FromSteps(Steps(turns, finalText, output))
    ensures forall i: nat :: i in journal <==> i < turns
    ensures forall i: nat | i < turns :: journal[i] == if i == turns - 1 then FinalStep(finalText, output, turns) else TurnStep(i)
  {
    journal := map[];
    ghost var steps := Steps(turns, finalText, output);
    for i := 0 to turns
      invariant journal == FromSteps(steps[..i])
    {
      FromStepsSnoc(steps, i);
      var isFinal := i == turns - 1;
      journal := journal[i := if isFinal then FinalStep(finalText, output, turns) else TurnStep(i)];
    }
    assert steps[..turns] == steps;
  }

  /** How far a replay probes when the first step does not say how many there are. */
  function TurnBound(spec: AgentSpec): nat { if spec.maxTurns < 1 then 1 else spec.maxTurns }

  function MaxProbe(spec: AgentSpec, first: StepOutput): nat {
    if first.FinalStep? then first.turnCount else TurnBound(spec)
  }

  /** The number of steps a replay finds: up to the first gap, at most the probe limit, at least the first. */
  function Found(spec: AgentSpec, journal: map<nat, StepOutput>): (found: nat)
    requires 0 in journal
    ensures 1 <= found && forall k: nat | k < found :: k in journal
  {
    var limit, gap := MaxProbe(spec, journal[0]), Gap(journal, 0);
    if limit <= 1 then 1 else if gap <= limit then gap else limit
  }

  function TextOf(step: StepOutput): string { if step.FinalStep? then step.finalText else "" }
  function OutputOf(spec: AgentSpec, step: StepOutput): Json { if spec.hasOutputSchema && step.FinalStep? then step.output else Null }

  /** The result rebuilt from the last step found, how many were found, and the transcript. */
  function Rebuilt(spec: AgentSpec, last: StepOutput, found: nat, conversation: seq<Turn>): RunResult {
    RunResult(TextOf(last), OutputOf(spec, last), conversation, found + CountCalls(AllParts(conversation)))
  }

  function Replayed(spec: AgentSpec, journal: map<nat, StepOutput>, rows: seq<Row>): Option<RunResult> {
    if 0 !in journal then None
    else
      var found := Found(spec, journal);
      Some(Rebuilt(spec, journal[found - 1], found, ReattachTrustedSystemTurn(AnthropicOrPi, spec, Rehydrated(rows))))
  }

  /** The probe. */
  method Probe(spec: AgentSpec, journal: map<nat, StepOutput>) returns (lastOutput: StepOutput, llmStepCount: nat)
    requires 0 in journal
    ensures llmStepCount == Found(spec, journal) && lastOutput == journal[llmStepCount - 1]
    ensures forall k: nat | k < llmStepCount :: k in journal
    ensures var limit := if journal[0].FinalStep? then journal[0].turnCount else if spec.maxTurns < 1 then 1 else spec.maxTurns;
      (llmStepCount == 1 || llmStepCount <= limit) && (llmStepCount >= limit || llmStepCount !in journal)
  {
    lastOutput := journal[0];
    llmStepCount := 1;
    var maxProbe := if lastOutput.FinalStep? then lastOutput.turnCount else if spec.maxTurns < 1 then 1 else spec.maxTurns;
    while llmStepCount < maxProbe && llmStepCount in journal
      invariant 1 <= llmStepCount && (llmStepCount <= maxProbe || llmStepCount == 1)
      invariant forall k: nat | k < llmStepCount :: k in journal
      invariant lastOutput == journal[llmStepCount - 1]
    {
      lastOutput := journal[llmStepCount];
      llmStepCount := llmStepCount + 1;
    }
  }

  method ReplayFromJournal(spec: AgentSpec, journal: map<nat, StepOutput>, rows: seq<Row>) returns (result: Option<RunResult>)
    ensures result == Replayed(spec, journal, rows)
  {
    if 0 !in journal { return None; }
    var lastOutput, llmStepCount := Probe(spec, journal);
    var rehydrated := RehydrateConversation(rows);
    var conversation := ReattachTrustedSystemTurn(AnthropicOrPi, spec, rehydrated);
    result := Some(Rebuilt(spec, lastOutput, llmStepCount, conversation));
  }

  /** What the live run returns; `output` is null without an output schema. */
  function LiveResult(turns: nat, finalText: string, output: Json, conversation: seq<Turn>, toolEvents: nat): RunResult {
    RunResult(finalText, output, conversation, turns + toolEvents)
  }

  /** The journalled steps are all found exactly when the turn limit allows as many; otherwise the answer is lost. */
  lemma {:induction false} StepsRecoveredIff(spec: AgentSpec, turns: nat, finalText: string, output: Json)
    requires turns > 0
    ensures var journal := FromSteps(Steps(turns, finalText, output));
      && Found(spec, journal) == (if turns <= TurnBound(spec) then turns else TurnBound(spec))
      && (TextOf(journal[Found(spec, journal) - 1]) == finalText <==> turns <= TurnBound(spec) || finalText == "")
      && (turns > TurnBound(spec) ==> TextOf(journal[Found(spec, journal) - 1]) == "" && OutputOf(spec, journal[Found(spec, journal) - 1]) == Null)
  {
    GapOfSteps(Steps(turns, finalText, output));
  }

  /**
   * When a replay rebuilds the run's result, `valid` saying whether the transcript is storable, `calls` how many
   * calls it records, and `toolEvents` how often the tool handler ran live: with the turns inside the bound,
   * when every recorded call and no other was counted; beyond it, only when there was no answer to lose and the
   * steps lost make up for the calls never counted.
   */
  predicate Recovers(spec: AgentSpec, turns: nat, finalText: string, output: Json, valid: bool, calls: nat, toolEvents: nat) {
    && valid
    && if turns <= TurnBound(spec) then toolEvents == calls
       else finalText == "" && output == Null && TurnBound(spec) + calls == turns + toolEvents
  }

  lemma {:induction false} RebuiltIff(spec: AgentSpec, last: StepOutput, found: nat, back: seq<Turn>, turns: nat, finalText: string, output: Json, conversation: seq<Turn>, calls: nat, toolEvents: nat)
    requires CountCalls(AllParts(conversation)) == calls
    requires turns <= TurnBound(spec) ==> found == turns && TextOf(last) == finalText && OutputOf(spec, last) == output
    requires turns > TurnBound(spec) ==> found == TurnBound(spec) && TextOf(last) == "" && OutputOf(spec, last) == Null
    ensures Rebuilt(spec, last, found, back) == LiveResult(turns, finalText, output, conversation, toolEvents)
      <==> Recovers(spec, turns, finalText, output, back == conversation, calls, toolEvents)
  {
  }

  /** Replaying a run gives its result exactly under `Recovers`, however many calls the tool handler saw. */
  lemma {:induction false} ReplayInvertsRun(spec: AgentSpec, turns: nat, finalText: string, output: Json, conversation: seq<Turn>, valid: bool, calls: nat, toolEvents: nat)
    requires turns > 0 && (spec.hasOutputSchema || output == Null)
    requires Shape(conversation, spec, valid, calls)
    ensures Replayed(spec, FromSteps(Steps(turns, finalText, output)), Stored(conversation))
        == Some(LiveResult(turns, finalText, output, conversation, toolEvents))
      <==> Recovers(spec, turns, finalText, output, valid, calls, toolEvents)
  {
    var journal := FromSteps(Steps(turns, finalText, output));
    var found := Found(spec, journal);
    StepsRecoveredIff(spec, turns, finalText, output);
    if turns <= TurnBound(spec) {
      AnswerRecovered(spec, turns, finalText, output);
    }
    TranscriptReplays(AnthropicOrPi, spec, conversation);
    RebuiltIff(spec, journal[found - 1], found, ReattachTrustedSystemTurn(AnthropicOrPi, spec, Rehydrated(Stored(conversation))),
               turns, finalText, output, conversation, calls, toolEvents);
  }

  /**
   * A storable run within its turn bound replays as if each call of its transcript had been counted, so its step
   * count is off by the calls refused before the tool handler ran.
   */
  lemma {:induction false} ReplayCountsRecordedCalls(spec: AgentSpec, turns: nat, finalText: string, output: Json, conversation: seq<Turn>, calls: nat)
    requires 0 < turns <= TurnBound(spec) && (spec.hasOutputSchema || output == Null)
    requires Shape(conversation, spec, true, calls)
    ensures Replayed(spec, FromSteps(Steps(turns, finalText, output)), Stored(conversation))
        == Some(LiveResult(turns, finalText, output, conversation, calls))
  {
    ReplayInvertsRun(spec, turns, finalText, output, conversation, true, calls, calls);
    assert Recovers(spec, turns, finalText, output, true, calls, calls);
  }

  lemma {:induction false} AnswerRecovered(spec: AgentSpec, turns: nat, finalText: string, output: Json)
    requires 0 < turns <= TurnBound(spec) && (spec.hasOutputSchema || output == Null)
    ensures var journal := FromSteps(Steps(turns, finalText, output));
      TextOf(journal[Found(spec, journal) - 1]) == finalText && OutputOf(spec, journal[Found(spec, journal) - 1]) == output
  {
    GapOfSteps(Steps(turns, finalText, output));
  }
}
