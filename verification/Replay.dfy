/**
 * What the adapters share on replay: the trusted system turn is put back in front of the transcript
 * that the store returned.
 */
module Replay {
  import opened Options
  import opened Json
  import opened Transcript
  import opened ConversationStore

  /** What a run reports, as far as a replay rebuilds it. */
  datatype RunResult = RunResult(finalText: string, output: Json, conversation: seq<Turn>, stepCount: nat)

  /** The adapters' tests for "this head is the platform's own system turn, downgraded". */
  datatype HeadTest = OpenAi | Codex | AnthropicOrPi

  predicate IsOneText(turn: Turn) { turn.role == User && |turn.parts| == 1 && turn.parts[0].TextPart? }

  predicate IsStrippedHead(test: HeadTest, spec: AgentSpec, head: Turn) {
    match test
    case OpenAi => IsOneText(head) && head.parts[0].text == spec.instructions
    case Codex => (IsOneText(head) && head.parts[0].text == spec.instructions) || head.role == System
    case AnthropicOrPi => IsOneText(head) || head.role == System
  }

  function Reindexed(turns: seq<Turn>): seq<Turn> {
    seq(|turns|, i requires 0 <= i < |turns| => turns[i].(index := i + 1))
  }

  /** The head is dropped if it passes the test; the trusted system turn goes first; the rest is renumbered. */
  function ReattachTrustedSystemTurn(test: HeadTest, spec: AgentSpec, rehydrated: seq<Turn>): seq<Turn> {
    var rest := if rehydrated != [] && IsStrippedHead(test, spec, rehydrated[0]) then rehydrated[1..] else rehydrated;
    [SystemTurn(spec)] + Reindexed(rest)
  }

  /** A transcript that opens with the trusted instructions and has no other system turn. */
  predicate OpensTrusted(turns: seq<Turn>, spec: AgentSpec) {
    && turns != [] && turns[0] == SystemTurn(spec)
    && WellIndexed(turns)
    && (forall i | 1 <= i < |turns| :: turns[i].role != System)
    && (forall i | 0 <= i < |turns| :: turns[i].parts != [])
  }

  /** Whatever the store holds, a replayed transcript has exactly one system turn, the trusted one, in front. */
  lemma {:induction false} ReplayTranscriptIsTrusted(test: HeadTest, spec: AgentSpec, rows: seq<Row>)
    ensures OpensTrusted(ReattachTrustedSystemTurn(test, spec, Rehydrated(rows)), spec)
  {
    RehydratedIsSafe(rows);
  }

  /** Reattaching undoes the downgrade. */
  lemma {:induction false} ReattachUndoesDowngrade(test: HeadTest, spec: AgentSpec, turns: seq<Turn>)
    requires OpensTrusted(turns, spec)
    ensures ReattachTrustedSystemTurn(test, spec, Downgraded(turns)) == turns
  {
    var back := ReattachTrustedSystemTurn(test, spec, Downgraded(turns));
    assert Downgraded(turns)[0] == Turn(User, 0, [TextPart(spec.instructions)]);
    assert |back| == |turns|;
    forall i | 0 <= i < |turns| ensures back[i] == turns[i] {
      if i > 0 {
        assert back[i] == Downgraded(turns)[1..][i - 1].(index := i);
      }
    }
  }

  /** Storing, reading back and reattaching gives a sound transcript again. */
  lemma {:induction false} ReplayedTranscript(test: HeadTest, spec: AgentSpec, turns: seq<Turn>)
    requires OpensTrusted(turns, spec) && AllValid(turns)
    ensures ReattachTrustedSystemTurn(test, spec, Rehydrated(Stored(turns))) == turns
  {
    StoreRoundTrip(turns);
    ReattachUndoesDowngrade(test, spec, turns);
  }

  /** A transcript with a part the store refuses does not come back. */
  lemma {:induction false} InvalidTranscriptIsLost(test: HeadTest, spec: AgentSpec, turns: seq<Turn>)
    requires OpensTrusted(turns, spec) && !AllValid(turns)
    ensures ReattachTrustedSystemTurn(test, spec, Rehydrated(Stored(turns))) != turns
  {
    var rehydrated := Rehydrated(Stored(turns));
    RehydratedIsSafe(Stored(turns));
    var back := ReattachTrustedSystemTurn(test, spec, rehydrated);
    forall i, j | 0 <= i < |back| && 0 <= j < |back[i].parts| ensures ValidPart(back[i].parts[j]) {
      if i > 0 {
        var rest := if rehydrated != [] && IsStrippedHead(test, spec, rehydrated[0]) then rehydrated[1..] else rehydrated;
        assert rest[i - 1] in rehydrated;
      }
    }
    if back == turns {
      assert AllValid(turns);
      assert false;
    }
  }

  /** A run replays its transcript exactly when every tool part has an id and a name. */
  lemma {:induction false} TranscriptReplays(test: HeadTest, spec: AgentSpec, turns: seq<Turn>)
    requires OpensTrusted(turns, spec)
    ensures ReattachTrustedSystemTurn(test, spec, Rehydrated(Stored(turns))) == turns <==> AllValid(turns)
  {
    if AllValid(turns) {
      ReplayedTranscript(test, spec, turns);
    } else {
      InvalidTranscriptIsLost(test, spec, turns);
    }
  }

  /** Pushing a non-system turn keeps a transcript's opening. */
  lemma {:induction false} OpensTrustedPush(turns: seq<Turn>, spec: AgentSpec, role: Role, parts: seq<Part>)
    requires OpensTrusted(turns, spec) && role != System
    ensures OpensTrusted(Push(turns, role, parts), spec)
  {
  }

  lemma {:induction false} AllValidPush(turns: seq<Turn>, role: Role, parts: seq<Part>)
    ensures AllValid(Push(turns, role, parts)) <==> AllValid(turns) && forall j | 0 <= j < |parts| :: ValidPart(parts[j])
  {
    var grown := Push(turns, role, parts);
    if AllValid(grown) {
      forall i, j | 0 <= i < |turns| && 0 <= j < |turns[i].parts| ensures ValidPart(turns[i].parts[j]) {
        assert grown[i].parts[j] == turns[i].parts[j];
      }
      if parts != [] {
        assert grown[|turns|].parts == parts;
      }
    }
  }

  lemma {:induction false} CountPush(turns: seq<Turn>, role: Role, part: Part)
    ensures CountCalls(AllParts(Push(turns, role, [part]))) == CountCalls(AllParts(turns)) + if part.ToolCall? then 1 else 0
  {
    AllPartsPush(turns, role, [part]);
    assert (AllParts(turns) + [part])[..|AllParts(turns)|] == AllParts(turns);
  }

  /** All that replaying a transcript depends on: its opening, whether it is storable, its calls. */
  predicate Shape(turns: seq<Turn>, spec: AgentSpec, valid: bool, calls: nat) {
    OpensTrusted(turns, spec) && AllValid(turns) == valid && CountCalls(AllParts(turns)) == calls
  }

  lemma {:induction false} ShapePush(turns: seq<Turn>, spec: AgentSpec, valid: bool, calls: nat, role: Role, part: Part)
    requires Shape(turns, spec, valid, calls) && role != System
    ensures Shape(Push(turns, role, [part]), spec, valid && ValidPart(part), calls + if part.ToolCall? then 1 else 0)
  {
    OpensTrustedPush(turns, spec, role, [part]);
    AllValidPush(turns, role, [part]);
    CountPush(turns, role, part);
    assert [part][0] == part;
  }

  lemma {:induction false} SystemTurnParts(spec: AgentSpec)
    ensures AllParts([SystemTurn(spec)]) == [TextPart(spec.instructions)]
    ensures CountCalls([TextPart(spec.instructions)]) == 0
  {
    assert [SystemTurn(spec)][..0] == [];
    assert [TextPart(spec.instructions)][..0] == [];
  }

  lemma {:induction false} ShapeSystem(spec: AgentSpec)
    ensures Shape([SystemTurn(spec)], spec, true, 0)
  {
    SystemTurnParts(spec);
  }

  lemma {:induction false} ShapeOpening(spec: AgentSpec)
    ensures Shape([SystemTurn(spec), InputTurn(spec)], spec, true, 0)
  {
    ShapeSystem(spec);
    ShapePush([SystemTurn(spec)], spec, true, 0, User, TextPart(spec.input));
    assert [SystemTurn(spec), InputTurn(spec)] == Push([SystemTurn(spec)], User, [TextPart(spec.input)]);
  }

  // ---- journals by step number --------------------------------------------------------------------------

  lemma {:induction false} RangeFits(keys: set<nat>, n: nat)
    requires forall k: nat | k < n :: k in keys
    ensures n <= |keys|
    decreases n
  {
    if n > 0 {
      var rest := keys - {n - 1};
      forall k: nat | k < n - 1 ensures k in rest {}
      RangeFits(rest, n - 1);
    }
  }

  /** The first step number at or after `i` that the journal lacks. */
  function Gap<T>(journal: map<nat, T>, i: nat): (g: nat)
    requires forall k: nat | k < i :: k in journal
    ensures i <= g && g !in journal && forall k: nat | k < g :: k in journal
    decreases |journal.Keys| - i
  {
    if i !in journal then i
    else
      RangeFits(journal.Keys, i + 1);
      Gap(journal, i + 1)
  }

  /** A journal holding these steps under 0, 1, 2, ... */
  function FromSteps<T>(steps: seq<T>): (journal: map<nat, T>)
    ensures forall k: nat :: k in journal <==> k < |steps|
    ensures forall k: nat | k < |steps| :: journal[k] == steps[k]
  {
    if steps == [] then map[]
    else
      var n := |steps| - 1;
      FromSteps(steps[..n])[n := steps[n]]
  }

  lemma {:induction false} FromStepsSnoc<T>(steps: seq<T>, i: nat)
    requires i < |steps|
    ensures FromSteps(steps[..i + 1]) == FromSteps(steps[..i])[i := steps[i]]
  {
    assert steps[..i + 1][..i] == steps[..i];
  }

  lemma {:induction false} GapOfSteps<T>(steps: seq<T>)
    ensures Gap(FromSteps(steps), 0) == |steps|
  {
    assert |steps| !in FromSteps(steps);
  }
}
