/**
 * The neutral transcript: turns of typed parts, the unit that is stored, read back and replayed.
 */
module Transcript {
  import opened Options
  import opened Json

  datatype Role = System | User | Assistant | Tool

  datatype Part =
    | TextPart(text: string)
    | ReasoningPart(text: string)
    | ToolCall(callId: string, name: string, args: Json)
    | ToolResult(callId: string, name: string, result: Json)
    | OutputPart(value: Json)
    | ErrorPart(message: string)

  datatype Turn = Turn(role: Role, index: nat, parts: seq<Part>)

  /** What an adapter runs: the trusted instructions and input, and what bounds and shapes the run. */
  datatype AgentSpec = AgentSpec(instructions: string, input: string, hasOutputSchema: bool, maxTurns: int)

  /** Append a turn at the next index; a turn without parts is not appended. */
  function Push(turns: seq<Turn>, role: Role, parts: seq<Part>): seq<Turn> {
    if parts == [] then turns else turns + [Turn(role, |turns|, parts)]
  }

  /** Turn indices are positions. */
  predicate WellIndexed(turns: seq<Turn>) {
    forall i | 0 <= i < |turns| :: turns[i].index == i
  }

  function SystemTurn(spec: AgentSpec): Turn { Turn(System, 0, [TextPart(spec.instructions)]) }
  function InputTurn(spec: AgentSpec): Turn { Turn(User, 1, [TextPart(spec.input)]) }

  /** The parts of a transcript in order. */
  function AllParts(turns: seq<Turn>): seq<Part> {
    if turns == [] then [] else AllParts(turns[..|turns| - 1]) + turns[|turns| - 1].parts
  }

  predicate IsToolPart(p: Part) { p.ToolCall? || p.ToolResult? }

  function ToolParts(parts: seq<Part>): seq<Part> {
    if parts == [] then []
    else ToolParts(parts[..|parts| - 1]) + if IsToolPart(parts[|parts| - 1]) then [parts[|parts| - 1]] else []
  }

  /** The name of the first call with an id, or None when no call has it. */
  function FirstCallName(parts: seq<Part>, id: string): Option<string> {
    if parts == [] then None
    else
      var before := FirstCallName(parts[..|parts| - 1], id);
      var last := parts[|parts| - 1];
      if before.Some? then before
      else if last.ToolCall? && last.callId == id then Some(last.name) else None
  }

  /** How many calls a transcript records: one dispatched tool step each. */
  function CountCalls(parts: seq<Part>): nat {
    if parts == [] then 0
    else CountCalls(parts[..|parts| - 1]) + if parts[|parts| - 1].ToolCall? then 1 else 0
  }

  lemma {:induction false} AllPartsPush(turns: seq<Turn>, role: Role, parts: seq<Part>)
    ensures AllParts(Push(turns, role, parts)) == AllParts(turns) + parts
  {
    if parts != [] {
      assert Push(turns, role, parts)[..|turns|] == turns;
    }
  }

  lemma {:induction false} ToolPartsAppend(a: seq<Part>, b: seq<Part>)
    ensures ToolParts(a + b) == ToolParts(a) + ToolParts(b)
    decreases |b|
  {
    if b == [] {
      assert a + b == a;
    } else {
      assert (a + b)[..|a + b| - 1] == a + b[..|b| - 1];
      ToolPartsAppend(a, b[..|b| - 1]);
    }
  }

  /** Only the tool parts of a transcript decide which call a result belongs to. */
  lemma {:induction false} FirstCallOfToolParts(parts: seq<Part>, id: string)
    ensures FirstCallName(ToolParts(parts), id) == FirstCallName(parts, id)
    decreases |parts|
  {
    if parts != [] {
      var n := |parts| - 1;
      FirstCallOfToolParts(parts[..n], id);
      assert ToolParts(parts) == ToolParts(parts[..n]) + if IsToolPart(parts[n]) then [parts[n]] else [];
      if IsToolPart(parts[n]) {
        FirstCallAppend(ToolParts(parts[..n]), parts[n], id);
      } else {
        assert ToolParts(parts) == ToolParts(parts[..n]);
      }
    }
  }

  lemma {:induction false} FirstCallAppend(parts: seq<Part>, p: Part, id: string)
    ensures FirstCallName(parts + [p], id) ==
      if FirstCallName(parts, id).Some? then FirstCallName(parts, id)
      else if p.ToolCall? && p.callId == id then Some(p.name) else None
  {
    assert (parts + [p])[..|parts|] == parts;
  }

  lemma {:induction false} FirstCallConcat(a: seq<Part>, b: seq<Part>, id: string)
    ensures FirstCallName(a + b, id) == if FirstCallName(a, id).Some? then FirstCallName(a, id) else FirstCallName(b, id)
    decreases |b|
  {
    if b == [] {
      assert a + b == a;
    } else {
      assert (a + b)[..|a + b| - 1] == a + b[..|b| - 1];
      FirstCallConcat(a, b[..|b| - 1], id);
    }
  }

  /** A first call's name is the name of a call at some position, and no call with the id precedes it. */
  lemma {:induction false} FirstCallIsFirst(parts: seq<Part>, id: string)
    ensures FirstCallName(parts, id).Some? <==> exists k :: 0 <= k < |parts| && parts[k].ToolCall? && parts[k].callId == id
    ensures FirstCallName(parts, id).Some? ==>
      exists k :: 0 <= k < |parts| && parts[k].ToolCall? && parts[k].callId == id && parts[k].name == FirstCallName(parts, id).value
        && forall m | 0 <= m < k :: !(parts[m].ToolCall? && parts[m].callId == id)
    decreases |parts|
  {
    if parts != [] {
      var n := |parts| - 1;
      FirstCallIsFirst(parts[..n], id);
      if FirstCallName(parts[..n], id).Some? {
        var k :| 0 <= k < n && parts[..n][k].ToolCall? && parts[..n][k].callId == id
          && parts[..n][k].name == FirstCallName(parts[..n], id).value
          && forall m | 0 <= m < k :: !(parts[..n][m].ToolCall? && parts[..n][m].callId == id);
        assert parts[k].ToolCall? && parts[k].callId == id;
        forall m | 0 <= m < k ensures !(parts[m].ToolCall? && parts[m].callId == id) { assert parts[m] == parts[..n][m]; }
      } else {
        forall m | 0 <= m < n ensures !(parts[m].ToolCall? && parts[m].callId == id) { assert parts[m] == parts[..n][m]; }
      }
    }
  }

  // ---- transcripts of one part a turn -------------------------------------------------------------------

  /** A part and who said it. */
  datatype Said = Said(role: Role, part: Part)

  /** One turn each, at the positions from `start` on. */
  function TurnsOf(said: seq<Said>, start: nat): seq<Turn> {
    seq(|said|, i requires 0 <= i < |said| => Turn(said[i].role, start + i, [said[i].part]))
  }

  /** What opens a transcript: the trusted instructions, then the trusted input. */
  function Opening(spec: AgentSpec): seq<Turn> {
    [Turn(System, 0, [TextPart(spec.instructions)]), Turn(User, 1, [TextPart(spec.input)])]
  }

  lemma {:induction false} TurnsOfSnoc(opening: seq<Turn>, said: seq<Said>, x: Said)
    ensures Push(opening + TurnsOf(said, |opening|), x.role, [x.part]) == opening + TurnsOf(said + [x], |opening|)
  {
  }
}
