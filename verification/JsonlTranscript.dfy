/**
 * The second re-derivation of the transcript, from the session's JSONL lines: one turn (or two) per
 * line instead of one per block, and correlation only with calls of earlier lines.
 */
module JsonlTranscript {
  import opened Options
  import opened Json
  import opened Transcript
  import opened AnthropicTranscript

  datatype LineRole = NoRole | SystemLine | By(sender: Sender)

  /**
   * A line of the file: not parseable, or a role and content blocks. A broken one makes the reader throw: the JSON
   * value `null`, or a user's or assistant's message with a `null` among its blocks; `content` has the others.
   */
  datatype Line = Unreadable | Line(role: LineRole, content: seq<Block>, broken: bool)

  datatype Reading = Reading(turns: seq<Turn>, quarantinedIds: set<string>)

  function RoleOf(sender: Sender): Role {
    if sender.FromUser? then User else Assistant
  }

  /** The parts of one line so far, given the turns of the earlier lines. */
  function LineParts(earlier: seq<Part>, quarantinedIds: set<string>, blocks: seq<Block>, policy: Policy, normalize: Normalize): seq<Part> {
    if blocks == [] then []
    else
      var n := |blocks| - 1;
      LineParts(earlier, quarantinedIds, blocks[..n], policy, normalize)
        + LinePart(earlier, Quarantined(quarantinedIds, blocks[..n], policy), blocks[n], policy, normalize)
  }

  function LinePart(earlier: seq<Part>, quarantinedIds: set<string>, block: Block, policy: Policy, normalize: Normalize): seq<Part> {
    match block
    case TextBlock(Some(text)) => [TextPart(text)]
    case ThinkingBlock(Some(thinking)) => [ReasoningPart(thinking)]
    case _ => Piece(earlier, quarantinedIds, block, policy, normalize)
  }

  /** The tool part a block contributes, with results correlated against `calls`. */
  function Piece(calls: seq<Part>, quarantinedIds: set<string>, block: Block, policy: Policy, normalize: Normalize): seq<Part> {
    match block
    case ToolUse(id, name, input) =>
      if IsCall(block) && IsSanctionedTool(name, policy) then [ToolCall(id, name, ArgsOf(input))] else []
    case ToolResultBlock(id, content) =>
      if IsResult(block) && KeepsResult(calls, quarantinedIds, id, policy)
      then [ToolResult(id, ToolNameForCall(calls, id), normalize(content))] else []
    case _ => []
  }

  /** The ids quarantined once these blocks were seen. */
  function Quarantined(quarantinedIds: set<string>, blocks: seq<Block>, policy: Policy): set<string> {
    if blocks == [] then quarantinedIds
    else
      var last := blocks[|blocks| - 1];
      Quarantined(quarantinedIds, blocks[..|blocks| - 1], policy)
        + if IsCall(last) && !IsSanctionedTool(last.name, policy) then {last.id} else {}
  }

  function Results(parts: seq<Part>): seq<Part> {
    if parts == [] then []
    else Results(parts[..|parts| - 1]) + if parts[|parts| - 1].ToolResult? then [parts[|parts| - 1]] else []
  }

  function Others(parts: seq<Part>): seq<Part> {
    if parts == [] then []
    else Others(parts[..|parts| - 1]) + if parts[|parts| - 1].ToolResult? then [] else [parts[|parts| - 1]]
  }

  /** The turns of one line: on a user line the results go to a tool turn, after everything else. */
  function PushLine(turns: seq<Turn>, sender: Sender, parts: seq<Part>): seq<Turn> {
    if Results(parts) != [] && sender.FromUser? then Push(Push(turns, User, Others(parts)), Tool, Results(parts))
    else Push(turns, RoleOf(sender), parts)
  }

  function ReadLine(r: Reading, line: Line, policy: Policy, normalize: Normalize): Reading {
    if !line.Line? || !line.role.By? then r
    else Reading(
      PushLine(r.turns, line.role.sender, LineParts(AllParts(r.turns), r.quarantinedIds, line.content, policy, normalize)),
      Quarantined(r.quarantinedIds, line.content, policy))
  }

  function ReadLines(lines: seq<Line>, policy: Policy, normalize: Normalize): Reading {
    if lines == [] then Reading([], {})
    else ReadLine(ReadLines(lines[..|lines| - 1], policy, normalize), lines[|lines| - 1], policy, normalize)
  }

  /** A broken line anywhere makes the reader give up the whole file. */
  predicate Breaks(lines: seq<Line>) { exists l :: 0 <= l < |lines| && lines[l].Line? && lines[l].broken }

  /** The turns read from a file. */
  function ReDerived(lines: seq<Line>, policy: Policy, normalize: Normalize): seq<Turn> {
    if Breaks(lines) then [] else ReadLines(lines, policy, normalize).turns
  }

  /** The messages a file records, with the blocks that can be read. */
  function MessagesOf(lines: seq<Line>): seq<Message> {
    if lines == [] then []
    else
      var last := lines[|lines| - 1];
      MessagesOf(lines[..|lines| - 1]) + if !last.Line? || !last.role.By? then [] else [Message(last.role.sender, last.content)]
  }

  /** Splitting the parts of a user line. */
  method SplitResults(parts: seq<Part>) returns (results: seq<Part>, others: seq<Part>)
    ensures results == Results(parts) && others == Others(parts)
  {
    results, others := [], [];
    for i := 0 to |parts|
      invariant results == Results(parts[..i]) && others == Others(parts[..i])
    {
      assert parts[..i + 1][..i] == parts[..i];
      if parts[i].ToolResult? { results := results + [parts[i]]; } else { others := others + [parts[i]]; }
    }
    assert parts[..|parts|] == parts;
  }

  /** The loop over a line's blocks. */
  method ReadBlocks(earlier: seq<Part>, quarantinedIds: set<string>, blocks: seq<Block>, policy: Policy, normalize: Normalize)
    returns (parts: seq<Part>, quarantinedIds': set<string>)
    ensures parts == LineParts(earlier, quarantinedIds, blocks, policy, normalize)
    ensures quarantinedIds' == Quarantined(quarantinedIds, blocks, policy)
  {
    parts, quarantinedIds' := [], quarantinedIds;
    for b := 0 to |blocks|
      invariant parts == LineParts(earlier, quarantinedIds, blocks[..b], policy, normalize)
      invariant quarantinedIds' == Quarantined(quarantinedIds, blocks[..b], policy)
    {
      assert blocks[..b + 1][..b] == blocks[..b];
      match blocks[b]
      case TextBlock(Some(text)) => parts := parts + [TextPart(text)];
      case ThinkingBlock(Some(thinking)) => parts := parts + [ReasoningPart(thinking)];
      case ToolUse(id, name, input) =>
        if id != "" && name != "" {
          if !IsSanctionedTool(name, policy) {
            quarantinedIds' := quarantinedIds' + {id};
          } else {
            parts := parts + [ToolCall(id, name, ArgsOf(input))];
          }
        }
      case ToolResultBlock(id, content) =>
        if id != "" && KeepsResult(earlier, quarantinedIds', id, policy) {
          parts := parts + [ToolResult(id, ToolNameForCall(earlier, id), normalize(content))];
        }
      case _ =>
    }
    assert blocks[..|blocks|] == blocks;
  }

  /** The loop over the lines. */
  method ReDeriveJsonl(lines: seq<Line>, policy: Policy, normalize: Normalize) returns (turns: seq<Turn>)
    ensures turns == ReDerived(lines, policy, normalize)
  {
    turns := [];
    var quarantinedIds: set<string> := {};
    for l := 0 to |lines|
      invariant Reading(turns, quarantinedIds) == ReadLines(lines[..l], policy, normalize)
      invariant !Breaks(lines[..l])
    {
      if lines[l].Line? && lines[l].broken { return []; }
      assert lines[..l + 1][..l] == lines[..l];
      if lines[l].Line? && lines[l].role.By? {
        var sender := lines[l].role.sender;
        var parts, q := ReadBlocks(AllParts(turns), quarantinedIds, lines[l].content, policy, normalize);
        var results, others := SplitResults(parts);
        if results != [] && sender == FromUser {
          turns := Push(Push(turns, User, others), Tool, results);
        } else {
          turns := Push(turns, RoleOf(sender), parts);
        }
        quarantinedIds := q;
      }
    }
    assert lines[..|lines|] == lines;
  }
}
