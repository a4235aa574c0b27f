/**
 * What the JSONL reader makes of a line: the blocks it keeps, each with its own content, and where they go.
 */
module JsonlContent {
  import opened Options
  import opened Sequences
  import opened Json
  import opened Transcript
  import opened AnthropicTranscript
  import opened JsonlTranscript
  import opened DerivationAgreement

  /** A block of a line, what stands before it in its line, and what stands in earlier lines. */
  datatype Spot = Spot(earlier: seq<Block>, before: seq<Block>, block: Block)

  function Spots(earlier: seq<Block>, blocks: seq<Block>): seq<Spot> {
    seq(|blocks|, b requires 0 <= b < |blocks| => Spot(earlier, blocks[..b], blocks[b]))
  }

  predicate HasUnsanctioned(blocks: seq<Block>, id: string, policy: Policy) {
    exists b :: 0 <= b < |blocks| && IsUnsanctioned(blocks[b], id, policy)
  }

  predicate IsUnsanctioned(b: Block, id: string, policy: Policy) { IsCall(b) && b.id == id && !IsSanctionedTool(b.name, policy) }
  predicate IsSanctioned(b: Block, id: string, policy: Policy) { IsCall(b) && b.id == id && IsSanctionedTool(b.name, policy) }

  ghost predicate IsFirst(blocks: seq<Block>, b: nat, id: string, policy: Policy) {
    b < |blocks| && IsSanctioned(blocks[b], id, policy) && forall c | 0 <= c < b :: !IsSanctioned(blocks[c], id, policy)
  }

  /** The name of the first sanctioned call with an id, if there is one. */
  ghost predicate IsFirstName(blocks: seq<Block>, id: string, name: Option<string>, policy: Policy) {
    if name.None? then forall b | 0 <= b < |blocks| :: !IsSanctioned(blocks[b], id, policy)
    else exists b: nat :: IsFirst(blocks, b, id, policy) && blocks[b].name == name.value
  }

  /**
   * Any text and reasoning, a sanctioned call, and a result whose id no unsanctioned call had before, in its line or
   * earlier, and, under an allowlist, a sanctioned call of an earlier line had.
   */
  predicate Stays(s: Spot, policy: Policy) {
    match s.block
    case TextBlock(text) => text.Some?
    case ThinkingBlock(thinking) => thinking.Some?
    case ToolUse(id, name, _) => id != "" && name != "" && IsSanctionedTool(name, policy)
    case ToolResultBlock(id, _) =>
      && id != "" && !HasUnsanctioned(s.earlier, id, policy) && !HasUnsanctioned(s.before, id, policy)
      && (policy.NoQuarantine? || exists b :: 0 <= b < |s.earlier| && IsSanctioned(s.earlier[b], id, policy))
    case OtherBlock => false
  }

  ghost predicate IsImage(s: Spot, part: Part, policy: Policy, normalize: Normalize) {
    match s.block
    case TextBlock(text) => text.Some? && part == TextPart(text.value)
    case ThinkingBlock(thinking) => thinking.Some? && part == ReasoningPart(thinking.value)
    case ToolUse(id, name, input) => part == ToolCall(id, name, if input.Some? then input.value else Null)
    case ToolResultBlock(id, content) =>
      && part.ToolResult? && part.callId == id && part.result == normalize(content)
      && (IsFirstName(s.earlier, id, Some(part.name), policy) || (part.name == "tool" && IsFirstName(s.earlier, id, None, policy)))
    case OtherBlock => false
  }

  function StaysUnder(policy: Policy): Spot -> bool { (s: Spot) => Stays(s, policy) }
  ghost function ImageUnder(policy: Policy, normalize: Normalize): (Spot, Part) -> bool { (s: Spot, part: Part) => IsImage(s, part, policy, normalize) }

  predicate IsResultPart(p: Part) { p.ToolResult? }
  predicate IsOtherPart(p: Part) { !p.ToolResult? }
  predicate Same(p: Part, q: Part) { p == q }

  lemma {:induction false} QuarantinedIff(blocks: seq<Block>, id: string, policy: Policy)
    ensures id in Quarantined({}, blocks, policy) <==> HasUnsanctioned(blocks, id, policy)
    decreases |blocks|
  {
    if blocks != [] {
      var n := |blocks| - 1;
      QuarantinedIff(blocks[..n], id, policy);
      assert forall b | 0 <= b < n :: blocks[..n][b] == blocks[b];
      assert HasUnsanctioned(blocks, id, policy) <==> HasUnsanctioned(blocks[..n], id, policy) || IsUnsanctioned(blocks[n], id, policy);
    }
  }

  lemma {:induction false} QuarantinedInLine(earlier: seq<Block>, before: seq<Block>, id: string, policy: Policy)
    ensures id in Quarantined(Quarantined({}, earlier, policy), before, policy) <==>
      HasUnsanctioned(earlier, id, policy) || HasUnsanctioned(before, id, policy)
  {
    QuarantinedConcat({}, earlier, before, policy);
    QuarantinedIff(earlier + before, id, policy);
    var all := earlier + before;
    assert forall b | 0 <= b < |before| :: all[|earlier| + b] == before[b];
    if HasUnsanctioned(all, id, policy) {
      var b :| 0 <= b < |all| && IsUnsanctioned(all[b], id, policy);
      assert b < |earlier| || before[b - |earlier|] == all[b];
    }
    if HasUnsanctioned(before, id, policy) {
      var b :| 0 <= b < |before| && IsUnsanctioned(before[b], id, policy);
      assert IsUnsanctioned(all[|earlier| + b], id, policy);
    }
    if HasUnsanctioned(earlier, id, policy) {
      var b :| 0 <= b < |earlier| && IsUnsanctioned(earlier[b], id, policy);
      assert IsUnsanctioned(all[b], id, policy);
    }
  }

  lemma {:induction false} CallInIsFirst(blocks: seq<Block>, id: string, policy: Policy)
    ensures IsFirstName(blocks, id, CallIn(blocks, id, policy), policy)
    decreases |blocks|
  {
    if blocks != [] {
      var n := |blocks| - 1;
      CallInIsFirst(blocks[..n], id, policy);
      assert forall b | 0 <= b < n :: blocks[..n][b] == blocks[b];
      if CallIn(blocks[..n], id, policy).Some? {
        var b: nat :| IsFirst(blocks[..n], b, id, policy) && blocks[..n][b].name == CallIn(blocks[..n], id, policy).value;
        assert IsFirst(blocks, b, id, policy);
      } else if IsSanctioned(blocks[n], id, policy) {
        assert IsFirst(blocks, n, id, policy);
      }
    }
  }

  /** A block adds its one image, exactly when it stays. */
  lemma {:induction false} BlockAdds(calls: seq<Part>, earlier: seq<Block>, before: seq<Block>, block: Block, policy: Policy, normalize: Normalize)
    returns (x: Part)
    requires Names(calls, earlier, policy)
    ensures var q := Quarantined(Quarantined({}, earlier, policy), before, policy);
      LinePart(calls, q, block, policy, normalize) == if Stays(Spot(earlier, before, block), policy) then [x] else []
    ensures Stays(Spot(earlier, before, block), policy) ==> IsImage(Spot(earlier, before, block), x, policy, normalize)
  {
    x := TextPart("");
    match block
    case TextBlock(text) => if text.Some? { x := TextPart(text.value); }
    case ThinkingBlock(thinking) => if thinking.Some? { x := ReasoningPart(thinking.value); }
    case ToolUse(id, name, input) => x := ToolCall(id, name, if input.Some? then input.value else Null);
    case ToolResultBlock(id, content) =>
      x := ToolResult(id, ToolNameForCall(calls, id), normalize(content));
      QuarantinedInLine(earlier, before, id, policy);
      CallInIsFirst(earlier, id, policy);
      CallInIsSanctioned(earlier, id, policy);
      assert FirstCallName(calls, id) == CallIn(earlier, id, policy);
    case OtherBlock =>
  }

  lemma {:induction false} SpotsSnoc(earlier: seq<Block>, blocks: seq<Block>, block: Block)
    ensures Spots(earlier, blocks + [block]) == Spots(earlier, blocks) + [Spot(earlier, blocks, block)]
  {
    assert (blocks + [block])[..|blocks|] == blocks;
    assert forall b | 0 <= b < |blocks| :: (blocks + [block])[..b] == blocks[..b];
  }

  lemma {:induction false} LinePartsSnoc(calls: seq<Part>, q: set<string>, blocks: seq<Block>, block: Block, policy: Policy, normalize: Normalize)
    ensures LineParts(calls, q, blocks + [block], policy, normalize) ==
      LineParts(calls, q, blocks, policy, normalize) + LinePart(calls, Quarantined(q, blocks, policy), block, policy, normalize)
  {
    assert (blocks + [block])[..|blocks|] == blocks;
  }

  ghost predicate LineRecord(earlier: seq<Block>, blocks: seq<Block>, ks: seq<nat>, parts: seq<Part>, policy: Policy, normalize: Normalize) {
    IsRecord(Spots(earlier, blocks), ks, parts, StaysUnder(policy), ImageUnder(policy, normalize))
  }

  lemma {:induction false} NextBlock(calls: seq<Part>, earlier: seq<Block>, blocks: seq<Block>, block: Block, ks: seq<nat>, parts: seq<Part>, policy: Policy, normalize: Normalize)
    returns (ks': seq<nat>)
    requires Names(calls, earlier, policy) && LineRecord(earlier, blocks, ks, parts, policy, normalize)
    ensures LineRecord(earlier, blocks + [block], ks',
      parts + LinePart(calls, Quarantined(Quarantined({}, earlier, policy), blocks, policy), block, policy, normalize), policy, normalize)
  {
    var x := BlockAdds(calls, earlier, blocks, block, policy, normalize);
    var s := Spot(earlier, blocks, block);
    SpotsSnoc(earlier, blocks, block);
    if StaysUnder(policy)(s) {
      ks' := ks + [|blocks|];
      RecordGrows(Spots(earlier, blocks), s, ks, parts, x, StaysUnder(policy), ImageUnder(policy, normalize));
    } else {
      ks' := ks;
      RecordSkips(Spots(earlier, blocks), s, ks, parts, StaysUnder(policy), ImageUnder(policy, normalize));
      assert parts + [] == parts;
    }
  }

  lemma {:induction false} PartsOfLine(calls: seq<Part>, earlier: seq<Block>, blocks: seq<Block>, policy: Policy, normalize: Normalize) returns (ks: seq<nat>)
    requires Names(calls, earlier, policy)
    ensures LineRecord(earlier, blocks, ks, LineParts(calls, Quarantined({}, earlier, policy), blocks, policy, normalize), policy, normalize)
    decreases |blocks|
  {
    ks := [];
    if blocks != [] {
      var before, block := blocks[..|blocks| - 1], blocks[|blocks| - 1];
      assert before + [block] == blocks;
      ks := PartsOfLine(calls, earlier, before, policy, normalize);
      LinePartsSnoc(calls, Quarantined({}, earlier, policy), before, block, policy, normalize);
      ks := NextBlock(calls, earlier, before, block, ks, LineParts(calls, Quarantined({}, earlier, policy), before, policy, normalize), policy, normalize);
    }
  }

  lemma {:induction false} SplitInOrder(parts: seq<Part>) returns (rs: seq<nat>, os: seq<nat>)
    ensures IsRecord(parts, rs, Results(parts), IsResultPart, Same) && IsRecord(parts, os, Others(parts), IsOtherPart, Same)
    decreases |parts|
  {
    rs, os := [], [];
    if parts != [] {
      var before, last := parts[..|parts| - 1], parts[|parts| - 1];
      assert before + [last] == parts;
      rs, os := SplitInOrder(before);
      if IsResultPart(last) {
        RecordGrows(before, last, rs, Results(before), last, IsResultPart, Same);
        RecordSkips(before, last, os, Others(before), IsOtherPart, Same);
        rs := rs + [|before|];
      } else {
        RecordSkips(before, last, rs, Results(before), IsResultPart, Same);
        RecordGrows(before, last, os, Others(before), last, IsOtherPart, Same);
        os := os + [|before|];
      }
    }
  }

  lemma {:induction false} NamesRead(lines: seq<Line>, policy: Policy, normalize: Normalize)
    ensures Names(AllParts(ReadLines(lines, policy, normalize).turns), Blocks(MessagesOf(lines)), policy)
    ensures ReadLines(lines, policy, normalize).quarantinedIds == Quarantined({}, Blocks(MessagesOf(lines)), policy)
  {
    JsonlToolsRead(lines, policy, normalize);
    AgreeUpTo(MessagesOf(lines), policy, normalize);
    forall id ensures FirstCallName(AllParts(ReadLines(lines, policy, normalize).turns), id) == CallIn(Blocks(MessagesOf(lines)), id, policy) {
      FirstCallOfToolParts(AllParts(ReadLines(lines, policy, normalize).turns), id);
    }
  }

  /**
   * What one more line adds, whatever the lines before it: a line of a user or an assistant its kept blocks, in order,
   * in one turn of its sender; on a user's line the results go to a tool turn behind the rest. Other lines add nothing.
   */
  lemma {:induction false} LineIsRead(lines: seq<Line>, line: Line, policy: Policy, normalize: Normalize)
    returns (ks: seq<nat>, parts: seq<Part>, rs: seq<nat>, results: seq<Part>, os: seq<nat>, others: seq<Part>)
    ensures line.Line? ==> LineRecord(Blocks(MessagesOf(lines)), line.content, ks, parts, policy, normalize)
    ensures IsRecord(parts, rs, results, IsResultPart, Same) && IsRecord(parts, os, others, IsOtherPart, Same)
    ensures var turns := ReadLines(lines, policy, normalize).turns;
      ReadLines(lines + [line], policy, normalize).turns ==
        if !line.Line? || !line.role.By? then turns
        else if line.role.sender == FromUser && results != [] then Push(Push(turns, User, others), Tool, results)
        else Push(turns, if line.role.sender == FromUser then User else Assistant, parts)
  {
    var r := ReadLines(lines, policy, normalize);
    assert (lines + [line])[..|lines|] == lines;
    ks, parts := [], [];
    if line.Line? {
      NamesRead(lines, policy, normalize);
      ks := PartsOfLine(AllParts(r.turns), Blocks(MessagesOf(lines)), line.content, policy, normalize);
      parts := LineParts(AllParts(r.turns), r.quarantinedIds, line.content, policy, normalize);
    }
    rs, os := SplitInOrder(parts);
    results, others := Results(parts), Others(parts);
  }
}
