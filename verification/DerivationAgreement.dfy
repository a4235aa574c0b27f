/**
 * Stream and JSONL re-derivation compared: exactly when they give the same tool calls and results, in
 * the same order.
 */
module DerivationAgreement {
  import opened Options
  import opened Json
  import opened Transcript
  import opened AnthropicTranscript
  import opened JsonlTranscript
  import opened Sequences

  /** Everything said before a message. */
  function Blocks(messages: seq<Message>): seq<Block> {
    if messages == [] then [] else Blocks(messages[..|messages| - 1]) + messages[|messages| - 1].content
  }

  predicate IsSanctionedCall(b: Block, policy: Policy) { IsCall(b) && IsSanctionedTool(b.name, policy) }

  /** The name of the first sanctioned call with an id among some blocks. */
  function CallIn(blocks: seq<Block>, id: string, policy: Policy): Option<string> {
    if blocks == [] then None
    else
      var before := CallIn(blocks[..|blocks| - 1], id, policy);
      var last := blocks[|blocks| - 1];
      if before.Some? then before
      else if IsSanctionedCall(last, policy) && last.id == id then Some(last.name) else None
  }

  /** A result not quarantined when block `b` of a message is reached, `earlier` having been said before. */
  predicate LiveResult(earlier: seq<Block>, blocks: seq<Block>, b: nat, policy: Policy)
    requires b < |blocks|
  {
    IsResult(blocks[b]) && blocks[b].toolUseId !in Quarantined(Quarantined({}, earlier, policy), blocks[..b], policy)
  }

  /**
   * A result whose only earlier sanctioned call stands in its own message. The stream finds that call;
   * the JSONL reader, which looks in earlier lines only, drops the result, or without an allowlist
   * names it "tool".
   */
  predicate LateAt(earlier: seq<Block>, blocks: seq<Block>, b: nat, policy: Policy)
    requires b < |blocks|
  {
    && LiveResult(earlier, blocks, b, policy)
    && CallIn(earlier, blocks[b].toolUseId, policy).None?
    && var name := CallIn(blocks[..b], blocks[b].toolUseId, policy);
       name.Some? && (policy.Allow? || name.value != "tool")
  }

  /** A result that the JSONL reader keeps. */
  predicate KeptAt(earlier: seq<Block>, blocks: seq<Block>, b: nat, policy: Policy)
    requires b < |blocks|
  {
    LiveResult(earlier, blocks, b, policy) && (policy.NoQuarantine? || CallIn(earlier, blocks[b].toolUseId, policy).Some?)
  }

  predicate HasLate(earlier: seq<Block>, blocks: seq<Block>, policy: Policy) {
    exists b: nat :: b < |blocks| && LateAt(earlier, blocks, b, policy)
  }

  predicate HasKept(earlier: seq<Block>, blocks: seq<Block>, policy: Policy) {
    exists b: nat :: b < |blocks| && KeptAt(earlier, blocks, b, policy)
  }

  /** A kept result stands before a sanctioned call of the same message. */
  predicate ResultThenCall(earlier: seq<Block>, blocks: seq<Block>, policy: Policy) {
    exists c: nat :: c < |blocks| && IsSanctionedCall(blocks[c], policy) && HasKept(earlier, blocks[..c], policy)
  }

  /** Both readers make the same of a message. */
  predicate Agreeable(earlier: seq<Block>, msg: Message, policy: Policy) {
    !HasLate(earlier, msg.content, policy) && (msg.sender.FromUser? ==> !ResultThenCall(earlier, msg.content, policy))
  }

  // ---- tool parts only --------------------------------------------------------------------------

  /** The tool parts the stream derives from a message, after the tool parts `calls`. */
  function StreamPieces(calls: seq<Part>, quarantinedIds: set<string>, blocks: seq<Block>, policy: Policy, normalize: Normalize): seq<Part> {
    if blocks == [] then []
    else
      var n := |blocks| - 1;
      var before := StreamPieces(calls, quarantinedIds, blocks[..n], policy, normalize);
      before + Piece(calls + before, Quarantined(quarantinedIds, blocks[..n], policy), blocks[n], policy, normalize)
  }

  /** The tool parts the JSONL reader finds in a line, in block order. */
  function LinePieces(calls: seq<Part>, quarantinedIds: set<string>, blocks: seq<Block>, policy: Policy, normalize: Normalize): seq<Part> {
    if blocks == [] then []
    else
      var n := |blocks| - 1;
      LinePieces(calls, quarantinedIds, blocks[..n], policy, normalize)
        + Piece(calls, Quarantined(quarantinedIds, blocks[..n], policy), blocks[n], policy, normalize)
  }

  function Arranged(sender: Sender, parts: seq<Part>): seq<Part> {
    if sender.FromUser? then Others(parts) + Results(parts) else parts
  }

  function StreamTools(messages: seq<Message>, policy: Policy, normalize: Normalize): seq<Part> {
    if messages == [] then []
    else
      var n := |messages| - 1;
      var before := StreamTools(messages[..n], policy, normalize);
      before + StreamPieces(before, Quarantined({}, Blocks(messages[..n]), policy), messages[n].content, policy, normalize)
  }

  function JsonlTools(messages: seq<Message>, policy: Policy, normalize: Normalize): seq<Part> {
    if messages == [] then []
    else
      var n := |messages| - 1;
      var before := JsonlTools(messages[..n], policy, normalize);
      before + Arranged(messages[n].sender, LinePieces(before, Quarantined({}, Blocks(messages[..n]), policy), messages[n].content, policy, normalize))
  }

  lemma {:induction false} PieceDependsOnNames(a: seq<Part>, b: seq<Part>, quarantinedIds: set<string>, block: Block, policy: Policy, normalize: Normalize)
    requires IsResult(block) ==> FirstCallName(a, block.toolUseId) == FirstCallName(b, block.toolUseId)
    ensures Piece(a, quarantinedIds, block, policy, normalize) == Piece(b, quarantinedIds, block, policy, normalize)
  {
  }

  lemma {:induction false} QuarantinedConcat(quarantinedIds: set<string>, a: seq<Block>, b: seq<Block>, policy: Policy)
    ensures Quarantined(quarantinedIds, a + b, policy) == Quarantined(Quarantined(quarantinedIds, a, policy), b, policy)
    decreases |b|
  {
    if b == [] {
      assert a + b == a;
    } else {
      assert (a + b)[..|a + b| - 1] == a + b[..|b| - 1];
      QuarantinedConcat(quarantinedIds, a, b[..|b| - 1], policy);
    }
  }

  lemma {:induction false} CallInConcat(a: seq<Block>, b: seq<Block>, id: string, policy: Policy)
    ensures CallIn(a + b, id, policy) == if CallIn(a, id, policy).Some? then CallIn(a, id, policy) else CallIn(b, id, policy)
    decreases |b|
  {
    if b == [] {
      assert a + b == a;
    } else {
      assert (a + b)[..|a + b| - 1] == a + b[..|b| - 1];
      CallInConcat(a, b[..|b| - 1], id, policy);
    }
  }

  // ---- the stream and the lines, reduced to their tool parts ----------------------------------------

  /** What one block adds to the parts of the streamed transcript. */
  function StepPart(d: Derivation, e: Entry, policy: Policy, normalize: Normalize): seq<Part> {
    match e.block
    case TextBlock(Some(text)) => if e.sender.FromAssistant? then [TextPart(text)] else []
    case ThinkingBlock(Some(thinking)) => [ReasoningPart(thinking)]
    case _ => Piece(AllParts(d.turns), d.quarantinedIds, e.block, policy, normalize)
  }

  lemma {:induction false} StepTurns(d: Derivation, e: Entry, policy: Policy, normalize: Normalize)
    ensures exists role :: Step(d, e, policy, normalize).turns == Push(d.turns, role, StepPart(d, e, policy, normalize))
  {
    var role := if e.block.ToolResultBlock? then Tool else Assistant;
    assert Step(d, e, policy, normalize).turns == Push(d.turns, role, StepPart(d, e, policy, normalize));
  }

  lemma {:induction false} ToolPartsOne(part: seq<Part>)
    requires |part| <= 1
    ensures ToolParts(part) == if part != [] && IsToolPart(part[0]) then part else []
  {
    if part != [] {
      assert part[..0] == [] && [part[0]] == part;
      assert ToolParts(part) == ToolParts(part[..0]) + if IsToolPart(part[0]) then [part[0]] else [];
    }
  }

  lemma {:induction false} StepPartTools(d: Derivation, e: Entry, policy: Policy, normalize: Normalize)
    ensures ToolParts(StepPart(d, e, policy, normalize)) == Piece(AllParts(d.turns), d.quarantinedIds, e.block, policy, normalize)
  {
    ToolPartsOne(StepPart(d, e, policy, normalize));
  }

  lemma {:induction false} StepTools(d: Derivation, e: Entry, policy: Policy, normalize: Normalize)
    ensures ToolParts(AllParts(Step(d, e, policy, normalize).turns)) ==
      ToolParts(AllParts(d.turns)) + Piece(ToolParts(AllParts(d.turns)), d.quarantinedIds, e.block, policy, normalize)
  {
    var part := StepPart(d, e, policy, normalize);
    StepTurns(d, e, policy, normalize);
    var role :| Step(d, e, policy, normalize).turns == Push(d.turns, role, part);
    AllPartsPush(d.turns, role, part);
    ToolPartsAppend(AllParts(d.turns), part);
    StepPartTools(d, e, policy, normalize);
    if IsResult(e.block) {
      FirstCallOfToolParts(AllParts(d.turns), e.block.toolUseId);
    }
    PieceDependsOnNames(AllParts(d.turns), ToolParts(AllParts(d.turns)), d.quarantinedIds, e.block, policy, normalize);
  }

  lemma {:induction false} EntryTools(d: Derivation, entries: seq<Entry>, e: Entry, policy: Policy, normalize: Normalize)
    ensures var before, after := Derive(d, entries, policy, normalize), Derive(d, entries + [e], policy, normalize);
      && ToolParts(AllParts(after.turns)) ==
           ToolParts(AllParts(before.turns)) + Piece(ToolParts(AllParts(before.turns)), before.quarantinedIds, e.block, policy, normalize)
      && after.quarantinedIds == before.quarantinedIds + if IsCall(e.block) && !IsSanctionedTool(e.block.name, policy) then {e.block.id} else {}
  {
    var before := Derive(d, entries, policy, normalize);
    DeriveSnoc(d, entries, e, policy, normalize);
    StepTools(before, e, policy, normalize);
    StepQuarantine(before, e, policy, normalize);
  }

  lemma {:induction false} PiecesSnoc(calls: seq<Part>, quarantinedIds: set<string>, blocks: seq<Block>, block: Block, policy: Policy, normalize: Normalize)
    ensures var before, q := StreamPieces(calls, quarantinedIds, blocks, policy, normalize), Quarantined(quarantinedIds, blocks, policy);
      StreamPieces(calls, quarantinedIds, blocks + [block], policy, normalize) == before + Piece(calls + before, q, block, policy, normalize)
    ensures Quarantined(quarantinedIds, blocks + [block], policy) ==
      Quarantined(quarantinedIds, blocks, policy) + if IsCall(block) && !IsSanctionedTool(block.name, policy) then {block.id} else {}
  {
    assert (blocks + [block])[..|blocks|] == blocks;
  }

  /** From the tool parts and quarantine before some blocks to those after them. */
  predicate Tracks(calls: seq<Part>, quarantinedIds: set<string>, calls': seq<Part>, quarantinedIds': set<string>, blocks: seq<Block>, policy: Policy, normalize: Normalize) {
    && calls' == calls + StreamPieces(calls, quarantinedIds, blocks, policy, normalize)
    && quarantinedIds' == Quarantined(quarantinedIds, blocks, policy)
  }

  lemma {:induction false} TracksStep(calls: seq<Part>, q: set<string>, calls': seq<Part>, q': set<string>, blocks: seq<Block>, block: Block, policy: Policy, normalize: Normalize)
    requires Tracks(calls, q, calls', q', blocks, policy, normalize)
    ensures Tracks(calls, q, calls' + Piece(calls', q', block, policy, normalize),
                   q' + if IsCall(block) && !IsSanctionedTool(block.name, policy) then {block.id} else {}, blocks + [block], policy, normalize)
  {
    PiecesSnoc(calls, q, blocks, block, policy, normalize);
  }

  function ToolsOf(d: Derivation): seq<Part> { ToolParts(AllParts(d.turns)) }

  ghost predicate StreamTracks(d: Derivation, entries: seq<Entry>, blocks: seq<Block>, policy: Policy, normalize: Normalize) {
    var d' := Derive(d, entries, policy, normalize);
    Tracks(ToolsOf(d), d.quarantinedIds, ToolsOf(d'), d'.quarantinedIds, blocks, policy, normalize)
  }

  lemma {:induction false} MessageTools(d: Derivation, sender: Sender, blocks: seq<Block>, policy: Policy, normalize: Normalize)
    ensures StreamTracks(d, BlockEntries(sender, blocks), blocks, policy, normalize)
    decreases |blocks|
  {
    if blocks == [] {
      NothingTracks(d, BlockEntries(sender, blocks), policy, normalize);
    } else {
      MessageTools(d, sender, blocks[..|blocks| - 1], policy, normalize);
      LastBlockTools(d, sender, blocks, policy, normalize);
    }
  }

  lemma {:induction false} LastBlockTools(d: Derivation, sender: Sender, blocks: seq<Block>, policy: Policy, normalize: Normalize)
    requires blocks != [] && StreamTracks(d, BlockEntries(sender, blocks[..|blocks| - 1]), blocks[..|blocks| - 1], policy, normalize)
    ensures StreamTracks(d, BlockEntries(sender, blocks), blocks, policy, normalize)
  {
    var before, e := blocks[..|blocks| - 1], Entry(sender, blocks[|blocks| - 1]);
    assert BlockEntries(sender, blocks) == BlockEntries(sender, before) + [e];
    assert before + [e.block] == blocks;
    MessageToolsStep(d, BlockEntries(sender, before), before, e, policy, normalize);
  }

  lemma {:induction false} NothingTracks(d: Derivation, entries: seq<Entry>, policy: Policy, normalize: Normalize)
    requires entries == []
    ensures StreamTracks(d, entries, [], policy, normalize)
  {
    assert Derive(d, entries, policy, normalize) == d;
  }

  lemma {:induction false} MessageToolsStep(d: Derivation, entries: seq<Entry>, blocks: seq<Block>, e: Entry, policy: Policy, normalize: Normalize)
    requires StreamTracks(d, entries, blocks, policy, normalize)
    ensures StreamTracks(d, entries + [e], blocks + [e.block], policy, normalize)
  {
    var d' := Derive(d, entries, policy, normalize);
    EntryTools(d, entries, e, policy, normalize);
    TracksStep(ToolsOf(d), d.quarantinedIds, ToolsOf(d'), d'.quarantinedIds, blocks, e.block, policy, normalize);
  }

  lemma {:induction false} DeriveConcat(d: Derivation, a: seq<Entry>, b: seq<Entry>, policy: Policy, normalize: Normalize)
    ensures Derive(d, a + b, policy, normalize) == Derive(Derive(d, a, policy, normalize), b, policy, normalize)
    decreases |b|
  {
    if b == [] {
      assert a + b == a;
    } else {
      assert (a + b)[..|a + b| - 1] == a + b[..|b| - 1];
      DeriveConcat(d, a, b[..|b| - 1], policy, normalize);
    }
  }

  lemma {:induction false} NoToolsAtStart(spec: AgentSpec)
    ensures ToolParts(AllParts(Start(spec).turns)) == []
  {
    var system, input := TextPart(spec.instructions), TextPart(spec.input);
    assert [SystemTurn(spec)] == Push([], System, [system]);
    assert Start(spec).turns == Push([SystemTurn(spec)], User, [input]);
    AllPartsPush([], System, [system]);
    AllPartsPush([SystemTurn(spec)], User, [input]);
    ToolPartsAppend([system], [input]);
    assert [system][..0] == [] && [input][..0] == [];
  }

  lemma {:induction false} StreamToolsDerived(spec: AgentSpec, messages: seq<Message>, policy: Policy, normalize: Normalize)
    ensures var d := Derive(Start(spec), Entries(messages), policy, normalize);
      ToolParts(AllParts(d.turns)) == StreamTools(messages, policy, normalize) && d.quarantinedIds == Quarantined({}, Blocks(messages), policy)
    decreases |messages|
  {
    if messages == [] {
      NoToolsAtStart(spec);
    } else {
      var n := |messages| - 1;
      var msg := messages[n];
      StreamToolsDerived(spec, messages[..n], policy, normalize);
      DeriveConcat(Start(spec), Entries(messages[..n]), BlockEntries(msg.sender, msg.content), policy, normalize);
      MessageTools(Derive(Start(spec), Entries(messages[..n]), policy, normalize), msg.sender, msg.content, policy, normalize);
      QuarantinedConcat({}, Blocks(messages[..n]), msg.content, policy);
    }
  }

  lemma {:induction false} LinePartTools(earlier: seq<Part>, quarantinedIds: set<string>, block: Block, policy: Policy, normalize: Normalize)
    ensures ToolParts(LinePart(earlier, quarantinedIds, block, policy, normalize)) == Piece(ToolParts(earlier), quarantinedIds, block, policy, normalize)
  {
    ToolPartsOne(LinePart(earlier, quarantinedIds, block, policy, normalize));
    if IsResult(block) {
      FirstCallOfToolParts(earlier, block.toolUseId);
    }
    PieceDependsOnNames(earlier, ToolParts(earlier), quarantinedIds, block, policy, normalize);
  }

  lemma {:induction false} ToolPartsOfLine(earlier: seq<Part>, quarantinedIds: set<string>, blocks: seq<Block>, policy: Policy, normalize: Normalize)
    ensures ToolParts(LineParts(earlier, quarantinedIds, blocks, policy, normalize)) ==
      LinePieces(ToolParts(earlier), quarantinedIds, blocks, policy, normalize)
    decreases |blocks|
  {
    if blocks != [] {
      var n := |blocks| - 1;
      var q := Quarantined(quarantinedIds, blocks[..n], policy);
      ToolPartsOfLine(earlier, quarantinedIds, blocks[..n], policy, normalize);
      ToolPartsAppend(LineParts(earlier, quarantinedIds, blocks[..n], policy, normalize), LinePart(earlier, q, blocks[n], policy, normalize));
      LinePartTools(earlier, q, blocks[n], policy, normalize);
    }
  }

  lemma {:induction false} SplitSnoc(parts: seq<Part>, last: Part)
    ensures ToolParts(parts + [last]) == ToolParts(parts) + if IsToolPart(last) then [last] else []
    ensures Others(parts + [last]) == Others(parts) + if last.ToolResult? then [] else [last]
    ensures Results(parts + [last]) == Results(parts) + if last.ToolResult? then [last] else []
  {
    assert (parts + [last])[..|parts|] == parts;
  }

  /** Splitting off results commutes with keeping the tool parts only. */
  lemma {:induction false} SplitTools(parts: seq<Part>)
    ensures ToolParts(Others(parts)) == Others(ToolParts(parts))
    ensures ToolParts(Results(parts)) == Results(ToolParts(parts)) == Results(parts)
    decreases |parts|
  {
    if parts != [] {
      var n := |parts| - 1;
      var before, last := parts[..n], parts[n];
      SplitTools(before);
      assert before + [last] == parts;
      SplitSnoc(before, last);
      SplitSnoc(Others(before), last);
      SplitSnoc(Results(before), last);
      SplitSnoc(ToolParts(before), last);
      if last.ToolResult? {
        assert Others(parts) == Others(before);
      } else {
        assert Results(parts) == Results(before);
        assert Others(parts) == Others(before) + [last];
      }
      if !IsToolPart(last) {
        assert ToolParts(parts) == ToolParts(before);
        assert ToolParts(Others(parts)) == ToolParts(Others(before));
      }
    }
  }

  lemma {:induction false} NoResultsToSplit(parts: seq<Part>)
    requires Results(parts) == []
    ensures Others(parts) == parts
    decreases |parts|
  {
    if parts != [] {
      NoResultsToSplit(parts[..|parts| - 1]);
    }
  }

  lemma {:induction false} PushedTools(turns: seq<Turn>, role: Role, parts: seq<Part>)
    ensures ToolParts(AllParts(Push(turns, role, parts))) == ToolParts(AllParts(turns)) + ToolParts(parts)
  {
    AllPartsPush(turns, role, parts);
    ToolPartsAppend(AllParts(turns), parts);
  }

  lemma {:induction false} ArrangedWithoutResults(sender: Sender, parts: seq<Part>)
    requires Results(parts) == []
    ensures Arranged(sender, ToolParts(parts)) == ToolParts(parts)
  {
    SplitTools(parts);
    NoResultsToSplit(ToolParts(parts));
  }

  lemma {:induction false} PushedLineTools(turns: seq<Turn>, sender: Sender, parts: seq<Part>)
    ensures ToolParts(AllParts(PushLine(turns, sender, parts))) == ToolParts(AllParts(turns)) + Arranged(sender, ToolParts(parts))
  {
    if sender.FromUser? && Results(parts) != [] {
      PushedSplit(turns, parts);
    } else {
      PushedTools(turns, RoleOf(sender), parts);
      if sender.FromUser? {
        ArrangedWithoutResults(sender, parts);
      }
    }
  }

  lemma {:induction false} PushedSplit(turns: seq<Turn>, parts: seq<Part>)
    ensures ToolParts(AllParts(Push(Push(turns, User, Others(parts)), Tool, Results(parts)))) ==
      ToolParts(AllParts(turns)) + (Others(ToolParts(parts)) + Results(ToolParts(parts)))
  {
    SplitTools(parts);
    PushedTwice(turns, Others(parts), Results(parts));
  }

  lemma {:induction false} PushedTwice(turns: seq<Turn>, others: seq<Part>, results: seq<Part>)
    ensures ToolParts(AllParts(Push(Push(turns, User, others), Tool, results))) == ToolParts(AllParts(turns)) + (ToolParts(others) + ToolParts(results))
  {
    var pushed := Push(turns, User, others);
    PushedTools(turns, User, others);
    PushedTools(pushed, Tool, results);
    Associative(ToolParts(AllParts(turns)), ToolParts(others), ToolParts(results));
  }

  /** Reading one line of a file: what it adds to the tool parts. */
  lemma {:induction false} ReadLineTools(r: Reading, msg: Message, broken: bool, policy: Policy, normalize: Normalize)
    ensures ToolParts(AllParts(ReadLine(r, Line(By(msg.sender), msg.content, broken), policy, normalize).turns)) ==
      ToolParts(AllParts(r.turns))
        + Arranged(msg.sender, LinePieces(ToolParts(AllParts(r.turns)), r.quarantinedIds, msg.content, policy, normalize))
  {
    PushedLineTools(r.turns, msg.sender, LineParts(AllParts(r.turns), r.quarantinedIds, msg.content, policy, normalize));
    ToolPartsOfLine(AllParts(r.turns), r.quarantinedIds, msg.content, policy, normalize);
  }

  lemma {:induction false} JsonlToolsSnoc(messages: seq<Message>, msg: Message, policy: Policy, normalize: Normalize)
    ensures JsonlTools(messages + [msg], policy, normalize) ==
      var before := JsonlTools(messages, policy, normalize);
      before + Arranged(msg.sender, LinePieces(before, Quarantined({}, Blocks(messages), policy), msg.content, policy, normalize))
    ensures Blocks(messages + [msg]) == Blocks(messages) + msg.content
  {
    assert (messages + [msg])[..|messages|] == messages;
  }

  /** A reading's tool parts and quarantine are those of the messages read. */
  ghost predicate Read(r: Reading, messages: seq<Message>, policy: Policy, normalize: Normalize) {
    && ToolParts(AllParts(r.turns)) == JsonlTools(messages, policy, normalize)
    && r.quarantinedIds == Quarantined({}, Blocks(messages), policy)
  }

  lemma {:induction false} ReadLineReads(r: Reading, messages: seq<Message>, line: Line, policy: Policy, normalize: Normalize)
    requires Read(r, messages, policy, normalize)
    ensures line.Line? && line.role.By? ==>
      Read(ReadLine(r, line, policy, normalize), messages + [Message(line.role.sender, line.content)], policy, normalize)
    ensures !(line.Line? && line.role.By?) ==> Read(ReadLine(r, line, policy, normalize), messages, policy, normalize)
  {
    if line.Line? && line.role.By? {
      var msg := Message(line.role.sender, line.content);
      assert line == Line(By(msg.sender), msg.content, line.broken);
      ReadLineTools(r, msg, line.broken, policy, normalize);
      JsonlToolsSnoc(messages, msg, policy, normalize);
      QuarantinedConcat({}, Blocks(messages), msg.content, policy);
    }
  }

  lemma {:induction false} ReadSnoc(lines: seq<Line>, line: Line, policy: Policy, normalize: Normalize)
    ensures ReadLines(lines + [line], policy, normalize) == ReadLine(ReadLines(lines, policy, normalize), line, policy, normalize)
    ensures MessagesOf(lines + [line]) ==
      if line.Line? && line.role.By? then MessagesOf(lines) + [Message(line.role.sender, line.content)] else MessagesOf(lines)
  {
    assert (lines + [line])[..|lines|] == lines;
    assert MessagesOf(lines) + [] == MessagesOf(lines);
  }

  lemma {:induction false} JsonlToolsRead(lines: seq<Line>, policy: Policy, normalize: Normalize)
    ensures Read(ReadLines(lines, policy, normalize), MessagesOf(lines), policy, normalize)
    decreases |lines|
  {
    if lines != [] {
      JsonlToolsRead(lines[..|lines| - 1], policy, normalize);
      LastLineRead(lines, policy, normalize);
    }
  }

  lemma {:induction false} LastLineRead(lines: seq<Line>, policy: Policy, normalize: Normalize)
    requires lines != [] && Read(ReadLines(lines[..|lines| - 1], policy, normalize), MessagesOf(lines[..|lines| - 1]), policy, normalize)
    ensures Read(ReadLines(lines, policy, normalize), MessagesOf(lines), policy, normalize)
  {
    var before, last := lines[..|lines| - 1], lines[|lines| - 1];
    assert before + [last] == lines;
    ReadSnoc(before, last, policy, normalize);
    ReadLineReads(ReadLines(before, policy, normalize), MessagesOf(before), last, policy, normalize);
  }

  // ---- the comparison of one message --------------------------------------------------------------

  /** The names a list of tool parts gives to ids are those of the sanctioned calls among some blocks. */
  ghost predicate Names(calls: seq<Part>, blocks: seq<Block>, policy: Policy) {
    forall id :: FirstCallName(calls, id) == CallIn(blocks, id, policy)
  }

  lemma {:induction false} NamesConcat(a: seq<Part>, b: seq<Part>, x: seq<Block>, y: seq<Block>, policy: Policy)
    requires Names(a, x, policy) && Names(b, y, policy)
    ensures Names(a + b, x + y, policy)
  {
    forall id ensures FirstCallName(a + b, id) == CallIn(x + y, id, policy) {
      FirstCallConcat(a, b, id);
      CallInConcat(x, y, id, policy);
    }
  }

  lemma {:induction false} PieceNames(calls: seq<Part>, quarantinedIds: set<string>, block: Block, policy: Policy, normalize: Normalize)
    ensures Names(Piece(calls, quarantinedIds, block, policy, normalize), [block], policy)
  {
    var piece := Piece(calls, quarantinedIds, block, policy, normalize);
    assert [block][..0] == [];
    assert piece != [] ==> piece == [piece[0]] && piece[..0] == [];
  }

  /** One block, read both ways: the pieces are the same unless the block is a late result. */
  lemma {:induction false} OnePiece(stream: seq<Part>, line: seq<Part>, earlier: seq<Block>, blocks: seq<Block>, b: nat, policy: Policy, normalize: Normalize)
    requires b < |blocks|
    requires Names(stream, earlier + blocks[..b], policy) && Names(line, earlier, policy)
    ensures var q := Quarantined(Quarantined({}, earlier, policy), blocks[..b], policy);
      var e, x := Piece(stream, q, blocks[b], policy, normalize), Piece(line, q, blocks[b], policy, normalize);
      && |x| <= |e| <= 1
      && (x == e <==> !LateAt(earlier, blocks, b, policy))
      && (|x| == |e| == 1 ==> x[0].ToolCall? == e[0].ToolCall?)
      && (x != [] && x[0].ToolCall? <==> IsSanctionedCall(blocks[b], policy))
      && (x != [] && x[0].ToolResult? <==> KeptAt(earlier, blocks, b, policy))
  {
    if IsResult(blocks[b]) {
      var id := blocks[b].toolUseId;
      assert FirstCallName(stream, id) == CallIn(earlier + blocks[..b], id, policy);
      assert FirstCallName(line, id) == CallIn(earlier, id, policy);
      CallInConcat(earlier, blocks[..b], id, policy);
      CallInIsSanctioned(earlier + blocks[..b], id, policy);
      CallInIsSanctioned(earlier, id, policy);
    }
  }

  lemma {:induction false} CallInIsSanctioned(blocks: seq<Block>, id: string, policy: Policy)
    ensures CallIn(blocks, id, policy).Some? ==> IsSanctionedTool(CallIn(blocks, id, policy).value, policy)
    decreases |blocks|
  {
    if blocks != [] {
      CallInIsSanctioned(blocks[..|blocks| - 1], id, policy);
    }
  }

  /** A result stands before a call. */
  predicate Disordered(parts: seq<Part>) {
    parts != [] &&
      (Disordered(parts[..|parts| - 1]) || (parts[|parts| - 1].ToolCall? && Results(parts[..|parts| - 1]) != []))
  }

  predicate SameKinds(a: seq<Part>, b: seq<Part>) {
    |a| == |b| && forall i | 0 <= i < |a| :: a[i].ToolCall? == b[i].ToolCall? && a[i].ToolResult? == b[i].ToolResult?
  }

  /** The pieces `e` of the stream and `x` of the line for the same blocks. */
  ghost predicate Compared(earlier: seq<Block>, blocks: seq<Block>, e: seq<Part>, x: seq<Part>, policy: Policy) {
    && |x| <= |e|
    && (x == e <==> !HasLate(earlier, blocks, policy))
    && (|x| == |e| ==> SameKinds(x, e))
    && (forall i | 0 <= i < |x| :: IsToolPart(x[i]))
    && (Results(x) != [] <==> HasKept(earlier, blocks, policy))
    && (Disordered(x) <==> ResultThenCall(earlier, blocks, policy))
  }

  lemma {:induction false} ConditionsSnoc(earlier: seq<Block>, blocks: seq<Block>, block: Block, policy: Policy)
    ensures var all, n := blocks + [block], |blocks|;
      && (HasLate(earlier, all, policy) <==> HasLate(earlier, blocks, policy) || LateAt(earlier, all, n, policy))
      && (HasKept(earlier, all, policy) <==> HasKept(earlier, blocks, policy) || KeptAt(earlier, all, n, policy))
      && (ResultThenCall(earlier, all, policy) <==>
            ResultThenCall(earlier, blocks, policy) || (IsSanctionedCall(block, policy) && HasKept(earlier, blocks, policy)))
  {
    var all, n := blocks + [block], |blocks|;
    assert all[..n] == blocks;
    forall b: nat | b < n
      ensures LateAt(earlier, all, b, policy) == LateAt(earlier, blocks, b, policy)
      ensures KeptAt(earlier, all, b, policy) == KeptAt(earlier, blocks, b, policy)
      ensures HasKept(earlier, all[..b], policy) == HasKept(earlier, blocks[..b], policy)
    {
      assert all[..b] == blocks[..b];
    }
    if IsSanctionedCall(block, policy) && HasKept(earlier, blocks, policy) {
      assert IsSanctionedCall(all[n], policy) && HasKept(earlier, all[..n], policy);
    }
    if ResultThenCall(earlier, blocks, policy) {
      var c: nat :| c < n && IsSanctionedCall(blocks[c], policy) && HasKept(earlier, blocks[..c], policy);
      assert IsSanctionedCall(all[c], policy) && HasKept(earlier, all[..c], policy);
    }
  }

  lemma {:induction false} PartsSnoc(x: seq<Part>, piece: seq<Part>)
    requires |piece| <= 1
    ensures Results(x + piece) == Results(x) + if piece != [] && piece[0].ToolResult? then piece else []
    ensures Disordered(x + piece) <==> Disordered(x) || (piece != [] && piece[0].ToolCall? && Results(x) != [])
  {
    if piece == [] {
      assert x + piece == x;
    } else {
      assert piece == [piece[0]];
      assert (x + piece)[..|x + piece| - 1] == x;
    }
  }

  lemma {:induction false} ComparedStep(earlier: seq<Block>, blocks: seq<Block>, block: Block, e: seq<Part>, x: seq<Part>, e1: seq<Part>, x1: seq<Part>, policy: Policy)
    requires Compared(earlier, blocks, e, x, policy)
    requires |x1| <= |e1| <= 1 && (x1 == e1 <==> !LateAt(earlier, blocks + [block], |blocks|, policy))
    requires |x1| == |e1| == 1 ==> SameKinds(x1, e1)
    requires x1 != [] ==> IsToolPart(x1[0])
    requires x1 != [] && x1[0].ToolCall? <==> IsSanctionedCall(block, policy)
    requires x1 != [] && x1[0].ToolResult? <==> KeptAt(earlier, blocks + [block], |blocks|, policy)
    ensures Compared(earlier, blocks + [block], e + e1, x + x1, policy)
  {
    ConditionsSnoc(earlier, blocks, block, policy);
    PartsSnoc(x, x1);
    if x + x1 == e + e1 {
      assert |x| == |e| && |x1| == |e1|;
      assert x == (x + x1)[..|x|] && e == (e + e1)[..|e|];
      assert x1 == (x + x1)[|x|..] && e1 == (e + e1)[|e|..];
    }
  }

  lemma {:induction false} CompareBlock(stream: seq<Part>, line: seq<Part>, earlier: seq<Block>, before: seq<Block>, block: Block, e: seq<Part>, x: seq<Part>, policy: Policy, normalize: Normalize)
    requires Names(stream, earlier, policy) && Names(line, earlier, policy)
    requires Names(e, before, policy) && Names(x, before, policy) && Compared(earlier, before, e, x, policy)
    ensures var q := Quarantined(Quarantined({}, earlier, policy), before, policy);
      var e', x' := e + Piece(stream + e, q, block, policy, normalize), x + Piece(line, q, block, policy, normalize);
      Compared(earlier, before + [block], e', x', policy) && Names(e', before + [block], policy) && Names(x', before + [block], policy)
  {
    var blocks, n := before + [block], |before|;
    assert blocks[..n] == before;
    var q := Quarantined(Quarantined({}, earlier, policy), before, policy);
    var e1, x1 := Piece(stream + e, q, block, policy, normalize), Piece(line, q, block, policy, normalize);
    NamesConcat(stream, e, earlier, before, policy);
    OnePiece(stream + e, line, earlier, blocks, n, policy, normalize);
    ComparedStep(earlier, before, block, e, x, e1, x1, policy);
    PieceNames(stream + e, q, block, policy, normalize);
    PieceNames(line, q, block, policy, normalize);
    NamesConcat(e, e1, before, [block], policy);
    NamesConcat(x, x1, before, [block], policy);
  }

  lemma {:induction false} LinePiecesSnoc(calls: seq<Part>, quarantinedIds: set<string>, blocks: seq<Block>, block: Block, policy: Policy, normalize: Normalize)
    ensures LinePieces(calls, quarantinedIds, blocks + [block], policy, normalize) ==
      LinePieces(calls, quarantinedIds, blocks, policy, normalize) + Piece(calls, Quarantined(quarantinedIds, blocks, policy), block, policy, normalize)
  {
    assert (blocks + [block])[..|blocks|] == blocks;
  }

  /** The two readings of a message, side by side. */
  ghost predicate ReadBothWays(stream: seq<Part>, line: seq<Part>, earlier: seq<Block>, blocks: seq<Block>, policy: Policy, normalize: Normalize) {
    var q := Quarantined({}, earlier, policy);
    var e, x := StreamPieces(stream, q, blocks, policy, normalize), LinePieces(line, q, blocks, policy, normalize);
    Compared(earlier, blocks, e, x, policy) && Names(e, blocks, policy) && Names(x, blocks, policy)
  }

  lemma {:induction false} ReadNextBlock(stream: seq<Part>, line: seq<Part>, earlier: seq<Block>, before: seq<Block>, block: Block, policy: Policy, normalize: Normalize)
    requires Names(stream, earlier, policy) && Names(line, earlier, policy)
    requires ReadBothWays(stream, line, earlier, before, policy, normalize)
    ensures ReadBothWays(stream, line, earlier, before + [block], policy, normalize)
  {
    var q := Quarantined({}, earlier, policy);
    CompareBlock(stream, line, earlier, before, block,
                 StreamPieces(stream, q, before, policy, normalize), LinePieces(line, q, before, policy, normalize), policy, normalize);
    PiecesSnoc(stream, q, before, block, policy, normalize);
    LinePiecesSnoc(line, q, before, block, policy, normalize);
  }

  lemma {:induction false} CompareMessage(stream: seq<Part>, line: seq<Part>, earlier: seq<Block>, blocks: seq<Block>, policy: Policy, normalize: Normalize)
    requires Names(stream, earlier, policy) && Names(line, earlier, policy)
    ensures ReadBothWays(stream, line, earlier, blocks, policy, normalize)
    decreases |blocks|
  {
    if blocks != [] {
      CompareMessage(stream, line, earlier, blocks[..|blocks| - 1], policy, normalize);
      ReadLastBlock(stream, line, earlier, blocks, policy, normalize);
    }
  }

  lemma {:induction false} ReadLastBlock(stream: seq<Part>, line: seq<Part>, earlier: seq<Block>, blocks: seq<Block>, policy: Policy, normalize: Normalize)
    requires Names(stream, earlier, policy) && Names(line, earlier, policy) && blocks != []
    requires ReadBothWays(stream, line, earlier, blocks[..|blocks| - 1], policy, normalize)
    ensures ReadBothWays(stream, line, earlier, blocks, policy, normalize)
  {
    assert blocks[..|blocks| - 1] + [blocks[|blocks| - 1]] == blocks;
    ReadNextBlock(stream, line, earlier, blocks[..|blocks| - 1], blocks[|blocks| - 1], policy, normalize);
  }

  // ---- arranging a user line ----------------------------------------------------------------------

  /** Splitting off the results keeps every call's name. */
  predicate SplitNamed(parts: seq<Part>, id: string) {
    FirstCallName(Others(parts), id) == FirstCallName(parts, id) && FirstCallName(Results(parts), id) == None
  }

  lemma {:induction false} SplitNamesSnoc(parts: seq<Part>, last: Part, id: string)
    requires SplitNamed(parts, id)
    ensures SplitNamed(parts + [last], id)
  {
    SplitSnoc(parts, last);
    FirstCallAppend(parts, last, id);
    FirstCallAppend(Results(parts), last, id);
    FirstCallAppend(Others(parts), last, id);
    if last.ToolResult? {
      assert Others(parts + [last]) == Others(parts);
    } else {
      assert Results(parts + [last]) == Results(parts);
    }
  }

  lemma {:induction false} SplitNames(parts: seq<Part>, id: string)
    ensures SplitNamed(parts, id)
    decreases |parts|
  {
    if parts == [] {
      assert Others(parts) == [] && Results(parts) == [];
    } else {
      SplitNames(parts[..|parts| - 1], id);
      SplitNamesLast(parts, id);
    }
  }

  lemma {:induction false} SplitNamesLast(parts: seq<Part>, id: string)
    requires parts != [] && SplitNamed(parts[..|parts| - 1], id)
    ensures SplitNamed(parts, id)
  {
    assert parts[..|parts| - 1] + [parts[|parts| - 1]] == parts;
    SplitNamesSnoc(parts[..|parts| - 1], parts[|parts| - 1], id);
  }

  lemma {:induction false} ArrangedKeepsNames(sender: Sender, parts: seq<Part>, id: string)
    ensures FirstCallName(Arranged(sender, parts), id) == FirstCallName(parts, id)
  {
    SplitNames(parts, id);
    FirstCallConcat(Others(parts), Results(parts), id);
  }

  /** Calls first, then results. */
  ghost predicate Split(parts: seq<Part>) {
    && (forall i | 0 <= i < |Others(parts)| :: Others(parts)[i].ToolCall?)
    && (forall i | 0 <= i < |Results(parts)| :: Results(parts)[i].ToolResult?)
    && |Others(parts)| + |Results(parts)| == |parts|
  }

  lemma {:induction false} SplitsTools(parts: seq<Part>)
    requires forall i | 0 <= i < |parts| :: IsToolPart(parts[i])
    ensures Split(parts)
    decreases |parts|
  {
    if parts != [] {
      var before, last := parts[..|parts| - 1], parts[|parts| - 1];
      SplitsTools(before);
      assert before + [last] == parts;
      SplitSnoc(before, last);
    }
  }

  lemma {:induction false} OrderSnoc(parts: seq<Part>, last: Part)
    requires IsToolPart(last) && Split(parts)
    requires !Disordered(parts) <==> Others(parts) + Results(parts) == parts
    ensures !Disordered(parts + [last]) <==> Others(parts + [last]) + Results(parts + [last]) == parts + [last]
  {
    SplitSnoc(parts, last);
    PartsSnoc(parts, [last]);
    if last.ToolResult? {
      assert Others(parts + [last]) == Others(parts);
      assert Others(parts) + (Results(parts) + [last]) == (Others(parts) + Results(parts)) + [last];
      if (Others(parts) + Results(parts)) + [last] == parts + [last] {
        assert Others(parts) + Results(parts) == (parts + [last])[..|parts|] == parts;
      }
    } else {
      assert Results(parts + [last]) == Results(parts);
      var arranged := (Others(parts) + [last]) + Results(parts);
      if Results(parts) == [] {
        assert Others(parts) + Results(parts) == Others(parts);
        assert arranged == Others(parts) + [last];
        if arranged == parts + [last] { assert Others(parts) == (parts + [last])[..|parts|] == parts; }
      } else {
        assert arranged[|parts|] == Results(parts)[|Results(parts)| - 1];
        assert (parts + [last])[|parts|] == last;
      }
    }
  }

  /** Moving results behind everything else changes a list exactly when a result stood before a call. */
  lemma {:induction false} ArrangingIsIdentity(parts: seq<Part>)
    requires forall i | 0 <= i < |parts| :: IsToolPart(parts[i])
    ensures Split(parts)
    ensures !Disordered(parts) <==> Others(parts) + Results(parts) == parts
    decreases |parts|
  {
    SplitsTools(parts);
    if parts == [] {
      assert Others(parts) + Results(parts) == [];
    } else {
      var before, last := parts[..|parts| - 1], parts[|parts| - 1];
      ArrangingIsIdentity(before);
      assert before + [last] == parts;
      OrderSnoc(before, last);
    }
  }

  lemma {:induction false} KindsDecideOrder(a: seq<Part>, b: seq<Part>)
    requires SameKinds(a, b)
    ensures Disordered(a) == Disordered(b) && (Results(a) == []) == (Results(b) == [])
    decreases |a|
  {
    if a != [] {
      KindsDecideOrder(a[..|a| - 1], b[..|b| - 1]);
    }
  }

  /** What a message adds to the two transcripts is the same exactly when the message is agreeable. */
  lemma {:induction false} ArrangedEqualsStream(earlier: seq<Block>, msg: Message, e: seq<Part>, x: seq<Part>, policy: Policy)
    requires Compared(earlier, msg.content, e, x, policy)
    ensures |Arranged(msg.sender, x)| <= |e|
    ensures Arranged(msg.sender, x) == e <==> Agreeable(earlier, msg, policy)
  {
    ArrangingIsIdentity(x);
    var arranged := Arranged(msg.sender, x);
    if msg.sender.FromUser? && arranged == e {
      forall i | 0 <= i < |e| ensures IsToolPart(e[i]) { assert e[i] == arranged[i]; }
      ArrangedIsOrdered(x);
      KindsDecideOrder(x, e);
    }
  }

  lemma {:induction false} ArrangedIsOrdered(parts: seq<Part>)
    requires forall i | 0 <= i < |parts| :: IsToolPart(parts[i])
    ensures !Disordered(Others(parts) + Results(parts))
  {
    ArrangingIsIdentity(parts);
    CallsThenResults(Others(parts), Results(parts));
  }

  lemma {:induction false} CallsThenResults(calls: seq<Part>, results: seq<Part>)
    requires forall i | 0 <= i < |calls| :: calls[i].ToolCall?
    requires forall i | 0 <= i < |results| :: results[i].ToolResult?
    ensures !Disordered(calls + results)
    ensures results == [] ==> Results(calls + results) == []
    decreases |calls| + |results|
  {
    if results != [] {
      var n := |results| - 1;
      CallsThenResults(calls, results[..n]);
      assert (calls + results)[..|calls + results| - 1] == calls + results[..n];
    } else if calls != [] {
      assert calls + results == calls;
      var before := calls[..|calls| - 1];
      CallsThenResults(before, []);
      assert before + [] == before;
    }
  }

  // ---- the whole conversation -----------------------------------------------------------------------

  /** Every message is agreeable after the ones before it. */
  predicate AllAgreeable(messages: seq<Message>, policy: Policy) {
    forall m | 0 <= m < |messages| :: Agreeable(Blocks(messages[..m]), messages[m], policy)
  }

  lemma {:induction false} AgreeUpTo(messages: seq<Message>, policy: Policy, normalize: Normalize)
    ensures var s, j := StreamTools(messages, policy, normalize), JsonlTools(messages, policy, normalize);
      && Names(s, Blocks(messages), policy) && Names(j, Blocks(messages), policy)
      && |j| <= |s| && (j == s <==> AllAgreeable(messages, policy))
    decreases |messages|
  {
    if messages != [] {
      var n := |messages| - 1;
      var before, msg := messages[..n], messages[n];
      AgreeUpTo(before, policy, normalize);
      var earlier := Blocks(before);
      var s, j := StreamTools(before, policy, normalize), JsonlTools(before, policy, normalize);
      var q := Quarantined({}, earlier, policy);
      var e, x := StreamPieces(s, q, msg.content, policy, normalize), LinePieces(j, q, msg.content, policy, normalize);
      var a := Arranged(msg.sender, x);
      CompareMessage(s, j, earlier, msg.content, policy, normalize);
      ArrangedEqualsStream(earlier, msg, e, x, policy);
      forall id ensures FirstCallName(a, id) == CallIn(msg.content, id, policy) { ArrangedKeepsNames(msg.sender, x, id); }
      NamesConcat(s, e, earlier, msg.content, policy);
      NamesConcat(j, a, earlier, msg.content, policy);
      AgreeableSnoc(before, msg, policy);
      assert before + [msg] == messages;
      EqualHalves(j, a, s, e);
    }
  }

  lemma {:induction false} EqualHalves(a: seq<Part>, b: seq<Part>, c: seq<Part>, d: seq<Part>)
    requires |a| <= |c| && |b| <= |d|
    ensures |a + b| <= |c + d| && (a + b == c + d <==> a == c && b == d)
  {
    if a + b == c + d {
      assert a == (a + b)[..|a|] && c == (c + d)[..|c|];
      assert b == (a + b)[|a|..] && d == (c + d)[|c|..];
    }
  }

  lemma {:induction false} AgreeableSnoc(messages: seq<Message>, msg: Message, policy: Policy)
    ensures AllAgreeable(messages + [msg], policy) <==> AllAgreeable(messages, policy) && Agreeable(Blocks(messages), msg, policy)
  {
    var all := messages + [msg];
    forall m | 0 <= m < |messages| ensures Agreeable(Blocks(all[..m]), all[m], policy) == Agreeable(Blocks(messages[..m]), messages[m], policy) {
      assert all[..m] == messages[..m];
    }
    assert all[..|messages|] == messages && all[|messages|] == msg;
  }

  /** A block that no streamed transcript without an earlier call keeps as a tool part. */
  predicate QuietBlock(block: Block, policy: Policy) {
    !IsSanctionedCall(block, policy) && (policy.NoQuarantine? ==> !IsResult(block))
  }

  predicate Quiet(blocks: seq<Block>, policy: Policy) {
    forall b | 0 <= b < |blocks| :: QuietBlock(blocks[b], policy)
  }

  lemma {:induction false} QuietSplit(a: seq<Block>, b: seq<Block>, policy: Policy)
    ensures Quiet(a + b, policy) <==> Quiet(a, policy) && Quiet(b, policy)
  {
    var all := a + b;
    if Quiet(all, policy) {
      forall i | 0 <= i < |a| ensures a[i] == all[i] {}
      forall i | 0 <= i < |b| ensures b[i] == all[|a| + i] {}
    }
  }

  lemma {:induction false} NothingQuarantined(quarantinedIds: set<string>, blocks: seq<Block>)
    ensures Quarantined(quarantinedIds, blocks, NoQuarantine) == quarantinedIds
    decreases |blocks|
  {
    if blocks != [] {
      NothingQuarantined(quarantinedIds, blocks[..|blocks| - 1]);
    }
  }

  /** Without a call before, a block adds nothing exactly when it is quiet. */
  lemma {:induction false} QuietPiece(quarantinedIds: set<string>, block: Block, policy: Policy, normalize: Normalize)
    requires policy.NoQuarantine? ==> quarantinedIds == {}
    ensures Piece([], quarantinedIds, block, policy, normalize) == [] <==> QuietBlock(block, policy)
  {
    assert FirstCallName([], if block.ToolResultBlock? then block.toolUseId else "").None?;
  }

  lemma {:induction false} QuietPieces(quarantinedIds: set<string>, blocks: seq<Block>, policy: Policy, normalize: Normalize)
    requires policy.NoQuarantine? ==> quarantinedIds == {}
    ensures StreamPieces([], quarantinedIds, blocks, policy, normalize) == [] <==> Quiet(blocks, policy)
    decreases |blocks|
  {
    if blocks != [] {
      var n := |blocks| - 1;
      QuietPieces(quarantinedIds, blocks[..n], policy, normalize);
      QuietSplit(blocks[..n], [blocks[n]], policy);
      assert blocks == blocks[..n] + [blocks[n]];
      if policy.NoQuarantine? { NothingQuarantined(quarantinedIds, blocks[..n]); }
      QuietPiece(Quarantined(quarantinedIds, blocks[..n], policy), blocks[n], policy, normalize);
    }
  }

  lemma {:induction false} QuietStream(messages: seq<Message>, policy: Policy, normalize: Normalize)
    ensures StreamTools(messages, policy, normalize) == [] <==> Quiet(Blocks(messages), policy)
    decreases |messages|
  {
    if messages != [] {
      var n := |messages| - 1;
      QuietStream(messages[..n], policy, normalize);
      QuietSplit(Blocks(messages[..n]), messages[n].content, policy);
      if policy.NoQuarantine? { NothingQuarantined({}, Blocks(messages[..n])); }
      QuietPieces(Quarantined({}, Blocks(messages[..n]), policy), messages[n].content, policy, normalize);
    }
  }

  /** Where both derivations have the same tool parts. */
  predicate SameTools(lines: seq<Line>, policy: Policy) {
    if Breaks(lines) then Quiet(Blocks(MessagesOf(lines)), policy) else AllAgreeable(MessagesOf(lines), policy)
  }

  /**
   * The tool calls and results of the two transcripts are the same, in the same order, exactly when no
   * message holds a result whose only call stands in that message and no user message holds a kept
   * result before a sanctioned call. A file with a broken line agrees only with a session without tool parts, those
   * of the broken line included.
   */
  lemma {:induction false} DerivationsAgree(spec: AgentSpec, lines: seq<Line>, policy: Policy, normalize: Normalize)
    ensures ToolParts(AllParts(ReDerived(lines, policy, normalize)))
        == ToolParts(AllParts(Derive(Start(spec), Entries(MessagesOf(lines)), policy, normalize).turns))
      <==> SameTools(lines, policy)
  {
    StreamToolsDerived(spec, MessagesOf(lines), policy, normalize);
    if Breaks(lines) {
      QuietStream(MessagesOf(lines), policy, normalize);
    } else {
      JsonlToolsRead(lines, policy, normalize);
      AgreeUpTo(MessagesOf(lines), policy, normalize);
    }
  }

  /** A message holding both a call and a result. */
  predicate Mixed(blocks: seq<Block>) {
    && (exists b :: 0 <= b < |blocks| && blocks[b].ToolUse?)
    && (exists b :: 0 <= b < |blocks| && blocks[b].ToolResultBlock?)
  }

  lemma {:induction false} CallInNeedsCall(blocks: seq<Block>, id: string, policy: Policy)
    ensures CallIn(blocks, id, policy).Some? ==> exists b :: 0 <= b < |blocks| && blocks[b].ToolUse?
    decreases |blocks|
  {
    if blocks != [] {
      var n := |blocks| - 1;
      CallInNeedsCall(blocks[..n], id, policy);
      if CallIn(blocks[..n], id, policy).Some? {
        var b :| 0 <= b < n && blocks[..n][b].ToolUse?;
        assert blocks[b].ToolUse?;
      }
    }
  }

  lemma {:induction false} DisagreementMixes(earlier: seq<Block>, msg: Message, policy: Policy)
    requires !Agreeable(earlier, msg, policy)
    ensures Mixed(msg.content)
  {
    var blocks := msg.content;
    if HasLate(earlier, blocks, policy) {
      var b: nat :| b < |blocks| && LateAt(earlier, blocks, b, policy);
      CallInNeedsCall(blocks[..b], blocks[b].toolUseId, policy);
      var c :| 0 <= c < b && blocks[..b][c].ToolUse?;
      assert blocks[c].ToolUse? && blocks[b].ToolResultBlock?;
    } else {
      var c: nat :| c < |blocks| && IsSanctionedCall(blocks[c], policy) && HasKept(earlier, blocks[..c], policy);
      var b: nat :| b < c && KeptAt(earlier, blocks[..c], b, policy);
      assert blocks[c].ToolUse? && blocks[b].ToolResultBlock?;
    }
  }

  /** Without mixed messages and broken lines the two re-derivations always agree on tool parts. */
  lemma {:induction false} UnmixedDerivationsAgree(spec: AgentSpec, lines: seq<Line>, policy: Policy, normalize: Normalize)
    requires !Breaks(lines) && forall m :: 0 <= m < |MessagesOf(lines)| ==> !Mixed(MessagesOf(lines)[m].content)
    ensures ToolParts(AllParts(ReDerived(lines, policy, normalize)))
      == ToolParts(AllParts(Derive(Start(spec), Entries(MessagesOf(lines)), policy, normalize).turns))
  {
    var messages := MessagesOf(lines);
    forall m | 0 <= m < |messages| ensures Agreeable(Blocks(messages[..m]), messages[m], policy) {
      if !Agreeable(Blocks(messages[..m]), messages[m], policy) {
        DisagreementMixes(Blocks(messages[..m]), messages[m], policy);
        assert false;
      }
    }
    DerivationsAgree(spec, lines, policy, normalize);
  }

  /** The file of a session whose one message holds a call and its result. */
  function MixedFile(sender: Sender, id: string, name: string, content: Json): seq<Line> {
    [Line(By(sender), [ToolUse(id, name, None), ToolResultBlock(id, content)], false)]
  }

  lemma {:induction false} MixedFileMessages(sender: Sender, id: string, name: string, content: Json)
    ensures !Breaks(MixedFile(sender, id, name, content))
    ensures MessagesOf(MixedFile(sender, id, name, content)) == [Message(sender, [ToolUse(id, name, None), ToolResultBlock(id, content)])]
  {
    assert MixedFile(sender, id, name, content)[..0] == [];
  }

  lemma {:induction false} MixedFileDisagrees(sender: Sender, id: string, name: string, content: Json, policy: Policy)
    requires id != "" && name != "" && policy.Allow? && IsSanctionedTool(name, policy)
    ensures !SameTools(MixedFile(sender, id, name, content), policy)
  {
    MixedFileMessages(sender, id, name, content);
    var messages := MessagesOf(MixedFile(sender, id, name, content));
    OwnCallIsLate(messages[0].content, id, name, content, policy);
    assert messages[..0] == [];
    assert !Agreeable(Blocks(messages[..0]), messages[0], policy);
  }

  /** A call and its result in one message: the stream keeps the result, the JSONL reader does not. */
  lemma {:induction false} MixedMessageDisagrees(spec: AgentSpec, sender: Sender, id: string, name: string, content: Json, policy: Policy, normalize: Normalize)
    requires id != "" && name != "" && policy.Allow? && IsSanctionedTool(name, policy)
    ensures var lines := MixedFile(sender, id, name, content);
      ToolParts(AllParts(ReDerived(lines, policy, normalize)))
        != ToolParts(AllParts(Derive(Start(spec), Entries(MessagesOf(lines)), policy, normalize).turns))
  {
    MixedFileDisagrees(sender, id, name, content, policy);
    DerivationsAgree(spec, MixedFile(sender, id, name, content), policy, normalize);
  }

  lemma {:induction false} OwnCallIsLate(blocks: seq<Block>, id: string, name: string, content: Json, policy: Policy)
    requires id != "" && name != "" && policy.Allow? && IsSanctionedTool(name, policy)
    requires blocks == [ToolUse(id, name, None), ToolResultBlock(id, content)]
    ensures HasLate([], blocks, policy)
  {
    assert blocks[..1][..0] == [] && blocks[..1][0] == blocks[0];
    assert LateAt([], blocks, 1, policy);
  }
}
