/**
 * What a Pi transcript contains: the assistant's blocks and the tools' results that stay, each with its own content.
 */
module PiContent {
  import opened Options
  import opened Sequences
  import opened Json
  import opened Transcript
  import opened TranscriptClosing
  import opened PiTranscript

  /** A block of an assistant's message, or a tool's result, and what came before it. */
  datatype Entry = Spoken(block: Block) | Returned(id: string, toolName: Option<string>, result: Json)
  datatype Seen = Seen(before: seq<Entry>, entry: Entry)

  function SpokenEntries(blocks: seq<Block>): seq<Entry> {
    seq(|blocks|, i requires 0 <= i < |blocks| => Spoken(blocks[i]))
  }

  function MessageEntries(m: Message): seq<Entry> {
    match m
    case AssistantMessage(Blocks(blocks)) => SpokenEntries(blocks)
    case ToolResultMessage(id, toolName, result) => [Returned(id, toolName, result)]
    case _ => []
  }

  function Entries(messages: seq<Message>): seq<Entry> {
    if messages == [] then [] else Entries(messages[..|messages| - 1]) + MessageEntries(messages[|messages| - 1])
  }

  function InOrder(entries: seq<Entry>): seq<Seen> {
    seq(|entries|, k requires 0 <= k < |entries| => Seen(entries[..k], entries[k]))
  }

  /** A text or reasoning that is there, a call with an id and a name, a result with an id. */
  predicate Stays(s: Seen) {
    match s.entry
    case Spoken(TextBlock(text)) => text.Some?
    case Spoken(ThinkingBlock(thinking)) => thinking.Some?
    case Spoken(ToolCallBlock(id, name, _)) => id != "" && name != ""
    case Spoken(OtherBlock) => false
    case Returned(id, _, _) => id != ""
  }

  predicate IsCallOf(e: Entry, id: string) {
    e.Spoken? && e.block.ToolCallBlock? && e.block.id == id && id != "" && e.block.name != ""
  }

  ghost predicate FirstCall(entries: seq<Entry>, j: nat, id: string) {
    j < |entries| && IsCallOf(entries[j], id) && forall i | 0 <= i < j :: !IsCallOf(entries[i], id)
  }

  /** The name of the first call with an id, if there is one. */
  ghost predicate IsFirstName(entries: seq<Entry>, id: string, name: Option<string>) {
    if name.None? then forall i | 0 <= i < |entries| :: !IsCallOf(entries[i], id)
    else exists j: nat :: FirstCall(entries, j, id) && entries[j].block.name == name.value
  }

  /** What an entry that stays becomes; a result without a tool name has that of the first call with its id, else "tool". */
  ghost predicate IsImage(s: Seen, said: Said) {
    match s.entry
    case Spoken(TextBlock(text)) => text.Some? && said == Said(Assistant, TextPart(text.value))
    case Spoken(ThinkingBlock(thinking)) => thinking.Some? && said == Said(Assistant, ReasoningPart(thinking.value))
    case Spoken(ToolCallBlock(id, name, arguments)) =>
      said == Said(Assistant, ToolCall(id, name, if arguments.Some? then arguments.value else Null))
    case Spoken(OtherBlock) => false
    case Returned(id, toolName, result) =>
      && said.role == Tool && said.part.ToolResult? && said.part.callId == id && said.part.result == result
      && if toolName.Some? then said.part.name == toolName.value
         else IsFirstName(s.before, id, Some(said.part.name)) || (said.part.name == "tool" && IsFirstName(s.before, id, None))
  }

  predicate IsText(e: Entry) { e.Spoken? && e.block.TextBlock? && e.block.text.Some? }
  predicate SawText(entries: seq<Entry>) { exists k :: 0 <= k < |entries| && IsText(entries[k]) }

  ghost predicate KnowsNames(turns: seq<Turn>, entries: seq<Entry>) {
    forall id :: IsFirstName(entries, id, FirstCallName(AllParts(turns), id))
  }

  /** A derivation whose turns behind the opening are a record of the entries read. */
  ghost predicate Records(spec: AgentSpec, d: Derivation, entries: seq<Entry>, ks: seq<nat>, said: seq<Said>) {
    && d.turns == Opening(spec) + TurnsOf(said, 2)
    && IsRecord(InOrder(entries), ks, said, Stays, IsImage)
    && (d.sawAssistantText <==> SawText(entries))
    && KnowsNames(d.turns, entries)
  }

  function EntryStep(d: Derivation, e: Entry): Derivation {
    match e
    case Spoken(block) => BlockStep(d, block)
    case Returned(id, toolName, result) => MessageStep(d, ToolResultMessage(id, toolName, result))
  }

  lemma {:induction false} FirstNameGrows(entries: seq<Entry>, e: Entry, id: string, name: Option<string>)
    requires IsFirstName(entries, id, name)
    ensures IsFirstName(entries + [e], id, if name.Some? then name else if IsCallOf(e, id) then Some(e.block.name) else None)
  {
    var all := entries + [e];
    assert forall i | 0 <= i < |entries| :: all[i] == entries[i];
    if name.Some? {
      var j: nat :| FirstCall(entries, j, id) && entries[j].block.name == name.value;
      assert FirstCall(all, j, id);
    } else if IsCallOf(e, id) {
      assert FirstCall(all, |entries|, id);
    }
  }

  /** What an entry adds, exactly when it stays. */
  lemma {:induction false} StepAdds(d: Derivation, entries: seq<Entry>, e: Entry) returns (x: Said)
    requires KnowsNames(d.turns, entries)
    ensures EntryStep(d, e).turns == if Stays(Seen(entries, e)) then Push(d.turns, x.role, [x.part]) else d.turns
    ensures EntryStep(d, e).sawAssistantText <==> d.sawAssistantText || IsText(e)
    ensures Stays(Seen(entries, e)) ==> IsImage(Seen(entries, e), x)
    ensures Stays(Seen(entries, e)) ==> forall id :: x.part.ToolCall? && x.part.callId == id <==> IsCallOf(e, id)
    ensures Stays(Seen(entries, e)) && x.part.ToolCall? ==> x.part.name == e.block.name
  {
    x := Said(Assistant, TextPart(""));
    match e
    case Spoken(TextBlock(text)) => if text.Some? { x := Said(Assistant, TextPart(text.value)); }
    case Spoken(ThinkingBlock(thinking)) => if thinking.Some? { x := Said(Assistant, ReasoningPart(thinking.value)); }
    case Spoken(ToolCallBlock(id, name, arguments)) =>
      x := Said(Assistant, ToolCall(id, name, if arguments.Some? then arguments.value else Null));
    case Spoken(OtherBlock) =>
    case Returned(id, toolName, result) =>
      x := Said(Tool, ToolResult(id, ResultName(d.turns, id, toolName), result));
      assert IsFirstName(entries, id, FirstCallName(AllParts(d.turns), id));
  }

  lemma {:induction false} NamesGrow(d: Derivation, entries: seq<Entry>, e: Entry)
    requires KnowsNames(d.turns, entries)
    ensures KnowsNames(EntryStep(d, e).turns, entries + [e])
  {
    var x := StepAdds(d, entries, e);
    forall id ensures IsFirstName(entries + [e], id, FirstCallName(AllParts(EntryStep(d, e).turns), id)) {
      FirstNameGrows(entries, e, id, FirstCallName(AllParts(d.turns), id));
      if Stays(Seen(entries, e)) {
        AllPartsPush(d.turns, x.role, [x.part]);
        FirstCallAppend(AllParts(d.turns), x.part, id);
      }
    }
  }

  lemma {:induction false} SawGrows(entries: seq<Entry>, e: Entry)
    ensures SawText(entries + [e]) <==> SawText(entries) || IsText(e)
  {
    var all := entries + [e];
    assert all[|entries|] == e;
    assert forall k | 0 <= k < |entries| :: all[k] == entries[k];
  }

  lemma {:induction false} InOrderSnoc(entries: seq<Entry>, e: Entry)
    ensures InOrder(entries + [e]) == InOrder(entries) + [Seen(entries, e)]
  {
    assert (entries + [e])[..|entries|] == entries;
    assert forall k | 0 <= k < |entries| :: (entries + [e])[..k] == entries[..k];
  }

  lemma {:induction false} NextRecord(spec: AgentSpec, d: Derivation, entries: seq<Entry>, e: Entry, ks: seq<nat>, said: seq<Said>)
    returns (ks': seq<nat>, said': seq<Said>)
    requires Records(spec, d, entries, ks, said)
    ensures Records(spec, EntryStep(d, e), entries + [e], ks', said')
  {
    var x := StepAdds(d, entries, e);
    var s := Seen(entries, e);
    NamesGrow(d, entries, e);
    SawGrows(entries, e);
    InOrderSnoc(entries, e);
    if Stays(s) {
      ks', said' := ks + [|entries|], said + [x];
      RecordGrows(InOrder(entries), s, ks, said, x, Stays, IsImage);
      TurnsOfSnoc(Opening(spec), said, x);
    } else {
      ks', said' := ks, said;
      RecordSkips(InOrder(entries), s, ks, said, Stays, IsImage);
    }
  }

  lemma {:induction false} BlocksRecord(spec: AgentSpec, d: Derivation, entries: seq<Entry>, blocks: seq<Block>, ks: seq<nat>, said: seq<Said>)
    returns (ks': seq<nat>, said': seq<Said>)
    requires Records(spec, d, entries, ks, said)
    ensures Records(spec, BlockSteps(d, blocks), entries + SpokenEntries(blocks), ks', said')
    decreases |blocks|
  {
    if blocks == [] {
      ks', said' := ks, said;
      assert entries + SpokenEntries([]) == entries;
    } else {
      var before, block := blocks[..|blocks| - 1], blocks[|blocks| - 1];
      assert entries + SpokenEntries(blocks) == (entries + SpokenEntries(before)) + [Spoken(block)];
      ks', said' := BlocksRecord(spec, d, entries, before, ks, said);
      ks', said' := NextRecord(spec, BlockSteps(d, before), entries + SpokenEntries(before), Spoken(block), ks', said');
    }
  }

  lemma {:induction false} MessageRecord(spec: AgentSpec, d: Derivation, entries: seq<Entry>, m: Message, ks: seq<nat>, said: seq<Said>)
    returns (ks': seq<nat>, said': seq<Said>)
    requires Records(spec, d, entries, ks, said)
    ensures Records(spec, MessageStep(d, m), entries + MessageEntries(m), ks', said')
  {
    match m
    case AssistantMessage(Blocks(blocks)) => ks', said' := BlocksRecord(spec, d, entries, blocks, ks, said);
    case ToolResultMessage(id, toolName, result) => ks', said' := NextRecord(spec, d, entries, Returned(id, toolName, result), ks, said);
    case _ =>
      ks', said' := ks, said;
      assert entries + [] == entries;
  }

  lemma {:induction false} StartRecord(spec: AgentSpec)
    ensures Records(spec, Start(spec), [], [], [])
  {
    assert Opening(spec) + TurnsOf([], 2) == Opening(spec);
    OpeningParts(spec);
    forall id ensures FirstCallName(AllParts(Start(spec).turns), id) == None { NoCallInOpening(spec, id); }
  }

  lemma {:induction false} NoCallInOpening(spec: AgentSpec, id: string)
    ensures FirstCallName(AllParts(Start(spec).turns), id) == None
  {
    assert [SystemTurn(spec)] == Push([], System, [TextPart(spec.instructions)]);
    assert Start(spec).turns == Push([SystemTurn(spec)], User, [TextPart(spec.input)]);
    AllPartsPush([], System, [TextPart(spec.instructions)]);
    AllPartsPush([SystemTurn(spec)], User, [TextPart(spec.input)]);
    FirstCallAppend([], TextPart(spec.instructions), id);
    FirstCallAppend([] + [TextPart(spec.instructions)], TextPart(spec.input), id);
  }

  lemma {:induction false} DerivedRecord(spec: AgentSpec, messages: seq<Message>) returns (ks: seq<nat>, said: seq<Said>)
    ensures Records(spec, Derive(spec, messages), Entries(messages), ks, said)
    decreases |messages|
  {
    if messages == [] {
      ks, said := [], [];
      StartRecord(spec);
    } else {
      var before, m := messages[..|messages| - 1], messages[|messages| - 1];
      ks, said := DerivedRecord(spec, before);
      ks, said := MessageRecord(spec, Derive(spec, before), Entries(before), m, ks, said);
    }
  }

  /**
   * Whatever the session: behind the trusted opening stand exactly the entries that stay, in order, each with its own
   * content; and last the text of the last assistant message, exactly when no text block came and it is not empty.
   */
  lemma {:induction false} TranscriptIsTheSession(spec: AgentSpec, messages: seq<Message>) returns (ks: seq<nat>, said: seq<Said>)
    ensures IsRecord(InOrder(Entries(messages)), ks, said, Stays, IsImage)
    ensures Conversation(spec, messages) ==
      Opening(spec) + TurnsOf(said + if SawText(Entries(messages)) then [] else Answer(LastAssistantText(messages)), 2)
  {
    ks, said := DerivedRecord(spec, messages);
    TurnsOfMore(Opening(spec), said, if SawText(Entries(messages)) then [] else Answer(LastAssistantText(messages)));
  }

  /** The last assistant message's text: as given, or its blocks' texts in order; empty when there is none. */
  lemma {:induction false} LastTextIsLast(messages: seq<Message>, m: nat)
    requires m < |messages| && forall i | m < i < |messages| :: !messages[i].AssistantMessage?
    ensures messages[m].AssistantMessage? && messages[m].content.Plain? ==> LastAssistantText(messages) == messages[m].content.text
    ensures messages[m].AssistantMessage? && messages[m].content.Blocks? ==> LastAssistantText(messages) == JoinTexts(messages[m].content.blocks)
    ensures !messages[m].AssistantMessage? && m == 0 ==> LastAssistantText(messages) == ""
    decreases |messages|
  {
    var n := |messages| - 1;
    if m < n {
      LastTextIsLast(messages[..n], m);
    } else if n == 0 {
      assert messages[..0] == [];
    }
  }

  function OwnText(block: Block): string { if block.TextBlock? && block.text.Some? then block.text.value else "" }

  lemma {:induction false} JoinedSnoc(blocks: seq<Block>, block: Block)
    ensures JoinTexts(blocks + [block]) == JoinTexts(blocks) + OwnText(block)
  {
    assert (blocks + [block])[..|blocks|] == blocks;
  }

  /** Every text block's text, once, where it stands. */
  lemma {:induction false} JoinedInOrder(before: seq<Block>, block: Block, after: seq<Block>)
    ensures JoinTexts(before + [block] + after) == JoinTexts(before) + OwnText(block) + JoinTexts(after)
    decreases |after|
  {
    if after == [] {
      JoinedSnoc(before, block);
      assert before + [block] + after == before + [block];
    } else {
      var rest, last := after[..|after| - 1], after[|after| - 1];
      assert before + [block] + after == (before + [block] + rest) + [last] && after == rest + [last];
      JoinedSnoc(before + [block] + rest, last);
      JoinedSnoc(rest, last);
      JoinedInOrder(before, block, rest);
      Associative(JoinTexts(before) + OwnText(block), JoinTexts(rest), OwnText(last));
    }
  }
}
