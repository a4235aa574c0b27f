/**
 * What an Anthropic transcript contains: exactly the blocks that are kept, in order, each with its own content.
 */
module TranscriptContent {
  import opened Options
  import opened Json
  import opened Transcript
  import opened AnthropicTranscript
  import Quarantine

  /**
   * Which blocks are kept: an assistant's text, reasoning, a sanctioned call, and a result whose id no unsanctioned
   * call had before and, under an allowlist, a sanctioned one had.
   */
  predicate Stays(entries: seq<Entry>, k: nat, policy: Policy)
    requires k < |entries|
  {
    match entries[k].block
    case TextBlock(text) => text.Some? && entries[k].sender.FromAssistant?
    case ThinkingBlock(thinking) => thinking.Some?
    case ToolUse(id, name, _) => id != "" && name != "" && IsSanctionedTool(name, policy)
    case ToolResultBlock(id, _) =>
      && id != "" && !Quarantine.HasCall(entries[..k], id, false, policy)
      && (policy.NoQuarantine? || Quarantine.HasCall(entries[..k], id, true, policy))
    case OtherBlock => false
  }

  /** The first sanctioned call with an id. */
  predicate FirstCall(entries: seq<Entry>, j: nat, id: string, policy: Policy) {
    && j < |entries| && IsCall(entries[j].block) && entries[j].block.id == id && IsSanctionedTool(entries[j].block.name, policy)
    && !Quarantine.HasCall(entries[..j], id, true, policy)
  }

  /** A result carries the name of the first sanctioned call with its id, or "tool" when there is none. */
  ghost predicate IsNameOf(before: seq<Entry>, id: string, name: string, policy: Policy) {
    if Quarantine.HasCall(before, id, true, policy) then exists j: nat :: FirstCall(before, j, id, policy) && before[j].block.name == name
    else name == "tool"
  }

  /** What a kept block becomes. */
  ghost predicate IsImage(entries: seq<Entry>, k: nat, said: Said, policy: Policy, normalize: Normalize)
    requires k < |entries|
  {
    match entries[k].block
    case TextBlock(text) => text.Some? && said == Said(Assistant, TextPart(text.value))
    case ThinkingBlock(thinking) => thinking.Some? && said == Said(Assistant, ReasoningPart(thinking.value))
    case ToolUse(id, name, input) => said == Said(Assistant, ToolCall(id, name, if input.Some? then input.value else Null))
    case ToolResultBlock(id, content) =>
      && said.role == Tool && said.part.ToolResult? && said.part.callId == id && said.part.result == normalize(content)
      && IsNameOf(entries[..k], id, said.part.name, policy)
    case OtherBlock => false
  }

  /** `said` is the record of the blocks at `ks`, and these are the ones that are kept. */
  ghost predicate IsRecord(entries: seq<Entry>, ks: seq<nat>, said: seq<Said>, policy: Policy, normalize: Normalize) {
    && |ks| == |said|
    && (forall i, j | 0 <= i < j < |ks| :: ks[i] < ks[j])
    && (forall i | 0 <= i < |ks| :: ks[i] < |entries| && Stays(entries, ks[i], policy) && IsImage(entries, ks[i], said[i], policy, normalize))
    && (forall k: nat | k < |entries| && Stays(entries, k, policy) :: k in ks)
  }

  lemma {:induction false} SameBefore(entries: seq<Entry>, e: Entry, k: nat, policy: Policy)
    requires k < |entries|
    ensures (entries + [e])[..k] == entries[..k] && (entries + [e])[k] == entries[k]
    ensures Stays(entries + [e], k, policy) == Stays(entries, k, policy)
  {
    assert (entries + [e])[..k] == entries[..k];
  }

  /** The record grows by the image of a block that is kept, and only then. */
  lemma {:induction false} RecordGrows(entries: seq<Entry>, e: Entry, ks: seq<nat>, said: seq<Said>, x: Said, policy: Policy, normalize: Normalize)
    requires IsRecord(entries, ks, said, policy, normalize)
    ensures !Stays(entries + [e], |entries|, policy) ==> IsRecord(entries + [e], ks, said, policy, normalize)
    ensures Stays(entries + [e], |entries|, policy) && IsImage(entries + [e], |entries|, x, policy, normalize) ==>
      IsRecord(entries + [e], ks + [|entries|], said + [x], policy, normalize)
  {
    var all := entries + [e];
    forall k: nat | k < |entries|
      ensures Stays(all, k, policy) == Stays(entries, k, policy)
      ensures forall y :: IsImage(all, k, y, policy, normalize) == IsImage(entries, k, y, policy, normalize)
    {
      SameBefore(entries, e, k, policy);
    }
    forall k: nat | k < |all| && Stays(all, k, policy) ensures k in ks || k == |entries| {
      if k < |entries| { assert Stays(entries, k, policy); }
    }
  }

  /** The name of the first sanctioned call with an id, if there is one. */
  ghost predicate Knows(entries: seq<Entry>, id: string, name: Option<string>, policy: Policy) {
    if Quarantine.HasCall(entries, id, true, policy)
    then name.Some? && exists j: nat :: FirstCall(entries, j, id, policy) && entries[j].block.name == name.value
    else name.None?
  }

  lemma {:induction false} FirstCallStays(entries: seq<Entry>, e: Entry, j: nat, id: string, policy: Policy)
    requires FirstCall(entries, j, id, policy)
    ensures FirstCall(entries + [e], j, id, policy) && (entries + [e])[j] == entries[j]
  {
    assert (entries + [e])[..j] == entries[..j];
  }

  lemma {:induction false} KnowsGrows(entries: seq<Entry>, e: Entry, id: string, name: Option<string>, policy: Policy)
    requires Knows(entries, id, name, policy)
    ensures Knows(entries + [e], id,
      if name.Some? then name else if IsCall(e.block) && IsSanctionedTool(e.block.name, policy) && e.block.id == id then Some(e.block.name) else None, policy)
  {
    Quarantine.HasCallSnoc(entries, e, id, true, policy);
    if Quarantine.HasCall(entries, id, true, policy) {
      var j: nat :| FirstCall(entries, j, id, policy) && entries[j].block.name == name.value;
      FirstCallStays(entries, e, j, id, policy);
    } else if IsCall(e.block) && IsSanctionedTool(e.block.name, policy) && e.block.id == id {
      assert (entries + [e])[..|entries|] == entries;
      assert FirstCall(entries + [e], |entries|, id, policy);
    }
  }

  lemma {:induction false} NameGrows(spec: AgentSpec, entries: seq<Entry>, e: Entry, id: string, policy: Policy, normalize: Normalize)
    requires Knows(entries, id, FirstCallName(AllParts(Derive(Start(spec), entries, policy, normalize).turns), id), policy)
    ensures Knows(entries + [e], id, FirstCallName(AllParts(Derive(Start(spec), entries + [e], policy, normalize).turns), id), policy)
  {
    var d := Derive(Start(spec), entries, policy, normalize);
    DeriveSnoc(Start(spec), entries, e, policy, normalize);
    Quarantine.StepNames(d, e, id, policy, normalize);
    KnowsGrows(entries, e, id, FirstCallName(AllParts(d.turns), id), policy);
  }

  /** The derivation knows a call's id by the name of the first sanctioned one. */
  lemma {:induction false} NameIsFirst(spec: AgentSpec, entries: seq<Entry>, id: string, policy: Policy, normalize: Normalize)
    ensures Knows(entries, id, FirstCallName(AllParts(Derive(Start(spec), entries, policy, normalize).turns), id), policy)
    decreases |entries|
  {
    if entries == [] {
      Quarantine.StartNames(spec, id);
    } else {
      var n := |entries| - 1;
      NameIsFirst(spec, entries[..n], id, policy, normalize);
      NameGrows(spec, entries[..n], entries[n], id, policy, normalize);
      assert entries[..n] + [entries[n]] == entries;
    }
  }

  predicate IsAssistantText(e: Entry) { e.block.TextBlock? && e.block.text.Some? && e.sender.FromAssistant? }

  predicate SawText(entries: seq<Entry>) { exists k :: 0 <= k < |entries| && IsAssistantText(entries[k]) }

  /** A derivation whose turns behind the opening are a record of what was read. */
  ghost predicate Records(spec: AgentSpec, d: Derivation, entries: seq<Entry>, ks: seq<nat>, said: seq<Said>, policy: Policy, normalize: Normalize) {
    && d.turns == Opening(spec) + TurnsOf(said, 2)
    && IsRecord(entries, ks, said, policy, normalize)
    && (d.sawAssistantText <==> SawText(entries))
  }

  /** What one block adds to the turns, and that it does so exactly when it stays. */
  lemma {:induction false} StepAdds(spec: AgentSpec, entries: seq<Entry>, e: Entry, policy: Policy, normalize: Normalize) returns (x: Said)
    ensures var d := Derive(Start(spec), entries, policy, normalize);
      Step(d, e, policy, normalize).turns == if Stays(entries + [e], |entries|, policy) then Push(d.turns, x.role, [x.part]) else d.turns
    ensures Stays(entries + [e], |entries|, policy) ==> IsImage(entries + [e], |entries|, x, policy, normalize)
  {
    var d := Derive(Start(spec), entries, policy, normalize);
    assert (entries + [e])[..|entries|] == entries;
    Quarantine.DeriveRemembers(spec, entries, policy, normalize);
    x := Said(Assistant, TextPart(""));
    match e.block
    case TextBlock(text) => if text.Some? { x := Said(Assistant, TextPart(text.value)); }
    case ThinkingBlock(thinking) => if thinking.Some? { x := Said(Assistant, ReasoningPart(thinking.value)); }
    case ToolUse(id, name, input) => x := Said(Assistant, ToolCall(id, name, if input.Some? then input.value else Null));
    case ToolResultBlock(id, content) =>
      NameIsFirst(spec, entries, id, policy, normalize);
      x := Said(Tool, ToolResult(id, ToolNameForCall(AllParts(d.turns), id), normalize(content)));
    case OtherBlock =>
  }

  lemma {:induction false} StepSaw(d: Derivation, entries: seq<Entry>, e: Entry, policy: Policy, normalize: Normalize)
    requires d.sawAssistantText <==> SawText(entries)
    ensures Step(d, e, policy, normalize).sawAssistantText <==> SawText(entries + [e])
  {
    var all := entries + [e];
    assert all[|entries|] == e;
    if SawText(entries) {
      var k :| 0 <= k < |entries| && IsAssistantText(entries[k]);
      assert IsAssistantText(all[k]);
    }
    if SawText(all) {
      var k :| 0 <= k < |all| && IsAssistantText(all[k]);
      assert k < |entries| ==> IsAssistantText(entries[k]);
    }
    assert Step(d, e, policy, normalize).sawAssistantText <==> d.sawAssistantText || IsAssistantText(e);
  }

  lemma {:induction false} NextRecord(spec: AgentSpec, entries: seq<Entry>, e: Entry, ks: seq<nat>, said: seq<Said>, policy: Policy, normalize: Normalize)
    returns (ks': seq<nat>, said': seq<Said>)
    requires Records(spec, Derive(Start(spec), entries, policy, normalize), entries, ks, said, policy, normalize)
    ensures Records(spec, Derive(Start(spec), entries + [e], policy, normalize), entries + [e], ks', said', policy, normalize)
  {
    var d := Derive(Start(spec), entries, policy, normalize);
    var x := StepAdds(spec, entries, e, policy, normalize);
    DeriveSnoc(Start(spec), entries, e, policy, normalize);
    StepSaw(d, entries, e, policy, normalize);
    RecordGrows(entries, e, ks, said, x, policy, normalize);
    TurnsOfSnoc(Opening(spec), said, x);
    if Stays(entries + [e], |entries|, policy) {
      ks', said' := ks + [|entries|], said + [x];
    } else {
      ks', said' := ks, said;
    }
  }

  lemma {:induction false} DerivedRecord(spec: AgentSpec, entries: seq<Entry>, policy: Policy, normalize: Normalize) returns (ks: seq<nat>, said: seq<Said>)
    ensures Records(spec, Derive(Start(spec), entries, policy, normalize), entries, ks, said, policy, normalize)
    decreases |entries|
  {
    if entries == [] {
      ks, said := [], [];
      assert Opening(spec) + TurnsOf([], 2) == Opening(spec);
    } else {
      var n := |entries| - 1;
      ks, said := DerivedRecord(spec, entries[..n], policy, normalize);
      ks, said := NextRecord(spec, entries[..n], entries[n], ks, said, policy, normalize);
      assert entries[..n] + [entries[n]] == entries;
    }
  }

  /** What closes a transcript: the final answer, when no assistant text was read and there is one. */
  function Closing(entries: seq<Entry>, finalText: string): seq<Said> {
    if SawText(entries) || finalText == "" then [] else [Said(Assistant, TextPart(finalText))]
  }

  /**
   * Whatever the stream contained: behind the trusted opening, one part a turn, stand exactly the blocks that are kept,
   * in order, an assistant's text and reasoning as given, a call with its input or null, a result with its normalized
   * content under the name of its call; and last the final answer, exactly when no assistant text came and it is not empty.
   */
  lemma {:induction false} TranscriptIsTheStream(spec: AgentSpec, entries: seq<Entry>, finalText: string, policy: Policy, normalize: Normalize)
    returns (ks: seq<nat>, said: seq<Said>)
    ensures IsRecord(entries, ks, said, policy, normalize)
    ensures Conversation(spec, entries, finalText, policy, normalize) == Opening(spec) + TurnsOf(said + Closing(entries, finalText), 2)
  {
    ks, said := DerivedRecord(spec, entries, policy, normalize);
    TurnsOfSnoc(Opening(spec), said, Said(Assistant, TextPart(finalText)));
    assert said + [] == said;
  }
}
