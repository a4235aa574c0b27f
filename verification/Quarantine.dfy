/**
 * Quarantine non-interference: what an unsanctioned tool said cannot reach the transcript.
 */
module Quarantine {
  import opened Options
  import opened Json
  import opened Transcript
  import opened AnthropicTranscript

  /** Some call with this id, by a sanctioned tool or (`sanctioned` false) by another. */
  predicate HasCall(entries: seq<Entry>, id: string, sanctioned: bool, policy: Policy) {
    exists k :: 0 <= k < |entries| && IsCall(entries[k].block) && entries[k].block.id == id
      && IsSanctionedTool(entries[k].block.name, policy) == sanctioned
  }

  /** Neither an unsanctioned call nor a result without an earlier sanctioned call. */
  predicate Kept(before: seq<Entry>, e: Entry, policy: Policy) {
    && (IsCall(e.block) ==> IsSanctionedTool(e.block.name, policy))
    && (IsResult(e.block) ==> HasCall(before, e.block.toolUseId, true, policy))
  }

  /** The stream with every block that is not Kept deleted. */
  function Filter(entries: seq<Entry>, policy: Policy): seq<Entry> {
    if entries == [] then []
    else
      var n := |entries| - 1;
      Filter(entries[..n], policy) + if Kept(entries[..n], entries[n], policy) then [entries[n]] else []
  }

  /** A result whose id an earlier sanctioned call and an earlier unsanctioned call both carry. */
  predicate ClashAt(entries: seq<Entry>, k: nat, policy: Policy)
    requires k < |entries|
  {
    && IsResult(entries[k].block)
    && HasCall(entries[..k], entries[k].block.toolUseId, true, policy)
    && HasCall(entries[..k], entries[k].block.toolUseId, false, policy)
  }

  predicate Clash(entries: seq<Entry>, policy: Policy) {
    exists k: nat :: k < |entries| && ClashAt(entries, k, policy)
  }

  /** No id is used both by a sanctioned call and by an unsanctioned one. */
  ghost predicate NoSharedIds(entries: seq<Entry>, policy: Policy) {
    forall id :: !(HasCall(entries, id, true, policy) && HasCall(entries, id, false, policy))
  }

  lemma {:induction false} HasCallSnoc(before: seq<Entry>, e: Entry, id: string, sanctioned: bool, policy: Policy)
    ensures HasCall(before + [e], id, sanctioned, policy) <==>
      HasCall(before, id, sanctioned, policy) || (IsCall(e.block) && e.block.id == id && IsSanctionedTool(e.block.name, policy) == sanctioned)
  {
    var all := before + [e];
    if HasCall(before, id, sanctioned, policy) {
      var k :| 0 <= k < |before| && IsCall(before[k].block) && before[k].block.id == id
        && IsSanctionedTool(before[k].block.name, policy) == sanctioned;
      assert all[k] == before[k];
    }
    if IsCall(e.block) && e.block.id == id && IsSanctionedTool(e.block.name, policy) == sanctioned {
      assert all[|before|] == e;
    }
  }

  lemma {:induction false} HasCallPrefix(entries: seq<Entry>, n: nat, id: string, sanctioned: bool, policy: Policy)
    requires n <= |entries|
    requires HasCall(entries[..n], id, sanctioned, policy)
    ensures HasCall(entries, id, sanctioned, policy)
  {
    var k :| 0 <= k < n && IsCall(entries[..n][k].block) && entries[..n][k].block.id == id
      && IsSanctionedTool(entries[..n][k].block.name, policy) == sanctioned;
    assert IsCall(entries[k].block);
  }

  /** What the derivation remembers of the calls seen so far. */
  ghost predicate Remembers(d: Derivation, entries: seq<Entry>, policy: Policy) {
    && (forall id :: id in d.quarantinedIds <==> HasCall(entries, id, false, policy))
    && (forall id :: FirstCallName(AllParts(d.turns), id).Some? <==> HasCall(entries, id, true, policy))
    && (forall id :: FirstCallName(AllParts(d.turns), id).Some? ==> IsSanctionedTool(FirstCallName(AllParts(d.turns), id).value, policy))
  }

  lemma {:induction false} PushedCall(turns: seq<Turn>, role: Role, part: Part, id: string)
    ensures FirstCallName(AllParts(Push(turns, role, [part])), id) ==
      if FirstCallName(AllParts(turns), id).Some? then FirstCallName(AllParts(turns), id)
      else if part.ToolCall? && part.callId == id then Some(part.name) else None
  {
    AllPartsPush(turns, role, [part]);
    FirstCallAppend(AllParts(turns), part, id);
  }

  lemma {:induction false} StepNames(d: Derivation, e: Entry, id: string, policy: Policy, normalize: Normalize)
    ensures FirstCallName(AllParts(Step(d, e, policy, normalize).turns), id) ==
      if FirstCallName(AllParts(d.turns), id).Some? then FirstCallName(AllParts(d.turns), id)
      else if IsCall(e.block) && IsSanctionedTool(e.block.name, policy) && e.block.id == id then Some(e.block.name) else None
  {
    var role, part := StepPushes(d, e, policy, normalize);
    if part.Some? {
      PushedCall(d.turns, role, part.value, id);
    }
  }

  /** The part a block adds, if any; it is a call exactly when the block is a sanctioned one. */
  lemma {:induction false} StepPushes(d: Derivation, e: Entry, policy: Policy, normalize: Normalize) returns (role: Role, part: Option<Part>)
    ensures Step(d, e, policy, normalize).turns == if part.Some? then Push(d.turns, role, [part.value]) else d.turns
    ensures part.Some? && part.value.ToolCall? <==> IsCall(e.block) && IsSanctionedTool(e.block.name, policy)
    ensures part.Some? && part.value.ToolCall? ==> part.value.callId == e.block.id && part.value.name == e.block.name
  {
    role, part := Assistant, None;
    match e.block
    case TextBlock(Some(text)) => if e.sender.FromAssistant? { part := Some(TextPart(text)); }
    case ThinkingBlock(Some(thinking)) => part := Some(ReasoningPart(thinking));
    case ToolUse(id, name, input) =>
      if IsCall(e.block) && IsSanctionedTool(name, policy) { part := Some(ToolCall(id, name, ArgsOf(input))); }
    case ToolResultBlock(id, content) =>
      if IsResult(e.block) && KeepsResult(AllParts(d.turns), d.quarantinedIds, id, policy) {
        role, part := Tool, Some(ToolResult(id, ToolNameForCall(AllParts(d.turns), id), normalize(content)));
      }
    case _ =>
  }

  lemma {:induction false} StepRemembers(d: Derivation, before: seq<Entry>, e: Entry, policy: Policy, normalize: Normalize)
    requires Remembers(d, before, policy)
    ensures Remembers(Step(d, e, policy, normalize), before + [e], policy)
  {
    var d' := Step(d, e, policy, normalize);
    StepQuarantine(d, e, policy, normalize);
    var quarantined, parts, parts' := d'.quarantinedIds, AllParts(d.turns), AllParts(d'.turns);
    forall id ensures id in quarantined <==> HasCall(before + [e], id, false, policy) {
      HasCallSnoc(before, e, id, false, policy);
    }
    forall id
      ensures FirstCallName(parts', id).Some? <==> HasCall(before + [e], id, true, policy)
      ensures FirstCallName(parts', id).Some? ==> IsSanctionedTool(FirstCallName(parts', id).value, policy)
    {
      HasCallSnoc(before, e, id, true, policy);
      StepNames(d, e, id, policy, normalize);
    }
  }

  lemma {:induction false} StartNames(spec: AgentSpec, id: string)
    ensures FirstCallName(AllParts(Start(spec).turns), id) == None
  {
    var turns := Start(spec).turns;
    assert turns[..1] == [SystemTurn(spec)];
    assert turns == Push([SystemTurn(spec)], User, [TextPart(spec.input)]);
    PushedCall([SystemTurn(spec)], User, TextPart(spec.input), id);
    assert [SystemTurn(spec)] == Push([], System, [TextPart(spec.instructions)]);
    PushedCall([], System, TextPart(spec.instructions), id);
  }

  lemma {:induction false} DeriveRemembers(spec: AgentSpec, entries: seq<Entry>, policy: Policy, normalize: Normalize)
    ensures Remembers(Derive(Start(spec), entries, policy, normalize), entries, policy)
    decreases |entries|
  {
    if entries == [] {
      forall id ensures FirstCallName(AllParts(Start(spec).turns), id) == None { StartNames(spec, id); }
    } else {
      var n := |entries| - 1;
      DeriveRemembers(spec, entries[..n], policy, normalize);
      StepRemembers(Derive(Start(spec), entries[..n], policy, normalize), entries[..n], entries[n], policy, normalize);
      assert entries[..n] + [entries[n]] == entries;
    }
  }

  /** Filtering keeps every sanctioned call and no unsanctioned one. */
  lemma {:induction false} FilterCalls(entries: seq<Entry>, id: string, policy: Policy)
    ensures HasCall(Filter(entries, policy), id, true, policy) <==> HasCall(entries, id, true, policy)
    ensures !HasCall(Filter(entries, policy), id, false, policy)
    decreases |entries|
  {
    if entries != [] {
      var n := |entries| - 1;
      FilterCalls(entries[..n], id, policy);
      assert entries[..n] + [entries[n]] == entries;
      HasCallSnoc(entries[..n], entries[n], id, true, policy);
      if Kept(entries[..n], entries[n], policy) {
        HasCallSnoc(Filter(entries[..n], policy), entries[n], id, true, policy);
        HasCallSnoc(Filter(entries[..n], policy), entries[n], id, false, policy);
      } else {
        assert Filter(entries, policy) == Filter(entries[..n], policy);
      }
    }
  }

  lemma {:induction false} ClashSnoc(entries: seq<Entry>, policy: Policy)
    requires entries != []
    ensures var n := |entries| - 1; Clash(entries, policy) <==> Clash(entries[..n], policy) || ClashAt(entries, n, policy)
  {
    var n := |entries| - 1;
    forall k: nat | k < n ensures ClashAt(entries, k, policy) <==> ClashAt(entries[..n], k, policy) {
      assert entries[..n][..k] == entries[..k];
    }
  }

  /** What two derivations that remember the same calls do with one block, the first having no quarantine. */
  lemma {:induction false} SideBySide(filtered: Derivation, full: Derivation, e: Entry, names: set<string>, normalize: Normalize)
    requires filtered.sawAssistantText == full.sawAssistantText
    requires |filtered.turns| >= |full.turns|
    requires IsCall(e.block) ==> IsSanctionedTool(e.block.name, Allow(names))
    requires IsResult(e.block) ==> KeepsResult(AllParts(filtered.turns), filtered.quarantinedIds, e.block.toolUseId, Allow(names))
    ensures var filtered' := Step(filtered, e, Allow(names), normalize);
      var full' := Step(full, e, Allow(names), normalize);
      var dropped := IsResult(e.block) && !KeepsResult(AllParts(full.turns), full.quarantinedIds, e.block.toolUseId, Allow(names));
      && filtered'.sawAssistantText == full'.sawAssistantText
      && |filtered'.turns| - |full'.turns| == |filtered.turns| - |full.turns| + (if dropped then 1 else 0)
      && (filtered.turns == full.turns && !dropped ==> filtered'.turns == full'.turns)
  {
  }

  /** A block that quarantine deletes does nothing in the original derivation either. */
  lemma {:induction false} DeletedBlockIsInert(full: Derivation, e: Entry, names: set<string>, normalize: Normalize)
    requires (IsCall(e.block) && !IsSanctionedTool(e.block.name, Allow(names))) ||
      (IsResult(e.block) && !KeepsResult(AllParts(full.turns), full.quarantinedIds, e.block.toolUseId, Allow(names)))
    ensures var full' := Step(full, e, Allow(names), normalize);
      full'.turns == full.turns && full'.sawAssistantText == full.sawAssistantText
  {
  }

  /** When the original drops a result that the filtered stream keeps, in terms of the streams. */
  lemma {:induction false} WhenKept(spec: AgentSpec, before: seq<Entry>, id: string, names: set<string>, normalize: Normalize)
    ensures var policy := Allow(names);
      var full := Derive(Start(spec), before, policy, normalize);
      var filtered := Derive(Start(spec), Filter(before, policy), policy, normalize);
      && (KeepsResult(AllParts(filtered.turns), filtered.quarantinedIds, id, policy) <==> HasCall(before, id, true, policy))
      && (KeepsResult(AllParts(full.turns), full.quarantinedIds, id, policy) <==>
            HasCall(before, id, true, policy) && !HasCall(before, id, false, policy))
  {
    DeriveRemembers(spec, before, Allow(names), normalize);
    DeriveRemembers(spec, Filter(before, Allow(names)), Allow(names), normalize);
    FilterCalls(before, id, Allow(names));
  }

  /**
   * The two derivations side by side: equal turns until a clash, and after one the filtered stream has
   * strictly more (the clashing result survives there and is dropped in the original).
   */
  lemma {:induction false} FilteredRun(spec: AgentSpec, entries: seq<Entry>, names: set<string>, normalize: Normalize)
    ensures var policy := Allow(names);
      var full := Derive(Start(spec), entries, policy, normalize);
      var filtered := Derive(Start(spec), Filter(entries, policy), policy, normalize);
      && filtered.sawAssistantText == full.sawAssistantText
      && |filtered.turns| >= |full.turns|
      && (if Clash(entries, policy) then |filtered.turns| > |full.turns| else filtered.turns == full.turns)
    decreases |entries|
  {
    var policy := Allow(names);
    if entries != [] {
      var n := |entries| - 1;
      var e := entries[n];
      FilteredRun(spec, entries[..n], names, normalize);
      ClashSnoc(entries, policy);
      var full := Derive(Start(spec), entries[..n], policy, normalize);
      var filtered := Derive(Start(spec), Filter(entries[..n], policy), policy, normalize);
      if IsResult(e.block) {
        WhenKept(spec, entries[..n], e.block.toolUseId, names, normalize);
      }
      if Kept(entries[..n], e, policy) {
        DeriveSnoc(Start(spec), Filter(entries[..n], policy), e, policy, normalize);
        SideBySide(filtered, full, e, names, normalize);
      } else {
        assert Filter(entries, policy) == Filter(entries[..n], policy);
        DeletedBlockIsInert(full, e, names, normalize);
      }
    }
  }

  /**
   * Deleting every unsanctioned call and every result without an earlier sanctioned call leaves the
   * transcript unchanged exactly when no result's id was used before by both kinds of call.
   */
  lemma {:induction false} NonInterference(spec: AgentSpec, entries: seq<Entry>, finalText: string, names: set<string>, normalize: Normalize)
    ensures var policy := Allow(names);
      Conversation(spec, Filter(entries, policy), finalText, policy, normalize) == Conversation(spec, entries, finalText, policy, normalize)
      <==> !Clash(entries, policy)
  {
    FilteredRun(spec, entries, names, normalize);
  }

  lemma {:induction false} NoSharedIdsNoClash(entries: seq<Entry>, policy: Policy)
    requires NoSharedIds(entries, policy)
    ensures !Clash(entries, policy)
  {
    if k: nat :| k < |entries| && ClashAt(entries, k, policy) {
      HasCallPrefix(entries, k, entries[k].block.toolUseId, true, policy);
      HasCallPrefix(entries, k, entries[k].block.toolUseId, false, policy);
      assert false;
    }
  }

  /**
   * When no id is shared, two streams that differ only in what quarantine deletes give one transcript:
   * the contents of the deleted blocks have no influence at all.
   */
  lemma {:induction false} QuarantinedContentIsInvisible(spec: AgentSpec, a: seq<Entry>, b: seq<Entry>, finalText: string, names: set<string>, normalize: Normalize)
    requires NoSharedIds(a, Allow(names)) && NoSharedIds(b, Allow(names))
    requires Filter(a, Allow(names)) == Filter(b, Allow(names))
    ensures Conversation(spec, a, finalText, Allow(names), normalize) == Conversation(spec, b, finalText, Allow(names), normalize)
  {
    NoSharedIdsNoClash(a, Allow(names));
    NoSharedIdsNoClash(b, Allow(names));
    NonInterference(spec, a, finalText, names, normalize);
    NonInterference(spec, b, finalText, names, normalize);
  }

  /** An unsanctioned call that reuses a sanctioned call's id takes that call's result out of the transcript. */
  lemma {:induction false} SharedIdDropsResult(spec: AgentSpec, finalText: string, names: set<string>, normalize: Normalize, id: string, good: string, bad: string, content: Json)
    requires id != "" && good != "" && bad != ""
    requires IsSanctionedTool(good, Allow(names)) && !IsSanctionedTool(bad, Allow(names))
    ensures var entries := [Entry(FromAssistant, ToolUse(id, good, None)), Entry(FromAssistant, ToolUse(id, bad, None)), Entry(FromUser, ToolResultBlock(id, content))];
      Conversation(spec, Filter(entries, Allow(names)), finalText, Allow(names), normalize) != Conversation(spec, entries, finalText, Allow(names), normalize)
  {
    var entries := [Entry(FromAssistant, ToolUse(id, good, None)), Entry(FromAssistant, ToolUse(id, bad, None)), Entry(FromUser, ToolResultBlock(id, content))];
    assert entries[..2][0] == entries[0] && entries[..2][1] == entries[1];
    assert ClashAt(entries, 2, Allow(names));
    NonInterference(spec, entries, finalText, names, normalize);
  }
}
