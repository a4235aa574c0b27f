/**
 * The Anthropic adapter's per-call usage ledger. The SDK streams several frames for one model call,
 * each with the call's cumulative usage; the loop keeps one entry per call, rewritten in place.
 */
module UsageCoalescing {
  import opened Options
  import opened Runs
  import opened Sequences

  /** Token counts as the SDK reports them on a frame; any of them may be absent. */
  datatype RawUsage = RawUsage(input: Option<int>, output: Option<int>, cacheRead: Option<int>, cacheCreation: Option<int>)

  datatype Usage = Usage(inputTokens: int, outputTokens: int, totalTokens: int,
                         cacheReadTokens: Option<int>, cacheCreationTokens: Option<int>)

  /** An assistant frame: its message id, when the envelope carries one, and its usage, when reported. */
  datatype Frame = Frame(id: Option<string>, usage: Option<RawUsage>)

  /** A frame that reported usage. */
  datatype Call = Call(id: Option<string>, usage: Usage)

  function OrZero(n: Option<int>): int {
    match n case Some(v) => v case None => 0
  }

  function NeutralUsage(u: RawUsage): Usage {
    Usage(OrZero(u.input), OrZero(u.output), OrZero(u.input) + OrZero(u.output), u.cacheRead, u.cacheCreation)
  }

  function Calls(frames: seq<Frame>): seq<Call> {
    if frames == [] then []
    else
      var last := frames[|frames| - 1];
      Calls(frames[..|frames| - 1]) + if last.usage.Some? then [Call(last.id, NeutralUsage(last.usage.value))] else []
  }

  /** Two consecutive usage-bearing frames of one model call: equal ids, or, both without one, equal usage. */
  predicate SameCall(a: Call, b: Call) {
    if a.id.Some? || b.id.Some? then a.id == b.id else a.usage == b.usage
  }

  function Usages(calls: seq<Call>): seq<Usage> {
    seq(|calls|, i requires 0 <= i < |calls| => calls[i].usage)
  }

  /** One usage-bearing frame: the tail entry is rewritten in place, or an entry is added. */
  method RecordUsage(turnUsages: seq<Usage>, lastAssistantMessageId: Option<string>, messageId: Option<string>, u: Usage, ghost lasts: seq<Call>)
    returns (turnUsages': seq<Usage>)
    requires turnUsages == Usages(lasts)
    requires lastAssistantMessageId == if lasts == [] then None else lasts[|lasts| - 1].id
    ensures var n, call := |lasts| - 1, Call(messageId, u);
      turnUsages' == Usages(if n >= 0 && SameCall(lasts[n], call) then lasts[n := call] else lasts + [call])
  {
    var last := |turnUsages| - 1;
    if messageId.Some? && lastAssistantMessageId.Some? && messageId == lastAssistantMessageId && last >= 0 {
      turnUsages' := turnUsages[last := u];
    } else if messageId.None? && lastAssistantMessageId.None? && last >= 0 && turnUsages[last] == u {
      turnUsages' := turnUsages[last := u];
    } else {
      turnUsages' := turnUsages + [u];
    }
  }

  /** The loop: one entry per real model call. */
  method CoalesceUsage(frames: seq<Frame>) returns (turnUsages: seq<Usage>)
    ensures turnUsages == Usages(RunEnds(Calls(frames), SameCall))
  {
    turnUsages := [];
    var lastAssistantMessageId: Option<string> := None;
    ghost var runs: seq<seq<Call>> := [];
    for i := 0 to |frames|
      invariant IsLedger(turnUsages, lastAssistantMessageId, runs, Calls(frames[..i]))
    {
      CallsSnoc(frames, i);
      if frames[i].usage.Some? {
        turnUsages := RecordFrame(turnUsages, lastAssistantMessageId, frames[i], runs, Calls(frames[..i]));
        runs := Extend(runs, Call(frames[i].id, NeutralUsage(frames[i].usage.value)), SameCall);
        lastAssistantMessageId := frames[i].id;
      }
    }
    assert frames[..|frames|] == frames;
    LastsAreRunEnds(runs, Calls(frames), SameCall);
  }

  /** The ledger and the last id, in terms of the runs of the calls seen so far. */
  ghost predicate IsLedger(turnUsages: seq<Usage>, lastAssistantMessageId: Option<string>, runs: seq<seq<Call>>, calls: seq<Call>) {
    && IsRuns(runs, calls, SameCall)
    && turnUsages == Usages(Lasts(runs))
    && lastAssistantMessageId == if runs == [] then None else Lasts(runs)[|runs| - 1].id
  }

  lemma {:induction false} CallsSnoc(frames: seq<Frame>, i: nat)
    requires i < |frames|
    ensures Calls(frames[..i + 1])
      == Calls(frames[..i]) + if frames[i].usage.Some? then [Call(frames[i].id, NeutralUsage(frames[i].usage.value))] else []
  {
    assert frames[..i + 1][..i] == frames[..i];
  }

  /** The loop's body for a frame with usage. */
  method RecordFrame(turnUsages: seq<Usage>, lastAssistantMessageId: Option<string>, m: Frame, ghost runs: seq<seq<Call>>, ghost calls: seq<Call>)
    returns (turnUsages': seq<Usage>)
    requires m.usage.Some? && IsLedger(turnUsages, lastAssistantMessageId, runs, calls)
    ensures var call := Call(m.id, NeutralUsage(m.usage.value));
      IsLedger(turnUsages', m.id, Extend(runs, call, SameCall), calls + [call])
  {
    var u := NeutralUsage(m.usage.value);
    turnUsages' := RecordUsage(turnUsages, lastAssistantMessageId, m.id, u, Lasts(runs));
    ExtendIsRuns(runs, calls, Call(m.id, u), SameCall);
    LastsOfExtend(runs, Call(m.id, u), SameCall);
  }

  /**
   * What the ledger holds: there is one way to group the usage-bearing frames into maximal runs of one
   * call each, and the ledger is the last usage of each run.
   */
  lemma {:induction false} LedgerIsLastUsageOfEachRun(frames: seq<Frame>) returns (runs: seq<seq<Call>>)
    ensures IsRuns(runs, Calls(frames), SameCall)
    ensures forall other | IsRuns(other, Calls(frames), SameCall) :: other == runs
    ensures Usages(RunEnds(Calls(frames), SameCall)) ==
      seq(|runs|, i requires 0 <= i < |runs| => runs[i][|runs[i]| - 1].usage)
  {
    runs := RunsExist(Calls(frames), SameCall);
    forall other | IsRuns(other, Calls(frames), SameCall) { RunsUnique(other, runs, Calls(frames), SameCall); }
    LastsAreRunEnds(runs, Calls(frames), SameCall);
  }

  predicate Reports(f: Frame) { f.usage.Some? }

  predicate Counts(reported: Option<int>, n: int) { match reported case Some(v) => n == v case None => n == 0 }

  /** A frame's call: its id and the counts it reported, an absent one as 0, with input and output added up. */
  predicate IsReport(f: Frame, call: Call) {
    && f.usage.Some? && call.id == f.id
    && Counts(f.usage.value.input, call.usage.inputTokens) && Counts(f.usage.value.output, call.usage.outputTokens)
    && call.usage.totalTokens == call.usage.inputTokens + call.usage.outputTokens
    && call.usage.cacheReadTokens == f.usage.value.cacheRead && call.usage.cacheCreationTokens == f.usage.value.cacheCreation
  }

  /** The calls are the frames that reported usage, in order, each with its own counts. */
  lemma {:induction false} CallsAreReports(frames: seq<Frame>) returns (ks: seq<nat>)
    ensures IsRecord(frames, ks, Calls(frames), Reports, IsReport)
    decreases |frames|
  {
    ks := [];
    if frames != [] {
      var before, f := frames[..|frames| - 1], frames[|frames| - 1];
      assert before + [f] == frames;
      ks := CallsAreReports(before);
      if Reports(f) {
        RecordGrows(before, f, ks, Calls(before), Call(f.id, NeutralUsage(f.usage.value)), Reports, IsReport);
        ks := ks + [|before|];
      } else {
        RecordSkips(before, f, ks, Calls(before), Reports, IsReport);
      }
    }
  }

  lemma {:induction false} CallsAppend(a: seq<Frame>, b: seq<Frame>)
    ensures Calls(a + b) == Calls(a) + Calls(b)
    decreases |b|
  {
    if b == [] {
      assert a + b == a;
    } else {
      var n := |b| - 1;
      assert (a + b)[..|a + b| - 1] == a + b[..n];
      CallsAppend(a, b[..n]);
    }
  }

  lemma {:induction false} CallsBetween(before: seq<Frame>, frames: seq<Frame>, after: seq<Frame>)
    ensures Calls(before + frames + after) == Calls(before) + Calls(frames) + Calls(after)
  {
    CallsAppend(before + frames, after);
    CallsAppend(before, frames);
  }

  lemma {:induction false} CallsOfTwo(f: Frame, g: Frame)
    requires f.usage.Some? && g.usage.Some?
    ensures Calls([f, g]) == [Call(f.id, NeutralUsage(f.usage.value)), Call(g.id, NeutralUsage(g.usage.value))]
  {
    assert [f, g] == [f] + [g];
    CallsAppend([f], [g]);
    assert Calls([f]) == [Call(f.id, NeutralUsage(f.usage.value))] && Calls([g]) == [Call(g.id, NeutralUsage(g.usage.value))];
  }

  /**
   * However often a frame of one call is repeated, and wherever, the ledger gains no entry: dropping a
   * frame right before another of the same call leaves the ledger as it is.
   */
  lemma {:induction false} RepeatedFrameAddsNoStep(before: seq<Frame>, f: Frame, g: Frame, after: seq<Frame>)
    requires f.usage.Some? && g.usage.Some?
    requires f.id == g.id && (f.id.None? ==> NeutralUsage(f.usage.value) == NeutralUsage(g.usage.value))
    ensures Usages(RunEnds(Calls(before + [f, g] + after), SameCall)) == Usages(RunEnds(Calls(before + [g] + after), SameCall))
  {
    var x, y := Call(f.id, NeutralUsage(f.usage.value)), Call(g.id, NeutralUsage(g.usage.value));
    CallsOfTwo(f, g);
    CallsBetween(before, [f, g], after);
    CallsBetween(before, [g], after);
    assert Calls([g]) == [y];
    JoinedElementAddsNothing(Calls(before), x, y, Calls(after), SameCall);
  }

  /** Two frames with different ids, one with and one without, or two without and with different usage, stay two entries. */
  lemma {:induction false} DistinctCallsStaySeparate(f: Frame, g: Frame)
    requires f.usage.Some? && g.usage.Some?
    requires f.id != g.id || (f.id.None? && NeutralUsage(f.usage.value) != NeutralUsage(g.usage.value))
    ensures Usages(RunEnds(Calls([f, g]), SameCall)) == [NeutralUsage(f.usage.value), NeutralUsage(g.usage.value)]
  {
    var x, y := Call(f.id, NeutralUsage(f.usage.value)), Call(g.id, NeutralUsage(g.usage.value));
    CallsOfTwo(f, g);
    assert [x, y][1..] == [y];
    assert [y][1..] == [];
    assert RunEnds([x, y], SameCall) == [x] + RunEnds([y], SameCall) == [x, y];
  }
}
