/**
 * `rayspec export`: from the precheck to the exported bundle or a refusal, whatever fails on the way.
 */
module ExportRun {
  import opened Options
  import opened ExportSource

  datatype State = PRECHECK | QUIESCING | FROZEN | EXPORTING | EXPORTED | BLOCKED

  /**
   * A receipt's transition. `release` is its recovery line: the epoch to resume with, or none for "nothing at
   * the source was changed".
   */
  datatype Transition = Transition(state: State, fenceEpoch: Option<nat>, fenced: Option<bool>, release: Option<nat>)

  /** What happens to the source and the output, and what the receipts record, in order. */
  datatype Event =
    | Recorded(transition: Transition)
    | QuiesceCalled
    | CapturedUnder(fence: Fence)
    | OutputWritten

  /** Calls that can throw. A transition is kept in the receipt before its file is written, so it stays when the write throws. */
  datatype Step =
    | Opening | Scratch | FirstReading | Preflight | WritePrecheck | Confirming | Attaching | WriteQuiescing
    | OpenWorkflowSystem | WriteFrozen | WriteExporting | Capturing | Summarizing | WriteExported

  /** Where the signal is looked at. */
  datatype SafePoint = AfterOpening | AfterPrecheck | AfterConfirmation | AfterQuiesce | AfterFrozen

  datatype Confirmation = ByFlag | Answered(yes: bool) | InterruptedAsking

  /** The moments between which others may do anything to the fence; quiesce alone keeps them out, by its lease. */
  datatype Moment = BeforeReading | BeforeQuiesce | AfterQuiesced | BeforeSnapshot | InSnapshot | BeforeEnd

  /** What the steps meet: which of them fail, and what others make of the fence in front of each look at it. */
  datatype World = World(
    opens: bool, readable: bool, preflightClean: bool, roleSeparated: bool, sourceStopped: bool,
    confirmation: Confirmation, quiesce: Quiesce, readsBack: bool, snapshotWorks: bool, others: Moment -> seq<Fence>,
    throwsAt: Option<Step>, abortSeenAt: Option<SafePoint>, readsAtEnd: bool)

  datatype Outcome = Refused | Exported

  predicate Throws(w: World, s: Step) { w.throwsAt == Some(s) }
  predicate Aborted(w: World, p: SafePoint) { w.abortSeenAt == Some(p) }

  /**
   * The fence as an export meets it: at its first reading, when it calls quiesce, as quiesce leaves it, when it is
   * read back, and before and after the snapshot.
   */
  datatype Course = Course(before: Fence, met: Fence, left: Fence, found: Fence, held: Fence, after: Fence)

  function CourseOf(w: World, f: Fence): Course {
    var before := Moved(f, w.others(BeforeReading));
    var met := Moved(before, w.others(BeforeQuiesce));
    var left := Quiesced(met, w.quiesce);
    var found := Moved(left, w.others(AfterQuiesced));
    var held := Moved(found, w.others(BeforeSnapshot));
    Course(before, met, left, found, held, Moved(held, w.others(InSnapshot)))
  }

  /** The fence from quiesce to the snapshot's last check, through everything others did to it. */
  function HeldStates(w: World, c: Course): seq<Fence> {
    Trace(c.left, w.others(AfterQuiesced)) + (Trace(c.found, w.others(BeforeSnapshot)) + Trace(c.held, w.others(InSnapshot)))
  }

  lemma {:induction false} CourseIsLater(w: World, f: Fence)
    requires Sound(f)
    ensures var c := CourseOf(w, f);
      && Later(f, c.before) && Later(c.before, c.met) && Sound(c.left)
      && Later(c.left, c.found) && Later(c.found, c.held) && Later(c.held, c.after)
  {
    var c := CourseOf(w, f);
    MovedIsLater(f, w.others(BeforeReading));
    MovedIsLater(c.before, w.others(BeforeQuiesce));
    PredictedEpoch(c.met, w.quiesce);
    MovedIsLater(c.left, w.others(AfterQuiesced));
    MovedIsLater(c.found, w.others(BeforeSnapshot));
    MovedIsLater(c.held, w.others(InSnapshot));
  }

  // ---- the conditions, on the world and the fence's course -----------------------------------------------

  /** A database barrier can hold at all. */
  predicate BarrierPossible(w: World, c: Course) { w.roleSeparated || w.sourceStopped || c.before.barrierHeld }

  predicate Confirmed(w: World) { w.confirmation.ByFlag? || w.confirmation == Answered(true) }

  /** The receipt is started. */
  predicate Started(w: World) { w.opens && !Throws(w, Opening) && !Aborted(w, AfterOpening) && !Throws(w, Scratch) }

  /** The export reaches the precheck's end with nothing against it. */
  predicate PrecheckClean(w: World) {
    && Started(w) && w.readable && w.preflightClean
    && !Throws(w, FirstReading) && !Throws(w, Preflight) && !Throws(w, WritePrecheck) && !Aborted(w, AfterPrecheck)
  }

  /** The operator agreed to the downtime of a source that can be exported. */
  predicate Agreed(w: World, c: Course) {
    && PrecheckClean(w) && BarrierPossible(w, c) && Confirmed(w)
    && !(Throws(w, Confirming) && !w.confirmation.ByFlag?) && !Aborted(w, AfterConfirmation)
  }

  /** Everything that must hold before the source is fenced. */
  predicate MayQuiesce(w: World, c: Course) {
    Agreed(w, c) && !Throws(w, Attaching) && !Throws(w, WriteQuiescing) && !Throws(w, OpenWorkflowSystem)
  }

  /** The source is frozen with its barrier held, and EXPORTING is recorded. */
  predicate Freezes(w: World, c: Course) {
    && MayQuiesce(w, c) && !Aborted(w, AfterQuiesce)
    && w.quiesce.stops.Never? && w.quiesce.drained && c.left.barrierHeld
    && !Throws(w, WriteFrozen) && !Aborted(w, AfterFrozen) && !Throws(w, WriteExporting)
  }

  predicate MayCapture(w: World, c: Course) { Freezes(w, c) && !Throws(w, Capturing) }

  /** The snapshot's two checks find the fence that quiesce answered with. */
  predicate ChecksPass(c: Course) {
    c.held == Fence(true, Predicted(c.met), true) && c.after.fenced && c.after.epoch == Predicted(c.met)
  }

  predicate Captures(w: World, c: Course) { MayCapture(w, c) && w.snapshotWorks && ChecksPass(c) }

  predicate Finishes(w: World, c: Course) { Captures(w, c) && !Throws(w, Summarizing) }

  /** The fence as an export leaves it: it changes it through quiesce alone, what else happens to it others do. */
  function FenceAtEnd(w: World, c: Course): Fence {
    Moved(if MayCapture(w, c) then c.after else if MayQuiesce(w, c) then c.found else c.before, w.others(BeforeEnd))
  }

  /** The fence the export knows: quiesce's own, or one read back when quiesce answered without data. */
  function KnownFence(w: World, c: Course): Option<nat> {
    if !MayQuiesce(w, c) then None
    else if w.quiesce.stops.Never? then Some(c.left.epoch)
    else if w.readsBack && c.found.fenced then Some(c.found.epoch)
    else None
  }

  // ---- the receipts ----------------------------------------------------------------------------------------

  const ROAD := [PRECHECK, QUIESCING, FROZEN, EXPORTING, EXPORTED]

  function States(receipts: seq<Transition>): seq<State> {
    seq(|receipts|, i requires 0 <= i < |receipts| => receipts[i].state)
  }

  function Receipts(log: seq<Event>): seq<Transition> {
    if log == [] then []
    else
      var last := log[|log| - 1];
      Receipts(log[..|log| - 1]) + if last.Recorded? then [last.transition] else []
  }

  /** A way along the road, stopped by a refusal or not. */
  predicate OnRoad(states: seq<State>) {
    states <= ROAD || (states != [] && states[|states| - 1] == BLOCKED && states[..|states| - 1] <= ROAD)
  }

  /**
   * Everything an export can do up to EXPORTED: what it announces comes from its first reading, everything behind the
   * quiesce is under the epoch of the fence that quiesce left.
   */
  function FullRoad(c: Course): seq<Event> {
    var epoch := Some(Predicted(c.met));
    [ Recorded(Transition(PRECHECK, Some(c.before.epoch), Some(c.before.fenced), None)),
      Recorded(Transition(QUIESCING, Some(c.before.epoch), Some(c.before.fenced), Some(Predicted(c.before)))),
      QuiesceCalled,
      Recorded(Transition(FROZEN, epoch, Some(true), epoch)),
      Recorded(Transition(EXPORTING, epoch, Some(true), epoch)),
      CapturedUnder(Fence(true, Predicted(c.met), true)),
      OutputWritten,
      Recorded(Transition(EXPORTED, epoch, Some(true), epoch)) ]
  }

  /** A refusal's transition: the fence as read at the end, or else the one known. */
  function BlockedTransition(readable: bool, fence: Fence, known: Option<nat>): Transition {
    Transition(BLOCKED,
      if readable then Some(fence.epoch) else known,
      if readable then Some(fence.fenced) else if known.Some? then Some(true) else None,
      known)
  }

  /** The end of a log: a refusal that is recorded, or nothing. */
  predicate IsEnding(ending: seq<Event>) {
    ending == [] || (|ending| == 1 && ending[0].Recorded? && ending[0].transition.state == BLOCKED)
  }

  /** The ending of every refused path: a BLOCKED transition when the receipt was started. */
  method Blocked(w: World, source: Source, log: seq<Event>, started: bool, known: Option<nat>) returns (log': seq<Event>)
    ensures log' == log + if started then [Recorded(BlockedTransition(w.readsAtEnd, source.fence, known))] else []
  {
    log' := log;
    if started {
      var fence := if w.readsAtEnd then Some(source.fence) else None;
      var epoch := if fence.Some? then Some(fence.value.epoch) else known;
      var state := if fence.Some? then Some(fence.value.fenced) else if known.Some? then Some(true) else None;
      log' := log + [Recorded(Transition(BLOCKED, epoch, state, known))];
    }
  }

  /** Up to the confirmation: what can stop the export before the source is touched, on one reading of the fence. */
  method RunPrecheck(before: Fence, w: World, ghost c: Course) returns (log: seq<Event>, started: bool, ok: bool)
    requires c.before == before
    ensures ok <==> Agreed(w, c)
    ensures log == [] || log == FullRoad(c)[..1]
    ensures ok ==> log != []
    ensures started <==> Started(w)
  {
    log, started, ok := [], false, false;
    if !w.opens || Throws(w, Opening) { return; }
    if Aborted(w, AfterOpening) { return; }
    if Throws(w, Scratch) { return; }
    started := true;
    if Throws(w, FirstReading) || !w.readable { return; }
    if Throws(w, Preflight) { return; }
    log := log + [Recorded(Transition(PRECHECK, Some(before.epoch), Some(before.fenced), None))];
    if Throws(w, WritePrecheck) { return; }
    if !w.preflightClean { return; }
    if Aborted(w, AfterPrecheck) { return; }
    if !w.roleSeparated && !w.sourceStopped && !before.barrierHeld { return; }
    if !w.confirmation.ByFlag? {
      if Throws(w, Confirming) || w.confirmation.InterruptedAsking? { return; }
      if !w.confirmation.yes { return; }
    }
    if Aborted(w, AfterConfirmation) { return; }
    ok := true;
  }

  /** The quiesce, announced from the first reading, and the fence it is then known to hold. */
  method RunQuiesce(source: Source, w: World, before: Fence, precheck: seq<Event>, ghost f: Fence)
    returns (log: seq<Event>, known: Option<nat>, data: Option<Fence>, ok: bool)
    requires Sound(f) && Sound(before) && source.fence == before == CourseOf(w, f).before && Agreed(w, CourseOf(w, f))
    requires precheck == FullRoad(CourseOf(w, f))[..1]
    modifies source
    ensures source.fence == if MayQuiesce(w, CourseOf(w, f)) then CourseOf(w, f).found else before
    ensures 1 <= |log| <= 3 && log == FullRoad(CourseOf(w, f))[..|log|]
    ensures |log| == 3 <==> MayQuiesce(w, CourseOf(w, f))
    ensures known == KnownFence(w, CourseOf(w, f))
    ensures data == if MayQuiesce(w, CourseOf(w, f)) && w.quiesce.stops.Never? then Some(CourseOf(w, f).left) else None
    ensures ok <==> MayQuiesce(w, CourseOf(w, f)) && w.quiesce.stops.Never? && w.quiesce.drained
  {
    CourseIsLater(w, f);
    log, known, data, ok := precheck, None, None, false;
    if Throws(w, Attaching) { return; }
    var predicted := if before.fenced then before.epoch else before.epoch + 1;
    log := log + [Recorded(Transition(QUIESCING, Some(before.epoch), Some(before.fenced), Some(predicted)))];
    if Throws(w, WriteQuiescing) || Throws(w, OpenWorkflowSystem) { return; }
    source.Others(w.others(BeforeQuiesce));
    data, ok := source.Quiesce(w.quiesce);
    log := log + [QuiesceCalled];
    source.Others(w.others(AfterQuiesced));
    if data.Some? {
      known := Some(data.value.epoch);
    } else if w.readsBack && source.fence.fenced {
      known := Some(source.fence.epoch);
    }
  }

  /** From the quiesce's answer to the receipt of EXPORTING. */
  method RunFreeze(w: World, before: seq<Event>, data: Option<Fence>, quiesced: bool, ghost c: Course) returns (log: seq<Event>, ok: bool)
    requires Sound(c.met) && c.left == Quiesced(c.met, w.quiesce) && MayQuiesce(w, c) && before == FullRoad(c)[..3]
    requires data == if w.quiesce.stops.Never? then Some(c.left) else None
    requires quiesced <==> w.quiesce.stops.Never? && w.quiesce.drained
    ensures ok <==> Freezes(w, c)
    ensures 3 <= |log| <= 5 && log == FullRoad(c)[..|log|]
    ensures ok ==> |log| == 5
  {
    PredictedEpoch(c.met, w.quiesce);
    log, ok := before, false;
    if Aborted(w, AfterQuiesce) { return; }
    if !quiesced || data.None? { return; }
    if !data.value.barrierHeld { return; }
    var epoch := Some(data.value.epoch);
    log := log + [Recorded(Transition(FROZEN, epoch, Some(true), epoch))];
    if Throws(w, WriteFrozen) || Aborted(w, AfterFrozen) { return; }
    log := log + [Recorded(Transition(EXPORTING, epoch, Some(true), epoch))];
    if Throws(w, WriteExporting) { return; }
    ok := true;
  }

  /** From the snapshot, taken under the epoch that quiesce answered with, to the receipt of EXPORTED. */
  method RunCapture(source: Source, w: World, before: seq<Event>, fenceEpoch: nat, ghost f: Fence) returns (log: seq<Event>, exported: bool)
    requires Sound(f) && Freezes(w, CourseOf(w, f)) && source.fence == CourseOf(w, f).found && fenceEpoch == CourseOf(w, f).left.epoch
    requires before == FullRoad(CourseOf(w, f))[..5]
    modifies source
    ensures source.fence == if MayCapture(w, CourseOf(w, f)) then CourseOf(w, f).after else CourseOf(w, f).found
    ensures 5 <= |log| <= 8 && log == FullRoad(CourseOf(w, f))[..|log|]
    ensures |log| >= 7 <==> Captures(w, CourseOf(w, f))
    ensures |log| == 8 <==> Finishes(w, CourseOf(w, f))
    ensures exported <==> Finishes(w, CourseOf(w, f)) && !Throws(w, WriteExported)
  {
    CourseIsLater(w, f);
    PredictedEpoch(CourseOf(w, f).met, w.quiesce);
    log, exported := before, false;
    if Throws(w, Capturing) { return; }
    source.Others(w.others(BeforeSnapshot));
    var captured := source.ExportSnapshot(fenceEpoch, w.snapshotWorks, w.others(InSnapshot));
    if captured.None? { return; }
    log := log + [CapturedUnder(captured.value), OutputWritten];
    if Throws(w, Summarizing) { return; }
    log := log + [Recorded(Transition(EXPORTED, Some(fenceEpoch), Some(true), Some(fenceEpoch)))];
    if Throws(w, WriteExported) { return; }
    exported := true;
  }

  /** How far along the road an export has come. */
  predicate Came(w: World, c: Course, n: nat) {
    && n <= 8
    && (n >= 3 <==> MayQuiesce(w, c))
    && (n >= 7 <==> Captures(w, c))
    && (n == 8 <==> Finishes(w, c))
  }

  /** The steps of an export up to where it finishes or is refused. */
  method RunSteps(source: Source, w: World) returns (log: seq<Event>, started: bool, known: Option<nat>, outcome: Outcome)
    requires Sound(source.fence)
    modifies source
    ensures var c := CourseOf(w, old(source.fence));
      && Came(w, c, |log|) && log == FullRoad(c)[..|log|]
      && (outcome.Exported? <==> Finishes(w, c) && !Throws(w, WriteExported))
      && known == KnownFence(w, c) && source.fence == FenceAtEnd(w, c)
    ensures started <==> Started(w)
  {
    ghost var f := source.fence;
    ghost var c := CourseOf(w, f);
    CourseIsLater(w, f);
    var ok, exported;
    var data: Option<Fence>;
    outcome, known := Refused, None;
    source.Others(w.others(BeforeReading));
    var before := source.fence;
    log, started, ok := RunPrecheck(before, w, c);
    if ok {
      log, known, data, ok := RunQuiesce(source, w, before, log, f);
      if |log| == 3 {
        log, ok := RunFreeze(w, log, data, ok, c);
        if ok {
          log, exported := RunCapture(source, w, log, data.value.epoch, f);
          if exported { outcome := Exported; }
        }
      }
    }
    source.Others(w.others(BeforeEnd));
  }

  /** What the receipts say before the quiesce is the first reading of the fence, with the epoch a fence would take. */
  predicate AnnouncesReading(before: Fence, log: seq<Event>) {
    && (forall k | 0 <= k < |log| && log[k].Recorded? && log[k].transition.state == PRECHECK ::
          k == 0 && log[k].transition == Transition(PRECHECK, Some(before.epoch), Some(before.fenced), None))
    && (forall k | 0 <= k < |log| && log[k].Recorded? && log[k].transition.state == QUIESCING ::
          k == 1 && log[k].transition == Transition(QUIESCING, Some(before.epoch), Some(before.fenced), Some(if before.fenced then before.epoch else before.epoch + 1)))
    && (forall k | 0 <= k < |log| && log[k].QuiesceCalled? :: k == 2 && log[0].Recorded? && log[0].transition.state == PRECHECK && log[1].Recorded? && log[1].transition.state == QUIESCING)
  }

  lemma {:induction false} RoadAnnounces(c: Course, n: nat, ending: seq<Event>)
    requires n <= 8 && IsEnding(ending)
    ensures AnnouncesReading(c.before, FullRoad(c)[..n] + ending)
  {
    var log := FullRoad(c)[..n] + ending;
    forall k | 0 <= k < |log| ensures if k < n then log[k] == FullRoad(c)[k] else log[k] == ending[0] {}
  }

  /** What must be so, of the world and the fence first read, for the source to be touched at all. */
  predicate Allowed(w: World, before: Fence) {
    && w.opens && w.readable && w.preflightClean
    && (w.roleSeparated || w.sourceStopped || before.barrierHeld)
    && (w.confirmation == ByFlag || w.confirmation == Answered(true))
    && w.abortSeenAt !in {Some(AfterOpening), Some(AfterPrecheck), Some(AfterConfirmation)}
    && w.throwsAt !in {Some(Opening), Some(Scratch), Some(FirstReading), Some(Preflight), Some(WritePrecheck), Some(Attaching),
                       Some(WriteQuiescing), Some(OpenWorkflowSystem)}
  }

  lemma {:induction false} QuiescesOnlyIfAllowed(w: World, c: Course)
    ensures MayQuiesce(w, c) ==> Allowed(w, c.before)
    ensures Captures(w, c) ==> w.quiesce == Quiesce(Never, true, w.quiesce.barrierTaken) && c.left.barrierHeld && w.snapshotWorks && w.abortSeenAt.None?
  {
    match w.abortSeenAt
    case Some(AfterOpening) => assert Aborted(w, AfterOpening);
    case Some(AfterPrecheck) => assert Aborted(w, AfterPrecheck);
    case Some(AfterConfirmation) => assert Aborted(w, AfterConfirmation);
    case Some(AfterQuiesce) => assert Aborted(w, AfterQuiesce);
    case Some(AfterFrozen) => assert Aborted(w, AfterFrozen);
    case None =>
  }

  method RunExport(source: Source, w: World) returns (log: seq<Event>, outcome: Outcome)
    requires Sound(source.fence)
    modifies source
    // What is answered, and when the source is touched, the bundle written and EXPORTED recorded.
    ensures outcome.Exported? <==> Finishes(w, CourseOf(w, old(source.fence))) && !Throws(w, WriteExported)
    ensures QuiesceCalled in log <==> MayQuiesce(w, CourseOf(w, old(source.fence)))
    ensures OutputWritten in log <==> Captures(w, CourseOf(w, old(source.fence)))
    ensures EXPORTED in States(Receipts(log)) <==> Finishes(w, CourseOf(w, old(source.fence)))
    // The export changes the fence through quiesce alone: it never releases it.
    ensures source.fence == FenceAtEnd(w, CourseOf(w, old(source.fence)))
    // What is recorded as exported was read under one fence, held with its barrier from quiesce to the last check.
    ensures EXPORTED in States(Receipts(log)) ==> OneFenceHeld(w, CourseOf(w, old(source.fence)))
    // The receipts follow the road; every refusal ends a started one, and only a failing write of EXPORTED comes behind EXPORTED.
    ensures BLOCKED in States(Receipts(log)) <==> outcome.Refused? && Started(w)
    ensures OnRoad(States(Receipts(log)))
    ensures EXPORTED in States(Receipts(log)) && BLOCKED in States(Receipts(log))
      <==> Finishes(w, CourseOf(w, old(source.fence))) && Throws(w, WriteExported)
    // In so many words: a source that may not be exported, or without an operator's yes, is left to others alone; no
    // bundle is written of a source that is not drained or has no barrier, nor behind a signal.
    ensures QuiesceCalled in log ==> Allowed(w, Moved(old(source.fence), w.others(BeforeReading)))
    ensures QuiesceCalled !in log ==> source.fence == Moved(Moved(old(source.fence), w.others(BeforeReading)), w.others(BeforeEnd))
    ensures OutputWritten in log ==> w.quiesce.stops.Never? && w.quiesce.drained && w.snapshotWorks && w.abortSeenAt.None?
    ensures AnnouncesReading(Moved(old(source.fence), w.others(BeforeReading)), log)
    // The events come in the one order of the full road; a refusal is true.
    ensures AlongRoad(CourseOf(w, old(source.fence)), log)
    ensures BLOCKED in States(Receipts(log)) ==>
      log[|log| - 1].Recorded? && RefusalIsTrue(w, CourseOf(w, old(source.fence)), log[|log| - 1].transition)
  {
    ghost var f := source.fence;
    ghost var c := CourseOf(w, f);
    var steps, started, known;
    steps, started, known, outcome := RunSteps(source, w);
    log := steps;
    if outcome.Refused? {
      log := Blocked(w, source, steps, started, known);
    }
    ghost var ending := if outcome.Refused? && started then [Recorded(BlockedTransition(w.readsAtEnd, source.fence, known))] else [];
    RefusalHolds(w, f);
    if Finishes(w, c) { OneFenceIsHeld(w, f); }
    NoEnding(steps);
    RoadHolds(c, |steps|, ending);
    RoadAnnounces(c, |steps|, ending);
    QuiescesOnlyIfAllowed(w, c);
  }

  lemma {:induction false} NoEnding(log: seq<Event>)
    ensures log + [] == log
  {
  }

  /** A log is the full road up to some event, with or without a refusal behind it. */
  predicate AlongRoad(c: Course, log: seq<Event>) {
    log <= FullRoad(c) || (log != [] && IsEnding([log[|log| - 1]]) && log[..|log| - 1] <= FullRoad(c))
  }

  // ---- one fence -------------------------------------------------------------------------------------------

  /** At every moment from quiesce to the snapshot's last check the source is fenced at one epoch, its barrier held. */
  predicate OneFenceHeld(w: World, c: Course) {
    forall k | 0 <= k < |HeldStates(w, c)| :: HeldStates(w, c)[k] == Fence(true, Predicted(c.met), true)
  }

  /**
   * Whatever others do between any two steps: when the two checks of the snapshot pass, the fence that quiesce took or
   * found was held all the time between, with its barrier. For epochs only grow and none is fenced twice.
   */
  lemma {:induction false} OneFenceIsHeld(w: World, f: Fence)
    requires Sound(f) && Finishes(w, CourseOf(w, f))
    ensures OneFenceHeld(w, CourseOf(w, f))
  {
    var c := CourseOf(w, f);
    CourseIsLater(w, f);
    PredictedEpoch(c.met, w.quiesce);
    var a, b, d := Trace(c.left, w.others(AfterQuiesced)), Trace(c.found, w.others(BeforeSnapshot)), Trace(c.held, w.others(InSnapshot));
    HeldOnTrace(c.left, c.left, w.others(AfterQuiesced), c.after);
    HeldOnTrace(c.left, c.found, w.others(BeforeSnapshot), c.after);
    HeldOnTrace(c.left, c.held, w.others(InSnapshot), c.after);
    forall k | 0 <= k < |HeldStates(w, c)| ensures HeldStates(w, c)[k] == Fence(true, Predicted(c.met), true) {
      assert HeldStates(w, c)[k] == if k < |a| then a[k] else if k < |a| + |b| then b[k - |a|] else d[k - |a| - |b|];
    }
  }

  lemma {:induction false} LaterItself(f: Fence)
    requires Sound(f)
    ensures Later(f, f)
  {
  }

  /** A stretch between a held fence and a later reading of it. */
  lemma {:induction false} HeldOnTrace(left: Fence, from: Fence, changes: seq<Fence>, end: Fence)
    requires Sound(left) && left.fenced && left.barrierHeld && end.fenced && end.epoch == left.epoch
    requires Later(left, from) && Later(Moved(from, changes), end)
    ensures forall k | 0 <= k < |Trace(from, changes)| :: Trace(from, changes)[k] == Fence(true, left.epoch, true)
  {
    TraceIsLater(from, changes);
    forall k | 0 <= k < |Trace(from, changes)| ensures Trace(from, changes)[k] == Fence(true, left.epoch, true) {
      var g := Trace(from, changes)[k];
      assert g in Trace(from, changes);
      LaterTransitive(left, from, g);
      LaterTransitive(g, Moved(from, changes), end);
      HeldBetween(left, g, end);
    }
  }

  /**
   * The epoch that QUIESCING announces is the one of the fence taken exactly when nobody took or released a fence since
   * the first reading, or took just the next one.
   */
  lemma {:induction false} AnnouncedIff(w: World, f: Fence)
    requires Sound(f)
    ensures var c := CourseOf(w, f);
      Predicted(c.before) == Predicted(c.met) <==>
        || (c.met.epoch == c.before.epoch && c.met.fenced == c.before.fenced)
        || (!c.before.fenced && c.met.fenced && c.met.epoch == c.before.epoch + 1)
  {
    CourseIsLater(w, f);
  }

  // ---- what a refusal says -----------------------------------------------------------------------------------

  predicate Undisturbed(w: World) { forall m :: w.others(m) == [] }

  /**
   * Whether a refusal says what is true of the source: the fence it names is the fence at the end when that was read or
   * nobody disturbed the export; the epoch it says to resume with is that of a fence quiesce left or that stood there
   * afterwards, undisturbed the one that QUIESCING announced; and "nothing was changed" is said of a source that quiesce
   * did change exactly when it failed behind the fence and no fence could be read back.
   */
  predicate RefusalIsTrue(w: World, c: Course, t: Transition) {
    var end := FenceAtEnd(w, c);
    && t.state == BLOCKED
    && (w.readsAtEnd ==> t.fenceEpoch == Some(end.epoch) && t.fenced == Some(end.fenced))
    && (Undisturbed(w) ==> t.fenceEpoch in {None, Some(end.epoch)} && t.fenced in {None, Some(end.fenced)})
    && (t.fenceEpoch.None? <==> !w.readsAtEnd && t.release.None?)
    && (t.release.Some? ==> MayQuiesce(w, c) && exists g | g in [c.left, c.found] :: g.fenced && t.release == Some(g.epoch))
    && (t.release.Some? && Undisturbed(w) ==> t.release == Some(Predicted(c.before)))
    && (t.release.None? && MayQuiesce(w, c) && c.left != c.met <==> Unnoticed(w, c))
  }

  /** Quiesce took the fence, or the barrier of one it found, failed, and could not be asked about a fence that stands. */
  predicate Unnoticed(w: World, c: Course) {
    && MayQuiesce(w, c) && !(w.readsBack && c.found.fenced)
    && (|| (w.quiesce.stops.BeforeBarriers? && !c.met.fenced)
        || (w.quiesce.stops.BeforeRelease? && (!c.met.fenced || (!c.met.barrierHeld && w.quiesce.drained && w.quiesce.barrierTaken))))
  }

  lemma {:induction false} UndisturbedCourse(w: World, f: Fence)
    requires Undisturbed(w)
    ensures var c, left := CourseOf(w, f), Quiesced(f, w.quiesce);
      c == Course(f, f, left, left, left, left) && FenceAtEnd(w, c) == if MayQuiesce(w, c) then left else f
  {
    assert forall g, m :: Moved(g, w.others(m)) == g;
  }

  /** The transition that a refused export records is true in that sense. */
  lemma {:induction false} RefusalHolds(w: World, f: Fence)
    requires Sound(f)
    ensures var c := CourseOf(w, f); RefusalIsTrue(w, c, BlockedTransition(w.readsAtEnd, FenceAtEnd(w, c), KnownFence(w, c)))
  {
    var c := CourseOf(w, f);
    CourseIsLater(w, f);
    PredictedEpoch(c.met, w.quiesce);
    if Undisturbed(w) { UndisturbedCourse(w, f); }
    var known := KnownFence(w, c);
    if known.Some? {
      assert c.left in [c.left, c.found] && c.found in [c.left, c.found];
    }
  }

  // ---- the states of the receipts ---------------------------------------------------------------------------

  lemma {:induction false} StatesSnoc(log: seq<Event>, e: Event)
    ensures States(Receipts(log + [e])) == States(Receipts(log)) + if e.Recorded? then [e.transition.state] else []
  {
    assert (log + [e])[..|log|] == log;
  }

  /** How many states are recorded by the first `n` events of the road. */
  function Passed(n: nat): nat { if n <= 2 then n else if n == 3 then 2 else if n == 4 then 3 else if n <= 7 then 4 else 5 }

  lemma {:induction false} RoadStates(c: Course, n: nat)
    requires n <= 8
    ensures States(Receipts(FullRoad(c)[..n])) == ROAD[..Passed(n)]
    decreases n
  {
    if n > 0 {
      var road := FullRoad(c);
      RoadStates(c, n - 1);
      assert road[..n] == road[..n - 1] + [road[n - 1]];
      StatesSnoc(road[..n - 1], road[n - 1]);
      assert ROAD[..Passed(n)] == ROAD[..Passed(n - 1)] + if road[n - 1].Recorded? then [road[n - 1].transition.state] else [];
    }
  }

  lemma {:induction false} EndedStates(log: seq<Event>, ending: seq<Event>)
    requires IsEnding(ending)
    ensures States(Receipts(log + ending)) == States(Receipts(log)) + if ending == [] then [] else [BLOCKED]
  {
    if ending == [] {
      assert log + ending == log;
    } else {
      assert ending == [ending[0]];
      StatesSnoc(log, ending[0]);
    }
  }

  lemma {:induction false} StatesOnRoad(states: seq<State>, k: nat, blocked: bool)
    requires k <= 5 && states == ROAD[..k] + if blocked then [BLOCKED] else []
    ensures OnRoad(states)
    ensures EXPORTED in states <==> k == 5
    ensures BLOCKED in states <==> blocked
  {
    if blocked {
      assert states[..|states| - 1] == ROAD[..k] && states[k] == BLOCKED;
    }
    if k == 5 {
      assert states[4] == ROAD[4];
    }
  }

  lemma {:induction false} EventsOnRoad(c: Course, n: nat, ending: seq<Event>)
    requires n <= 8 && IsEnding(ending)
    ensures var log := FullRoad(c)[..n] + ending;
      && (QuiesceCalled in log <==> n >= 3) && (OutputWritten in log <==> n >= 7) && AlongRoad(c, log)
  {
    var log := FullRoad(c)[..n] + ending;
    if n >= 3 { assert log[2] == QuiesceCalled; }
    if n >= 7 { assert log[6] == OutputWritten; }
    if ending == [] {
      assert log == FullRoad(c)[..n];
    } else {
      assert ending == [log[n]] && log[..n] == FullRoad(c)[..n];
    }
  }

  /** What every log along the road promises. */
  lemma {:induction false} RoadHolds(c: Course, n: nat, ending: seq<Event>)
    requires n <= 8 && IsEnding(ending)
    ensures var log := FullRoad(c)[..n] + ending;
      && (QuiesceCalled in log <==> n >= 3) && (OutputWritten in log <==> n >= 7) && AlongRoad(c, log)
      && OnRoad(States(Receipts(log)))
      && (EXPORTED in States(Receipts(log)) <==> n == 8)
      && (BLOCKED in States(Receipts(log)) <==> ending != [])
  {
    EventsOnRoad(c, n, ending);
    RoadStates(c, n);
    EndedStates(FullRoad(c)[..n], ending);
    StatesOnRoad(States(Receipts(FullRoad(c)[..n] + ending)), Passed(n), ending != []);
  }

  // ---- what an exported bundle stands for ---------------------------------------------------------------------

  /** FROZEN, EXPORTING, the snapshot and EXPORTED all under one epoch, its database barrier held. */
  predicate UnderOneFence(log: seq<Event>, epoch: nat) {
    && (forall k | 0 <= k < |log| && log[k].Recorded? && log[k].transition.state in {FROZEN, EXPORTING, EXPORTED} ::
          log[k].transition.fenceEpoch == Some(epoch) && log[k].transition.fenced == Some(true) && log[k].transition.release == Some(epoch))
    && (forall k | 0 <= k < |log| && log[k].CapturedUnder? :: log[k].fence == Fence(true, epoch, true))
  }

  /**
   * Along the road everything behind the quiesce is under one epoch, that of the fence it left, and every such
   * receipt says to resume with it; behind EXPORTED stand the frozen source and its snapshot.
   */
  lemma {:induction false} OneFence(c: Course, log: seq<Event>)
    requires AlongRoad(c, log)
    ensures UnderOneFence(log, Predicted(c.met))
    ensures EXPORTED in States(Receipts(log)) ==> FullRoad(c) <= log && CapturedUnder(Fence(true, Predicted(c.met), true)) in log
  {
    var n, ending := Split(c, log);
    RoadUnderOneFence(c);
    EndedUnderOneFence(FullRoad(c), n, ending, Predicted(c.met));
    RoadHolds(c, n, ending);
    if n == 8 {
      assert FullRoad(c)[5] == CapturedUnder(Fence(true, Predicted(c.met), true));
      assert FullRoad(c)[..8] == FullRoad(c) && log[5] == FullRoad(c)[5];
    }
  }

  /** A log along the road is a part of it and an ending. */
  lemma {:induction false} Split(c: Course, log: seq<Event>) returns (n: nat, ending: seq<Event>)
    requires AlongRoad(c, log)
    ensures n <= 8 && IsEnding(ending) && log == FullRoad(c)[..n] + ending
  {
    if log <= FullRoad(c) {
      n, ending := |log|, [];
    } else {
      n, ending := |log| - 1, [log[|log| - 1]];
    }
  }

  lemma {:induction false} EndedUnderOneFence(road: seq<Event>, n: nat, ending: seq<Event>, epoch: nat)
    requires n <= |road| && IsEnding(ending) && UnderOneFence(road, epoch)
    ensures UnderOneFence(road[..n] + ending, epoch)
  {
    var log := road[..n] + ending;
    forall k | 0 <= k < |log| ensures if k < n then log[k] == road[k] else log[k] == ending[0] {}
  }

  lemma {:induction false} RoadUnderOneFence(c: Course)
    ensures UnderOneFence(FullRoad(c), Predicted(c.met))
  {
  }

  // ---- failing runs ----------------------------------------------------------------------------------------------

  /** An export that meets nothing in its way: role separation, a drained source, an attested downtime. */
  const SMOOTH := World(true, true, true, true, false, ByFlag, Quiesce(Never, true, true), true, true, (_: Moment) => [], None, None, true)

  /** The disk refuses the receipt of EXPORTED: it is followed by BLOCKED, and the bundle is there. */
  method BlockedBehindExported(source: Source) returns (log: seq<Event>, outcome: Outcome)
    requires Sound(source.fence)
    modifies source
    ensures outcome.Refused? && OutputWritten in log
    ensures EXPORTED in States(Receipts(log)) && BLOCKED in States(Receipts(log))
    ensures source.fence == Fence(true, Predicted(old(source.fence)), true)
  {
    var w := SMOOTH.(throwsAt := Some(WriteExported));
    UndisturbedCourse(w, source.fence);
    log, outcome := RunExport(source, w);
  }

  /**
   * The environment database is lost behind the fence, and back for the last reading: the receipt names the fence the
   * export took and says that nothing was changed.
   */
  method NothingChangedOfAFencedSource(source: Source) returns (log: seq<Event>, outcome: Outcome)
    requires !source.fence.fenced && Sound(source.fence)
    modifies source
    ensures outcome.Refused? && source.fence == Fence(true, old(source.fence.epoch) + 1, false)
    ensures log != [] && log[|log| - 1] == Recorded(Transition(BLOCKED, Some(source.fence.epoch), Some(true), None))
  {
    var w := SMOOTH.(quiesce := Quiesce(BeforeBarriers, true, true), readsBack := false);
    ghost var c := CourseOf(w, source.fence);
    UndisturbedCourse(w, source.fence);
    log, outcome := RunExport(source, w);
  }

  /** Somebody releases the fence while the snapshot is read: nothing is written, and the source is not fenced again. */
  method ReleasedMeanwhile(source: Source) returns (log: seq<Event>, outcome: Outcome)
    requires !source.fence.fenced && Sound(source.fence)
    modifies source
    ensures outcome.Refused? && OutputWritten !in log && !source.fence.fenced
  {
    var released := Fence(false, source.fence.epoch + 1, false);
    var w := SMOOTH.(others := (m: Moment) => if m == InSnapshot then [released] else []);
    ghost var c := CourseOf(w, source.fence);
    assert Trace(c.held, [released]) == Trace(c.held, [released][..0]) + [released];
    log, outcome := RunExport(source, w);
  }
}
