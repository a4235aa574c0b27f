/**
 * The launcher the Codex adapter starts the binary under: signal, exit and timer handlers over a few
 * variables. Time is real and in milliseconds; a pending timer fires exactly when it is due, and a
 * binary that was sent SIGKILL is gone at most `latency` later.
 */
module KillLadder {
  import opened Options
  import opened Sequences

  datatype Signal = SIGTERM | SIGINT | SIGKILL

  /** A timeout: never set, pending, or over (fired or cleared). */
  datatype Timer = Unset | Pending(due: real) | Over

  /** A signal sent to the binary's group, and whether the binary was still running. */
  datatype Sent = Sent(at: real, signal: Signal, running: bool)

  /** The launcher's variables, and what has happened so far. */
  datatype State = State(
    now: real,
    stopping: bool,
    forced: Timer,
    exited: bool,
    leave: Timer,
    left: bool,
    sent: seq<Sent>,
    arms: nat,                 // how often the forced timer was armed
    stoppedAt: Option<real>,   // the first stop that arrived while the binary ran
    exitedAt: Option<real>)

  datatype Event =
    | Tick(d: real)
    | StopSignal(signal: Signal)
    | ChildExit
    | ForcedFires
    | LeaveFires
    | Drained        // nothing keeps the process alive any more
    | ChildError     // the binary could not be spawned or signalled

  function Min(a: real, b: real): real { if a < b then a else b }

  /** The grace as the launcher reads it from its environment; None for a value that is not finite. */
  function GraceMs(raw: Option<real>): (g: real)
    ensures g > 0.0
  {
    match raw
    case Some(g) => if g > 0.0 then g else 5000.0
    case None => 5000.0
  }

  const START := State(0.0, false, Unset, false, Unset, false, [], 0, None, None)

  function Send(s: State, signal: Signal): State {
    s.(sent := s.sent + [Sent(s.now, signal, !s.exited)])
  }

  /** The process leaves: its exit handler kills what the exited binary left in the group. */
  function Leave(s: State): State {
    (if s.exited then Send(s, SIGKILL) else s).(left := true)
  }

  // ----- which events can happen ---------------------------------------------------------------------------

  /** The first SIGKILL the running binary was sent. */
  function KilledAt(sent: seq<Sent>): Option<real> {
    if sent == [] then None
    else if sent[0].signal.SIGKILL? && sent[0].running then Some(sent[0].at)
    else KilledAt(sent[1..])
  }

  predicate Enabled(s: State, e: Event, latency: real) {
    !s.left &&
    match e
    case Tick(d) =>
      && d > 0.0
      && (s.forced.Pending? ==> s.now + d <= s.forced.due)
      && (s.leave.Pending? ==> s.now + d <= s.leave.due)
      && (!s.exited && KilledAt(s.sent).Some? ==> s.now + d <= KilledAt(s.sent).value + latency)
    case StopSignal(signal) => !signal.SIGKILL?
    case ChildExit => !s.exited
    case ForcedFires => s.forced.Pending? && s.forced.due == s.now
    case LeaveFires => s.leave.Pending? && s.leave.due == s.now
    case Drained => s.exited
    case ChildError => true
  }

  /** What each event does. */
  function Step(s: State, e: Event, graceMs: real): State {
    match e
    case Tick(d) => s.(now := s.now + d)
    case StopSignal(signal) =>
      if s.exited then Send(s.(stopping := true), SIGKILL)
      else
        var t := Send(s.(stopping := true, stoppedAt := if s.stoppedAt.None? then Some(s.now) else s.stoppedAt), signal);
        if s.forced.Unset? then t.(forced := Pending(s.now + graceMs), arms := s.arms + 1) else t
    case ChildExit =>
      var t := s.(exited := true, exitedAt := Some(s.now), forced := if s.forced.Unset? then Unset else Over);
      var u := if s.stopping then Send(t, SIGKILL) else t;
      u.(leave := Pending(s.now + if s.stopping then Min(graceMs, 200.0) else graceMs))
    case ForcedFires => Send(s.(forced := Over), SIGKILL)
    case LeaveFires => Leave(Send(s.(leave := Over), SIGKILL))
    case Drained => Leave(s)
    case ChildError => Leave(s)
  }

  /** The state a sequence of events leads to, when each can happen in turn. */
  function Run(s: State, events: seq<Event>, graceMs: real, latency: real): Option<State>
    decreases |events|
  {
    if events == [] then Some(s)
    else if !Enabled(s, events[0], latency) then None
    else Run(Step(s, events[0], graceMs), events[1..], graceMs, latency)
  }

  // ----- the launcher -------------------------------------------------------------------------------------------

  class Launcher {
    const graceMs: real
    var now: real
    var stopping: bool
    var forced: Timer
    var exited: bool
    var leave: Timer
    var left: bool
    var sent: seq<Sent>
    ghost var arms: nat
    ghost var stoppedAt: Option<real>
    ghost var exitedAt: Option<real>

    ghost function Snapshot(): State
      reads this
    {
      State(now, stopping, forced, exited, leave, left, sent, arms, stoppedAt, exitedAt)
    }

    constructor (rawGrace: Option<real>)
      ensures graceMs == GraceMs(rawGrace) && Snapshot() == START
    {
      graceMs := GraceMs(rawGrace);
      now, stopping, forced, exited, leave, left, sent := 0.0, false, Unset, false, Unset, false, [];
      arms, stoppedAt, exitedAt := 0, None, None;
    }

    method SignalGroup(signal: Signal)
      modifies this`sent
      ensures Snapshot() == Send(old(Snapshot()), signal)
    {
      sent := sent + [Sent(now, signal, !exited)];
    }

    method Stop(signal: Signal)
      modifies this
      ensures Snapshot() == Step(old(Snapshot()), StopSignal(signal), graceMs)
    {
      stopping := true;
      if exited {
        SignalGroup(SIGKILL);
        return;
      }
      if stoppedAt.None? { stoppedAt := Some(now); }
      SignalGroup(signal);
      if forced.Unset? {
        forced := Pending(now + graceMs);
        arms := arms + 1;
      }
    }

    method OnChildExit()
      modifies this
      ensures Snapshot() == Step(old(Snapshot()), ChildExit, graceMs)
    {
      exited := true;
      exitedAt := Some(now);
      if !forced.Unset? { forced := Over; }
      if stopping { SignalGroup(SIGKILL); }
      leave := Pending(now + if stopping then Min(graceMs, 200.0) else graceMs);
    }

    method OnForced()
      modifies this
      ensures Snapshot() == Step(old(Snapshot()), ForcedFires, graceMs)
    {
      forced := Over;
      SignalGroup(SIGKILL);
    }

    method OnLeave()
      modifies this
      ensures Snapshot() == Step(old(Snapshot()), LeaveFires, graceMs)
    {
      leave := Over;
      SignalGroup(SIGKILL);
      ProcessExit();
    }

    /** `process.exit`, or the end of a process nothing keeps alive: the exit handler, then gone. */
    method ProcessExit()
      modifies this
      ensures Snapshot() == Leave(old(Snapshot()))
    {
      if exited { SignalGroup(SIGKILL); }
      left := true;
    }
  }

  // ----- every run ------------------------------------------------------------------------------------------------

  /** How long the launcher may stay once the binary has exited. */
  function Linger(s: State, graceMs: real): real {
    if s.stoppedAt.Some? then Min(graceMs, 200.0) else graceMs
  }

  /** No SIGKILL reached the running binary before the grace was over since the first stop. */
  predicate KillsWait(sent: seq<Sent>, stoppedAt: Option<real>, graceMs: real) {
    forall i | 0 <= i < |sent| && sent[i].signal.SIGKILL? && sent[i].running ::
      stoppedAt.Some? && sent[i].at >= stoppedAt.value + graceMs
  }

  /** Once the binary has exited and the launcher left, the group was killed after the exit. */
  predicate GroupKilledAfterExit(s: State) {
    s.left && s.exited ==> s.sent != [] && s.sent[|s.sent| - 1].signal.SIGKILL? && !s.sent[|s.sent| - 1].running
  }

  predicate Inv(s: State, graceMs: real, latency: real) {
    // the forced timer: armed once, by the first stop of the running binary, never pending after exit
    && s.arms == (if s.forced.Unset? then 0 else 1)
    && (s.forced.Unset? <==> s.stoppedAt.None?)
    && (s.exited ==> !s.forced.Pending?)
    && (s.forced.Pending? ==> s.forced.due == s.stoppedAt.value + graceMs && s.now <= s.forced.due)
    && (s.exited <==> s.exitedAt.Some?)
    && (!s.exited ==> (s.stopping <==> s.stoppedAt.Some?) && s.leave.Unset?)
    && (s.stoppedAt.Some? ==> s.stopping)
    // the kill, and what it bounds
    && KillsWait(s.sent, s.stoppedAt, graceMs)
    && (!s.forced.Over? ==> KilledAt(s.sent).None?)
    && (!s.exited && s.forced.Over? ==> KilledAt(s.sent) == Some(s.stoppedAt.value + graceMs))
    && (!s.exited && s.forced.Over? ==> s.now <= s.stoppedAt.value + graceMs + latency)
    && (s.exited && s.stoppedAt.Some? ==> s.exitedAt.value <= s.stoppedAt.value + graceMs + latency)
    // leaving
    && (s.exited && !s.left ==> s.leave == Pending(s.exitedAt.value + Linger(s, graceMs)) && s.now <= s.leave.due)
    && GroupKilledAfterExit(s)
  }

  lemma {:induction false} KilledAtAppend(sent: seq<Sent>, x: Sent)
    ensures KilledAt(sent + [x]) ==
      if KilledAt(sent).Some? then KilledAt(sent) else if x.signal.SIGKILL? && x.running then Some(x.at) else None
  {
    if sent == [] {
      assert sent + [x] == [x] && [x][1..] == [];
    } else {
      assert (sent + [x])[1..] == sent[1..] + [x];
      KilledAtAppend(sent[1..], x);
    }
  }

  /** Every event keeps the invariant. */
  lemma {:induction false} StepKeepsInv(s: State, e: Event, graceMs: real, latency: real)
    requires graceMs > 0.0 && latency >= 0.0 && Inv(s, graceMs, latency) && Enabled(s, e, latency)
    ensures Inv(Step(s, e, graceMs), graceMs, latency)
  {
    match e
    case Tick(d) =>
    case StopSignal(signal) => KilledAtAppend(s.sent, Sent(s.now, if s.exited then SIGKILL else signal, !s.exited));
    case ChildExit => KilledAtAppend(s.sent, Sent(s.now, SIGKILL, false));
    case ForcedFires => KilledAtAppend(s.sent, Sent(s.now, SIGKILL, true));
    case LeaveFires =>
      KilledAtAppend(s.sent, Sent(s.now, SIGKILL, false));
      KilledAtAppend(s.sent + [Sent(s.now, SIGKILL, false)], Sent(s.now, SIGKILL, false));
    case Drained => KilledAtAppend(s.sent, Sent(s.now, SIGKILL, false));
    case ChildError => if s.exited { KilledAtAppend(s.sent, Sent(s.now, SIGKILL, false)); }
  }

  lemma {:induction false} RunKeepsInv(s: State, events: seq<Event>, graceMs: real, latency: real)
    requires graceMs > 0.0 && latency >= 0.0 && Inv(s, graceMs, latency)
    ensures Run(s, events, graceMs, latency).Some? ==> Inv(Run(s, events, graceMs, latency).value, graceMs, latency)
    decreases |events|
  {
    if events != [] && Enabled(s, events[0], latency) {
      StepKeepsInv(s, events[0], graceMs, latency);
      RunKeepsInv(Step(s, events[0], graceMs), events[1..], graceMs, latency);
    }
  }

  /**
   * Settling: over every run, however many signals arrive and whenever they do, a launcher that is still
   * there is within its bound - the grace, the kill latency and the short linger after the first stop of
   * a running binary; the grace after the exit of a binary nobody had stopped.
   */
  lemma {:induction false} SettlingBound(rawGrace: Option<real>, latency: real, events: seq<Event>)
    requires latency >= 0.0
    requires Run(START, events, GraceMs(rawGrace), latency).Some?
    ensures
      var g, s := GraceMs(rawGrace), Run(START, events, GraceMs(rawGrace), latency).value;
      && (!s.left && s.stoppedAt.Some? ==> s.now <= s.stoppedAt.value + g + latency + Min(g, 200.0))
      && (!s.left && s.exitedAt.Some? && s.stoppedAt.None? ==> s.now <= s.exitedAt.value + g)
  {
    RunKeepsInv(START, events, GraceMs(rawGrace), latency);
  }

  /**
   * Safety over every run: a running binary is sent SIGKILL only once the grace since its first stop is
   * over; the forced timer is armed at most once and never pending after the exit; and a launcher that
   * left after the exit had killed the group after the exit.
   */
  lemma {:induction false} LadderSafety(rawGrace: Option<real>, latency: real, events: seq<Event>)
    requires latency >= 0.0
    requires Run(START, events, GraceMs(rawGrace), latency).Some?
    ensures
      var g, s := GraceMs(rawGrace), Run(START, events, GraceMs(rawGrace), latency).value;
      && KillsWait(s.sent, s.stoppedAt, g)
      && s.arms <= 1 && (s.exited ==> !s.forced.Pending?)
      && GroupKilledAfterExit(s)
  {
    RunKeepsInv(START, events, GraceMs(rawGrace), latency);
  }

  /** Time is never stuck: while the launcher is there, it can pass or an urgent event can happen now. */
  lemma {:induction false} NeverStuck(rawGrace: Option<real>, latency: real, events: seq<Event>)
    requires latency >= 0.0
    requires Run(START, events, GraceMs(rawGrace), latency).Some?
    requires !Run(START, events, GraceMs(rawGrace), latency).value.left
    ensures
      var s := Run(START, events, GraceMs(rawGrace), latency).value;
      || (exists d :: Enabled(s, Tick(d), latency))
      || Enabled(s, ForcedFires, latency) || Enabled(s, LeaveFires, latency)
      || (KilledAt(s.sent).Some? && s.now == KilledAt(s.sent).value + latency && Enabled(s, ChildExit, latency))
  {
    RunKeepsInv(START, events, GraceMs(rawGrace), latency);
    var s := Run(START, events, GraceMs(rawGrace), latency).value;
    var kill := KilledAt(s.sent);
    var slack := if s.forced.Pending? then s.forced.due - s.now
      else if s.leave.Pending? then s.leave.due - s.now
      else if kill.Some? then kill.value + latency - s.now
      else 1.0;
    if slack > 0.0 { assert Enabled(s, Tick(slack), latency); }
  }

  /** The bound is reached: stop, wait out the grace, kill, wait out the latency and the linger. */
  lemma {:induction false} BoundIsReached(rawGrace: Option<real>, latency: real) returns (events: seq<Event>)
    requires latency > 0.0
    ensures
      var g, r := GraceMs(rawGrace), Run(START, events, GraceMs(rawGrace), latency);
      r.Some? && r.value.left && r.value.stoppedAt == Some(0.0) && r.value.now == g + latency + Min(g, 200.0)
  {
    var g := GraceMs(rawGrace);
    var e0, e1, e2, e3, e4, e5, e6 :=
      StopSignal(SIGTERM), Tick(g), ForcedFires, Tick(latency), ChildExit, Tick(Min(g, 200.0)), LeaveFires;
    var s1 := Step(START, e0, g);
    var s2 := Step(s1, e1, g);
    var s3 := Step(s2, e2, g);
    var s4 := Step(s3, e3, g);
    var s5 := Step(s4, e4, g);
    var s6 := Step(s5, e5, g);
    StepKeepsInv(START, e0, g, latency);
    StepKeepsInv(s1, e1, g, latency);
    StepKeepsInv(s2, e2, g, latency);
    StepKeepsInv(s3, e3, g, latency);
    StepKeepsInv(s4, e4, g, latency);
    events := [];
    assert Run(Step(s6, e6, g), events, g, latency) == Some(Step(s6, e6, g));
    events := Prepend(e6, s6, events, g, latency);
    events := Prepend(e5, s5, events, g, latency);
    events := Prepend(e4, s4, events, g, latency);
    events := Prepend(e3, s3, events, g, latency);
    events := Prepend(e2, s2, events, g, latency);
    events := Prepend(e1, s1, events, g, latency);
    events := Prepend(e0, START, events, g, latency);
  }

  lemma {:induction false} Prepend(e: Event, s: State, rest: seq<Event>, graceMs: real, latency: real) returns (events: seq<Event>)
    requires Enabled(s, e, latency)
    ensures events == [e] + rest && Run(s, events, graceMs, latency) == Run(Step(s, e, graceMs), rest, graceMs, latency)
  {
    events := [e] + rest;
    assert events[1..] == rest;
  }

  // ----- what is sent ---------------------------------------------------------------------------------------------

  /** The signals other than SIGKILL. */
  function NonKills(sent: seq<Sent>): seq<Sent> {
    if sent == [] then []
    else NonKills(sent[..|sent| - 1]) + if sent[|sent| - 1].signal.SIGKILL? then [] else [sent[|sent| - 1]]
  }

  /** What the running binary has to be told, read off the events: each stop before its exit, at its time. */
  function Relayed(events: seq<Event>, now: real, exited: bool): seq<Sent> {
    if events == [] then []
    else
      match events[0]
      case Tick(d) => Relayed(events[1..], now + d, exited)
      case StopSignal(signal) => (if exited then [] else [Sent(now, signal, true)]) + Relayed(events[1..], now, exited)
      case ChildExit => Relayed(events[1..], now, true)
      case _ => Relayed(events[1..], now, exited)
  }

  /** When what an exited binary left in its group has to be killed: at an exit after a stop, and at every stop after the exit. */
  function GroupKillsDue(events: seq<Event>, now: real, exited: bool, stopping: bool): seq<real> {
    if events == [] then []
    else
      match events[0]
      case Tick(d) => GroupKillsDue(events[1..], now + d, exited, stopping)
      case StopSignal(_) => (if exited then [now] else []) + GroupKillsDue(events[1..], now, exited, true)
      case ChildExit => (if stopping then [now] else []) + GroupKillsDue(events[1..], now, true, stopping)
      case _ => GroupKillsDue(events[1..], now, exited, stopping)
  }

  lemma {:induction false} NonKillsAppend(a: seq<Sent>, b: seq<Sent>)
    ensures NonKills(a + b) == NonKills(a) + NonKills(b)
    decreases |b|
  {
    if b == [] {
      assert a + b == a;
    } else {
      assert (a + b)[..|a + b| - 1] == a + b[..|b| - 1];
      NonKillsAppend(a, b[..|b| - 1]);
    }
  }

  /** What one event sends. */
  lemma {:induction false} StepSends(s: State, e: Event, graceMs: real, latency: real) returns (more: seq<Sent>)
    requires Enabled(s, e, latency)
    ensures Step(s, e, graceMs).sent == s.sent + more
    ensures NonKills(more) == if e.StopSignal? && !s.exited then [Sent(s.now, e.signal, true)] else []
    ensures (e.StopSignal? && s.exited) || (e.ChildExit? && s.stopping) ==> Sent(s.now, SIGKILL, false) in more
  {
    var kill := Sent(s.now, SIGKILL, !s.exited);
    match e
    case Tick(_) => more := [];
    case StopSignal(signal) => more := [Sent(s.now, if s.exited then SIGKILL else signal, !s.exited)];
    case ChildExit => more := if s.stopping then [Sent(s.now, SIGKILL, false)] else [];
    case ForcedFires => more := [kill];
    case LeaveFires =>
      more := if s.exited then [kill, kill] else [kill];
      NonKillsAppend([kill], [kill]);
      assert [kill] + [kill] == [kill, kill];
    case Drained => more := if s.exited then [kill] else [];
    case ChildError => more := if s.exited then [kill] else [];
    if |more| == 1 { assert more[..0] == []; }
  }

  /** What a run from `s` to `t` has sent. */
  ghost predicate Sends(s: State, events: seq<Event>, t: State) {
    && s.sent <= t.sent
    && NonKills(t.sent) == NonKills(s.sent) + Relayed(events, s.now, s.exited)
    && AllKilled(GroupKillsDue(events, s.now, s.exited, s.stopping), t.sent)
  }

  /** The group was killed at each of these times. */
  predicate AllKilled(due: seq<real>, sent: seq<Sent>) {
    forall k | 0 <= k < |due| :: Sent(due[k], SIGKILL, false) in sent
  }

  lemma {:induction false} OneMoreKilled(first: seq<real>, rest: seq<real>, sent: seq<Sent>)
    requires AllKilled(first, sent) && AllKilled(rest, sent)
    ensures AllKilled(first + rest, sent)
  {
  }

  /** The event in front of a run, in terms of what is due. */
  lemma {:induction false} DueStep(s: State, events: seq<Event>, graceMs: real)
    requires events != []
    ensures var e, next := events[0], Step(s, events[0], graceMs);
      && Relayed(events, s.now, s.exited)
        == (if e.StopSignal? && !s.exited then [Sent(s.now, e.signal, true)] else []) + Relayed(events[1..], next.now, next.exited)
      && GroupKillsDue(events, s.now, s.exited, s.stopping)
        == (if (e.StopSignal? && s.exited) || (e.ChildExit? && s.stopping) then [s.now] else []) + GroupKillsDue(events[1..], next.now, next.exited, next.stopping)
  {
    var next := Step(s, events[0], graceMs);
    assert [] + Relayed(events[1..], next.now, next.exited) == Relayed(events[1..], next.now, next.exited);
    assert [] + GroupKillsDue(events[1..], next.now, next.exited, next.stopping) == GroupKillsDue(events[1..], next.now, next.exited, next.stopping);
  }

  lemma {:induction false} SendsStep(s: State, events: seq<Event>, t: State, graceMs: real, latency: real)
    requires events != [] && Enabled(s, events[0], latency) && Sends(Step(s, events[0], graceMs), events[1..], t)
    ensures Sends(s, events, t)
  {
    var e, next := events[0], Step(s, events[0], graceMs);
    var more := StepSends(s, e, graceMs, latency);
    DueStep(s, events, graceMs);
    MoreIsKept(s.sent, more, t.sent, Sent(s.now, SIGKILL, false));
    OneMoreKilled(if (e.StopSignal? && s.exited) || (e.ChildExit? && s.stopping) then [s.now] else [],
                  GroupKillsDue(events[1..], next.now, next.exited, next.stopping), t.sent);
    RelaysStep(s.sent, more, NonKills(more), Relayed(events[1..], next.now, next.exited), t.sent);
  }

  lemma {:induction false} RelaysStep(before: seq<Sent>, more: seq<Sent>, first: seq<Sent>, rest: seq<Sent>, after: seq<Sent>)
    requires NonKills(more) == first && NonKills(after) == NonKills(before + more) + rest
    ensures NonKills(after) == NonKills(before) + (first + rest)
  {
    NonKillsAppend(before, more);
    Associative(NonKills(before), first, rest);
  }

  lemma {:induction false} MoreIsKept(before: seq<Sent>, more: seq<Sent>, after: seq<Sent>, x: Sent)
    requires before + more <= after
    ensures before <= after && (x in more ==> x in after)
  {
    if x in more {
      var k :| 0 <= k < |more| && more[k] == x;
      assert after[|before| + k] == (before + more)[|before| + k] == x;
    }
  }

  lemma {:induction false} RunSends(s: State, events: seq<Event>, graceMs: real, latency: real)
    requires Run(s, events, graceMs, latency).Some?
    ensures Sends(s, events, Run(s, events, graceMs, latency).value)
    decreases |events|
  {
    if events == [] {
      assert NonKills(s.sent) + [] == NonKills(s.sent);
    } else {
      RunSends(Step(s, events[0], graceMs), events[1..], graceMs, latency);
      SendsStep(s, events, Run(s, events, graceMs, latency).value, graceMs, latency);
    }
  }

  /**
   * Over every run: what the binary is told besides SIGKILL is exactly the stops that arrived while it ran, in order,
   * each at its time; and what it left in its group is killed at its exit after a stop and at every stop after its exit.
   */
  lemma {:induction false} StopsAreRelayed(rawGrace: Option<real>, latency: real, events: seq<Event>)
    requires Run(START, events, GraceMs(rawGrace), latency).Some?
    ensures var s := Run(START, events, GraceMs(rawGrace), latency).value;
      && NonKills(s.sent) == Relayed(events, 0.0, false)
      && AllKilled(GroupKillsDue(events, 0.0, false, false), s.sent)
  {
    RunSends(START, events, GraceMs(rawGrace), latency);
    var told := Relayed(events, 0.0, false);
    assert [] + told == told;
  }

  /**
   * The timers fire when they should, neither earlier nor later: the forced one a grace after the first stop of the
   * running binary, the last one a grace after its exit, or min(grace, 200) when it was stopped before.
   */
  lemma {:induction false} TimersAreExact(rawGrace: Option<real>, latency: real, events: seq<Event>)
    requires latency >= 0.0 && Run(START, events, GraceMs(rawGrace), latency).Some?
    ensures var g, s := GraceMs(rawGrace), Run(START, events, GraceMs(rawGrace), latency).value;
      && (Enabled(s, ForcedFires, latency) ==> s.stoppedAt.Some? && s.now == s.stoppedAt.value + g)
      && (Enabled(s, LeaveFires, latency) ==> s.exitedAt.Some? && s.now == s.exitedAt.value + if s.stoppedAt.Some? then Min(g, 200.0) else g)
  {
    RunKeepsInv(START, events, GraceMs(rawGrace), latency);
  }
}
