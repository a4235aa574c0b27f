/**
 * The source of an export: its write fence with the database barrier, what `quiesce` does to it step by
 * step, what others may make of it meanwhile, and the snapshot that is taken only while it holds.
 */
module ExportSource {
  import opened Options

  /** The fence as the environment records it; a barrier is held under a fence only. */
  datatype Fence = Fence(fenced: bool, epoch: nat, barrierHeld: bool)

  predicate Sound(f: Fence) { f.barrierHeld ==> f.fenced }

  // ---- quiesce --------------------------------------------------------------------------------------------

  /** Where `quiesce` fails; it then answers without data, whatever it did before. */
  datatype Stop = BeforeFence | BeforeBarriers | BeforeRelease | Never

  datatype Quiesce = Quiesce(stops: Stop, drained: bool, barrierTaken: bool)

  /** The epoch a quiesce will leave a fence at: that of the fence it finds, or the next one. */
  function Predicted(f: Fence): nat { if f.fenced then f.epoch else f.epoch + 1 }

  function Taken(f: Fence): Fence { if f.fenced then f else Fence(true, f.epoch + 1, false) }

  /** A fence that is found is kept, and so is its barrier; a new barrier needs a drained source. */
  function Quiesced(f: Fence, q: Quiesce): Fence {
    if q.stops.BeforeFence? then f
    else if q.stops.BeforeBarriers? then Taken(f)
    else Taken(f).(barrierHeld := Taken(f).barrierHeld || (q.drained && q.barrierTaken))
  }

  /** Whatever quiesce did, a source that it left fenced is fenced at the predicted epoch. */
  lemma {:induction false} PredictedEpoch(f: Fence, q: Quiesce)
    requires Sound(f)
    ensures Quiesced(f, q).fenced ==> Quiesced(f, q).epoch == Predicted(f)
    ensures Sound(Quiesced(f, q)) && (f.fenced ==> Quiesced(f, q).fenced)
    ensures q.stops.Never? ==> Quiesced(f, q).fenced
  {
  }

  // ---- what others do -------------------------------------------------------------------------------------

  /**
   * What a fence may have become: epochs only grow, a fence is never taken again at an epoch it had, and while it is
   * held its barrier is kept.
   */
  predicate Later(f: Fence, g: Fence) {
    && Sound(g) && f.epoch <= g.epoch
    && (g.epoch == f.epoch && g.fenced ==> f.fenced && (f.barrierHeld ==> g.barrierHeld))
  }

  /** The fence through what others make of it, one change after another; a change that cannot happen does not. */
  function Trace(f: Fence, changes: seq<Fence>): (trace: seq<Fence>)
    ensures trace != []
  {
    if changes == [] then [f]
    else
      var before := Trace(f, changes[..|changes| - 1]);
      var next := changes[|changes| - 1];
      before + [if Later(before[|before| - 1], next) then next else before[|before| - 1]]
  }

  function Moved(f: Fence, changes: seq<Fence>): Fence {
    Trace(f, changes)[|Trace(f, changes)| - 1]
  }

  lemma {:induction false} LaterTransitive(f: Fence, g: Fence, h: Fence)
    requires Later(f, g) && Later(g, h)
    ensures Later(f, h)
  {
  }

  /** Everything on the way is later than the start and earlier than the end. */
  lemma {:induction false} TraceIsLater(f: Fence, changes: seq<Fence>)
    requires Sound(f)
    ensures forall g | g in Trace(f, changes) :: Later(f, g) && Later(g, Moved(f, changes))
    decreases |changes|
  {
    if changes != [] {
      var before := Trace(f, changes[..|changes| - 1]);
      TraceIsLater(f, changes[..|changes| - 1]);
      var last, end := before[|before| - 1], Moved(f, changes);
      assert last in before && Later(last, end);
      LaterTransitive(f, last, end);
      forall g | g in Trace(f, changes) ensures Later(f, g) && Later(g, end) {
        if g in before { LaterTransitive(g, last, end); }
      }
    }
  }

  lemma {:induction false} MovedIsLater(f: Fence, changes: seq<Fence>)
    requires Sound(f)
    ensures Later(f, Moved(f, changes))
  {
    TraceIsLater(f, changes);
    assert Moved(f, changes) in Trace(f, changes);
  }

  /** Between two readings of one fence it was held all the time, and so was a barrier held at the first. */
  lemma {:induction false} HeldBetween(f: Fence, g: Fence, h: Fence)
    requires Later(f, g) && Later(g, h) && f.fenced && f.barrierHeld && h.fenced && h.epoch == f.epoch
    ensures g == Fence(true, f.epoch, true)
  {
  }

  class Source {
    var fence: Fence

    /** What others do to the fence. */
    method Others(changes: seq<Fence>)
      requires Sound(fence)
      modifies this
      ensures fence == Moved(old(fence), changes) && Later(old(fence), fence)
    {
      for i := 0 to |changes|
        invariant fence == Moved(old(fence), changes[..i])
      {
        assert changes[..i + 1][..i] == changes[..i];
        if Later(fence, changes[i]) { fence := changes[i]; }
      }
      assert changes[..|changes|] == changes;
      TraceIsLater(old(fence), changes);
    }

    /** Take or find the fence, wait for the drain, take or keep the database barrier. */
    method Quiesce(q: Quiesce) returns (data: Option<Fence>, ok: bool)
      requires Sound(fence)
      modifies this
      ensures fence == Quiesced(old(fence), q) && (fence.fenced ==> fence.epoch == Predicted(old(fence)))
      ensures old(fence.fenced) ==> fence.fenced && fence.epoch == old(fence.epoch)
      ensures fence.barrierHeld <==> old(fence.barrierHeld) || (q.stops in {BeforeRelease, Never} && q.drained && q.barrierTaken)
      ensures data == if q.stops.Never? then Some(fence) else None
      ensures ok <==> q.stops.Never? && q.drained
    {
      data, ok := None, false;
      if q.stops.BeforeFence? { return; }
      if !fence.fenced { fence := Fence(true, fence.epoch + 1, false); }
      if q.stops.BeforeBarriers? { return; }
      if !fence.barrierHeld && q.drained && q.barrierTaken { fence := fence.(barrierHeld := true); }
      if q.stops.BeforeRelease? { return; }
      data, ok := Some(fence), q.drained;
    }

    /** Read both databases and the blobs under the fence of one epoch; the fence is checked before and after. */
    method ExportSnapshot(fenceEpoch: nat, works: bool, meanwhile: seq<Fence>) returns (captured: Option<Fence>)
      requires Sound(fence)
      modifies this
      ensures fence == Moved(old(fence), meanwhile) && Later(old(fence), fence)
      ensures captured == if works && old(fence) == Fence(true, fenceEpoch, true) && fence.fenced && fence.epoch == fenceEpoch then Some(old(fence)) else None
    {
      var found := fence;
      Others(meanwhile);
      if found.epoch != fenceEpoch || !found.fenced || !found.barrierHeld { return None; }
      if !works || fence.epoch != fenceEpoch || !fence.fenced { return None; }
      captured := Some(found);
    }
  }
}
