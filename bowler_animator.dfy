/** The bowler's throw cadence: a four-phase cyclic timer. Each call adds the frame
    delta to the time spent in the current phase and moves on by at most one phase;
    entering the last phase is the moment the boulder is thrown. */
module BowlerAnimator {
  import opened Common
  import opened Geometry

  const FrameCount: int := 4
  /** Relative phase lengths, also the durations before the first re-derivation. */
  const Weights: seq<real> := [300.0, 220.0, 220.0, 260.0]
  const WeightSum: real := Weights[0] + Weights[1] + Weights[2] + Weights[3]
  const MinFrameMs: real := 120.0
  /** Index of the phase whose entry fires the throw. */
  const ThrowFrame: int := 3

  /** Duration of one phase whose share of the cycle is `share` ms: the share rounded
      to whole milliseconds, but never below 120 ms. */
  function PhaseDuration(share: real): (d: real)
    ensures d >= MinFrameMs && d == d.Floor as real
    ensures share <= MinFrameMs - 0.5 ==> d == MinFrameMs
    ensures share > MinFrameMs - 0.5 ==> share - 0.5 < d <= share + 0.5
  {
    var r := Round(share);
    assert share > MinFrameMs - 0.5 ==> r >= MinFrameMs by {
      if share > MinFrameMs - 0.5 {
        assert (share + 0.5).Floor >= 120;
      }
    }
    Max(MinFrameMs, r)
  }

  /** Phase durations for a full cycle of `totalCycleMs`: every phase lasts at least
      120 ms, and a phase whose share of the cycle is above that floor keeps its share
      up to rounding, so the relative weighting survives. */
  function CycleDurations(totalCycleMs: real): (d: seq<real>)
    ensures |d| == FrameCount
    ensures forall i :: 0 <= i < FrameCount ==> d[i] >= MinFrameMs && d[i] == d[i].Floor as real
    ensures forall i :: 0 <= i < FrameCount ==>
      var share := Weights[i] / WeightSum * totalCycleMs;
      && (share <= MinFrameMs - 0.5 ==> d[i] == MinFrameMs)
      && (share > MinFrameMs - 0.5 ==> share - 0.5 < d[i] <= share + 0.5)
  {
    seq(FrameCount, i requires 0 <= i < FrameCount => PhaseDuration(Weights[i] / WeightSum * totalCycleMs))
  }

  datatype Phase = Phase(frameIndex: int, elapsedMs: real)

  /** What one update does to the phase, and whether it throws. */
  datatype Tick = Tick(phase: Phase, threw: bool)

  ghost predicate ValidPhase(durations: seq<real>, ph: Phase) {
    |durations| == FrameCount && 0 <= ph.frameIndex < FrameCount
  }

  /** One update: the phase advances (by one, wrapping 3 to 0) exactly when the time
      in it reaches its duration, and then only that duration is taken off, so any
      excess carries into the next phase. A throw happens exactly on entering phase 3. */
  function Step(durations: seq<real>, ph: Phase, deltaMs: real): (t: Tick)
    requires ValidPhase(durations, ph)
    ensures ValidPhase(durations, t.phase)
    ensures var f, e := ph.frameIndex, ph.elapsedMs + deltaMs;
      if e >= durations[f] then
        t.phase == Phase((f + 1) % FrameCount, e - durations[f])
      else
        t.phase == Phase(f, e)
    ensures t.threw <==> t.phase.frameIndex != ph.frameIndex && t.phase.frameIndex == ThrowFrame
  {
    var e := ph.elapsedMs + deltaMs;
    if e >= durations[ph.frameIndex] then
      var next := (ph.frameIndex + 1) % FrameCount;
      Tick(Phase(next, e - durations[ph.frameIndex]), next == ThrowFrame)
    else
      Tick(Phase(ph.frameIndex, e), false)
  }

  /** The outcome of a run of updates: the final phase, how many throws fired and
      how many phase changes happened. */
  datatype RunResult = RunResult(phase: Phase, throws: nat, advances: nat)

  function Run(durations: seq<real>, ph: Phase, deltas: seq<real>): (r: RunResult)
    requires ValidPhase(durations, ph)
    ensures ValidPhase(durations, r.phase)
    decreases |deltas|
  {
    if deltas == [] then RunResult(ph, 0, 0)
    else
      var t := Step(durations, ph, deltas[0]);
      var rest := Run(durations, t.phase, deltas[1..]);
      RunResult(rest.phase,
                rest.throws + (if t.threw then 1 else 0),
                rest.advances + (if t.phase.frameIndex != ph.frameIndex then 1 else 0))
  }

  /** One update inside a run: the run is that step followed by the rest, counting
      one advance exactly when the phase changed (to the next phase, mod 4) and one
      throw exactly when it changed into phase 3. */
  lemma RunUnfold(durations: seq<real>, ph: Phase, deltas: seq<real>)
    requires ValidPhase(durations, ph) && deltas != []
    ensures var t := Step(durations, ph, deltas[0]);
      var rest, r := Run(durations, t.phase, deltas[1..]), Run(durations, ph, deltas);
      && r.phase == rest.phase
      && (t.phase.frameIndex == ph.frameIndex ==> r.advances == rest.advances && r.throws == rest.throws)
      && (t.phase.frameIndex != ph.frameIndex ==>
            && t.phase.frameIndex == (ph.frameIndex + 1) % FrameCount
            && r.advances == rest.advances + 1
            && r.throws == rest.throws + (if t.phase.frameIndex == ThrowFrame then 1 else 0))
  {
  }

  /** Over any run of updates the phase index only cycles 0, 1, 2, 3, 0, ...: after
      `a` phase changes from phase `f`, the phase is `(f + a) % 4`. */
  lemma {:induction false} RunCyclesPhases(durations: seq<real>, ph: Phase, deltas: seq<real>)
    requires ValidPhase(durations, ph)
    ensures var r := Run(durations, ph, deltas);
      r.phase.frameIndex == (ph.frameIndex + r.advances) % FrameCount
    decreases |deltas|
  {
    if deltas != [] {
      var t := Step(durations, ph, deltas[0]);
      RunUnfold(durations, ph, deltas);
      RunCyclesPhases(durations, t.phase, deltas[1..]);
      if t.phase.frameIndex != ph.frameIndex {
        AdvancePhase(ph.frameIndex, Run(durations, t.phase, deltas[1..]).advances);
      }
    }
  }

  /** A throw fires once per pass through phase 3: after `a` phase changes from phase
      `f`, the throws are the multiples of four crossed between `f + 1` and
      `f + a + 1`. */
  lemma {:induction false} RunThrowsOncePerCycle(durations: seq<real>, ph: Phase, deltas: seq<real>)
    requires ValidPhase(durations, ph)
    ensures var r, f := Run(durations, ph, deltas), ph.frameIndex;
      r.throws == (f + r.advances + 1) / FrameCount - (f + 1) / FrameCount
    decreases |deltas|
  {
    if deltas != [] {
      var t := Step(durations, ph, deltas[0]);
      RunUnfold(durations, ph, deltas);
      RunThrowsOncePerCycle(durations, t.phase, deltas[1..]);
      if t.phase.frameIndex != ph.frameIndex {
        AdvanceThrows(ph.frameIndex, Run(durations, t.phase, deltas[1..]).advances);
      }
    }
  }

  /** The phase after one advance and `a` more is the phase after `a + 1`. */
  lemma AdvancePhase(f: int, a: nat)
    requires 0 <= f < FrameCount
    ensures ((f + 1) % FrameCount + a) % FrameCount == (f + (a + 1)) % FrameCount
  {
    if f == 3 {
      assert (f + a + 1) % 4 == a % 4;
    }
  }

  /** Counting the passes into phase 3 from the next phase after one advance, plus that
      advance's own throw, is counting them from this phase with one more advance. */
  lemma AdvanceThrows(f: int, a: nat)
    requires 0 <= f < FrameCount
    ensures var g := (f + 1) % FrameCount;
      (g + a + 1) / FrameCount - (g + 1) / FrameCount + (if g == ThrowFrame then 1 else 0)
        == (f + (a + 1) + 1) / FrameCount - (f + 1) / FrameCount
  {
    if f == 3 {
      assert (f + a + 2) / 4 == (a + 1) / 4 + 1;
    }
  }

  /** Where a thrown boulder appears: the bowler stands 24 px off the top of the slope
      against the normal, nudged 20 px left and 24 px up, and throws 24 px ahead of
      himself along the chord. */
  function ThrowOrigin(g: Slope): Vec {
    var container := Add(Add(g.top, Scale(g.normal, -24.0)), Vec(-20.0, -24.0));
    Add(container, Scale(g.unit, 24.0))
  }

  class BowlerAnimator {
    var elapsedMs: real
    var frameIndex: int
    var frameDurationsMs: seq<real>

    ghost predicate Valid()
      reads this
    {
      ValidPhase(frameDurationsMs, Phase(frameIndex, elapsedMs))
    }

    constructor ()
      ensures Valid()
      ensures elapsedMs == 0.0 && frameIndex == 0 && frameDurationsMs == Weights
    {
      elapsedMs, frameIndex, frameDurationsMs := 0.0, 0, Weights;
    }

    method SetCycleFromInterval(totalCycleMs: real)
      requires Valid()
      modifies this
      ensures Valid()
      ensures frameDurationsMs == CycleDurations(totalCycleMs)
      ensures elapsedMs == old(elapsedMs) && frameIndex == old(frameIndex)
    {
      frameDurationsMs := CycleDurations(totalCycleMs);
    }

    /** Back to the start of phase 0; durations are re-derived only when a non-zero
        cycle length is given (a missing or zero argument is falsy). */
    method Reset(totalCycleMs: Option<real>)
      requires Valid()
      modifies this
      ensures Valid()
      ensures elapsedMs == 0.0 && frameIndex == 0
      ensures frameDurationsMs ==
        if totalCycleMs.Some? && totalCycleMs.value != 0.0 then CycleDurations(totalCycleMs.value)
        else old(frameDurationsMs)
    {
      elapsedMs := 0.0;
      frameIndex := 0;
      if totalCycleMs.Some? && totalCycleMs.value != 0.0 {
        SetCycleFromInterval(totalCycleMs.value);
      }
    }

    /** One frame of the cadence; `threw` is the throw callback firing. */
    method Update(deltaMs: real) returns (threw: bool)
      requires Valid()
      modifies this
      ensures Valid()
      ensures Tick(Phase(frameIndex, elapsedMs), threw) == Step(old(frameDurationsMs), Phase(old(frameIndex), old(elapsedMs)), deltaMs)
      ensures frameDurationsMs == old(frameDurationsMs)
    {
      elapsedMs := elapsedMs + deltaMs;
      var currentFrameDuration := frameDurationsMs[frameIndex];
      threw := false;
      if elapsedMs >= currentFrameDuration {
        elapsedMs := elapsedMs - currentFrameDuration;
        frameIndex := (frameIndex + 1) % FrameCount;
        threw := frameIndex == ThrowFrame;
      }
    }
  }
}
