/** Wave difficulty: the spawn interval and boulder speed multiplier are pure functions
    of the wave index, and the index lives in a slot of the game-wide registry. */
module WaveManager {
  import opened Common

  datatype WaveParams = WaveParams(spawnEveryMs: real, speedMultiplier: real, waveDurationMs: real)

  const BaseIntervalMs: real := 2200.0
  const IntervalStepMs: real := 140.0
  const IntervalFloorMs: real := 900.0
  const SpeedGrowth: real := 0.07

  /** Spawn interval of wave `w`: 140 ms shorter per wave, never below 900 ms. */
  function SpawnInterval(w: int): (r: real)
    ensures IntervalFloorMs <= r
    ensures w >= 1 ==> r <= BaseIntervalMs
  {
    Max(IntervalFloorMs, BaseIntervalMs - (w - 1) as real * IntervalStepMs)
  }

  /** Speed multiplier of wave `w`: 7% more per wave. */
  function SpeedMultiplier(w: int): (m: real)
    ensures m == 1.0 <==> w == 1
    ensures w >= 1 ==> m >= 1.0
  {
    1.0 + (w - 1) as real * SpeedGrowth
  }

  function CurrentParams(w: int): (p: WaveParams)
    ensures p.spawnEveryMs == SpawnInterval(w) && p.speedMultiplier == SpeedMultiplier(w)
    ensures p.waveDurationMs == 0.0
  {
    WaveParams(SpawnInterval(w), SpeedMultiplier(w), 0.0)
  }

  /** A later wave never spawns less often. */
  lemma IntervalNonIncreasing(w1: int, w2: int)
    requires w1 <= w2
    ensures SpawnInterval(w2) <= SpawnInterval(w1)
  {
    assert (w1 - 1) as real * IntervalStepMs <= (w2 - 1) as real * IntervalStepMs;
  }

  /** The 900 ms floor is reached exactly from wave 11 on. */
  lemma IntervalFloorFromWave11(w: int)
    ensures SpawnInterval(w) == IntervalFloorMs <==> w >= 11
  {
    if w >= 11 {
      assert (w - 1) as real * IntervalStepMs >= 10.0 * IntervalStepMs;
    } else {
      assert (w - 1) as real * IntervalStepMs <= 9.0 * IntervalStepMs;
    }
  }

  /** Wave 1 runs at normal speed and every later wave is strictly faster. */
  lemma SpeedStrictlyIncreasing(w1: int, w2: int)
    requires w1 < w2
    ensures SpeedMultiplier(1) == 1.0
    ensures SpeedMultiplier(w1) < SpeedMultiplier(w2)
  {
    assert (w1 - 1) as real * SpeedGrowth < (w2 - 1) as real * SpeedGrowth;
  }

  /** Reading the registry slot: a missing or zero entry (falsy) reads as wave 1. */
  function ReadIndex(slot: Option<int>): (w: int)
    ensures slot == None || slot == Some(0) ==> w == 1
    ensures slot.Some? && slot.value != 0 ==> w == slot.value
    ensures w != 0
  {
    if slot.Some? && slot.value != 0 then slot.value else 1
  }

  class WaveManager {
    /** Stands for the registry entry under the key `waveIndex`: the scene hands in its
        value at start, and the value the manager leaves stays readable afterwards. */
    var slot: Option<int>

    constructor (registrySlot: Option<int>)
      ensures slot == registrySlot
    {
      slot := registrySlot;
    }

    /** The `index` getter: the stored wave, or 1 for a missing or zero entry. */
    function Index(): (w: int)
      reads this
      ensures w != 0
      ensures slot == Some(w) || (w == 1 && (slot == None || slot == Some(0)))
    {
      ReadIndex(slot)
    }

    /** Time never changes the wave: `changed` is always false and the parameters are
        those of the current index, whatever the delta. */
    method Update(deltaMs: real) returns (changed: bool, params: WaveParams)
      ensures !changed
      ensures params.spawnEveryMs >= IntervalFloorMs
      ensures params == CurrentParams(Index())
    {
      changed := false;
      params := CurrentParams(Index());
    }

    /** Read-modify-write of the slot: one more than the index as read. */
    method NextWave()
      modifies this
      ensures slot == Some(old(Index()) + 1)
      ensures old(Index()) != -1 ==> Index() == old(Index()) + 1
    {
      slot := Some(Index() + 1);
    }

    method Reset()
      modifies this
      ensures slot == Some(1) && Index() == 1
      ensures CurrentParams(Index()) == WaveParams(2200.0, 1.0, 0.0)
    {
      slot := Some(1);
    }
  }
}
