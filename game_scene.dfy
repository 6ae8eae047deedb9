/** One wave attempt: the scene builds the slope and the subsystems, and each frame
    advances the timer, the wave parameters, the avatar, the bowler and the boulders in
    that order, then checks for a hit (the wave is lost) before checking for the top of
    the slope (the wave is cleared). */
module GameScene {
  import opened Common
  import opened Geometry
  import opened WaveManager
  import opened ScoreTimer
  import opened BowlerAnimator
  import opened BoulderSpawner
  import opened PlayerController

  /** The spawn interval the scene hands the spawner: the largest exact integer of a
      double, so the spawn timer is in effect switched off. */
  const MaxSafeInteger: real := 9007199254740991.0
  /** Progress at which the wave is cleared. */
  const WinAtS: real := 0.98
  const BaseBoulderSpeed: real := 110.0
  const BoulderSpeedRamp: real := 0.045

  /** How the frame ended. */
  datatype Outcome =
    | Running
    | Lost(timeSurvivedMs: real, wave: int)
    | WaveCleared(timeSurvivedMs: real, wave: int)

  /** Boulder speed for this frame: 110 px/s plus 0.045 px/s per elapsed millisecond,
      scaled by the wave's multiplier. */
  function BoulderSpeed(elapsedMs: real, speedMultiplier: real): (v: real)
    ensures elapsedMs >= 0.0 && speedMultiplier >= 1.0 ==> v >= BaseBoulderSpeed
  {
    var base := BaseBoulderSpeed + elapsedMs * BoulderSpeedRamp;
    assert elapsedMs >= 0.0 && speedMultiplier >= 1.0 ==> base * speedMultiplier >= base * 1.0;
    base * speedMultiplier
  }

  /** The straight chord of a `w` by `h` viewport's slope. */
  function GameChord(w: real, h: real): Vec {
    Sub(Vec(w, h * 0.46), Vec(0.0, h * 0.8))
  }

  /** What normalising the chord yields: `unit` of length one with `unit * len` the
      chord, and `len > 0` its length. */
  ghost predicate Normalises(w: real, h: real, unit: Vec, len: real) {
    len > 0.0 && Scale(unit, len) == GameChord(w, h) && Dot(unit, unit) == 1.0
  }

  /** The slope of a `w` by `h` viewport: from (0, 0.8h) up to (w, 0.46h), bent as a
      cubic through control points at 20% and 50% of the width; the one at 80% is set
      but unused. `unit` and `len` are the normalised chord and its length. */
  function GameSlope(w: real, h: real, unit: Vec, len: real): (g: Slope)
    requires Normalises(w, h, unit, len)
    ensures ValidSlope(g)
    ensures g.isCurved && g.curveType == Some(Cubic)
    ensures g.bottom == Vec(0.0, h * 0.8) && g.top == Vec(w, h * 0.46)
  {
    var control1 := Vec(w * 0.2, h * 0.81);
    Slope(Vec(0.0, h * 0.8), Vec(w, h * 0.46), control1,
          Some(control1), Some(Vec(w * 0.5, h * 0.85)), Some(Vec(w * 0.8, h * 0.67)),
          unit, Vec(-unit.y, unit.x), len, true, Some(Cubic))
  }

  /** On a slope that rises on screen (its unit vector does not point down), the throw
      point projects past the top of the chord, so every thrown boulder starts at
      progress exactly 1. */
  lemma ThrowsStartAtTop(g: Slope)
    requires ValidSlope(g) && g.unit.y <= 0.0
    ensures ProjectS(g, ThrowOrigin(g)) == 1.0
  {
    var u, L := g.unit, g.length;
    var d := Sub(ThrowOrigin(g), g.bottom);
    assert u.y * u.y >= 0.0;
    assert u.x <= 1.0;
    assert d == Vec(u.x * L + 24.0 * u.y - 20.0 + 24.0 * u.x, u.y * L - 24.0 * u.x - 24.0 + 24.0 * u.y);
    calc {
      Dot(d, u);
      (u.x * L + 24.0 * u.y - 20.0 + 24.0 * u.x) * u.x + (u.y * L - 24.0 * u.x - 24.0 + 24.0 * u.y) * u.y;
      (L + 24.0) * (u.x * u.x + u.y * u.y) - 20.0 * u.x - 24.0 * u.y;
      { assert u.x * u.x + u.y * u.y == 1.0; }
      L + 24.0 - 20.0 * u.x - 24.0 * u.y;
    }
    assert Dot(d, u) > L;
    assert Dot(d, u) / L > 1.0;
  }

  /** In the game's own slope every thrown boulder starts at the top. */
  lemma GameThrowsStartAtTop(w: real, h: real, unit: Vec, len: real)
    requires Normalises(w, h, unit, len) && h >= 0.0
    ensures ProjectS(GameSlope(w, h, unit, len), ThrowOrigin(GameSlope(w, h, unit, len))) == 1.0
  {
    assert unit.y * len == -(0.34 * h);
    assert unit.y <= 0.0;
    ThrowsStartAtTop(GameSlope(w, h, unit, len));
  }

  class GameScene {
    var elapsedMs: real
    const slope: Slope
    const timer: ScoreTimer
    /** Reads and writes the registry's wave index, which outlives the scene. */
    const waves: WaveManager
    const player: PlayerController
    const spawner: BoulderSpawner
    const bowler: BowlerAnimator

    ghost predicate Valid()
      reads this, player, spawner, bowler
    {
      && ValidSlope(slope)
      && player.Valid() && spawner.Valid() && bowler.Valid()
      && player.slope == slope && spawner.slope == slope
    }

    /** Starting the scene: `init(data)` and then `create()` on a `w` by `h` viewport,
        with the registry's wave entry as it stands. */
    constructor (w: real, h: real, unit: Vec, len: real, registrySlot: Option<int>, resetWaves: Option<bool>)
      requires Normalises(w, h, unit, len)
      ensures Valid() && slope == GameSlope(w, h, unit, len)
      ensures fresh(timer) && fresh(waves) && fresh(player) && fresh(spawner) && fresh(bowler)
      ensures elapsedMs == 0.0 && timer.elapsedMs == 0.0
      ensures waves.Index() == (if resetWaves == Some(false) then ReadIndex(registrySlot) else 1)
      ensures waves.slot == Some(waves.Index())
      ensures player.s == InitialS && player.grounded && player.normalOffset == 0.0 && player.normalVel == 0.0
      ensures player.moveRate == 0.0 && player.pendingWindUps == 0
      // the avatar is built with no options, so every tuning value is its default
      ensures player.radius == DefaultRadius && player.climbPerSec == DefaultClimbPerSec
      ensures player.inputAccel == DefaultInputAccel && player.jumpVel == DefaultJumpVel
      ensures player.fallAccel == DefaultFallAccel
      ensures spawner.boulders == [] && spawner.spawnAccumulatorMs == 0.0 && spawner.boulderCountThisWave == 0
      ensures bowler.frameIndex == 0 && bowler.elapsedMs == 0.0
      ensures bowler.frameDurationsMs == CycleDurations(SpawnInterval(waves.Index()))
    {
      var g := GameSlope(w, h, unit, len);
      slope := g;
      timer := new ScoreTimer();
      waves := new WaveManager(registrySlot);
      player := new PlayerController(g, PlayerOptions(None, None, None, None, None, None));
      spawner := new BoulderSpawner(g);
      bowler := new BowlerAnimator();
      elapsedMs := 0.0;
      new;
      Init(resetWaves);
      var _, initialParams := waves.Update(0.0);
      bowler.SetCycleFromInterval(initialParams.spawnEveryMs);
      waves.slot := Some(waves.Index());
    }

    /** `init`: zero the time, reset the wave index to 1 unless told `resetWaves: false`,
        and write the (defaulted) index back to the registry. */
    method Init(resetWaves: Option<bool>)
      modifies this, timer, waves
      ensures elapsedMs == 0.0 && timer.elapsedMs == 0.0
      ensures waves.Index() == (if resetWaves == Some(false) then old(waves.Index()) else 1)
      ensures waves.slot == Some(waves.Index())
    {
      elapsedMs := 0.0;
      if resetWaves != Some(false) {
        waves.Reset();
      }
      waves.slot := Some(waves.Index());
      timer.Reset();
    }

    /** `restart`: avatar, boulders and bowler back to their start (the bowler's cycle
        re-derived from the current wave), time zeroed; the wave index is kept. */
    method Restart()
      requires Valid()
      modifies this, timer, player, spawner, bowler
      ensures Valid()
      ensures elapsedMs == 0.0 && timer.elapsedMs == 0.0
      ensures player.s == InitialS && player.grounded && player.normalOffset == 0.0
      ensures player.normalVel == 0.0 && player.moveRate == 0.0
      ensures player.pendingWindUps == old(player.pendingWindUps)
      ensures spawner.boulders == [] && spawner.spawnAccumulatorMs == 0.0 && spawner.boulderCountThisWave == 0
      ensures bowler.frameIndex == 0 && bowler.elapsedMs == 0.0
      ensures bowler.frameDurationsMs == CycleDurations(SpawnInterval(waves.Index()))
    {
      player.Reset();
      spawner.Reset();
      var _, params := waves.Update(0.0);
      bowler.Reset(Some(params.spawnEveryMs));
      elapsedMs := 0.0;
      timer.Reset();
    }

    /** The boulder a throw adds when it is the `count`-th of the wave. */
    function ThrownBoulder(radius: int, count: int): Boulder
      reads this
      requires slope.length > 0.0
    {
      var origin := ThrowOrigin(slope);
      Boulder(ProjectS(slope, origin), radius as real, Boost(count, ThrowBoost), origin)
    }

    /** One frame of `delta` ms. `throwRadius` is the radius a throw would draw and
        `timerDraw` the values a timer spawn would draw. The jump key never reaches the
        avatar, and the spawn timer runs against the maximal interval. */
    method Update(delta: real, forward: bool, backward: bool, throwRadius: int, timerDraw: SpawnDraw)
      returns (outcome: Outcome)
      requires Valid() && ValidDraw(timerDraw) && MinRadius <= throwRadius <= MaxRadius
      modifies this, timer, waves, player, spawner, bowler
      ensures Valid()
      // timer
      ensures timer.elapsedMs == old(timer.elapsedMs) + delta && elapsedMs == timer.elapsedMs
      // avatar: moved with the held directions, and never handed the jump
      ensures Progress(player.s, player.moveRate) == Climb(Progress(old(player.s), old(player.moveRate)),
        TargetRate(old(player.grounded), forward, backward), player.inputAccel, player.climbPerSec, delta / 1000.0)
      ensures player.pendingWindUps == old(player.pendingWindUps)
      ensures old(player.grounded) ==> player.grounded && player.normalOffset == 0.0 && player.normalVel == 0.0
      ensures !old(player.grounded) ==>
        Air(player.normalOffset, player.normalVel, player.grounded) ==
        Fall(old(player.normalOffset), old(player.normalVel), player.fallAccel, delta / 1000.0)
      // bowler
      ensures Phase(bowler.frameIndex, bowler.elapsedMs) ==
        Step(old(bowler.frameDurationsMs), Phase(old(bowler.frameIndex), old(bowler.elapsedMs)), delta).phase
      ensures bowler.frameDurationsMs == old(bowler.frameDurationsMs)
      // boulders: a throw adds one at the throw point; the timer adds one only at the maximal interval
      ensures var threw := Step(old(bowler.frameDurationsMs), Phase(old(bowler.frameIndex), old(bowler.elapsedMs)), delta).threw;
        var thrown := if threw then [ThrownBoulder(throwRadius, old(spawner.boulderCountThisWave) + 1)] else [];
        var timed := old(spawner.spawnAccumulatorMs) + delta >= MaxSafeInteger;
        && spawner.spawnAccumulatorMs == (if timed then 0.0 else old(spawner.spawnAccumulatorMs) + delta)
        && spawner.boulderCountThisWave == old(spawner.boulderCountThisWave) + |thrown| + (if timed then 1 else 0)
        && spawner.boulders == Survivors(slope,
             old(spawner.boulders) + thrown + (if timed then [TimerBoulder(slope, timerDraw, spawner.boulderCountThisWave)] else []),
             BoulderSpeed(elapsedMs, SpeedMultiplier(old(waves.Index()))), delta / 1000.0)
      // while the spawn accumulator tracks the play time, it keeps doing so
      ensures old(spawner.spawnAccumulatorMs) == old(timer.elapsedMs) && timer.elapsedMs < MaxSafeInteger ==>
        spawner.spawnAccumulatorMs == timer.elapsedMs
      // outcome: a hit loses (even at the top), otherwise reaching 0.98 clears the wave
      ensures var hit := exists i :: 0 <= i < |spawner.boulders| && Touches(spawner.boulders[i], player.Center(), player.radius);
        && (outcome.Lost? <==> hit)
        && (outcome.WaveCleared? <==> !hit && player.s >= WinAtS)
      ensures outcome.Lost? ==> outcome == Lost(elapsedMs, 1) && waves.slot == Some(1)
      ensures outcome.WaveCleared? ==>
        outcome == WaveCleared(elapsedMs, waves.Index()) && waves.slot == Some(old(waves.Index()) + 1)
      ensures outcome.Running? ==> waves.slot == old(waves.slot)
    {
      Advance(delta, forward, backward, throwRadius, timerDraw);
      outcome := Judge();
    }

    /** The frame's simulation steps, in the scene's order: timer, waves, avatar,
        bowler (whose throw spawns at the throw point), boulders. */
    method Advance(delta: real, forward: bool, backward: bool, throwRadius: int, timerDraw: SpawnDraw)
      requires Valid() && ValidDraw(timerDraw) && MinRadius <= throwRadius <= MaxRadius
      modifies this, timer, player, spawner, bowler
      ensures Valid()
      ensures timer.elapsedMs == old(timer.elapsedMs) + delta && elapsedMs == timer.elapsedMs
      ensures Progress(player.s, player.moveRate) == Climb(Progress(old(player.s), old(player.moveRate)),
        TargetRate(old(player.grounded), forward, backward), player.inputAccel, player.climbPerSec, delta / 1000.0)
      ensures player.pendingWindUps == old(player.pendingWindUps)
      ensures old(player.grounded) ==> player.grounded && player.normalOffset == 0.0 && player.normalVel == 0.0
      ensures !old(player.grounded) ==>
        Air(player.normalOffset, player.normalVel, player.grounded) ==
        Fall(old(player.normalOffset), old(player.normalVel), player.fallAccel, delta / 1000.0)
      ensures Phase(bowler.frameIndex, bowler.elapsedMs) ==
        Step(old(bowler.frameDurationsMs), Phase(old(bowler.frameIndex), old(bowler.elapsedMs)), delta).phase
      ensures bowler.frameDurationsMs == old(bowler.frameDurationsMs)
      ensures var threw := Step(old(bowler.frameDurationsMs), Phase(old(bowler.frameIndex), old(bowler.elapsedMs)), delta).threw;
        var thrown := if threw then [ThrownBoulder(throwRadius, old(spawner.boulderCountThisWave) + 1)] else [];
        var timed := old(spawner.spawnAccumulatorMs) + delta >= MaxSafeInteger;
        && spawner.spawnAccumulatorMs == (if timed then 0.0 else old(spawner.spawnAccumulatorMs) + delta)
        && spawner.boulderCountThisWave == old(spawner.boulderCountThisWave) + |thrown| + (if timed then 1 else 0)
        && spawner.boulders == Survivors(slope,
             old(spawner.boulders) + thrown + (if timed then [TimerBoulder(slope, timerDraw, spawner.boulderCountThisWave)] else []),
             BoulderSpeed(elapsedMs, SpeedMultiplier(waves.Index())), delta / 1000.0)
      ensures old(spawner.spawnAccumulatorMs) == old(timer.elapsedMs) && timer.elapsedMs < MaxSafeInteger ==>
        spawner.spawnAccumulatorMs == timer.elapsedMs
    {
      var dt := delta / 1000.0;
      elapsedMs := timer.Update(delta);

      var _, waveParams := waves.Update(delta);

      player.Update(dt, forward, backward, false);

      Throw(delta, throwRadius);

      var speed := BoulderSpeed(elapsedMs, waveParams.speedMultiplier);
      var _ := spawner.Update(delta, MaxSafeInteger, speed, timerDraw);
    }

    /** The bowler's step; when it throws, a boulder is spawned at the throw point. */
    method Throw(delta: real, throwRadius: int)
      requires Valid() && MinRadius <= throwRadius <= MaxRadius
      modifies spawner, bowler
      ensures Valid()
      ensures var tick := Step(old(bowler.frameDurationsMs), Phase(old(bowler.frameIndex), old(bowler.elapsedMs)), delta);
        && Phase(bowler.frameIndex, bowler.elapsedMs) == tick.phase
        && spawner.boulders == old(spawner.boulders) +
             (if tick.threw then [ThrownBoulder(throwRadius, old(spawner.boulderCountThisWave) + 1)] else [])
        && spawner.boulderCountThisWave == old(spawner.boulderCountThisWave) + (if tick.threw then 1 else 0)
      ensures bowler.frameDurationsMs == old(bowler.frameDurationsMs)
      ensures spawner.spawnAccumulatorMs == old(spawner.spawnAccumulatorMs)
    {
      var threw := bowler.Update(delta);
      if threw {
        spawner.SpawnFromWorldPosition(ThrowOrigin(slope), throwRadius);
      }
    }

    /** The end-of-frame checks: a hit resets the wave index to 1 and loses; otherwise
        reaching progress 0.98 advances the wave index by one and clears the wave. */
    method Judge() returns (outcome: Outcome)
      requires Valid()
      modifies waves
      ensures var hit := exists i :: 0 <= i < |spawner.boulders| && Touches(spawner.boulders[i], player.Center(), player.radius);
        && (outcome.Lost? <==> hit)
        && (outcome.WaveCleared? <==> !hit && player.s >= WinAtS)
      ensures outcome.Lost? ==> outcome == Lost(elapsedMs, 1) && waves.slot == Some(1)
      ensures outcome.WaveCleared? ==>
        outcome == WaveCleared(elapsedMs, waves.Index()) && waves.slot == Some(old(waves.Index()) + 1)
      ensures outcome.Running? ==> waves.slot == old(waves.slot)
    {
      var hit := spawner.Collides(player.Center(), player.radius);
      if hit {
        waves.Reset();
        return Lost(elapsedMs, waves.Index());
      }
      if player.s >= WinAtS {
        waves.NextWave();
        return WaveCleared(elapsedMs, waves.Index());
      }
      return Running;
    }
  }

  /** A scene started on a `w` by `h` viewport and run for one frame: the pieces the
      constructor builds are the ones the frame steps, so the frame starts from the
      start state. The play time and the spawn accumulator both equal the frame,
      the avatar climbs from its start at rest and stays on the ground with no jump
      scheduled, and the bowler keeps the cycle of the starting wave. */
  method StartAndPlayFrame(w: real, h: real, unit: Vec, len: real, registrySlot: Option<int>,
                           resetWaves: Option<bool>, delta: real, forward: bool, backward: bool,
                           throwRadius: int, timerDraw: SpawnDraw)
    returns (sc: GameScene, outcome: Outcome)
    requires Normalises(w, h, unit, len)
    requires ValidDraw(timerDraw) && MinRadius <= throwRadius <= MaxRadius
    ensures sc.Valid() && sc.slope == GameSlope(w, h, unit, len)
    ensures sc.timer.elapsedMs == delta && sc.elapsedMs == delta
    ensures delta < MaxSafeInteger ==> sc.spawner.spawnAccumulatorMs == delta
    ensures Progress(sc.player.s, sc.player.moveRate) ==
      Climb(Progress(InitialS, 0.0), TargetRate(true, forward, backward), DefaultInputAccel, DefaultClimbPerSec, delta / 1000.0)
    ensures sc.player.grounded && sc.player.normalOffset == 0.0 && sc.player.pendingWindUps == 0
    ensures sc.bowler.frameDurationsMs ==
      CycleDurations(SpawnInterval(if resetWaves == Some(false) then ReadIndex(registrySlot) else 1))
    ensures outcome.Lost? ==> sc.waves.slot == Some(1)
  {
    sc := new GameScene(w, h, unit, len, registrySlot, resetWaves);
    outcome := sc.Update(delta, forward, backward, throwRadius, timerDraw);
  }
}
