/** The live boulders: spawned on a timer or at a thrown world point, rolled down the
    straight chord every frame, culled once fully past the bottom, and tested against
    the avatar with a circle-circle check. */
module BoulderSpawner {
  import opened Geometry

  /** One boulder: its progress `s`, its radius, its speed factor, and where its sprite
      currently stands (the collision test reads the sprite's position). */
  datatype Boulder = Boulder(s: real, radius: real, speedMultiplier: real, pos: Vec)

  /** The random draws one spawn consumes: a progress value and a whole radius. */
  datatype SpawnDraw = SpawnDraw(s: real, radius: int)

  /** A boulder whose progress is at or below this is past the bottom and removed. */
  const CullAtS: real := -0.05
  const TimerSpawnMinS: real := 0.88
  const TimerSpawnMaxS: real := 0.98
  const MinRadius: int := 18
  const MaxRadius: int := 28
  /** The first two boulders after a reset get a speed boost. */
  const BoostedSpawns: int := 2
  const TimerBoost: real := 3.0
  const ThrowBoost: real := 1.5

  predicate ValidDraw(d: SpawnDraw) {
    TimerSpawnMinS <= d.s < TimerSpawnMaxS && MinRadius <= d.radius <= MaxRadius
  }

  /** Speed factor of the boulder that brought the per-wave counter to `count`. */
  function Boost(count: int, boost: real): (m: real)
    requires boost >= 1.0
    ensures m >= 1.0
    ensures count <= BoostedSpawns ==> m == boost
    ensures count > BoostedSpawns ==> m == 1.0
  {
    if count <= BoostedSpawns then boost else 1.0
  }

  /** Where a boulder's sprite sits for progress `s`: on the chord, one radius out
      against the normal. */
  function RestingPos(g: Slope, s: real, radius: real): Vec {
    Add(ChordPoint(g, s), Scale(g.normal, -radius))
  }

  /** One frame of rolling: progress drops by the distance travelled over the chord's
      length, and the sprite follows. */
  function Move(g: Slope, b: Boulder, speed: real, dt: real): (m: Boulder)
    requires g.length > 0.0
    ensures m.radius == b.radius && m.speedMultiplier == b.speedMultiplier
    ensures m.pos == RestingPos(g, m.s, m.radius)
    ensures speed * b.speedMultiplier * dt >= 0.0 ==> m.s <= b.s
    ensures speed * b.speedMultiplier * dt > 0.0 ==> m.s < b.s
  {
    var s := b.s - (speed * b.speedMultiplier * dt) / g.length;
    b.(s := s, pos := RestingPos(g, s, b.radius))
  }

  predicate OnSlope(b: Boulder) {
    b.s > CullAtS
  }

  /** The boulders left after one frame: each one moved, those past the bottom
      dropped; the list never grows. */
  function Survivors(g: Slope, bs: seq<Boulder>, speed: real, dt: real): (r: seq<Boulder>)
    requires g.length > 0.0
    ensures |r| <= |bs|
    decreases |bs|
  {
    if bs == [] then []
    else
      var m := Move(g, bs[0], speed, dt);
      (if OnSlope(m) then [m] else []) + Survivors(g, bs[1..], speed, dt)
  }

  /** Culling keeps the relative order: moving a list is moving its parts in turn. */
  lemma {:induction false} SurvivorsAppend(g: Slope, xs: seq<Boulder>, ys: seq<Boulder>, speed: real, dt: real)
    requires g.length > 0.0
    ensures Survivors(g, xs + ys, speed, dt) == Survivors(g, xs, speed, dt) + Survivors(g, ys, speed, dt)
    decreases |xs|
  {
    if xs == [] {
      assert xs + ys == ys;
    } else {
      assert (xs + ys)[0] == xs[0];
      assert (xs + ys)[1..] == xs[1..] + ys;
      SurvivorsAppend(g, xs[1..], ys, speed, dt);
    }
  }

  /** Exactly the moved boulders still on the slope remain: every survivor is some
      boulder moved and above the cull line, and every moved boulder above that line
      survives. */
  lemma {:induction false} SurvivorsExactly(g: Slope, bs: seq<Boulder>, speed: real, dt: real)
    requires g.length > 0.0
    ensures forall m :: m in Survivors(g, bs, speed, dt) ==>
      OnSlope(m) && exists j :: 0 <= j < |bs| && m == Move(g, bs[j], speed, dt)
    ensures forall j :: 0 <= j < |bs| && OnSlope(Move(g, bs[j], speed, dt)) ==>
      Move(g, bs[j], speed, dt) in Survivors(g, bs, speed, dt)
    decreases |bs|
  {
    if bs != [] {
      SurvivorsExactly(g, bs[1..], speed, dt);
      var rest := Survivors(g, bs[1..], speed, dt);
      forall m | m in rest
        ensures exists j :: 0 <= j < |bs| && m == Move(g, bs[j], speed, dt)
      {
        var k :| 0 <= k < |bs[1..]| && m == Move(g, bs[1..][k], speed, dt);
        assert bs[1..][k] == bs[k + 1];
      }
      forall j | 0 <= j < |bs| && OnSlope(Move(g, bs[j], speed, dt))
        ensures Move(g, bs[j], speed, dt) in Survivors(g, bs, speed, dt)
      {
        if j > 0 {
          assert bs[j] == bs[1..][j - 1];
        }
      }
    }
  }

  /** The boulder a timer spawn adds when it is the `count`-th of the wave. */
  function TimerBoulder(g: Slope, draw: SpawnDraw, count: int): (b: Boulder)
    requires ValidDraw(draw)
    ensures TimerSpawnMinS <= b.s < TimerSpawnMaxS
    ensures MinRadius as real <= b.radius <= MaxRadius as real
    ensures b.speedMultiplier == Boost(count, TimerBoost)
    ensures b.pos == RestingPos(g, b.s, b.radius)
  {
    Boulder(draw.s, draw.radius as real, Boost(count, TimerBoost), RestingPos(g, draw.s, draw.radius as real))
  }

  /** Circle-circle contact: the centres are no further apart than the radii summed
      (compared squared, which needs the sum to be non-negative). */
  predicate Touches(b: Boulder, center: Vec, radius: real) {
    radius + b.radius >= 0.0 && DistSq(center, b.pos) <= (radius + b.radius) * (radius + b.radius)
  }

  class BoulderSpawner {
    const slope: Slope
    var boulders: seq<Boulder>
    var spawnAccumulatorMs: real
    var boulderCountThisWave: nat

    ghost predicate Valid()
      reads this
    {
      ValidSlope(slope)
    }

    constructor (g: Slope)
      requires ValidSlope(g)
      ensures Valid() && slope == g
      ensures boulders == [] && spawnAccumulatorMs == 0.0 && boulderCountThisWave == 0
    {
      slope := g;
      boulders := [];
      spawnAccumulatorMs := 0.0;
      boulderCountThisWave := 0;
    }

    /** One frame: grow the spawn accumulator, and when it reaches the interval restart
        it from zero (the excess is dropped) and spawn one boulder; then roll every
        boulder down and cull those past the bottom. */
    method Update(deltaMs: real, spawnEveryMs: real, speed: real, draw: SpawnDraw) returns (spawned: bool)
      requires Valid() && ValidDraw(draw)
      modifies this
      ensures Valid()
      ensures spawned <==> old(spawnAccumulatorMs) + deltaMs >= spawnEveryMs
      ensures spawnAccumulatorMs == if spawned then 0.0 else old(spawnAccumulatorMs) + deltaMs
      ensures boulderCountThisWave == old(boulderCountThisWave) + if spawned then 1 else 0
      ensures boulders == Survivors(slope,
        old(boulders) + (if spawned then [TimerBoulder(slope, draw, boulderCountThisWave)] else []),
        speed, deltaMs / 1000.0)
    {
      spawnAccumulatorMs := spawnAccumulatorMs + deltaMs;
      spawned := spawnAccumulatorMs >= spawnEveryMs;
      if spawned {
        spawnAccumulatorMs := 0.0;
        Spawn(draw);
      }
      assert boulders == old(boulders) + (if spawned then [TimerBoulder(slope, draw, boulderCountThisWave)] else []);
      Roll(speed, deltaMs / 1000.0);
    }

    /** Rolls every boulder one frame, last to first, removing in place each one that
        ends at or below the cull line; the survivors keep their order. */
    method Roll(speed: real, dt: real)
      requires Valid()
      modifies this
      ensures Valid()
      ensures boulders == Survivors(slope, old(boulders), speed, dt)
      ensures spawnAccumulatorMs == old(spawnAccumulatorMs) && boulderCountThisWave == old(boulderCountThisWave)
    {
      ghost var before := boulders;
      var i := |boulders|;
      while i > 0
        invariant 0 <= i <= |before|
        invariant boulders == before[..i] + Survivors(slope, before[i..], speed, dt)
        invariant spawnAccumulatorMs == old(spawnAccumulatorMs) && boulderCountThisWave == old(boulderCountThisWave)
        decreases i
      {
        i := i - 1;
        ghost var rest := Survivors(slope, before[i + 1..], speed, dt);
        assert before[..i + 1] == before[..i] + [before[i]];
        assert boulders == before[..i] + [before[i]] + rest;
        var m := Move(slope, boulders[i], speed, dt);
        assert before[i..][0] == before[i] && before[i..][1..] == before[i + 1..];
        assert Survivors(slope, before[i..], speed, dt) == (if OnSlope(m) then [m] else []) + rest;
        if m.s <= CullAtS {
          assert boulders[..i] == before[..i] && boulders[i + 1..] == rest;
          boulders := boulders[..i] + boulders[i + 1..];
        } else {
          boulders := boulders[i := m];
          assert boulders == before[..i] + [m] + rest;
        }
      }
      assert before[0..] == before && before[..0] == [];
    }

    method Spawn(draw: SpawnDraw)
      requires Valid() && ValidDraw(draw)
      modifies this
      ensures Valid()
      ensures boulderCountThisWave == old(boulderCountThisWave) + 1
      ensures boulders == old(boulders) + [TimerBoulder(slope, draw, boulderCountThisWave)]
      ensures spawnAccumulatorMs == old(spawnAccumulatorMs)
    {
      boulderCountThisWave := boulderCountThisWave + 1;
      boulders := boulders + [TimerBoulder(slope, draw, boulderCountThisWave)];
    }

    /** A thrown boulder: its sprite stays at the world point until the next roll, and
        its progress is the point projected onto the chord, clamped into [0, 1]. */
    method SpawnFromWorldPosition(world: Vec, radius: int)
      requires Valid() && MinRadius <= radius <= MaxRadius
      modifies this
      ensures Valid()
      ensures boulderCountThisWave == old(boulderCountThisWave) + 1
      ensures boulders == old(boulders) +
        [Boulder(ProjectS(slope, world), radius as real, Boost(boulderCountThisWave, ThrowBoost), world)]
      ensures spawnAccumulatorMs == old(spawnAccumulatorMs)
    {
      var s := ProjectS(slope, world);
      boulderCountThisWave := boulderCountThisWave + 1;
      var speedMultiplier := Boost(boulderCountThisWave, ThrowBoost);
      boulders := boulders + [Boulder(s, radius as real, speedMultiplier, world)];
    }

    /** True exactly when some live boulder touches the circle; never for an empty field. */
    method Collides(center: Vec, radius: real) returns (hit: bool)
      ensures hit <==> exists i :: 0 <= i < |boulders| && Touches(boulders[i], center, radius)
    {
      var i := 0;
      while i < |boulders|
        invariant 0 <= i <= |boulders|
        invariant forall k :: 0 <= k < i ==> !Touches(boulders[k], center, radius)
      {
        if Touches(boulders[i], center, radius) {
          return true;
        }
        i := i + 1;
      }
      return false;
    }

    method Reset()
      requires Valid()
      modifies this
      ensures Valid()
      ensures boulders == [] && spawnAccumulatorMs == 0.0 && boulderCountThisWave == 0
    {
      boulders := [];
      spawnAccumulatorMs := 0.0;
      boulderCountThisWave := 0;
    }
  }
}
