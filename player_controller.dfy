/** The avatar: progress `s` along the path driven by eased held-direction input,
    a deferred jump, and a fall along the normal that lands exactly on the path. */
module PlayerController {
  import opened Common
  import opened Geometry

  const InitialS: real := 0.15
  const DefaultRadius: real := 18.0
  const DefaultClimbPerSec: real := 0.10
  const DefaultInputAccel: real := 1.0
  const DefaultJumpVel: real := 450.0
  const DefaultFallAccel: real := 1100.0
  /** Wind-up before a jump takes off, run by the scene's clock. */
  const WindUpMs: real := 80.0
  /** The sprite is drawn this many pixels above the computed pose. */
  const SpriteLiftPx: real := 10.0

  /** Construction options; a missing one takes its default. */
  datatype PlayerOptions = PlayerOptions(
    initialS: Option<real>,
    radius: Option<real>,
    climbPerSec: Option<real>,
    inputAccel: Option<real>,
    jumpVel: Option<real>,
    fallAccel: Option<real>)

  function OrElse(o: Option<real>, default: real): real {
    if o.Some? then o.value else default
  }

  /** The climb rate the input asks for: none while airborne; on the ground forward
      wins over backward. */
  function TargetRate(grounded: bool, forward: bool, backward: bool): (r: real)
    ensures r == 0.0 || r == 1.0 || r == -1.0
    ensures r != 0.0 ==> grounded
    ensures r == 1.0 <==> grounded && forward
    ensures r == -1.0 <==> grounded && !forward && backward
  {
    if grounded then (if forward then 1.0 else if backward then -1.0 else 0.0) else 0.0
  }

  /** Easing: move `rate` the fraction `k` of the way toward `target`. */
  function Ease(rate: real, target: real, k: real): real {
    rate + (target - rate) * k
  }

  /** With a fraction in [0, 1] the eased rate lies between the old rate and the
      target, the remaining gap shrinks by the factor `1 - k`, and a rate in [-1, 1]
      stays there. */
  lemma EaseTowardTarget(rate: real, target: real, k: real)
    requires 0.0 <= k <= 1.0
    ensures target - Ease(rate, target, k) == (1.0 - k) * (target - rate)
    ensures rate <= target ==> rate <= Ease(rate, target, k) <= target
    ensures target <= rate ==> target <= Ease(rate, target, k) <= rate
    ensures -1.0 <= rate <= 1.0 && -1.0 <= target <= 1.0 ==> -1.0 <= Ease(rate, target, k) <= 1.0
  {
    var d := target - rate;
    var e := Ease(rate, target, k);
    assert e == rate + d * k;
    assert target - e == d - d * k == (1.0 - k) * d;
    ScaleWithin(d, k);
    ScaleWithin(-d, k);
    assert (-d) * k == -(d * k);
  }

  /** A fraction of a non-negative gap is at most the gap. */
  lemma ScaleWithin(d: real, k: real)
    requires 0.0 <= k <= 1.0
    ensures d >= 0.0 ==> 0.0 <= d * k <= d
  {
    if d >= 0.0 {
      assert d * (1.0 - k) >= 0.0;
    }
  }

  /** Where the avatar is along the path, and how fast it is climbing. */
  datatype Progress = Progress(s: real, moveRate: real)

  /** One frame along the path: the climb rate eases toward `target` by the fraction
      `inputAccel * dt`, progress moves by rate times `climbPerSec * dt`, and is then
      clamped so that it never leaves [0, 1]. */
  function Climb(p: Progress, target: real, inputAccel: real, climbPerSec: real, dt: real): (r: Progress)
    ensures 0.0 <= r.s <= 1.0
  {
    var rate := Ease(p.moveRate, target, inputAccel * dt);
    Progress(Clamp01(p.s + rate * climbPerSec * dt), rate)
  }

  /** The climb rate ends between the old rate and the target, so with held input and
      a fraction in [0, 1] it stays in [-1, 1]; progress moves in the direction of the
      new rate. */
  lemma ClimbTowardTarget(p: Progress, target: real, inputAccel: real, climbPerSec: real, dt: real)
    requires 0.0 <= inputAccel * dt <= 1.0 && climbPerSec >= 0.0 && dt >= 0.0
    requires 0.0 <= p.s <= 1.0
    ensures var r := Climb(p, target, inputAccel, climbPerSec, dt);
      && (p.moveRate <= target ==> p.moveRate <= r.moveRate <= target)
      && (target <= p.moveRate ==> target <= r.moveRate <= p.moveRate)
      && (-1.0 <= p.moveRate <= 1.0 && -1.0 <= target <= 1.0 ==> -1.0 <= r.moveRate <= 1.0)
      && (r.moveRate >= 0.0 ==> r.s >= p.s)
      && (r.moveRate <= 0.0 ==> r.s <= p.s)
  {
    EaseTowardTarget(p.moveRate, target, inputAccel * dt);
    var rate := Ease(p.moveRate, target, inputAccel * dt);
    var k := climbPerSec * dt;
    assert k >= 0.0;
    assert rate * climbPerSec * dt == rate * k;
    ProductSign(rate, k);
  }

  lemma ProductSign(a: real, k: real)
    requires k >= 0.0
    ensures a >= 0.0 ==> a * k >= 0.0
    ensures a <= 0.0 ==> a * k <= 0.0
  {
  }

  /** Height above the path while airborne. */
  datatype Air = Air(offset: real, vel: real, grounded: bool)

  /** One frame of falling: gravity first, then the offset moves with the new
      velocity; reaching or passing the path lands exactly on it, at rest. */
  function Fall(offset: real, vel: real, fallAccel: real, dt: real): (r: Air)
    ensures r.offset >= 0.0
    ensures r.grounded <==> offset + (vel - fallAccel * dt) * dt <= 0.0
    ensures r.grounded ==> r.offset == 0.0 && r.vel == 0.0
    ensures !r.grounded ==> r.vel == vel - fallAccel * dt && r.offset == offset + r.vel * dt
  {
    var v := vel - fallAccel * dt;
    var o := offset + v * dt;
    if o <= 0.0 then Air(0.0, 0.0, true) else Air(o, v, false)
  }

  class PlayerController {
    const slope: Slope
    const radius: real
    const climbPerSec: real
    const inputAccel: real
    const jumpVel: real
    const fallAccel: real
    var s: real
    var normalOffset: real
    var normalVel: real
    var grounded: bool
    var moveRate: real
    /** Jump wind-ups scheduled on the scene's clock and not yet fired. */
    var pendingWindUps: nat

    /** Never below the path, and at rest on it whenever grounded. */
    ghost predicate Valid()
      reads this
    {
      && ValidSlope(slope)
      && normalOffset >= 0.0
      && (grounded ==> normalOffset == 0.0 && normalVel == 0.0)
    }

    constructor (g: Slope, opts: PlayerOptions)
      requires ValidSlope(g)
      ensures Valid() && slope == g
      ensures s == OrElse(opts.initialS, InitialS) && radius == OrElse(opts.radius, DefaultRadius)
      ensures climbPerSec == OrElse(opts.climbPerSec, DefaultClimbPerSec)
      ensures inputAccel == OrElse(opts.inputAccel, DefaultInputAccel)
      ensures jumpVel == OrElse(opts.jumpVel, DefaultJumpVel)
      ensures fallAccel == OrElse(opts.fallAccel, DefaultFallAccel)
      ensures normalOffset == 0.0 && normalVel == 0.0 && grounded && moveRate == 0.0 && pendingWindUps == 0
    {
      slope := g;
      s := OrElse(opts.initialS, InitialS);
      radius := OrElse(opts.radius, DefaultRadius);
      climbPerSec := OrElse(opts.climbPerSec, DefaultClimbPerSec);
      inputAccel := OrElse(opts.inputAccel, DefaultInputAccel);
      jumpVel := OrElse(opts.jumpVel, DefaultJumpVel);
      fallAccel := OrElse(opts.fallAccel, DefaultFallAccel);
      normalOffset, normalVel, grounded, moveRate := 0.0, 0.0, true, 0.0;
      pendingWindUps := 0;
    }

    /** One frame. A jump pressed on the ground only schedules the wind-up: the avatar
        is still grounded when this returns. */
    method Update(dtSec: real, forward: bool, backward: bool, jumpPressed: bool)
      requires Valid()
      modifies this
      ensures Valid()
      ensures Progress(s, moveRate) ==
        Climb(Progress(old(s), old(moveRate)), TargetRate(old(grounded), forward, backward), inputAccel, climbPerSec, dtSec)
      ensures 0.0 <= s <= 1.0
      ensures pendingWindUps == old(pendingWindUps) + if jumpPressed && old(grounded) then 1 else 0
      ensures old(grounded) ==> grounded && normalOffset == 0.0 && normalVel == 0.0
      ensures !old(grounded) ==>
        Air(normalOffset, normalVel, grounded) == Fall(old(normalOffset), old(normalVel), fallAccel, dtSec)
    {
      var target := TargetRate(grounded, forward, backward);
      ghost var climbed := Climb(Progress(s, moveRate), target, inputAccel, climbPerSec, dtSec);
      moveRate := moveRate + (target - moveRate) * inputAccel * dtSec;
      assert moveRate == climbed.moveRate;
      s := s + moveRate * climbPerSec * dtSec;
      s := Clamp(s, 0.0, 1.0);
      assert s == climbed.s;
      if jumpPressed && grounded {
        pendingWindUps := pendingWindUps + 1;
      }
      if !grounded {
        var air := Fall(normalOffset, normalVel, fallAccel, dtSec);
        normalOffset, normalVel, grounded := air.offset, air.vel, air.grounded;
      }
    }

    /** The wind-up callback firing, `WindUpMs` after the press: take off. */
    method FireWindUp()
      requires Valid() && pendingWindUps > 0
      modifies this
      ensures Valid()
      ensures pendingWindUps == old(pendingWindUps) - 1
      ensures normalVel == jumpVel && !grounded
      ensures s == old(s) && normalOffset == old(normalOffset) && moveRate == old(moveRate)
    {
      pendingWindUps := pendingWindUps - 1;
      normalVel := jumpVel;
      grounded := false;
    }

    /** Back to the start of the path, on the ground and at rest. Wind-ups already
        scheduled on the scene's clock are not cancelled. */
    method Reset()
      requires Valid()
      modifies this
      ensures Valid()
      ensures s == InitialS && normalOffset == 0.0 && normalVel == 0.0 && grounded && moveRate == 0.0
      ensures pendingWindUps == old(pendingWindUps)
    {
      s, normalOffset, normalVel, grounded, moveRate := InitialS, 0.0, 0.0, true, 0.0;
    }

    /** The avatar's pose: the path point at `s`, pushed out against the normal by the
        radius plus the jump height, so that it stands exactly that far off the path. */
    function Pose(): (p: Vec)
      reads this
      ensures ValidSlope(slope) ==>
        DistSq(p, CurvePoint(slope, s)) == (radius + normalOffset) * (radius + normalOffset)
      ensures ValidSlope(slope) ==> Dot(Sub(p, CurvePoint(slope, s)), slope.normal) == -(radius + normalOffset)
    {
      var k := -radius - normalOffset;
      var n := slope.normal;
      var p := Add(CurvePoint(slope, s), Scale(n, k));
      assert Sub(p, CurvePoint(slope, s)) == Vec(n.x * k, n.y * k);
      assert ValidSlope(slope) ==> n.x * n.x + n.y * n.y == 1.0;
      assert (n.x * k) * (n.x * k) + (n.y * k) * (n.y * k) == k * k * (n.x * n.x + n.y * n.y);
      assert (n.x * k) * n.x + (n.y * k) * n.y == k * (n.x * n.x + n.y * n.y);
      p
    }

    /** The centre used for collision: the sprite's position, drawn above the pose. */
    function Center(): Vec
      reads this
    {
      Vec(Pose().x, Pose().y - SpriteLiftPx)
    }
  }
}
