/** The player's ship: turning, thrust and friction, toroidal movement, the
    post-spawn invulnerability blinking, the shot gate and the explosion timer. */
module Ships {
  import opened Common
  import Lasers

  const FPS: real := 30.0
  const SIZE: real := 30.0
  const TURN_SPEED: real := 180.0
  const THRUST: real := 5.0
  const FRICTION: real := 0.7
  const EXPLODE_DURATION: real := 1.0
  const INV_DURATION: real := 3.0
  const BLINK_DURATION: real := 0.2
  const MAX_LASERS: nat := 10

  /** Frames of the explosion after destroy: ceil(EXPLODE_DURATION * FPS). */
  const EXPLODE_FRAMES: int := Ceil(EXPLODE_DURATION * FPS)
  /** Frames per blink: ceil(BLINK_DURATION * FPS). */
  const BLINK_FRAMES: int := Ceil(BLINK_DURATION * FPS)
  /** Blinks at spawn: ceil(INV_DURATION / BLINK_DURATION). */
  const BLINK_COUNT: int := Ceil(INV_DURATION / BLINK_DURATION)

  /** The ship's velocity, which Ship.ts calls its thrust. */
  datatype Thrust = Thrust(x: real, y: real)

  /** The two blink counters: blinks left and frames left in the current one. */
  datatype Blink = Blink(num: int, time: int)

  /** The counters' invariant: no negative count, and a timer in [1, period]. */
  predicate BlinkOk(b: Blink)
  {
    0 <= b.num && 1 <= b.time <= BLINK_FRAMES
  }

  /** Ship.handleBlinking on the counters. */
  function BlinkTick(b: Blink): (r: Blink)
    ensures FramesLeft(r) == FramesLeft(b) - 1
    ensures BlinkOk(b) && 0 < b.num ==> BlinkOk(r)
    ensures r.num == b.num || r.num == b.num - 1
  {
    if b.time - 1 == 0 then Blink(b.num - 1, BLINK_FRAMES) else Blink(b.num, b.time - 1)
  }

  /** What one Ship.update does to the counters: handleBlinking runs only while
      blinks remain. */
  function BlinkUpdate(b: Blink): (r: Blink)
    ensures BlinkOk(b) ==> BlinkOk(r)
    ensures b.num <= 0 ==> r == b
    ensures 0 < b.num ==> r.num == b.num || r.num == b.num - 1
  {
    if b.num > 0 then BlinkTick(b) else b
  }

  /** The counters after k updates. */
  function BlinkAfter(b: Blink, k: nat): Blink
    decreases k
  {
    if k == 0 then b else BlinkAfter(BlinkUpdate(b), k - 1)
  }

  /** The number of updates a blinking ship still has to go through. */
  function FramesLeft(b: Blink): int
  {
    (b.num - 1) * BLINK_FRAMES + b.time
  }

  /** From any valid blinking state, blinking ends (num reaches 0, with the
      timer reset) after exactly FramesLeft(b) updates, and not before. */
  lemma {:induction false} BlinkRunsOut(b: Blink)
    requires BlinkOk(b) && 0 < b.num
    ensures 0 < FramesLeft(b)
    ensures BlinkAfter(b, FramesLeft(b)) == Blink(0, BLINK_FRAMES)
    ensures forall k :: 0 <= k < FramesLeft(b) ==> BlinkAfter(b, k).num > 0
    decreases FramesLeft(b)
  {
    var b' := BlinkUpdate(b);
    assert BlinkAfter(b, 1) == b' by {
      assert BlinkAfter(b', 0) == b';
    }
    if b'.num == 0 {
      assert b.num == 1 && b.time == 1;
      assert FramesLeft(b) == 1;
      assert BlinkAfter(b, 0) == b;
    } else {
      assert FramesLeft(b') == FramesLeft(b) - 1;
      BlinkRunsOut(b');
      forall k | 0 <= k < FramesLeft(b)
        ensures BlinkAfter(b, k).num > 0
      {
        if k > 0 {
          assert BlinkAfter(b, k) == BlinkAfter(b', k - 1);
        }
      }
    }
  }

  /** A ship that starts with n blinks and a full timer (the constructor gives
      n == BLINK_COUNT) stops blinking after exactly n * BLINK_FRAMES updates. */
  lemma BlinkingEnds(n: int)
    requires 0 < n
    ensures BlinkAfter(Blink(n, BLINK_FRAMES), n * BLINK_FRAMES) == Blink(0, BLINK_FRAMES)
    ensures forall k :: 0 <= k < n * BLINK_FRAMES ==> BlinkAfter(Blink(n, BLINK_FRAMES), k).num > 0
  {
    assert BLINK_FRAMES == 6;
    assert FramesLeft(Blink(n, BLINK_FRAMES)) == n * BLINK_FRAMES;
    BlinkRunsOut(Blink(n, BLINK_FRAMES));
  }

  /** Ship.slowDown on one component: friction takes FRICTION / FPS of it. */
  function Decay(t: real): (d: real)
    ensures 0.0 < t ==> 0.0 < d < t
    ensures t < 0.0 ==> t < d < 0.0
    ensures t == 0.0 ==> d == 0.0
  {
    t - FRICTION * t / FPS
  }

  /** Ship.draw's visibility test: the ship is skipped on odd blink counts. */
  function Visible(blinkNum: nat): (v: bool)
    ensures v <==> blinkNum % 2 == 0
  {
    blinkNum % 2 != 1
  }

  /** The part of a ship that one update moves: the heading with its cached
      cosine and sine, the velocity, the position and the blink counters. */
  datatype ShipPose = ShipPose(a: real, cos: real, sin: real, thrust: Thrust, x: real, y: real, blink: Blink)

  /** What one Ship.update does to pose p, for a ship with turn rate rot,
      thrust key thrusting and radius r on canvas canv: it turns only when rot
      is non-zero, thrusts along the new heading or applies friction, moves by
      the new velocity with the radius-margin wrap, and blinks. */
  ghost predicate Stepped(p: ShipPose, q: ShipPose, rot: real, thrusting: bool, r: real, canv: Canvas)
    requires 0.0 <= r
  {
    && q.a == (if rot != 0.0 then p.a + rot else p.a)
    && q.thrust == (if thrusting
         then Thrust(p.thrust.x + THRUST * q.cos / FPS, p.thrust.y - THRUST * q.sin / FPS)
         else Thrust(Decay(p.thrust.x), Decay(p.thrust.y)))
    && q.x == Wrap(p.x + q.thrust.x, r, canv.width as real)
    && q.y == Wrap(p.y + q.thrust.y, r, canv.height as real)
    && q.blink == BlinkUpdate(p.blink)
  }

  class Ship {
    var x: real
    var y: real
    const r: real := SIZE / 2.0
    var a: real
    var rot: real
    var explodeTime: nat
    var thrusting: bool
    var thrust: Thrust
    var blinkTime: int
    var blinkNum: int
    var canShoot: bool
    var lasers: seq<Lasers.Laser>
    var dead: bool
    var cos: real
    var sin: real
    const canv: Canvas
    const math: JsMath

    ghost predicate Valid()
      reads this
    {
      && BlinkOk(Blink(blinkNum, blinkTime))
      && (dead <==> explodeTime > 0)
      && |lasers| <= MAX_LASERS
      && Distinct(lasers)
      && (forall l :: l in lasers ==> l.canv == canv)
      && cos == math.cos(a) && sin == math.sin(a)
    }

    /** A new ship: centred, pointing up, at rest, invulnerable for BLINK_COUNT
        blinks, able to shoot. */
    constructor (canv: Canvas, math: JsMath)
      ensures Valid()
      ensures this.canv == canv && this.math == math
      ensures x == canv.width as real / 2.0 && y == canv.height as real / 2.0
      ensures a == PI / 2.0 && rot == 0.0 && thrust == Thrust(0.0, 0.0) && !thrusting
      ensures blinkTime == BLINK_FRAMES && blinkNum == BLINK_COUNT
      ensures canShoot && !dead && explodeTime == 0 && lasers == []
    {
      this.canv := canv;
      this.math := math;
      x := canv.width as real / 2.0;
      y := canv.height as real / 2.0;
      a := PI / 2.0;
      rot := 0.0;
      explodeTime := 0;
      thrusting := false;
      thrust := Thrust(0.0, 0.0);
      blinkTime := BLINK_FRAMES;
      blinkNum := BLINK_COUNT;
      canShoot := true;
      lasers := [];
      dead := false;
      cos := math.cos(PI / 2.0);
      sin := math.sin(PI / 2.0);
      new;
      assert BLINK_FRAMES == 6 && BLINK_COUNT == 15;
    }

    /** Ship.draw, reduced to whether the ship is drawn this frame. */
    function Drawn(): (v: bool)
      reads this
      requires Valid()
      ensures v <==> blinkNum % 2 == 0
    {
      Visible(blinkNum)
    }

    /** The ship's current pose. */
    ghost function Pose(): ShipPose
      reads this`a, this`cos, this`sin, this`thrust, this`x, this`y, this`blinkNum, this`blinkTime
    {
      ShipPose(a, cos, sin, thrust, x, y, Blink(blinkNum, blinkTime))
    }

    /** Ship.update: turn, thrust or coast, move with wrap, then blink. */
    method Update()
      requires Valid()
      modifies this`a, this`cos, this`sin, this`thrust, this`x, this`y, this`blinkTime, this`blinkNum
      ensures Valid()
      ensures Stepped(old(Pose()), Pose(), rot, thrusting, r, canv)
    {
      ghost var p := Pose();
      if rot != 0.0 {
        RecalcAngle();
      }
      if thrusting {
        ThrustShip();
      } else {
        SlowDown();
      }
      Move();
      if blinkNum > 0 {
        HandleBlinking();
      }
      assert Pose().blink == BlinkUpdate(p.blink);
    }

    /** Ship.shoot. */
    method Shoot()
      requires Valid()
      modifies this`lasers, this`canShoot
      ensures Valid()
      ensures Shot()
    {
      if !canShoot || MAX_LASERS <= |lasers| || dead {
        return;
      }
      var laser := new Lasers.Laser(x, y, cos, sin, canv);
      lasers := lasers + [laser];
      canShoot := false;
    }

    /** What one call of shoot does. It is a no-op unless the ship may shoot
        (canShoot, fewer than MAX_LASERS lasers, not dead); then exactly one new
        laser is appended at the nose, the others are kept in order, and the
        gate closes until the fire key is released. */
    twostate predicate Shot()
      reads this, set l | l in lasers
    {
      var n := |old(lasers)|;
      if old(canShoot) && n < MAX_LASERS && !old(dead) then
        && |lasers| == n + 1
        && lasers[..n] == old(lasers)
        && fresh(lasers[n])
        && Lasers.Launched(lasers[n], x, y, cos, sin, canv)
        && !canShoot
      else
        lasers == old(lasers) && canShoot == old(canShoot)
    }

    /** Ship.destroy: start the explosion. */
    method Destroy()
      requires Valid()
      modifies this`explodeTime, this`dead
      ensures Valid()
      ensures dead && explodeTime == EXPLODE_FRAMES
    {
      explodeTime := EXPLODE_FRAMES;
      dead := true;
    }

    /** Ship.handleBlinking. */
    method HandleBlinking()
      modifies this`blinkTime, this`blinkNum
      ensures Blink(blinkNum, blinkTime) == BlinkTick(old(Blink(blinkNum, blinkTime)))
    {
      blinkTime := blinkTime - 1;
      if blinkTime == 0 {
        blinkTime := BLINK_FRAMES;
        blinkNum := blinkNum - 1;
      }
    }

    /** Ship.recalcAngle: turn by rot and refresh the cached cosine and sine. */
    method RecalcAngle()
      modifies this`a, this`cos, this`sin
      ensures a == old(a) + rot
      ensures cos == math.cos(a) && sin == math.sin(a)
    {
      a := a + rot;
      cos := math.cos(a);
      sin := math.sin(a);
    }

    /** Ship.thrustShip: accelerate along the heading. */
    method ThrustShip()
      modifies this`thrust
      ensures thrust == Thrust(old(thrust).x + THRUST * cos / FPS, old(thrust).y - THRUST * sin / FPS)
    {
      thrust := thrust.(x := thrust.x + THRUST * cos / FPS);
      thrust := thrust.(y := thrust.y - THRUST * sin / FPS);
    }

    /** Ship.slowDown: friction on both components. */
    method SlowDown()
      modifies this`thrust
      ensures thrust == Thrust(Decay(old(thrust).x), Decay(old(thrust).y))
    {
      thrust := thrust.(x := thrust.x - FRICTION * thrust.x / FPS);
      thrust := thrust.(y := thrust.y - FRICTION * thrust.y / FPS);
    }

    /** Ship.move: advance by the thrust, then wrap around the screen. */
    method Move()
      modifies this`x, this`y
      ensures x == Wrap(old(x) + thrust.x, r, canv.width as real)
      ensures y == Wrap(old(y) + thrust.y, r, canv.height as real)
      ensures -r <= x <= canv.width as real + r && -r <= y <= canv.height as real + r
    {
      x := x + thrust.x;
      y := y + thrust.y;
      if x < 0.0 - r {
        x := canv.width as real + r;
      } else if x > canv.width as real + r {
        x := 0.0 - r;
      }
      if y < 0.0 - r {
        y := canv.height as real + r;
      } else if y > canv.height as real + r {
        y := 0.0 - r;
      }
    }
  }
}
