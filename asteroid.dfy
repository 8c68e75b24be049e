/** An asteroid: a jagged polygon that drifts at a constant velocity and wraps
    around the screen. Everything but its position is fixed at construction. */
module Asteroids {
  import opened Common

  const FPS: real := 30.0
  const INITIAL_SPEED: real := 50.0
  const MAX_VERT: int := 10
  const JAG: real := 0.3

  /** The fewest and the most vertices an outline can have. */
  const MIN_VERTICES: int := MAX_VERT / 2
  const MAX_VERTICES: int := MAX_VERT + MAX_VERT / 2

  /** The vertex count drawn from one random draw u in [0, 1). */
  function VertCount(u: real): (n: int)
    requires 0.0 <= u < 1.0
    ensures MIN_VERTICES <= n <= MAX_VERTICES
  {
    (u * (MAX_VERT + 1) as real + MAX_VERT as real / 2.0).Floor
  }

  /** One vertex's radius jitter, drawn from u in [0, 1). */
  function Offset(u: real): (o: real)
    requires 0.0 <= u < 1.0
    ensures 1.0 - JAG <= o < 1.0 + JAG
  {
    u * JAG * 2.0 + 1.0 - JAG
  }

  /** The base speed of an asteroid spawned at level lvl. */
  function Speed(lvl: nat): (s: real)
    ensures INITIAL_SPEED <= s
  {
    (1.0 + 0.1 * lvl as real) * INITIAL_SPEED
  }

  /** The largest per-frame velocity component at level lvl. */
  function MaxVelocity(lvl: nat): real
  {
    Speed(lvl) / FPS
  }

  /** One velocity component, from a magnitude draw and a sign draw. */
  function Velocity(mag: real, sign: real, lvl: nat): (v: real)
    requires 0.0 <= mag < 1.0 && 0.0 <= sign < 1.0
    ensures -MaxVelocity(lvl) <= v <= MaxVelocity(lvl)
    ensures sign < 0.5 ==> 0.0 <= v
    ensures 0.5 <= sign ==> v <= 0.0
  {
    var m := (mag * Speed(lvl)) / FPS;
    assert 0.0 <= m <= Speed(lvl) / FPS by {
      assert mag * Speed(lvl) <= Speed(lvl);
    }
    m * (if sign < 0.5 then 1.0 else -1.0)
  }

  class Asteroid {
    var x: real
    var y: real
    const r: real
    const lvl: nat
    const canv: Canvas
    const xv: real
    const yv: real
    const vert: int
    const a: real
    const offs: seq<real>

    /** What construction guarantees about the fixed fields. */
    ghost predicate Valid()
    {
      && 0.0 <= r
      && MIN_VERTICES <= vert <= MAX_VERTICES
      && |offs| == vert
      && (forall k :: 0 <= k < |offs| ==> 1.0 - JAG <= offs[k] < 1.0 + JAG)
      && -MaxVelocity(lvl) <= xv <= MaxVelocity(lvl)
      && -MaxVelocity(lvl) <= yv <= MaxVelocity(lvl)
      && 0.0 <= a < PI * 2.0
    }

    /** The constructor: the random draws come from rng, in the order Asteroid.ts
        makes them (vertex count, x speed and sign, y speed and sign, heading,
        then one jitter per vertex). */
    constructor (x: real, y: real, r: real, lvl: nat, canv: Canvas, rng: Random)
      requires 0.0 <= r && rng.Valid()
      modifies rng
      ensures Valid()
      ensures this.x == x && this.y == y && this.r == r
      ensures this.lvl == lvl && this.canv == canv
      ensures vert == VertCount(rng.draws(old(rng.next)))
      ensures rng.next == old(rng.next) + 6 + vert
    {
      this.x := x;
      this.y := y;
      this.r := r;
      this.lvl := lvl;
      this.canv := canv;
      var u := rng.Next();
      var n := VertCount(u);
      vert := n;
      var mag := rng.Next();
      var sign := rng.Next();
      xv := Velocity(mag, sign, lvl);
      mag := rng.Next();
      sign := rng.Next();
      yv := Velocity(mag, sign, lvl);
      u := rng.Next();
      a := u * PI * 2.0;
      var jitter: seq<real> := [];
      var i := 0;
      while i < n
        invariant 0 <= i <= n
        invariant |jitter| == i
        invariant forall k :: 0 <= k < i ==> 1.0 - JAG <= jitter[k] < 1.0 + JAG
        invariant rng.next == old(rng.next) + 6 + i
      {
        u := rng.Next();
        jitter := jitter + [Offset(u)];
        i := i + 1;
      }
      offs := jitter;
    }

    /** Asteroid.update: drift by the velocity, then wrap around the screen. */
    method Update()
      requires Valid()
      modifies this
      ensures x == Wrap(old(x) + xv, r, canv.width as real)
      ensures y == Wrap(old(y) + yv, r, canv.height as real)
      ensures -r <= x <= canv.width as real + r
      ensures -r <= y <= canv.height as real + r
    {
      x := x + xv;
      y := y + yv;
      if x < 0.0 - r {
        x := canv.width as real + r;
      } else if x > canv.width as real + r {
        x := 0.0 - r;
      }
      if y < 0.0 - r {
        y := canv.height as real + r;
      } else if y > canv.height as real + r {
        y := 0.0 - r;
      }
    }
  }
}
