/** A laser bolt: it flies in a straight line, wraps hard at the screen edges,
    adds up how far it has gone, and stands still while its impact explosion
    counts down. */
module Lasers {
  import opened Common

  const SPEED: real := 500.0
  const FPS: real := 30.0
  /** How far, as a fraction of the canvas width, a bolt may travel. */
  const DIST: real := 0.8
  /** How far ahead of the firing point a bolt appears. */
  const MUZZLE: real := 20.0 / 3.0

  /** The parts of a laser that change from frame to frame. */
  datatype LaserState = LaserState(x: real, y: real, dist: real, explodeTime: nat)

  /** A laser as its constructor leaves it: spawned MUZZLE ahead of (x0, y0)
      along the heading whose cosine and sine are given (screen y grows
      downwards), moving at SPEED pixels per second, in flight, not yet moved. */
  ghost predicate Launched(l: Laser, x0: real, y0: real, cos: real, sin: real, canv: Canvas)
    reads l
  {
    && l.State() == LaserState(x0 + MUZZLE * cos, y0 - MUZZLE * sin, 0.0, 0)
    && l.xv == SPEED * cos / FPS && l.yv == -SPEED * sin / FPS
    && l.canv == canv
  }

  /** The states of a list of lasers. */
  ghost function States(ls: seq<Laser>): (ss: seq<LaserState>)
    reads set l | l in ls
    ensures |ss| == |ls|
    ensures forall k :: 0 <= k < |ls| ==> ss[k] == ls[k].State()
  {
    if ls == [] then [] else [ls[0].State()] + States(ls[1..])
  }

  /** The length of one frame's step at velocity (xv, yv), through Math.sqrt. */
  function StepLength(xv: real, yv: real, m: JsMath): real
  {
    m.sqrt(xv * xv + yv * yv)
  }

  /** One frame of flight from state s at velocity (xv, yv): advance, add the
      length of the step (through Math.sqrt) to dist, and wrap hard at the
      canvas edges. */
  function Flown(s: LaserState, xv: real, yv: real, canv: Canvas, m: JsMath): (t: LaserState)
    ensures 0.0 <= t.x <= canv.width as real && 0.0 <= t.y <= canv.height as real
    ensures 0.0 <= s.x + xv <= canv.width as real ==> t.x == s.x + xv
    ensures 0.0 <= s.y + yv <= canv.height as real ==> t.y == s.y + yv
    ensures t.explodeTime == s.explodeTime
  {
    LaserState(
      EdgeWrap(s.x + xv, canv.width as real),
      EdgeWrap(s.y + yv, canv.height as real),
      s.dist + StepLength(xv, yv, m),
      s.explodeTime)
  }

  /** With a lawful Math.sqrt, a frame of flight adds exactly the Euclidean
      length of the velocity to dist, so dist never decreases. */
  lemma FlownDist(s: LaserState, xv: real, yv: real, canv: Canvas, m: JsMath)
    requires Lawful(m)
    ensures var d := Flown(s, xv, yv, canv, m).dist - s.dist;
      0.0 <= d && d * d == xv * xv + yv * yv
  {
    assert 0.0 <= xv * xv + yv * yv;
  }

  class Laser {
    var x: real
    var y: real
    const xv: real
    const yv: real
    var dist: real
    var explodeTime: nat
    const canv: Canvas

    constructor (x0: real, y0: real, cos: real, sin: real, canv: Canvas)
      ensures Launched(this, x0, y0, cos, sin, canv)
    {
      x := x0 + MUZZLE * cos;
      y := y0 - MUZZLE * sin;
      xv := SPEED * cos / FPS;
      yv := -SPEED * sin / FPS;
      this.canv := canv;
      dist := 0.0;
      explodeTime := 0;
    }

    function State(): LaserState
      reads this
    {
      LaserState(x, y, dist, explodeTime)
    }

    /** Laser.update: frozen while exploding; otherwise one frame of flight. */
    method Update(m: JsMath)
      requires Lawful(m)
      modifies this`x, this`y, this`dist
      ensures old(explodeTime) > 0 ==> State() == old(State())
      ensures old(explodeTime) == 0 ==> State() == Flown(old(State()), xv, yv, canv, m)
      ensures old(dist) <= dist
    {
      ghost var before := State();
      FlownDist(before, xv, yv, canv, m);
      if explodeTime > 0 {
        return;
      }
      x := x + xv;
      y := y + yv;
      dist := dist + StepLength(xv, yv, m);
      if x < 0.0 {
        x := canv.width as real;
      } else if x > canv.width as real {
        x := 0.0;
      }
      assert x == EdgeWrap(before.x + xv, canv.width as real);
      if y < 0.0 {
        y := canv.height as real;
      } else if y > canv.height as real {
        y := 0.0;
      }
      assert y == EdgeWrap(before.y + yv, canv.height as real);
    }
  }
}
