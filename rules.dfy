/** The constants of Game.ts and the rules of the game that are about values:
    the asteroid radii and what destroying one leaves behind, the points, where
    a spawn point may be, and the invariant of an asteroid list. */
module Rules {
  import opened Common
  import Asteroids
  import Ships

  const FPS: real := 30.0
  const ASTEROIDS_AMOUNT: int := 3
  const ASTEROIDS_SIZE: real := 100.0
  const ASTEROIDS_PTS_LGE: int := 20
  const ASTEROIDS_PTS_MED: int := 50
  const ASTEROIDS_PTS_SML: int := 100
  const LASER_EXPLODE_DUR: real := 0.1

  /** Radius of a large asteroid: ceil(ASTEROIDS_SIZE / 2). */
  const LARGE_R: real := Ceil(ASTEROIDS_SIZE / 2.0) as real
  /** Radius of a medium asteroid: ceil(ASTEROIDS_SIZE / 4). */
  const MEDIUM_R: real := Ceil(ASTEROIDS_SIZE / 4.0) as real
  /** Frames a laser's impact flash lasts: ceil(LASER_EXPLODE_DUR * FPS). */
  const LASER_EXPLODE_FRAMES: nat := Ceil(LASER_EXPLODE_DUR * FPS)
  /** How close to the ship a new level's asteroid may not spawn:
      ASTEROIDS_SIZE * 2 + the ship's radius. */
  const CLEARANCE: real := ASTEROIDS_SIZE * 2.0 + Ships.SIZE / 2.0
  /** Turning rate while an arrow key is held: (TURN_SPEED / 100) * PI / FPS. */
  const TURN_RATE: real := ((Ships.TURN_SPEED / 100.0) * PI) / FPS

  /** The three radii an asteroid can have. */
  predicate IsRadius(r: real)
  {
    r == LARGE_R || r == LARGE_R / 2.0 || r == LARGE_R / 4.0
  }

  /** The radii of the asteroids that destroying one of radius r leaves behind:
      large and medium asteroids split in two halves, anything else vanishes. */
  function Fragments(r: real): (kids: seq<real>)
    ensures |kids| == (if r == LARGE_R || r == MEDIUM_R then 2 else 0)
    ensures forall k :: 0 <= k < |kids| ==> kids[k] == r / 2.0 && kids[k] < r
    ensures IsRadius(r) ==> forall k :: 0 <= k < |kids| ==> IsRadius(kids[k])
  {
    if r == LARGE_R || r == MEDIUM_R then [r / 2.0, r / 2.0] else []
  }

  /** The score for destroying an asteroid of radius r. */
  function Points(r: real): (p: int)
    ensures 0 < p
    ensures p == ASTEROIDS_PTS_LGE <==> r == LARGE_R
    ensures p == ASTEROIDS_PTS_MED <==> r == MEDIUM_R
    ensures r != LARGE_R && r != MEDIUM_R ==> p == ASTEROIDS_PTS_SML
  {
    if r == LARGE_R then ASTEROIDS_PTS_LGE
    else if r == MEDIUM_R then ASTEROIDS_PTS_MED
    else ASTEROIDS_PTS_SML
  }

  /** Where a spawn point may be: a pixel that Math.floor(Math.random() * size)
      can give on each axis (in [0, size), or 0 when size is 0), not closer to
      the ship at (sx, sy) than CLEARANCE (the exit condition of the spawn
      loop). */
  ghost predicate SpawnOk(canv: Canvas, math: JsMath, p: Point, sx: real, sy: real)
  {
    && 0 <= p.x && (p.x < canv.width || p.x == 0)
    && 0 <= p.y && (p.y < canv.height || p.y == 0)
    && !(Dist(math, sx, sy, p.x as real, p.y as real) < CLEARANCE)
  }

  /** The spawn placement: place(lvl, k, sx, sy) is the point the spawn loop
      settles on for the k-th asteroid of level lvl, the ship being at (sx, sy). */
  ghost predicate Placeable(canv: Canvas, math: JsMath, place: (int, nat, real, real) -> Point)
  {
    forall lvl: int, k: nat, sx: real, sy: real :: SpawnOk(canv, math, place(lvl, k, sx, sy), sx, sy)
  }

  /** Asteroid a entered level lvl at spawn point p, clear of the ship at
      (sx, sy), and has made its first move from there: it is large, of that
      level, and sits where one step of its velocity from p leads, with the
      radius-margin wrap. */
  ghost predicate Entered(a: Asteroids.Asteroid, p: Point, lvl: int, sx: real, sy: real, canv: Canvas)
    reads a
  {
    && a.r == LARGE_R && a.lvl == lvl
    && CLEARANCE * CLEARANCE <= DistSq(sx, sy, p.x as real, p.y as real)
    && a.x == Wrap(p.x as real + a.xv, LARGE_R, canv.width as real)
    && a.y == Wrap(p.y as real + a.yv, LARGE_R, canv.height as real)
  }

  /** The invariant of an asteroid list: every asteroid is as its constructor
      left it, on this canvas, of one of the three radii, and listed once. */
  ghost predicate Rocks(s: seq<Asteroids.Asteroid>, canv: Canvas)
  {
    && (forall k :: 0 <= k < |s| ==> s[k].Valid() && s[k].canv == canv && IsRadius(s[k].r))
    && Distinct(s)
  }

  lemma RocksPush(s: seq<Asteroids.Asteroid>, a: Asteroids.Asteroid, canv: Canvas)
    requires Rocks(s, canv) && a !in s
    requires a.Valid() && a.canv == canv && IsRadius(a.r)
    ensures Rocks(s + [a], canv)
  {
    DistinctPush(s, a);
  }

  lemma RocksSplice(s: seq<Asteroids.Asteroid>, i: nat, canv: Canvas)
    requires Rocks(s, canv) && i < |s|
    ensures Rocks(s[..i] + s[i + 1..], canv)
  {
    DistinctSplice(s, i);
  }
}
