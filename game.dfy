/** The game: the asteroid field, the score and the level, the per-frame update
    of asteroids and lasers, and the keyboard handlers. */
module Games {
  import opened Common
  import opened Rules
  import Asteroids
  import Lasers
  import Ships

  /** The keys the handlers react to. */
  datatype Key = TurnLeft | TurnRight | Forward | Fire | Ignored

  /** The cases of the switch in keyDown and keyUp. */
  function KeyOf(name: string): (k: Key)
    ensures k == TurnLeft <==> name == "Left" || name == "ArrowLeft"
    ensures k == TurnRight <==> name == "Right" || name == "ArrowRight"
    ensures k == Forward <==> name == "Up" || name == "ArrowUp"
    ensures k == Fire <==> name == " "
  {
    if name == "Left" || name == "ArrowLeft" then TurnLeft
    else if name == "Right" || name == "ArrowRight" then TurnRight
    else if name == "Up" || name == "ArrowUp" then Forward
    else if name == " " then Fire
    else Ignored
  }

  class Game {
    const ship: Ships.Ship
    var lvl: int
    var score: int
    var asteroids: seq<Asteroids.Asteroid>
    const canv: Canvas
    const math: JsMath
    const rng: Random
    const place: (int, nat, real, real) -> Point

    /** The game's invariant. */
    ghost predicate Valid()
      reads this, ship
    {
      ShipOk() && Env() && Counters() && Rocks(asteroids, canv)
    }

    /** The ship is valid and shares the game's canvas and Math object. */
    ghost predicate ShipOk()
      reads this, ship
    {
      ship.Valid() && ship.canv == canv && ship.math == math
    }

    /** What the model assumes of the environment: Math.sqrt is a square root,
        Math.random draws from [0, 1), and the placement obeys the exit
        condition of the spawn loop. */
    ghost predicate Env()
    {
      Lawful(math) && rng.Valid() && Placeable(canv, math, place)
    }

    /** The level starts at -1, before the first level is spawned, and the
        score is never negative. */
    ghost predicate Counters()
      reads this
    {
      -1 <= lvl && (lvl == -1 ==> asteroids == []) && 0 <= score
    }

    /** The Game constructor: a new ship, level -1, score 0, no asteroids. */
    constructor (canv: Canvas, math: JsMath, rng: Random, place: (int, nat, real, real) -> Point)
      requires Lawful(math) && rng.Valid() && Placeable(canv, math, place)
      ensures Valid() && fresh(ship)
      ensures this.canv == canv && this.math == math && this.rng == rng && this.place == place
      ensures lvl == -1 && score == 0 && asteroids == []
      ensures ship.canv == canv && ship.math == math && ship.lasers == []
      ensures ship.x == canv.width as real / 2.0 && ship.y == canv.height as real / 2.0
      ensures ship.a == PI / 2.0 && ship.rot == 0.0 && ship.thrust == Ships.Thrust(0.0, 0.0) && !ship.thrusting
      ensures ship.blinkTime == Ships.BLINK_FRAMES && ship.blinkNum == Ships.BLINK_COUNT
      ensures ship.canShoot && !ship.dead && ship.explodeTime == 0
    {
      this.canv := canv;
      this.math := math;
      this.rng := rng;
      this.place := place;
      ship := new Ships.Ship(canv, math);
      lvl := -1;
      score := 0;
      asteroids := [];
    }

    /** Game.start: the first level, then the first frame. It returns the
        level's batch: ASTEROIDS_AMOUNT + lvl new large asteroids spawned at
        the placement's points, clear of the ship where it stood, each of
        which then made its first move. */
    method Start() returns (ghost batch: seq<Asteroids.Asteroid>)
      requires Valid()
      modifies this, ship, rng, ship.lasers, asteroids
      ensures Valid()
      ensures old(lvl) + 1 <= lvl
      ensures |batch| == ASTEROIDS_AMOUNT + old(lvl) + 1
      ensures forall k :: 0 <= k < |batch| ==>
                fresh(batch[k]) &&
                Entered(batch[k], place(old(lvl) + 1, k, old(ship.x), old(ship.y)), old(lvl) + 1, old(ship.x), old(ship.y), canv)
      ensures old(ship.lasers) == [] ==>
                && ship.lasers == [] && asteroids == old(asteroids) + batch
                && lvl == old(lvl) + 1 && score == old(score)
      ensures Ships.Stepped(old(ship.Pose()), ship.Pose(), ship.rot, ship.thrusting, ship.r, canv)
      ensures ship.rot == old(ship.rot) && ship.thrusting == old(ship.thrusting)
      ensures ship.canShoot == old(ship.canShoot) && ship.dead == old(ship.dead)
      ensures ship.explodeTime == old(ship.explodeTime)
    {
      ghost var n0, pose := |asteroids|, ship.Pose();
      NextLevel();
      assert ship.Pose() == pose;
      batch := asteroids[n0..];
      assert forall k :: 0 <= k < |batch| ==>
        && batch[k].x == place(old(lvl) + 1, k, old(ship.x), old(ship.y)).x as real
        && batch[k].y == place(old(lvl) + 1, k, old(ship.x), old(ship.y)).y as real
        && batch[k].r == LARGE_R && batch[k].lvl == old(lvl) + 1
        && CLEARANCE * CLEARANCE <= DistSq(old(ship.x), old(ship.y), batch[k].x, batch[k].y)
      by {
        assert forall k :: 0 <= k < |batch| ==> batch[k] == asteroids[n0 + k];
      }
      ghost var lasers, states := DrawAndUpdate();
    }

    /** One frame of Game.drawAndUpdate, without the drawing and the
        rescheduling: the ship makes its update, every asteroid moves, then
        the laser loop runs over the lasers L with states S as they were at
        the start of the frame. The lasers left are those of L that survive,
        in order, each having made its step. */
    method DrawAndUpdate() returns (ghost L: seq<Lasers.Laser>, ghost S: seq<Lasers.LaserState>)
      requires Valid()
      modifies this, ship, rng, ship.lasers, asteroids
      ensures Valid()
      ensures Ships.Stepped(old(ship.Pose()), ship.Pose(), ship.rot, ship.thrusting, ship.r, canv)
      ensures ship.rot == old(ship.rot) && ship.thrusting == old(ship.thrusting)
      ensures ship.canShoot == old(ship.canShoot) && ship.dead == old(ship.dead)
      ensures ship.explodeTime == old(ship.explodeTime)
      ensures forall k :: 0 <= k < |old(asteroids)| ==>
        && old(asteroids)[k].x == Wrap(old(asteroids[k].x) + old(asteroids)[k].xv, old(asteroids)[k].r, canv.width as real)
        && old(asteroids)[k].y == Wrap(old(asteroids[k].y) + old(asteroids)[k].yv, old(asteroids)[k].r, canv.height as real)
      ensures L == old(ship.lasers) && S == old(Lasers.States(ship.lasers))
      ensures ship.lasers == Kept(L, S) && |ship.lasers| <= |L|
      ensures forall l :: l in ship.lasers ==> l in L
      ensures forall k :: 0 <= k < |L| && Survives(S[k]) ==> Ticked(L[k], S[k], L[k].State())
      ensures L == [] ==> asteroids == old(asteroids) && score == old(score) && lvl == old(lvl)
      ensures old(score) <= score && old(lvl) <= lvl
    {
      ship.Update();
      L, S := UpdateField();
    }

    /** The part of a frame after the ship's update: every asteroid moves,
        then the laser loop runs. */
    method UpdateField() returns (ghost L: seq<Lasers.Laser>, ghost S: seq<Lasers.LaserState>)
      requires Valid()
      modifies this, ship`lasers, rng, ship.lasers, asteroids
      ensures Valid()
      ensures forall k :: 0 <= k < |old(asteroids)| ==>
        && old(asteroids)[k].x == Wrap(old(asteroids[k].x) + old(asteroids)[k].xv, old(asteroids)[k].r, canv.width as real)
        && old(asteroids)[k].y == Wrap(old(asteroids[k].y) + old(asteroids)[k].yv, old(asteroids)[k].r, canv.height as real)
      ensures L == old(ship.lasers) && S == old(Lasers.States(ship.lasers))
      ensures ship.lasers == Kept(L, S) && |ship.lasers| <= |L|
      ensures forall l :: l in ship.lasers ==> l in L
      ensures forall k :: 0 <= k < |L| && Survives(S[k]) ==> Ticked(L[k], S[k], L[k].State())
      ensures L == [] ==> asteroids == old(asteroids) && score == old(score) && lvl == old(lvl)
      ensures old(score) <= score && old(lvl) <= lvl
    {
      UpdateAsteroids();
      L, S := UpdateLasers();
      KeptWithin(L, S);
    }

    /** The forEach over the asteroids in drawAndUpdate: move each one. */
    method UpdateAsteroids()
      requires Valid()
      modifies asteroids
      ensures Valid()
      ensures forall k :: 0 <= k < |asteroids| ==>
        && asteroids[k].x == Wrap(old(asteroids[k].x) + asteroids[k].xv, asteroids[k].r, canv.width as real)
        && asteroids[k].y == Wrap(old(asteroids[k].y) + asteroids[k].yv, asteroids[k].r, canv.height as real)
    {
      var k := 0;
      while k < |asteroids|
        invariant 0 <= k <= |asteroids|
        invariant forall j :: 0 <= j < k ==>
          && asteroids[j].x == Wrap(old(asteroids[j].x) + asteroids[j].xv, asteroids[j].r, canv.width as real)
          && asteroids[j].y == Wrap(old(asteroids[j].y) + asteroids[j].yv, asteroids[j].r, canv.height as real)
        invariant forall j :: k <= j < |asteroids| ==>
          asteroids[j].x == old(asteroids[j].x) && asteroids[j].y == old(asteroids[j].y)
      {
        asteroids[k].Update();
        k := k + 1;
      }
    }

    /** The laser loop of drawAndUpdate. Every laser is visited from the last to
        the first; the lasers that remain are exactly those that survive by their
        state at the start of the frame, in their old order, and each of them has
        made one step. */
    method UpdateLasers() returns (ghost L: seq<Lasers.Laser>, ghost S: seq<Lasers.LaserState>)
      requires Valid()
      modifies this, ship`lasers, rng, ship.lasers
      ensures Valid()
      ensures L == old(ship.lasers) && S == old(Lasers.States(ship.lasers))
      ensures ship.lasers == Kept(L, S)
      ensures forall k :: 0 <= k < |L| && Survives(S[k]) ==> Ticked(L[k], S[k], L[k].State())
      ensures L == [] ==> asteroids == old(asteroids) && score == old(score) && lvl == old(lvl)
      ensures old(score) <= score && old(lvl) <= lvl
    {
      L := ship.lasers;
      S := Lasers.States(L);
      assert L[..|L|] == L && Kept([], []) == [];
      Sweep(L, S);
      assert L[0..] == L && S[0..] == S;
    }

    /** The laser loop, from the last laser down to the first. */
    method Sweep(ghost L: seq<Lasers.Laser>, ghost S: seq<Lasers.LaserState>)
      requires |L| == |S| == |ship.lasers| && Distinct(L)
      requires Valid() && Swept(|L| - 1, L, S, ship.lasers, Lasers.States(L))
      modifies this, ship`lasers, rng, L
      ensures Valid() && Swept(-1, L, S, ship.lasers, Lasers.States(L))
      ensures old(score) <= score && old(lvl) <= lvl
      ensures L == [] ==> asteroids == old(asteroids) && score == old(score) && lvl == old(lvl)
    {
      var i := |ship.lasers| - 1;
      while i >= 0
        invariant -1 <= i < |L|
        invariant Valid() && Swept(i, L, S, ship.lasers, Lasers.States(L))
        invariant old(score) <= score && old(lvl) <= lvl
        invariant i == |L| - 1 ==> asteroids == old(asteroids) && score == old(score) && lvl == old(lvl)
      {
        SweepStep(i, L, S);
        i := i - 1;
      }
    }

    /** The laser loop's invariant, with i the next index to visit, L and S
        the lasers and their states at the start of the frame, and lasers and
        cur the list and the lasers' states now: the lasers up to i are
        untouched, and after them come, in order, those of the visited ones
        that survived their turn, each having made its step. */
    ghost predicate Swept(i: int, L: seq<Lasers.Laser>, S: seq<Lasers.LaserState>,
                          lasers: seq<Lasers.Laser>, cur: seq<Lasers.LaserState>)
      requires -1 <= i < |L| == |S| == |cur|
    {
      && lasers == L[..i + 1] + Kept(L[i + 1..], S[i + 1..])
      && (forall k :: 0 <= k <= i ==> cur[k] == S[k])
      && (forall k :: i < k < |L| && Survives(S[k]) ==> Ticked(L[k], S[k], cur[k]))
    }

    /** One turn of the laser loop, which carries its invariant from i to
        i - 1. */
    method SweepStep(i: nat, ghost L: seq<Lasers.Laser>, ghost S: seq<Lasers.LaserState>)
      requires i < |L| == |S| && Distinct(L)
      requires Valid() && Swept(i, L, S, ship.lasers, Lasers.States(L))
      modifies this, ship`lasers, rng, L[i]
      ensures Valid() && Swept(i - 1, L, S, ship.lasers, Lasers.States(L))
      ensures old(score) <= score && old(lvl) <= lvl
    {
      ghost var before, cur0 := ship.lasers, Lasers.States(L);
      SweptAt(i, L, S, before, cur0);
      var removed := Turn(i, L);
      assert Valid();
      assert Swept(i - 1, L, S, ship.lasers, Lasers.States(L)) by {
        SweptStep(i, L, S, before, cur0, ship.lasers, Lasers.States(L), removed);
      }
    }

    /** While the loop stands at i, lasers[i] is L[i], still in its state
        from the start of the frame. */
    lemma SweptAt(i: nat, L: seq<Lasers.Laser>, S: seq<Lasers.LaserState>,
                  lasers: seq<Lasers.Laser>, cur: seq<Lasers.LaserState>)
      requires i < |L| == |S| == |cur|
      requires Swept(i, L, S, lasers, cur)
      ensures i < |lasers| && lasers[i] == L[i] && cur[i] == S[i]
    {
    }

    /** StepLaser as the loop sees it: which laser went, and what step the
        others made; the asteroid it struck does not matter here. */
    method Turn(i: nat, ghost L: seq<Lasers.Laser>) returns (removed: bool)
      requires Valid() && i < |ship.lasers|
      requires i < |L| && L[i] == ship.lasers[i] && Distinct(L)
      modifies this, ship`lasers, rng, ship.lasers[i]
      ensures Valid()
      ensures forall k :: 0 <= k < |L| && k != i ==> L[k].State() == old(L[k].State())
      ensures removed == !Survives(old(ship.lasers[i].State()))
      ensures ship.lasers == if removed then old(ship.lasers[..i] + ship.lasers[i + 1..]) else old(ship.lasers)
      ensures !removed ==> Ticked(old(ship.lasers[i]), old(ship.lasers[i].State()), old(ship.lasers[i]).State())
      ensures old(score) <= score && old(lvl) <= lvl
    {
      var hit;
      removed, hit := StepLaser(i);
    }

    /** The invariant step of one turn: lasers[i] is spliced out exactly when
        it does not survive, otherwise it keeps its place having made its
        step, and no other laser changes. */
    lemma SweptStep(i: nat, L: seq<Lasers.Laser>, S: seq<Lasers.LaserState>,
                    before: seq<Lasers.Laser>, cur0: seq<Lasers.LaserState>,
                    after: seq<Lasers.Laser>, cur1: seq<Lasers.LaserState>, removed: bool)
      requires i < |L| == |S| == |cur0| == |cur1|
      requires Swept(i, L, S, before, cur0)
      requires removed == !Survives(S[i])
      requires after == if removed then before[..i] + before[i + 1..] else before
      requires !removed ==> Ticked(L[i], S[i], cur1[i])
      requires forall k :: 0 <= k < |L| && k != i ==> cur1[k] == cur0[k]
      ensures Swept(i - 1, L, S, after, cur1)
    {
      ghost var K := Kept(L[i + 1..], S[i + 1..]);
      KeptStep(L, S, i);
      if removed {
        assert after == L[..i] + K;
      } else {
        assert L[..i + 1] == L[..i] + [L[i]];
      }
    }

    /** Whether a laser in this state is still there after its turn in the
        loop: it has not flown too far, and its explosion is not on its last
        frame. */
    predicate Survives(s: Lasers.LaserState)
    {
      !(s.dist > Lasers.DIST * canv.width as real) && s.explodeTime != 1
    }

    /** The lasers of ls whose states in ss survive, in order. */
    function Kept(ls: seq<Lasers.Laser>, ss: seq<Lasers.LaserState>): seq<Lasers.Laser>
      requires |ls| == |ss|
    {
      if ls == [] then [] else (if Survives(ss[0]) then [ls[0]] else []) + Kept(ls[1..], ss[1..])
    }

    /** One turn of the laser loop on the list: lasers[i] stays in front of
        what is kept of the lasers after it, or is spliced out. */
    lemma KeptStep(L: seq<Lasers.Laser>, S: seq<Lasers.LaserState>, i: nat)
      requires |L| == |S| && i < |L|
      ensures var before := L[..i + 1] + Kept(L[i + 1..], S[i + 1..]);
        && before[..i] + before[i + 1..] == L[..i] + Kept(L[i + 1..], S[i + 1..])
        && Kept(L[i..], S[i..]) == (if Survives(S[i]) then [L[i]] else []) + Kept(L[i + 1..], S[i + 1..])
    {
      var before := L[..i + 1] + Kept(L[i + 1..], S[i + 1..]);
      assert before[..i] == L[..i];
      assert before[i + 1..] == Kept(L[i + 1..], S[i + 1..]);
      assert L[i..][1..] == L[i + 1..] && S[i..][1..] == S[i + 1..];
    }

    lemma {:induction false} KeptWithin(ls: seq<Lasers.Laser>, ss: seq<Lasers.LaserState>)
      requires |ls| == |ss|
      ensures |Kept(ls, ss)| <= |ls|
      ensures forall l :: l in Kept(ls, ss) ==> l in ls
    {
      if ls != [] {
        KeptWithin(ls[1..], ss[1..]);
      }
    }

    /** What one turn of the loop does to laser l if it survives, from its
        state s before to its state t after: an exploding laser only counts
        down; a laser in flight moves one step, wrapping at the edges, and has
        either missed (still in flight) or hit (its flash has started). */
    predicate Ticked(l: Lasers.Laser, s: Lasers.LaserState, t: Lasers.LaserState)
    {
      if s.explodeTime > 0 then
        t == s.(explodeTime := s.explodeTime - 1)
      else
        && t == Lasers.Flown(s, l.xv, l.yv, l.canv, math).(explodeTime := t.explodeTime)
        && (t.explodeTime == 0 || t.explodeTime == LASER_EXPLODE_FRAMES)
    }

    /** Whether a laser at (lx, ly) is inside asteroid a. */
    ghost predicate Hits(lx: real, ly: real, a: Asteroids.Asteroid): (h: bool)
      reads a
      ensures Lawful(math) && 0.0 <= a.r ==> (h <==> DistSq(lx, ly, a.x, a.y) < a.r * a.r)
    {
      var h := Dist(math, lx, ly, a.x, a.y) < a.r;
      if Lawful(math) && 0.0 <= a.r then DistBelow(math, lx, ly, a.x, a.y, a.r); h else h
    }

    /** The body of the laser loop for lasers[i]: cull it when it has flown
        too far, count its flash down and cull it when the flash ends,
        otherwise move it and, if it is in flight, let it strike. It returns
        whether the laser was removed and the index of the asteroid it
        destroyed, or -1. */
    method StepLaser(i: nat) returns (removed: bool, hit: int)
      requires Valid() && i < |ship.lasers|
      modifies this, ship`lasers, rng, ship.lasers[i]
      ensures Valid()
      ensures removed == !Survives(old(ship.lasers[i].State()))
      ensures ship.lasers == if removed then old(ship.lasers[..i] + ship.lasers[i + 1..]) else old(ship.lasers)
      ensures !removed ==> Ticked(old(ship.lasers[i]), old(ship.lasers[i].State()), old(ship.lasers[i]).State())
      ensures removed || old(ship.lasers[i].explodeTime) > 0 ==> hit == -1
      ensures hit == -1 ==> asteroids == old(asteroids) && score == old(score) && lvl == old(lvl)
      ensures !removed && old(ship.lasers[i].explodeTime) == 0 ==>
        Struck(old(ship.lasers[i]), hit, old(asteroids), old(score), old(lvl))
      ensures !removed && old(ship.lasers[i].explodeTime) == 0 ==>
        Picked(old(ship.lasers[i]).x, old(ship.lasers[i]).y, hit, old(asteroids))
      ensures old(score) <= score && old(lvl) <= lvl
    {
      hit := -1;
      var laser := ship.lasers[i];
      if laser.dist > Lasers.DIST * canv.width as real {
        ship.lasers := ship.lasers[..i] + ship.lasers[i + 1..];
        return true, hit;
      }
      if laser.explodeTime > 0 {
        laser.explodeTime := laser.explodeTime - 1;
        if laser.explodeTime == 0 {
          ship.lasers := ship.lasers[..i] + ship.lasers[i + 1..];
          return true, hit;
        }
      }
      laser.Update(math);
      removed := false;
      if laser.explodeTime == 0 {
        hit := Strike(laser);
      }
    }

    /** What the inner loop did for a laser in flight, from the asteroid list,
        score and level before: with hit == -1 nothing was destroyed and the
        laser stays in flight; otherwise before[hit] was destroyed and the
        laser's flash has started. */
    ghost predicate Struck(laser: Lasers.Laser, hit: int, before: seq<Asteroids.Asteroid>, score0: int, lvl0: int)
      reads this, ship, laser, set a | a in asteroids, set a | a in before
    {
      if hit == -1 then
        && laser.explodeTime == 0
        && asteroids == before && score == score0 && lvl == lvl0
      else
        && 0 <= hit < |before|
        && laser.explodeTime == LASER_EXPLODE_FRAMES
        && Destroyed(before, hit, score0, lvl0, before[hit].x, before[hit].y)
    }

    /** Which asteroid the inner loop picks for a laser at (lx, ly): with
        hit == -1 none contains it; otherwise before[hit] is the
        highest-index one that does. */
    ghost predicate Picked(lx: real, ly: real, hit: int, before: seq<Asteroids.Asteroid>)
      reads set a | a in before
    {
      if hit == -1 then
        forall k :: 0 <= k < |before| ==> !Hits(lx, ly, before[k])
      else
        && 0 <= hit < |before|
        && Hits(lx, ly, before[hit])
        && (forall k :: hit < k < |before| ==> !Hits(lx, ly, before[k]))
    }

    /** The inner loop of the laser loop, for a laser in flight: it destroys
        the highest-index asteroid the laser is inside, if any, and starts the
        laser's flash. It returns the index of that asteroid, or -1. */
    method Strike(laser: Lasers.Laser) returns (hit: int)
      requires Valid() && laser.explodeTime == 0
      modifies this`score, this`lvl, this`asteroids, rng, laser`explodeTime
      ensures Valid()
      ensures -1 <= hit < |old(asteroids)|
      ensures Picked(laser.x, laser.y, hit, old(asteroids))
      ensures Struck(laser, hit, old(asteroids), old(score), old(lvl))
      ensures old(score) <= score && old(lvl) <= lvl
    {
      hit := FindHit(laser.x, laser.y);
      if hit >= 0 {
        laser.explodeTime := LASER_EXPLODE_FRAMES;
        DestroyAsteroid(hit);
      }
    }

    /** The inner loop of the laser loop: the highest-index asteroid that a
        laser at (lx, ly) is inside, or -1 if there is none. */
    method FindHit(lx: real, ly: real) returns (j: int)
      requires Valid()
      ensures -1 <= j < |asteroids|
      ensures 0 <= j ==> Hits(lx, ly, asteroids[j])
      ensures 0 <= j ==> DistSq(lx, ly, asteroids[j].x, asteroids[j].y) < asteroids[j].r * asteroids[j].r
      ensures forall k :: j < k < |asteroids| ==> !Hits(lx, ly, asteroids[k])
    {
      j := |asteroids| - 1;
      while j >= 0
        invariant -1 <= j < |asteroids|
        invariant forall k :: j < k < |asteroids| ==> !Hits(lx, ly, asteroids[k])
      {
        if Dist(math, lx, ly, asteroids[j].x, asteroids[j].y) < asteroids[j].r {
          DistBelow(math, lx, ly, asteroids[j].x, asteroids[j].y, asteroids[j].r);
          return;
        }
        j := j - 1;
      }
    }

    /** The asteroids from index start on are a fresh level's batch: large, of
        the current level, at the points the placement gives, and far enough
        from the ship. */
    ghost predicate Batch(start: nat)
      reads this, ship, set a | a in asteroids
      requires start <= |asteroids|
    {
      forall k :: start <= k < |asteroids| ==> Spawned(asteroids[k], k - start)
    }

    /** Asteroid a is the j-th of the current level's batch: large, of the
        current level, at the placement's j-th point, and far enough from the
        ship. */
    ghost predicate Spawned(a: Asteroids.Asteroid, j: nat)
      reads a, ship, this`lvl
    {
      && a.x == place(lvl, j, ship.x, ship.y).x as real
      && a.y == place(lvl, j, ship.x, ship.y).y as real
      && a.r == LARGE_R && a.lvl == lvl
      && CLEARANCE * CLEARANCE <= DistSq(ship.x, ship.y, a.x, a.y)
    }

    /** Game.createAsteroids: ASTEROIDS_AMOUNT + lvl new large asteroids. */
    method CreateAsteroids()
      requires Valid() && 0 <= lvl
      modifies this`asteroids, rng
      ensures Valid()
      ensures |asteroids| == old(|asteroids|) + ASTEROIDS_AMOUNT + lvl
      ensures asteroids[..old(|asteroids|)] == old(asteroids)
      ensures forall k :: old(|asteroids|) <= k < |asteroids| ==> fresh(asteroids[k])
      ensures Batch(old(|asteroids|))
    {
      ghost var n0 := |asteroids|;
      var i := 0;
      while i < ASTEROIDS_AMOUNT + lvl
        invariant 0 <= i <= ASTEROIDS_AMOUNT + lvl
        invariant |asteroids| == n0 + i
        invariant asteroids[..n0] == old(asteroids)
        invariant Valid()
        invariant forall k :: n0 <= k < |asteroids| ==> fresh(asteroids[k])
        invariant Batch(n0)
      {
        ghost var prev := asteroids;
        SpawnAsteroid(i);
        assert forall k :: 0 <= k < |prev| ==> asteroids[k] == prev[k];
        i := i + 1;
      }
    }

    /** One turn of the loop in createAsteroids: the k-th asteroid of the
        level is placed where the spawn loop settles, at least CLEARANCE from
        the ship, and pushed. */
    method SpawnAsteroid(k: nat)
      requires Valid() && 0 <= lvl
      modifies this`asteroids, rng
      ensures Valid()
      ensures |asteroids| == old(|asteroids|) + 1 && asteroids[..old(|asteroids|)] == old(asteroids)
      ensures fresh(asteroids[|asteroids| - 1]) && Spawned(asteroids[|asteroids| - 1], k)
    {
      var p := place(lvl, k, ship.x, ship.y);
      assert SpawnOk(canv, math, p, ship.x, ship.y);
      DistBelow(math, ship.x, ship.y, p.x as real, p.y as real, CLEARANCE);
      var rock := new Asteroids.Asteroid(p.x as real, p.y as real, LARGE_R, lvl, canv, rng);
      RocksPush(asteroids, rock, canv);
      asteroids := asteroids + [rock];
    }

    /** Game.nextLevel. */
    method NextLevel()
      requires Valid()
      modifies this`lvl, this`asteroids, rng
      ensures Valid()
      ensures lvl == old(lvl) + 1
      ensures |asteroids| == old(|asteroids|) + ASTEROIDS_AMOUNT + lvl
      ensures asteroids[..old(|asteroids|)] == old(asteroids)
      ensures forall k :: old(|asteroids|) <= k < |asteroids| ==> fresh(asteroids[k])
      ensures Batch(old(|asteroids|))
    {
      lvl := lvl + 1;
      CreateAsteroids();
    }

    /** What destroying before[i] did, where before, score0 and lvl0 are the
        asteroid list, the score and the level before, and (gx, gy) was the
        destroyed asteroid's position. The score grew by the asteroid's points.
        The asteroid is gone and the others keep their order; its fragments
        (two halves for a large or medium one) follow them, new, at its
        position. If nothing is left, the level went up by one and a new batch
        was spawned. */
    ghost predicate Destroyed(before: seq<Asteroids.Asteroid>, i: nat, score0: int, lvl0: int, gx: real, gy: real)
      reads this, ship, set a | a in asteroids
      requires i < |before|
    {
      var gone := before[i];
      var rest := before[..i] + before[i + 1..];
      var kids := Fragments(gone.r);
      && score == score0 + Points(gone.r)
      && if kids != [] then
           && lvl == lvl0
           && |asteroids| == |rest| + |kids|
           && asteroids[..|rest|] == rest
           && forall k :: |rest| <= k < |asteroids| ==>
                && asteroids[k] !in before
                && asteroids[k].r == kids[k - |rest|] && asteroids[k].lvl == lvl
                && asteroids[k].x == gx && asteroids[k].y == gy
         else if rest != [] then
           lvl == lvl0 && asteroids == rest
         else
           && lvl == lvl0 + 1
           && |asteroids| == ASTEROIDS_AMOUNT + lvl
           && (forall k :: 0 <= k < |asteroids| ==> asteroids[k] !in before)
           && Batch(0)
    }

    /** Game.destroyAsteroid. */
    method DestroyAsteroid(i: nat)
      requires Valid() && i < |asteroids|
      modifies this`score, this`lvl, this`asteroids, rng
      ensures Valid()
      ensures Destroyed(old(asteroids), i, old(score), old(lvl), old(asteroids[i].x), old(asteroids[i].y))
    {
      ghost var rest := asteroids[..i] + asteroids[i + 1..];
      var x, y, r := asteroids[i].x, asteroids[i].y, asteroids[i].r;
      if r == LARGE_R || r == MEDIUM_R {
        PushHalves(x, y, r);
      }
      score := score + Points(r);
      ghost var kids := asteroids[|old(asteroids)|..];
      assert asteroids == old(asteroids) + kids;
      RocksSplice(asteroids, i, canv);
      SpliceAfterPush(old(asteroids), kids, i);
      asteroids := asteroids[..i] + asteroids[i + 1..];
      assert asteroids == rest + kids;
      if |asteroids| == 0 {
        NextLevel();
      }
    }

    /** The push in destroyAsteroid: two new asteroids of half the radius r,
        at (x, y), of the current level, after the others. */
    method PushHalves(x: real, y: real, r: real)
      requires Valid() && 0 <= lvl && (r == LARGE_R || r == MEDIUM_R)
      modifies this`asteroids, rng
      ensures Valid()
      ensures |asteroids| == old(|asteroids|) + 2 && asteroids[..old(|asteroids|)] == old(asteroids)
      ensures forall k :: old(|asteroids|) <= k < |asteroids| ==>
        && fresh(asteroids[k])
        && asteroids[k].r == r / 2.0 && asteroids[k].lvl == lvl
        && asteroids[k].x == x && asteroids[k].y == y
    {
      var a := new Asteroids.Asteroid(x, y, r / 2.0, lvl, canv, rng);
      var b := new Asteroids.Asteroid(x, y, r / 2.0, lvl, canv, rng);
      RocksPush(asteroids, a, canv);
      RocksPush(asteroids + [a], b, canv);
      asteroids := asteroids + [a] + [b];
    }

    /** The keydown handler. */
    method KeyDown(key: string)
      requires Valid()
      modifies ship`rot, ship`thrusting, ship`lasers, ship`canShoot
      ensures Valid()
      ensures old(ship.dead) || KeyOf(key) == Ignored ==> unchanged(ship)
      ensures !old(ship.dead) ==> match KeyOf(key)
        case TurnLeft => ship.rot == TURN_RATE && unchanged(ship`thrusting, ship`lasers, ship`canShoot)
        case TurnRight => ship.rot == -TURN_RATE && unchanged(ship`thrusting, ship`lasers, ship`canShoot)
        case Forward => ship.thrusting && unchanged(ship`rot, ship`lasers, ship`canShoot)
        case Fire => ship.Shot() && unchanged(ship`rot, ship`thrusting)
        case Ignored => true
    {
      if ship.dead {
        return;
      }
      match KeyOf(key)
      case TurnLeft => ship.rot := TURN_RATE;
      case TurnRight => ship.rot := -TURN_RATE;
      case Forward => ship.thrusting := true;
      case Fire => ship.Shoot();
      case Ignored =>
    }

    /** The keyup handler: releasing the fire key re-arms the gun. */
    method KeyUp(key: string)
      requires Valid()
      modifies ship`rot, ship`thrusting, ship`canShoot
      ensures Valid()
      ensures old(ship.dead) || KeyOf(key) == Ignored ==> unchanged(ship)
      ensures !old(ship.dead) ==> match KeyOf(key)
        case TurnLeft => ship.rot == 0.0 && unchanged(ship`thrusting, ship`canShoot)
        case TurnRight => ship.rot == 0.0 && unchanged(ship`thrusting, ship`canShoot)
        case Forward => !ship.thrusting && unchanged(ship`rot, ship`canShoot)
        case Fire => ship.canShoot && unchanged(ship`rot, ship`thrusting)
        case Ignored => true
    {
      if ship.dead {
        return;
      }
      match KeyOf(key)
      case TurnLeft => ship.rot := 0.0;
      case TurnRight => ship.rot := 0.0;
      case Forward => ship.thrusting := false;
      case Fire => ship.canShoot := true;
      case Ignored =>
    }

    /** Holding the fire key: two presses with no release in between add at
        most one laser, because only the release re-arms the gun. */
    method FireTwice()
      requires Valid()
      modifies ship`lasers, ship`canShoot, ship`rot, ship`thrusting
      ensures Valid()
      ensures old(|ship.lasers|) <= |ship.lasers| <= old(|ship.lasers|) + 1
      ensures ship.lasers[..old(|ship.lasers|)] == old(ship.lasers)
    {
      KeyDown(" ");
      KeyDown(" ");
    }
  }
}
