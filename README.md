# Asteroids game state, in Dafny

A model of the game-state core of a small browser asteroids clone written in
TypeScript. It covers the four classes of the game.

- `Game` (module `Games`) owns the score, the level and the asteroid field. Each
  frame it moves the ship and every asteroid, then runs the laser loop:
  - a laser that has flown too far is culled;
  - a laser's impact flash counts down, and the laser is culled when the flash ends;
  - a laser in flight destroys at most one asteroid per frame.
- Destroying an asteroid splits large and medium asteroids into two halves and
  scores by size tier. A cleared field starts the next level, which brings a
  bigger batch of large asteroids, spawned clear of the ship. The keyboard
  handlers turn key presses into ship intents. Game.ts's constants and the
  rules that are about values (radii, fragments, points, where a spawn point
  may be, the invariant of the asteroid list) form module `Rules`.
- `Ship` (module `Ships`) covers turning, thrust and friction, toroidal movement,
  the post-spawn invulnerability blinking, the shot gate and the explosion timer.
- `Asteroid` (module `Asteroids`) draws its outline and velocity at construction
  and then drifts with wrap-around.
- `Laser` (module `Lasers`) spawns at the ship's nose and flies in a straight line
  with a hard edge wrap. It adds up the distance it has flown and stands still
  while its flash runs.

The environment is passed in as parameters (module `Common`):

- The canvas is a `Canvas` value; only its size matters.
- `Math.cos`, `Math.sin` and `Math.sqrt` are the fields of a `JsMath` value. The
  model assumes only that `sqrt` is the non-negative square root (`Lawful`).
- `Math.random` is a `Random` object: a fixed stream of draws in [0, 1), read
  through a cursor. The `Asteroid` constructor consumes draws in the order
  Asteroid.ts makes them.
- The rejection-sampling loop that places a new level's asteroids is a placement
  function `place(lvl, k, shipX, shipY)`. The game's invariant requires that it
  satisfies the loop's exit condition: the point is a pixel that
  `Math.floor(Math.random() * size)` can give on each axis, and it is at least
  `ASTEROIDS_SIZE * 2 + ship.r` away from the ship.

Classes whose fields change in place are Dafny classes, and their methods carry
`modifies` frames. Arrays that are pushed and spliced are `seq` fields that the
methods reassign. The counts that the source derives with `Math.ceil` are
computed with exact reals:

- 30 frames of ship explosion, `ceil(EXPLODE_DURATION * FPS)`;
- 6 frames per blink, `ceil(BLINK_DURATION * FPS)`;
- 15 blinks after a spawn, `ceil(INV_DURATION / BLINK_DURATION)`;
- 3 frames of laser flash, `ceil(LASER_EXPLODE_DUR * FPS)`.

The two reverse-index loops of the laser pass (src/Game.ts:45-75) become:

- `Game.Sweep`, a loop whose turn is `Game.SweepStep`;
- `Game.StepLaser`, the body for one laser, which the loop calls through
  `Game.Turn`;
- `Game.Strike` and `Game.FindHit`, the inner collision loop.

`Game.UpdateLasers` states the whole pass against the lasers and their states at
the start of the frame:

- the lasers that remain are exactly those that `Survives` keeps, in their old order;
- each of them has made exactly one step (`Ticked`).

Game.ts has no lives, no ship–asteroid collision, no respawn, no best score and
no level message; `Ship.destroy` exists but nothing calls it. The collision pass
iterates over the lasers, and for each laser over the asteroids.

## Model

| member | source | states |
|---|---|---|
| Common.Ceil | src/Ship.ts:17-18 | Math.ceil: the least integer not below the argument |
| Common.DistBelow | src/Game.ts:85-87 | for a non-negative bound, distBetweenPoints is below it exactly when the squared distance is below its square |
| Common.Dist | src/Game.ts:85-87 | with a lawful square root, distBetweenPoints is non-negative and its square is the squared distance |
| Common.Wrap | src/Ship.ts:142-156 | the radius-margin wrap lands in [-r, size + r] and leaves an in-range coordinate alone; a coordinate below -r goes to size + r and one above size + r goes to -r |
| Common.EdgeWrap | src/Laser.ts:60-70 | the hard edge wrap lands in [0, size] and leaves an in-range coordinate alone; a negative coordinate goes to size and one beyond size goes to 0 |
| Asteroids.VertCount | src/Asteroid.ts:24-26 | the vertex count from a draw in [0, 1) lies in [MAX_VERT/2, MAX_VERT + MAX_VERT/2] |
| Asteroids.Offset | src/Asteroid.ts:33-35 | a vertex jitter from a draw in [0, 1) lies in [1 - JAG, 1 + JAG) |
| Asteroids.Speed | src/Asteroid.ts:22 | the level-scaled speed is at least INITIAL_SPEED |
| Asteroids.Velocity | src/Asteroid.ts:27-30 | a velocity component is bounded by speed / FPS in magnitude, and its sign follows the sign draw |
| Asteroids.Asteroid.constructor | src/Asteroid.ts:8-36 | keeps position, radius and level; vert and offs agree, offs are jitters, velocities are bounded; consumes 6 + vert draws, the first one giving vert |
| Asteroids.Asteroid.Update | src/Asteroid.ts:57-73 | the position moves by the velocity with the radius-margin wrap and stays within [-r, size + r]; nothing else changes |
| Lasers.Flown | src/Laser.ts:55-70 | one frame of flight ends on the canvas, at exactly the advanced position when that is on the canvas, with the explosion timer unchanged |
| Lasers.FlownDist | src/Laser.ts:57-58 | a frame of flight adds a non-negative step to dist whose square is xv² + yv², so dist never decreases |
| Lasers.Laser.constructor | src/Laser.ts:1-25 | a new laser sits 20/3 ahead along the heading, moves at SPEED / FPS along it (screen y downwards) and has dist 0 and no flash |
| Lasers.Laser.Update | src/Laser.ts:51-71 | frozen while its flash runs; otherwise exactly one frame of flight; dist never decreases; velocity and flash are untouched |
| Ships.BlinkUpdate | src/Ship.ts:80-83 | one update keeps the blink counters valid, leaves them alone when no blinks remain, and otherwise removes at most one blink |
| Ships.BlinkTick | src/Ship.ts:109-115 | handleBlinking takes exactly one frame off the blinking time left, keeps valid counters valid while blinks remain, and removes at most one blink |
| Ships.BlinkRunsOut | src/Ship.ts:109-115 | from any valid blinking state, blinking ends with the timer reset after exactly (num - 1) * period + time updates, and not earlier |
| Ships.BlinkingEnds | src/Ship.ts:17-18 | a ship starting with n blinks and a full timer stops blinking after exactly n * period updates, and not earlier |
| Ships.Decay | src/Ship.ts:137-140 | friction keeps each thrust component's sign, shrinks its magnitude, and keeps zero at zero |
| Ships.Visible | src/Ship.ts:44-46 | the ship is drawn exactly when the blink count is even |
| Ships.Ship.constructor | src/Ship.ts:9-41 | a new ship is centred, points up, is at rest and alive, may shoot, has no lasers and full blink counters |
| Ships.Ship.Drawn | src/Ship.ts:43-46 | a valid ship is drawn exactly when its blink count is even |
| Ships.Ship.Update | src/Ship.ts:69-84 | one update is a `Stepped` move: it turns only when rot is non-zero, thrusts along the new heading or applies friction, moves with the radius-margin wrap, and blinks by BlinkUpdate; it keeps the ship invariant |
| Ships.Ship.Shoot | src/Ship.ts:86-94 | a no-op unless the gun is armed, below MAX_LASERS and alive; otherwise appends one fresh laser at the nose, keeps the others in order and disarms; at most MAX_LASERS lasers |
| Ships.Ship.Destroy | src/Ship.ts:96-99 | sets dead and the explosion timer to its frame count and changes nothing else |
| Ships.Ship.HandleBlinking | src/Ship.ts:109-115 | counts the blink timer down and, at zero, resets it and removes one blink |
| Ships.Ship.RecalcAngle | src/Ship.ts:124-130 | turns the heading by rot and refreshes the cached cosine and sine |
| Ships.Ship.ThrustShip | src/Ship.ts:132-135 | accelerates by THRUST / FPS along the heading |
| Ships.Ship.SlowDown | src/Ship.ts:137-140 | applies friction to both thrust components |
| Ships.Ship.Move | src/Ship.ts:142-156 | advances by the thrust and wraps into [-r, size + r] |
| Rules.Fragments | src/Game.ts:116-131 | a large or medium asteroid leaves two fragments of half its radius, any other none; fragments of one of the three radii are again one of them |
| Rules.Points | src/Game.ts:122-130 | every tier scores a positive amount; large radii pay the large amount, medium radii the medium amount, and every other radius the small amount |
| Games.KeyOf | src/Game.ts:155-171 | the key names map to the four intents exactly: "Left"/"ArrowLeft" turn left, "Right"/"ArrowRight" turn right, "Up"/"ArrowUp" thrust, " " fires; every other key is ignored |
| Games.Game.constructor | src/Game.ts:4-26 | a new game has level -1, score 0 and no asteroids, and satisfies the game invariant; its fresh ship is in the Ship constructor's state: centred, heading up, at rest, no lasers, armed, alive, with the full blink counters |
| Games.Game.Start | src/Game.ts:28-31 | starting raises the level; it spawns that level's batch of ASTEROIDS_AMOUNT + lvl large asteroids of that level at the placement's points, clear of where the ship stood, and each then makes its first move; with no lasers in the air the field afterwards is exactly the old asteroids followed by the batch, the level is one higher and the score is unchanged; the ship makes its one `Stepped` update of the first frame, and its rot, thrusting, canShoot, dead and explosion timer are untouched |
| Games.Game.DrawAndUpdate | src/Game.ts:33-78 | one frame: the ship makes one `Stepped` update, every asteroid moves with the radius-margin wrap, and the lasers left are exactly those that survive by their state at the start of the frame, in order, each having made its step; the invariant holds, score and level never decrease, and no laser is added; with no lasers the asteroid list, score and level are unchanged; the ship's explosion timer is untouched |
| Games.Game.UpdateField | src/Game.ts:38-75 | after the ship's update, every asteroid moves and the laser loop runs, with the laser contract of UpdateLasers; with no lasers the asteroid list, score and level are unchanged |
| Games.Game.UpdateAsteroids | src/Game.ts:38-42 | every asteroid moves by its velocity with the radius-margin wrap |
| Games.Game.UpdateLasers | src/Game.ts:45-75 | the lasers left are exactly those that survive by their state at the start of the frame, in order, each having made one step; of the ship only its laser list changes; score and level never decrease, and stay as they were, with the asteroid list, when there are no lasers |
| Games.Game.Sweep | src/Game.ts:45 | the reverse loop carries the loop invariant from the last laser down past the first; with no lasers it changes neither the asteroids, the score nor the level |
| Games.Game.SweepStep | src/Game.ts:46-74 | one turn carries the loop invariant from index i to i - 1, changing only laser i among the lasers |
| Games.Game.SweptAt | src/Game.ts:46 | while the loop stands at i, lasers[i] is the i-th laser of the frame, still in its starting state |
| Games.Game.Turn | src/Game.ts:46-74 | the loop's view of one turn: which laser went, by splice, the step of a laser that stays, and that no other laser of the pass changes |
| Games.Game.SweptStep | src/Game.ts:46-74 | splicing out a laser that does not survive, or keeping one that made its step, carries the loop invariant from i to i - 1 |
| Games.Game.KeptWithin | src/Game.ts:48-54 | the loop only removes lasers: no more remain than were there |
| Games.Game.StepLaser | src/Game.ts:46-74 | a laser is removed exactly when it has flown too far or its flash is on its last frame, by a splice at its index, and then nothing else changes; otherwise it makes one step, and a laser that was in flight reports the strike: either no asteroid was hit and nothing else changed, or the flash started and the hit asteroid was destroyed (`Struck`), and that asteroid is the highest-index one containing the laser's new position, or none contains it (`Picked`) |
| Games.Game.Hits | src/Game.ts:61-68 | a point is inside an asteroid exactly when its squared distance to the centre is below the squared radius |
| Games.Game.Strike | src/Game.ts:60-73 | a laser in flight picks the highest-index asteroid it is inside, or none (`Picked`); if there is one, that asteroid is destroyed and the flash starts, and otherwise nothing changes (`Struck`) |
| Games.Game.FindHit | src/Game.ts:60-69 | returns the highest index whose asteroid contains the point, or -1 when none does |
| Games.Game.CreateAsteroids | src/Game.ts:89-111 | appends ASTEROIDS_AMOUNT + lvl fresh large asteroids of this level at the placement's points, each at least the clearance from the ship, keeping the old ones |
| Games.Game.SpawnAsteroid | src/Game.ts:93-109 | appends one fresh large asteroid of the level at the placement's point, at least the clearance from the ship (`Spawned`), keeping the others |
| Games.Game.NextLevel | src/Game.ts:142-145 | raises the level by one and spawns its batch |
| Games.Game.DestroyAsteroid | src/Game.ts:113-140 | the score grows by the tier's points; the destroyed asteroid is the one removed and the others keep their order; its fragments follow at its position; an emptied field starts the next level; the invariant holds, so every radius stays one of the three |
| Games.Game.PushHalves | src/Game.ts:118-121 | appends two fresh asteroids of half the radius at the given position and of the current level |
| Games.Game.KeyDown | src/Game.ts:151-172 | nothing happens while the ship is dead or for other keys; arrows set the turn rate or thrust, space shoots; nothing else changes |
| Games.Game.KeyUp | src/Game.ts:174-195 | nothing happens while the ship is dead or for other keys; arrows stop turning or thrust, space re-arms the gun |
| Games.Game.FireTwice | src/Game.ts:168-170 | two presses of space without a release add at most one laser and keep the others |

## Left out

- Drawing: `draw` of every class, `drawExplosion`, `drawThruster` and `drawBackground`. The ship's visibility test is kept as `Ship.Drawn`.
- The DOM and the event loop: the canvas lookup, the listener registration and the `setTimeout` that reschedules the frame.
- The rejection-sampling loop of createAsteroids (src/Game.ts:93-99). It is replaced by the placement function described above, so its `Math.random` draws are not taken from the `Random` stream.
- Canvases on which some ship position has no pixel at least `ASTEROIDS_SIZE * 2 + ship.r` (215) away. `Placeable` asks for a clear pixel for every ship position, so the model has no `Game` for such a canvas. The source's do…while spins forever there when the ship stands at such a position, for instance the centred ship on a 300×300 canvas. A few canvases, such as 305×305, start in the source, because the centred ship at (152.5, 152.5) has pixel (0, 0) 215.7 away, but have no `Game` in the model, because a ship at (152, 152) has no such pixel.
- IEEE-754 arithmetic: coordinates are exact reals, and `cos`, `sin` and `sqrt` are opaque except for the square-root law.
- The cached `sinMinCos` and `sinPlusCos` of the ship, which only the drawing reads.
- Lasers.Laser.Update: `xv` and `yv` are constants, because nothing in the code writes them after construction.
- Games.Game.StepLaser: the inner loop re-tests `laser.explodeTime === 0` for every asteroid. The model tests it once, because the loop breaks as soon as it sets the flash.
- Games.Game.Strike: sets the laser's flash before destroying the asteroid, while the code does it after. destroyAsteroid does not touch lasers, so the effect is the same.
- Games.Game.DestroyAsteroid: states that the fragments and a new level's asteroids were not in the old list, rather than that they are freshly allocated.
- Games.Game.UpdateLasers: does not say which asteroids a surviving laser hit. That is stated per laser by Games.Game.StepLaser and Games.Game.Strike.
- Games.Game.DrawAndUpdate: likewise, it says which lasers remain and how they moved, but not which asteroids they destroyed.
- Games.Game.UpdateField: likewise, it says which lasers remain and how they moved, but not which asteroids they destroyed; score and level are only said not to decrease.
