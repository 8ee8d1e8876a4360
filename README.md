# Preview shooter: a verified model of the game loop

The portfolio page embeds a small vertical shooter in `js/main.js`. The ship moves with the
arrow keys and fires with the space bar. Enemies fall from the top of a 460 × 720 canvas,
and every bullet that hits one scores 10 points. An enemy that reaches the ship costs a life,
and the game ends when none are left. Explosions, spark particles and a scrolling starfield
decorate the canvas. This project models that game in Dafny and proves properties of the model.

## How the model is built

- `entities.dfy` (module `Entities`) holds the game's constants and the bullet, enemy,
  explosion, particle and star records. It also holds the axis-aligned box test that every
  collision uses.
- `seqs.dfy` (module `Seqs`) models `Array.prototype.splice(i, 1)` and `Array.prototype.filter`.
  It also covers a filter whose callback first updates the element in place, which is how the
  code moves bullets, enemies and particles.
- `effects.dfy` (module `Effects`) covers `createParticles`, the ageing loop of
  `updateAndDrawParticles`, the ageing and spark emission of `drawExplosions`, and the stars of
  `initStarfield` and `drawStarfield`.
- `rules.dfy` (module `Rules`) is a value `GameState` that mirrors `gameState`. It has one
  function per step of `updateGame`, and `checkCollisions` written as two scans. The scans
  follow the index semantics of `forEach` over an array that the callback splices. It also has
  `startGame`, `togglePause`, `endGame`, `resetGame`, the key handlers and the canvas click.
- `game.dfy` (module `Simulation`) renders the same code imperatively. A class `Game` keeps the
  fields of `gameState`, and its methods update them in the statement order of the source,
  with `forEach` as `while` loops. Each method is proved to move the object from
  `old(State())` to the state the matching `Rules` or `Effects` function gives.
- `properties.dfy` (module `Properties`) proves what the rules guarantee:
  - what one bullet's pass and the whole scan do to the score, the tones, the explosions, the
    particles and the enemy list;
  - the same for the crash scan;
  - the outcome of a tick;
  - an invariant kept by every event handler;
  - concrete scenarios that show the splice behaviour.
- `ui.dfy` (module `Ui`) holds the hit-test of the "play again" button and the
  wrap-around index arithmetic of the project carousel.

Calls to `Math.random()` come from `Env.random`: `random(k)` is the k-th call within one
`updateGame`, one `resetGame` or the page load. Every operation threads the index of the next
unused call. The draws per event are:

| event | draws |
|---|---|
| enemy spawn | 2 |
| particle | 2 |
| bullet hit | 30 |
| crash | 40 |
| spark burst | 8 |
| star that wraps | 1 |
| engine flame | 1 |
| new star | 5 |

`Math.cos` and `Math.sin` of the particle angles are the functions `Env.cos` and `Env.sin`.
`playSound` becomes an entry appended to a record of requested tones (`sounds`).

Where the code does something a reader might not expect, the model follows the code:

- The ship can reach x = 400. 395 passes the bound `x < 396`, so its right edge can stand
  4 pixels past the canvas (`ShipOvershoots`).
- An enemy is dropped only once its top edge reaches y = 760. At the slowest speed that takes
  400 moves (`EnemyLifetime`).
- Because the scans splice inside `forEach`, three things follow:
  - one bullet can destroy several enemies in one tick;
  - it can remove a later bullet from the list;
  - the element after every spliced one is skipped (`SpliceSkipsEnemy`).
- In the crash scan, `endGame` runs once for every crash that leaves `lives <= 0`. Lives can
  go below zero, and the game-over tone can sound more than once (`GameOverRepeats`).
- `resetGame` clears only the three flags and moves the stars once, through its
  `drawGameScreen` call. Score, lives and all entity lists stay; the next `startGame`
  replaces them.

## Model

| member | source | states |
|---|---|---|
| Entities.OverlapsIffCommonPoint | js/main.js:517-522 | for boxes of positive size, the four strict comparisons hold exactly when the two boxes share an interior point |
| Entities.TouchingNeverOverlaps | js/main.js:517-522 | boxes that only touch along an edge never count as a collision |
| Entities.OverlapsSymmetric | js/main.js:550-555 | the box test gives the same answer whichever box comes first (the crash test puts the ship first) |
| Seqs.RemoveAt | js/main.js:524-525 | `splice(i, 1)` drops exactly the element at i and shifts the rest down by one; an index past the end changes nothing |
| Seqs.RemoveAtSubset | js/main.js:557 | a splice never adds an element |
| Seqs.RemoveAtMultiset | js/main.js:524-525 | the spliced array plus the removed element is the original multiset |
| Seqs.FilterMember | js/main.js:415 | `filter` keeps exactly the elements its callback accepts |
| Seqs.FilterMapMember | js/main.js:473-476 | a filter whose callback first updates the element yields exactly the updated elements the test accepts |
| Seqs.FilterMapKeeps | js/main.js:491-494 | an element whose moved copy passes the test is kept, moved |
| Seqs.FilterMapDrops | js/main.js:491-494 | a value the test rejects never appears in the result |
| Effects.BurstShape | js/main.js:325-340 | createParticles makes exactly `count` particles, all at (x, y), in the given colour, at life 1.0 |
| Effects.FadeTimesMotion | js/main.js:345-348 | after k frames a particle has moved k times its velocity and lost k × 0.02 of life |
| Effects.ParticleLifetime | js/main.js:343-361 | a particle born at life 1.0 is kept by exactly the first 49 frames |
| Effects.AgeFromEffect | js/main.js:364-413 | the explosion loop replaces every explosion by its next frame, keeps their number and order, keeps the old particles in place, appends three life-1.0 particles for each explosion on a sparking frame and none for the others, and uses exactly 8 draws per sparking explosion |
| Effects.GrowTimesShape | js/main.js:410-411 | after k frames an explosion has frame + k and radius + 2k, with centre and maxFrame unchanged |
| Effects.ExplosionLifetime | js/main.js:410-415 | a new explosion survives a frame's filter exactly while fewer than maxFrame frames have passed |
| Effects.SparkFrames | js/main.js:401-408 | a bullet explosion emits sparks on frames 0, 3, …, 12 only; a crash explosion on frames 0, 3, …, 18 |
| Effects.NewStarRanges | js/main.js:135-146 | with `Math.random()` in [0, 1), a new star lies on the canvas, with size in [0.5, 2.5), speed in [0.5, 1.5) and opacity in [0.2, 1.0) |
| Effects.StarsFromKeepsBand | js/main.js:183-198 | the starfield pass keeps the number of stars and each star's size, speed and opacity, and keeps a star with non-negative speed inside [0, 720] |
| Ui.ReplayButtonIsPainted | js/main.js:706-718 | a click counts exactly when it lands on the 160 × 40 button painted at line 658, edges included |
| Ui.ReplayButtonCorners | js/main.js:713-714 | the corners (150, 390) and (310, 430) are on the button; points just outside them are not |
| Ui.NextSlide | js/main.js:747-750 | the next index is below the number of slides and is current + 1 below the last slide; with no slides there is none |
| Ui.PrevSlide | js/main.js:753-756 | the previous index is below the number of slides and is current − 1 above the first slide; with no slides there is none |
| Ui.SlidesInverse | js/main.js:747-756 | prevSlide undoes nextSlide and nextSlide undoes prevSlide |
| Ui.SlidesWrap | js/main.js:747-756 | next from the last slide is the first, and prev from the first is the last |
| Properties.EnemiesFromFrame | js/main.js:516-545 | one bullet's pass over the enemies changes only the bullets, enemies, explosions, particles, score and tones |
| Properties.EnemiesFromTally | js/main.js:539-543 | each hit adds 10 points and one explosion tone |
| Properties.EnemiesFromDraws | js/main.js:537 | each hit uses 30 random draws (15 particles) |
| Properties.EnemiesFromBlasts | js/main.js:528-534 | the explosions appended are one of radius 10 and 20 frames at each hit enemy's centre, in hit order |
| Properties.EnemiesFromBursts | js/main.js:537 | the particles appended are one 15-particle burst per hit, at the enemy's centre |
| Properties.EnemiesFromConserves | js/main.js:524-525 | the surviving enemies plus the hit enemies are exactly the enemies before the pass |
| Properties.EnemiesFromOverlaps | js/main.js:517-525 | every hit pairs the scanning bullet with an enemy it overlaps, and bullets are only removed, never added |
| Properties.EnemiesFromFinds | js/main.js:516-525 | one bullet's pass reports a hit exactly when some enemy from the current index on overlaps the bullet, its first hit is the first such enemy, and a pass without hits changes nothing |
| Properties.BulletsFromCounts | js/main.js:515-546 | the bullet scan changes only the same fields, adds 10 points and one tone per hit, and uses 30 draws per hit |
| Properties.BulletsFromBlasts | js/main.js:515-546 | the bullet scan appends exactly one bullet explosion per hit, in hit order |
| Properties.BulletsFromBursts | js/main.js:515-546 | the bullet scan appends exactly one 15-particle burst per hit, in hit order |
| Properties.BulletsFromConserves | js/main.js:515-546 | surviving plus hit enemies are exactly the enemies before the scan, no bullet is added, and every hit pairs a bullet that was on screen with an enemy it overlaps |
| Properties.BulletsFromFinds | js/main.js:515-546 | the bullet scan reports no hit exactly when no remaining bullet overlaps any enemy, and then changes nothing |
| Properties.CrashesFromFrame | js/main.js:549-582 | the crash scan never touches the ship, score, bullets, keys, timers or stars |
| Properties.CrashesFromTally | js/main.js:557-575 | each crash costs one life and 40 random draws |
| Properties.CrashesFromTones | js/main.js:575-580 | each crash plays the hit tone, followed by the game-over tone when it left no life |
| Properties.CrashesFromEnding | js/main.js:578-580 | after the scan the game is over exactly when it was before or a crash left no life, and runs exactly when it ran and no crash did |
| Properties.CrashesFromBlasts | js/main.js:560-566 | the explosions appended are one of radius 20 and 30 frames at each crashed enemy's centre |
| Properties.CrashesFromBursts | js/main.js:569 | the particles appended are one red 20-particle burst per crash |
| Properties.CrashesFromConserves | js/main.js:557 | the remaining enemies plus the crashed ones are exactly the enemies before the scan |
| Properties.CrashesFromOverlaps | js/main.js:549-557 | every crashed enemy was in the list and overlaps the ship |
| Properties.CrashesFromFinds | js/main.js:549-557 | the crash scan reports a crash exactly when some enemy from the current index on overlaps the ship, and its first crash is the first such enemy |
| Properties.TickOutcome | js/main.js:445-510 | a running tick adds 10 points per hit and takes a life per crash; the game is over exactly when a crash left no life, it is still running exactly when not over, it is not paused, the ship moved as the keys say and the keys are untouched |
| Properties.TickDetects | js/main.js:497-583 | in a tick, once everything has moved, there is no hit exactly when no bullet overlaps an enemy, and in a tick without hits no crash exactly when no enemy overlaps the ship |
| Properties.TickScore | js/main.js:540 | over any tick the score never falls and grows by a multiple of 10 |
| Properties.TickLives | js/main.js:572 | over any tick lives never rise and fall by at most the number of enemies plus one |
| Properties.TickKeepsSounds | js/main.js:445-510 | the tones already played stay a prefix of the record |
| Properties.ShipStaysInRange | js/main.js:449-454 | a move keeps the ship on multiples of 5 between 0 and 400 |
| Properties.InitialInvariant | js/main.js:109-162 | the state after load satisfies the invariant |
| Properties.CollideKeepsScreen | js/main.js:513-583 | the collision scans only remove bullets and enemies, so every bullet and enemy left is still on screen |
| Properties.TickInvariant | js/main.js:445-510 | updateGame keeps the invariant |
| Properties.StartInvariant | js/main.js:586-625 | startGame keeps the invariant |
| Properties.TogglePauseInvariant | js/main.js:628-637 | togglePause keeps the invariant |
| Properties.ResetInvariant | js/main.js:672-684 | resetGame keeps the invariant |
| Properties.InputInvariant | js/main.js:687-718 | the key handlers and the canvas click keep the invariant |
| Properties.SpliceSkipsEnemy | js/main.js:515-546 | two bullets over three stacked enemies: the first bullet shoots down the first and third enemies and splices out the second bullet, the second enemy is skipped and is the only one left, and the score rises by 20 |
| Properties.GameOverRepeats | js/main.js:549-582 | one life and three enemies on the ship: the first and third enemies crash, lives fall to -1, the hit and game-over tones play twice each, and the skipped second enemy is the only one left |
| Properties.EnemyLifetime | js/main.js:491-494 | k moves take an enemy down k times its speed; one spawned at y = -40 with speed 2 is kept for exactly 399 moves |
| Properties.ShipOvershoots | js/main.js:449-454 | with the right arrow held from x = 200 the ship moves 5 per tick up to 400, past the canvas's right edge |
| Properties.SpawnOutcome | js/main.js:479-488 | a due spawn appends one 40 × 40 enemy above the canvas, inside it horizontally, with speed in [2, 4), takes two draws and restarts the timer, so the next spawn waits a full 2000 ms |
| Properties.ShotsSpaced | js/main.js:457-470 | a shot adds one bullet and records its time; the next shot needs the space bar and more than 250 ms |
| Properties.TogglePauseTwice | js/main.js:628-637 | togglePause twice restores the state |
| Properties.TickFrozen | js/main.js:446 | nothing changes while the game is paused, over or not started |
| Simulation.Game.constructor | js/main.js:109-162 | the object equals the load-time state: the gameState literal, initStarfield, then the stars moved by the two drawGameScreen calls of initCanvas (`Rules.Initial`) |
| Simulation.Game.NewRound | js/main.js:593-614 | the object is a running new game with 3 lives, the ship at 200, empty lists and the given stars (`Rules.Fresh`) |
| Simulation.Game.InitStarfield | js/main.js:135-146 | the loop builds exactly the 100 stars of `Effects.InitialStars` and changes nothing else (`Effects.InitialStars`) |
| Simulation.Game.DrawStarfield | js/main.js:183-198 | the loop moves the stars as the starfield pass says, with one draw per wrap (`Effects.StarsFrom`) |
| Simulation.Game.KeyDown | js/main.js:687-694 | the key is marked held and nothing else changes (`Rules.KeyDown`) |
| Simulation.Game.KeyUp | js/main.js:696-698 | the key is marked released and nothing else changes (`Rules.KeyUp`) |
| Simulation.Game.MoveShip | js/main.js:449-454 | only the ship's x changes, as the held keys say (`Rules.MovePlayerX`) |
| Simulation.Game.FireBullet | js/main.js:457-470 | when ready, one bullet, the shot time and one shot tone are added; otherwise nothing changes (`Rules.Fire`) |
| Simulation.Game.AdvanceBullets | js/main.js:473-476 | the loop moves every bullet up and keeps those still on screen (`Rules.MoveBullets`) |
| Simulation.Game.SpawnEnemy | js/main.js:479-488 | when due, one enemy is appended and the timer reset, using 2 draws (`Rules.Spawn`) |
| Simulation.Game.AdvanceEnemies | js/main.js:491-494 | the loop moves every enemy down and keeps those above the removal line (`Rules.MoveEnemies`) |
| Simulation.Game.CreateParticles | js/main.js:325-340 | the loop appends exactly the burst of `count` particles and uses 2 draws each (`Effects.Burst`) |
| Simulation.Game.EndGame | js/main.js:640-669 | running becomes false, gameOver true, and the game-over tone is added (`Rules.EndGame`) |
| Simulation.Game.CheckCollisions | js/main.js:513-583 | the two loops give exactly the bullet scan followed by the crash scan (`Rules.Collide`) |
| Simulation.Game.ShootEnemies | js/main.js:515-546 | the outer forEach, with its splices, gives exactly the bullet scan (`Rules.BulletsFrom`) |
| Simulation.Game.BulletAgainstEnemies | js/main.js:516-545 | the inner forEach gives exactly one bullet's pass (`Rules.EnemiesFrom`) |
| Simulation.Game.DestroyEnemy | js/main.js:523-543 | one hit: both splices, the explosion, the burst, 10 points and the tone, using 30 draws (`Rules.ShootDown`) |
| Simulation.Game.CrashIntoEnemies | js/main.js:549-582 | the crash forEach, with its splices, gives exactly the crash scan (`Rules.CrashesFrom`) |
| Simulation.Game.HitPlayer | js/main.js:555-580 | one crash, with endGame when no life is left (`Rules.Crash`) |
| Simulation.Game.TakeHit | js/main.js:556-575 | splice, explosion, burst, one life lost and the tone, using 40 draws (`Rules.Struck`) |
| Simulation.Game.DrawExplosions | js/main.js:364-416 | every explosion aged with its sparks, then the finished ones dropped (`Effects.AgeExplosions`) |
| Simulation.Game.AgeEveryExplosion | js/main.js:365-413 | the forEach ages every explosion in order and appends the sparks (`Effects.AgeFrom`) |
| Simulation.Game.EmitSparks | js/main.js:401-408 | one spark burst of 3 particles at a jittered point, using 8 draws (`Effects.Sparks`) |
| Simulation.Game.DropFinishedExplosions | js/main.js:415 | exactly the unfinished explosions stay, in order (`Seqs.Filter` with `Effects.Unfinished`) |
| Simulation.Game.UpdateParticles | js/main.js:343-361 | every particle is moved and faded, and exactly the live ones stay (`Effects.FadeAll`) |
| Simulation.Game.UpdateGame | js/main.js:445-510 | the object moves to the next tick's state (`Rules.Tick`) |
| Simulation.Game.SteerShip | js/main.js:449-476 | move, fire and bullet flight as the first three steps say (`Rules.Steer`) |
| Simulation.Game.AdvanceWorld | js/main.js:479-497 | spawn, enemy flight and the collision scans, with the draw index they use (`Rules.Advance`) |
| Simulation.Game.DrawFrame | js/main.js:500-505 | the stars, the flame draw, the explosions and the particles change as the drawing calls do (`Rules.Redraw`) |
| Simulation.Game.TogglePause | js/main.js:628-637 | paused flips only while a game runs (`Rules.TogglePause`) |
| Simulation.Game.ResetGame | js/main.js:672-684 | the flags are cleared and the stars moved once; score, lives, keys and lists are kept (`Rules.Reset`) |
| Simulation.StartGame | js/main.js:586-625 | the same object while a game runs; otherwise a new object holding a fresh game with the old stars (`Rules.Start`) |
| Simulation.ClickCanvas | js/main.js:706-718 | a click on the button after game over starts a new game; any other click changes nothing (`Rules.Click`) |

The `Simulation` methods have a partner each: the `Rules` or `Effects` function named in their
`ensures` and in brackets in their row (`EmitSparks` states only the new particles, as its frame
is `particles` alone). The properties proved about those functions in `Properties`, `Effects` and
`Seqs` therefore hold for the imperative code as well.

## Left out

- Audio: `initAudio` and `playSound`'s oscillators are not modelled. Only the record of which
  tone was asked for, in order, is kept.
- Canvas drawing: fill styles, paths, gradients, text, the score and lives display, and the
  end-screen text. Only the state changes made inside drawing functions are modelled: the
  star moves, explosion and particle ageing, spark emission and the flame's random draw.
- Scheduling: `requestAnimationFrame`, and the second loop a quick stop and start can
  leave running, are concurrency the model does not capture. One `UpdateGame` call is one
  frame, and the timestamp is a parameter.
- Floating point: numbers are exact reals. For the life-1.0 particles the code creates, double
  arithmetic drops a particle on the same frame: after 49 steps of 0.02 its life is about 0.02,
  and after 50 about -6.2e-16. The spark bounds 20 × 0.7 and 30 × 0.7 round to exactly 14 and 21. `Math.cos` and `Math.sin` are abstract functions, and the
  hexadecimal colour strings are opaque strings.
- Constant fields: the fields of `gameState` that nothing ever assigns are constants here. They
  are the ship's y, width, height and speed, `shotCooldown` and `enemySpawnInterval`.
- Timestamps: going backwards in time gets no special treatment, because the code gives it none.
- DOM glue: button labels, `preventDefault`, the overlay's `setTimeout` and
  `getBoundingClientRect` are left out. Click coordinates arrive relative to the canvas.
- Carousel: the carousel's DOM updates and auto-rotation timer are left out. Only its index
  arithmetic is modelled.
- Other code: navigation, scrolling and the other scripts of the page (`js/optimization.js`,
  `js/carousel.js`, `script.js`) are not part of this model.
- Seqs.Filter and Seqs.FilterMap: their own contracts give only a length bound and the
  property of each kept element. Exact membership is in Seqs.FilterMember and
  Seqs.FilterMapMember.
