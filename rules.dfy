/** The rules of the preview shooter, as functions on a value that mirrors
    `gameState`: one function per step of updateGame, the collision scan of
    checkCollisions with the array semantics of `forEach` over an array that
    the callback splices, and the transitions startGame, togglePause, endGame
    and resetGame. The class in game.dfy is proved to follow these functions. */
module Rules {
  import opened Entities
  import opened Seqs
  import opened Effects
  import opened Ui

  /** Everything `gameState` holds beyond its constants, plus the tones asked
      of the audio output so far. */
  datatype GameState = GameState(
    running: bool, paused: bool, gameOver: bool,
    score: int, lives: int, playerX: int,
    bullets: seq<Bullet>, enemies: seq<Enemy>, explosions: seq<Explosion>,
    particles: seq<Particle>, stars: seq<Star>,
    keys: map<string, bool>, lastShot: real, enemySpawnTimer: real,
    sounds: seq<Sound>)

  /** A state together with the index of the next unused random draw. */
  datatype Stepped = Stepped(state: GameState, next: nat)

  // ------------------------------------------------------------------ set-up

  /** The literal assigned to gameState at load time, followed by initCanvas:
      initStarfield (500 draws) and the two drawStarfield passes of the two
      initial drawGameScreen calls. */
  function Initial(env: Env): GameState {
    var sky := StarsFrom(InitialStars(env), 0, env, 5 * StarCount);
    var sky2 := StarsFrom(sky.stars, 0, env, sky.next);
    GameState(false, false, false, 0, StartLives, PlayerStartX, [], [], [], [], sky2.stars,
              map[], 0.0, 0.0, [])
  }

  /** The object startGame installs: a new game that keeps the old stars. */
  function Fresh(s: GameState): GameState {
    GameState(true, false, false, 0, StartLives, PlayerStartX, [], [], [], [], s.stars,
              map[], 0.0, 0.0, s.sounds)
  }

  // ------------------------------------------------------------- tick steps

  /** Step 1: move left when x > 0, then move right when the (possibly already
      moved) x is below CanvasWidth - PlayerWidth. */
  function MovePlayerX(x: int, keys: map<string, bool>): int {
    var afterLeft := if Held(keys, "ArrowLeft") && x > 0 then x - PlayerSpeed else x;
    if Held(keys, "ArrowRight") && afterLeft < CanvasWidth - PlayerWidth then afterLeft + PlayerSpeed
    else afterLeft
  }

  /** The 8 x 15 bullet of speed 8 fired from the middle of the ship's top edge. */
  function NewBullet(playerX: int): Bullet {
    Bullet(playerX as real + (PlayerWidth as real) / 2.0 - 4.0, PlayerY, 8.0, 15.0, 8.0)
  }

  predicate ShotReady(s: GameState, t: real) {
    Held(s.keys, " ") && t - s.lastShot > ShotCooldown
  }

  /** Step 2: fire when the space key is held and the cooldown has elapsed. */
  function Fire(s: GameState, t: real): GameState {
    if ShotReady(s, t) then
      s.(bullets := s.bullets + [NewBullet(s.playerX)], lastShot := t, sounds := s.sounds + [ShotSound])
    else s
  }

  function Rise(b: Bullet): Bullet { b.(y := b.y - b.speed) }
  predicate BulletOnScreen(b: Bullet) { b.y > -b.height }

  /** Step 3: the bullets' filter. */
  function MoveBullets(bs: seq<Bullet>): seq<Bullet> {
    FilterMap(bs, Rise, BulletOnScreen)
  }

  /** The 40 x 40 enemy spawned above the canvas: x is draw next scaled to
      [0, CanvasWidth - 40), speed is 2 plus twice draw next + 1. */
  function NewEnemy(env: Env, next: nat): Enemy {
    Enemy(env.random(next) * (CanvasWidth as real - 40.0), -40.0, 40.0, 40.0, 2.0 + env.random(next + 1) * 2.0)
  }

  predicate SpawnDue(s: GameState, t: real) {
    t - s.enemySpawnTimer > EnemySpawnInterval
  }

  /** Step 4: spawn an enemy when the spawn interval has elapsed. */
  function Spawn(s: GameState, t: real, env: Env, next: nat): Stepped {
    if SpawnDue(s, t) then Stepped(s.(enemies := s.enemies + [NewEnemy(env, next)], enemySpawnTimer := t), next + 2)
    else Stepped(s, next)
  }

  function Descend(e: Enemy): Enemy { e.(y := e.y + e.speed) }
  predicate EnemyOnScreen(e: Enemy) { e.y < CanvasHeight as real + e.height }

  /** Step 5: the enemies' filter. */
  function MoveEnemies(es: seq<Enemy>): seq<Enemy> {
    FilterMap(es, Descend, EnemyOnScreen)
  }

  // ------------------------------------------------------------- collisions

  function CenterX(e: Enemy): real { e.x + e.width / 2.0 }
  function CenterY(e: Enemy): real { e.y + e.height / 2.0 }

  /** The explosion a bullet hit leaves at the enemy's centre. */
  function BulletBlast(e: Enemy): Explosion {
    Explosion(CenterX(e), CenterY(e), BulletBlastRadius, 0, BulletBlastFrames)
  }

  /** The explosion a player hit leaves at the enemy's centre. */
  function PlayerBlast(e: Enemy): Explosion {
    Explosion(CenterX(e), CenterY(e), PlayerBlastRadius, 0, PlayerBlastFrames)
  }

  /** Particles created by one bullet hit and by one player hit. */
  const HitSparks: nat := 15
  const CrashSparks: nat := 20

  /** Random draws taken by those particles, two per particle. */
  const HitDraws: nat := 2 * HitSparks
  const CrashDraws: nat := 2 * CrashSparks

  /** The body of the inner forEach when the bullet visited at bi overlaps the
      enemy at ei: splice both arrays at those indices, add the explosion, 15
      particles, 10 points and the hit tone. */
  function ShootDown(s: GameState, bi: nat, ei: nat, env: Env, next: nat): GameState
    requires ei < |s.enemies|
  {
    var e := s.enemies[ei];
    s.(bullets := RemoveAt(s.bullets, bi), enemies := RemoveAt(s.enemies, ei),
       explosions := s.explosions + [BulletBlast(e)],
       particles := s.particles + Burst(CenterX(e), CenterY(e), SparkColor, HitSparks, env, next),
       score := s.score + HitPoints, sounds := s.sounds + [HitSound])
  }

  /** A bullet-enemy collision as the scan saw it. */
  datatype Hit = Hit(bullet: Bullet, enemy: Enemy)

  datatype Scan = Scan(state: GameState, next: nat, hits: seq<Hit>)

  /** The inner forEach, over the enemies from index ei on, for the bullet b
      visited at index bi. After a splice the next enemy moves into the slot
      just visited and is skipped; b, bi and the loop go on regardless, so
      a second overlap splices whatever bullet is now at bi. */
  function EnemiesFrom(s: GameState, b: Bullet, bi: nat, ei: nat, env: Env, next: nat): (r: Scan)
    ensures |r.state.bullets| <= |s.bullets|
    decreases |s.enemies| - ei
  {
    if ei >= |s.enemies| then Scan(s, next, [])
    else if Overlaps(BulletBox(b), EnemyBox(s.enemies[ei])) then
      var r := EnemiesFrom(ShootDown(s, bi, ei, env, next), b, bi, ei + 1, env, next + HitDraws);
      Scan(r.state, r.next, [Hit(b, s.enemies[ei])] + r.hits)
    else EnemiesFrom(s, b, bi, ei + 1, env, next)
  }

  /** The outer forEach, over the bullets from index bi on. */
  function BulletsFrom(s: GameState, bi: nat, env: Env, next: nat): Scan
    decreases |s.bullets| - bi
  {
    if bi >= |s.bullets| then Scan(s, next, [])
    else
      var inner := EnemiesFrom(s, s.bullets[bi], bi, 0, env, next);
      var r := BulletsFrom(inner.state, bi + 1, env, inner.next);
      Scan(r.state, r.next, inner.hits + r.hits)
  }

  /** endGame: the flags and the game-over tone. */
  function EndGame(s: GameState): GameState {
    s.(gameOver := true, running := false, sounds := s.sounds + [GameOverSound])
  }

  /** The ship overlaps the enemy at ei: splice it out, add the explosion, 20
      particles, lose a life and play the tone. */
  function Struck(s: GameState, ei: nat, env: Env, next: nat): GameState
    requires ei < |s.enemies|
  {
    var e := s.enemies[ei];
    s.(enemies := RemoveAt(s.enemies, ei),
       explosions := s.explosions + [PlayerBlast(e)],
       particles := s.particles + Burst(CenterX(e), CenterY(e), PlayerHitColor, CrashSparks, env, next),
       lives := s.lives - 1, sounds := s.sounds + [PlayerHitSound])
  }

  /** The body of the player forEach on an overlap: the hit, then endGame
      when no life is left. */
  function Crash(s: GameState, ei: nat, env: Env, next: nat): GameState
    requires ei < |s.enemies|
  {
    var hit := Struck(s, ei, env, next);
    if hit.lives <= 0 then EndGame(hit) else hit
  }

  datatype CrashScan = CrashScan(state: GameState, next: nat, crashed: seq<Enemy>)

  /** The player forEach from index ei on; it too skips the enemy that moves
      into a spliced slot, and calls endGame on every crash that leaves
      lives <= 0. */
  function CrashesFrom(s: GameState, ei: nat, env: Env, next: nat): CrashScan
    decreases |s.enemies| - ei
  {
    if ei >= |s.enemies| then CrashScan(s, next, [])
    else if Overlaps(PlayerBox(s.playerX), EnemyBox(s.enemies[ei])) then
      var r := CrashesFrom(Crash(s, ei, env, next), ei + 1, env, next + CrashDraws);
      CrashScan(r.state, r.next, [s.enemies[ei]] + r.crashed)
    else CrashesFrom(s, ei + 1, env, next)
  }

  /** Step 6: checkCollisions. */
  function Collide(s: GameState, env: Env, next: nat): Stepped {
    var shot := BulletsFrom(s, 0, env, next);
    var crash := CrashesFrom(shot.state, 0, env, shot.next);
    Stepped(crash.state, crash.next)
  }

  // ------------------------------------------------------------------- tick

  predicate Active(s: GameState) {
    s.running && !s.paused && !s.gameOver
  }

  /** Steps 1 to 3 of updateGame: move the ship, fire if ready, fly the bullets. */
  function Steer(s: GameState, t: real): GameState {
    var moved := s.(playerX := MovePlayerX(s.playerX, s.keys));
    var fired := Fire(moved, t);
    fired.(bullets := MoveBullets(fired.bullets))
  }

  /** Steps 4 to 6: spawn if due, move the enemies, checkCollisions. The random
      draws are numbered from 0 within one call of updateGame. */
  function Advance(s: GameState, t: real, env: Env): Stepped {
    var spawned := Spawn(s, t, env, 0);
    Collide(spawned.state.(enemies := MoveEnemies(spawned.state.enemies)), env, spawned.next)
  }

  /** The state changes hidden in the drawing calls at the end of updateGame:
      drawStarfield moves the stars, the engine flame of drawPlayer takes one
      draw while the game is still running, drawExplosions ages the explosions
      and updateAndDrawParticles the particles. */
  function Redraw(s: GameState, env: Env, next: nat): GameState {
    var sky := StarsFrom(s.stars, 0, env, next);
    var flame := if s.running && !s.paused then sky.next + 1 else sky.next;
    var aged := AgeExplosions(s.explosions, s.particles, env, flame);
    s.(stars := sky.stars, explosions := aged.explosions, particles := FadeAll(aged.particles))
  }

  /** updateGame(t): nothing unless the game is running, not paused and not
      over; otherwise the steps in their fixed order, then the drawing. */
  function Tick(s: GameState, t: real, env: Env): GameState {
    if !Active(s) then s
    else
      var hit := Advance(Steer(s, t), t, env);
      Redraw(hit.state, env, hit.next)
  }

  // ---------------------------------------------------------- state machine

  /** startGame: a no-op while a game is running; otherwise a fresh game. */
  function Start(s: GameState): GameState {
    if s.running && !s.gameOver then s else Fresh(s)
  }

  /** togglePause: flips paused, only while a game is running. */
  function TogglePause(s: GameState): GameState {
    if !s.running || s.gameOver then s else s.(paused := !s.paused)
  }

  /** resetGame: clears the three flags; its drawGameScreen call also moves the
      stars once. Score, lives and every entity list stay as they are. */
  function Reset(s: GameState, env: Env): GameState {
    s.(running := false, paused := false, gameOver := false, stars := StarsFrom(s.stars, 0, env, 0).stars)
  }

  function KeyDown(s: GameState, key: string): GameState {
    s.(keys := s.keys[key := true])
  }

  function KeyUp(s: GameState, key: string): GameState {
    s.(keys := s.keys[key := false])
  }

  /** A click on the canvas at (x, y) restarts a finished game when it lands
      on the "play again" button. */
  function Click(s: GameState, x: real, y: real): GameState {
    if s.gameOver && OnReplayButton(x, y) then Start(s) else s
  }
}
