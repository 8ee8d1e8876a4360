/** The game object of js/main.js: the fields of `gameState` updated in place
    by the functions of the page script, each proved to produce the state that
    the matching function of the Rules module describes. The methods for the
    single steps name in their `modifies` clauses only the fields those
    steps assign; the methods that chain several steps modify the object. */
module Simulation {
  import opened Entities
  import opened Seqs
  import opened Effects
  import opened Rules

  class Game {
    var running: bool
    var paused: bool
    var gameOver: bool
    var score: int
    var lives: int
    var playerX: int
    var bullets: seq<Bullet>
    var enemies: seq<Enemy>
    var explosions: seq<Explosion>
    var particles: seq<Particle>
    var stars: seq<Star>
    var keys: map<string, bool>
    var lastShot: real
    var enemySpawnTimer: real
    /** The tones requested from playSound so far. */
    ghost var sounds: seq<Sound>

    ghost function State(): GameState
      reads this
    {
      GameState(running, paused, gameOver, score, lives, playerX, bullets, enemies, explosions,
                particles, stars, keys, lastShot, enemySpawnTimer, sounds)
    }

    /** The page load: the initial gameState literal, then initCanvas. */
    constructor (env: Env)
      ensures State() == Initial(env)
    {
      running, paused, gameOver := false, false, false;
      score, lives, playerX := 0, StartLives, PlayerStartX;
      bullets, enemies, explosions, particles, stars := [], [], [], [], [];
      keys := map[];
      lastShot, enemySpawnTimer := 0.0, 0.0;
      sounds := [];
      new;
      InitStarfield(env);
      var next := DrawStarfield(env, 5 * StarCount);
      next := DrawStarfield(env, next);
    }

    /** The object literal startGame assigns to gameState: a new game that
        keeps the stars (and, here, the record of tones played). */
    constructor NewRound(stars: seq<Star>, ghost sounds: seq<Sound>)
      ensures State() == GameState(true, false, false, 0, StartLives, PlayerStartX, [], [], [], [], stars,
                                   map[], 0.0, 0.0, sounds)
    {
      running, paused, gameOver := true, false, false;
      score, lives, playerX := 0, StartLives, PlayerStartX;
      bullets, enemies, explosions, particles := [], [], [], [];
      this.stars := stars;
      keys := map[];
      lastShot, enemySpawnTimer := 0.0, 0.0;
      this.sounds := sounds;
    }

    /** initStarfield: 100 stars, five random draws each. */
    method InitStarfield(env: Env)
      modifies this`stars
      ensures State() == old(State()).(stars := InitialStars(env))
    {
      stars := [];
      var i := 0;
      while i < StarCount
        invariant 0 <= i <= StarCount
        invariant |stars| == i && forall j :: 0 <= j < i ==> stars[j] == NewStar(env, j)
      {
        var x := env.random(5 * i) * (CanvasWidth as real);
        var y := env.random(5 * i + 1) * (CanvasHeight as real);
        var size := env.random(5 * i + 2) * 2.0 + 0.5;
        var speed := env.random(5 * i + 3) * 1.0 + 0.5;
        var opacity := env.random(5 * i + 4) * 0.8 + 0.2;
        assert Star(x, y, size, speed, opacity) == NewStar(env, i);
        stars := stars + [Star(x, y, size, speed, opacity)];
        i := i + 1;
      }
      assert stars == InitialStars(env);
    }

    /** The state change inside drawStarfield: every star moves down by its
        speed and wraps to the top at a fresh random x once below the canvas. */
    method DrawStarfield(env: Env, next0: nat) returns (next: nat)
      modifies this`stars
      ensures var sky := StarsFrom(old(stars), 0, env, next0);
        State() == old(State()).(stars := sky.stars) && next == sky.next
    {
      next := next0;
      var i := 0;
      while i < |stars|
        invariant 0 <= i <= |stars|
        invariant StarsFrom(stars, i, env, next) == StarsFrom(old(stars), 0, env, next0)
      {
        var star := stars[i];
        var y := star.y + star.speed;
        if y > CanvasHeight as real {
          star := star.(y := 0.0, x := env.random(next) * (CanvasWidth as real));
          next := next + 1;
        } else {
          star := star.(y := y);
        }
        stars := stars[i := star];
        i := i + 1;
      }
    }

    /** The keydown listener. */
    method KeyDown(key: string)
      modifies this`keys
      ensures State() == Rules.KeyDown(old(State()), key)
    {
      keys := keys[key := true];
    }

    /** The keyup listener. */
    method KeyUp(key: string)
      modifies this`keys
      ensures State() == Rules.KeyUp(old(State()), key)
    {
      keys := keys[key := false];
    }

    /** Step 1 of updateGame. */
    method MoveShip()
      modifies this`playerX
      ensures State() == old(State()).(playerX := MovePlayerX(old(playerX), old(keys)))
    {
      if Held(keys, "ArrowLeft") && playerX > 0 {
        playerX := playerX - PlayerSpeed;
      }
      if Held(keys, "ArrowRight") && playerX < CanvasWidth - PlayerWidth {
        playerX := playerX + PlayerSpeed;
      }
    }

    /** Step 2 of updateGame. */
    method FireBullet(t: real)
      modifies this`bullets, this`lastShot, this`sounds
      ensures State() == Fire(old(State()), t)
    {
      if Held(keys, " ") && t - lastShot > ShotCooldown {
        bullets := bullets + [Bullet(playerX as real + (PlayerWidth as real) / 2.0 - 4.0, PlayerY, 8.0, 15.0, 8.0)];
        lastShot := t;
        sounds := sounds + [ShotSound];
      }
    }

    /** Step 3 of updateGame: the bullets' filter. */
    method AdvanceBullets()
      modifies this`bullets
      ensures State() == old(State()).(bullets := MoveBullets(old(bullets)))
    {
      var kept: seq<Bullet> := [];
      var i := 0;
      while i < |bullets|
        invariant 0 <= i <= |bullets|
        invariant kept == FilterMap(bullets[..i], Rise, BulletOnScreen)
      {
        var bullet := bullets[i];
        bullet := bullet.(y := bullet.y - bullet.speed);
        if bullet.y > -bullet.height {
          kept := kept + [bullet];
        }
        assert bullets[..i + 1][..i] == bullets[..i];
        i := i + 1;
      }
      assert bullets[..i] == bullets;
      bullets := kept;
    }

    /** Step 4 of updateGame. */
    method SpawnEnemy(t: real, env: Env, next0: nat) returns (next: nat)
      modifies this`enemies, this`enemySpawnTimer
      ensures var r := Spawn(old(State()), t, env, next0);
        State() == r.state && next == r.next
    {
      next := next0;
      if t - enemySpawnTimer > EnemySpawnInterval {
        var x := env.random(next) * (CanvasWidth as real - 40.0);
        var speed := 2.0 + env.random(next + 1) * 2.0;
        next := next + 2;
        enemies := enemies + [Enemy(x, -40.0, 40.0, 40.0, speed)];
        enemySpawnTimer := t;
      }
    }

    /** Step 5 of updateGame: the enemies' filter. */
    method AdvanceEnemies()
      modifies this`enemies
      ensures State() == old(State()).(enemies := MoveEnemies(old(enemies)))
    {
      var kept: seq<Enemy> := [];
      var i := 0;
      while i < |enemies|
        invariant 0 <= i <= |enemies|
        invariant kept == FilterMap(enemies[..i], Descend, EnemyOnScreen)
      {
        var enemy := enemies[i];
        enemy := enemy.(y := enemy.y + enemy.speed);
        if enemy.y < CanvasHeight as real + enemy.height {
          kept := kept + [enemy];
        }
        assert enemies[..i + 1][..i] == enemies[..i];
        i := i + 1;
      }
      assert enemies[..i] == enemies;
      enemies := kept;
    }

    /** createParticles: pushes count particles at (x, y), two draws each. */
    method CreateParticles(x: real, y: real, color: string, count: nat, env: Env, next0: nat) returns (next: nat)
      modifies this`particles
      ensures State() == old(State()).(particles := old(particles) + Burst(x, y, color, count, env, next0))
      ensures next == next0 + 2 * count
    {
      next := next0;
      ghost var before := particles;
      var i := 0;
      while i < count
        invariant 0 <= i <= count
        invariant next == next0 + 2 * i
        invariant |particles| == |before| + i && particles[..|before|] == before
        invariant forall j :: 0 <= j < i ==> particles[|before| + j] == NewParticle(x, y, color, count, j, env, next0)
      {
        var speed := env.random(next) * 3.0 + 1.0;
        var size := env.random(next + 1) * 3.0 + 1.0;
        var particle := Particle(x, y, env.cos(i, count) * speed, env.sin(i, count) * speed, size, color, 1.0);
        assert particle == NewParticle(x, y, color, count, i, env, next0);
        particles := particles + [particle];
        next := next + 2;
        i := i + 1;
      }
      assert particles == before + Burst(x, y, color, count, env, next0);
    }

    /** endGame, without the overlay it paints. */
    method EndGame()
      modifies this`gameOver, this`running, this`sounds
      ensures State() == Rules.EndGame(old(State()))
    {
      gameOver := true;
      running := false;
      sounds := sounds + [GameOverSound];
    }

    /** checkCollisions: the bullet pass, then the player pass. */
    method CheckCollisions(env: Env, next0: nat) returns (next: nat)
      modifies this`bullets, this`enemies, this`explosions, this`particles, this`score, this`sounds,
               this`lives, this`gameOver, this`running
      ensures var r := Collide(old(State()), env, next0);
        State() == r.state && next == r.next
    {
      next := ShootEnemies(env, next0);
      next := CrashIntoEnemies(env, next);
    }

    /** The outer forEach of checkCollisions, written as an index loop that
        re-reads the length of the spliced array on every round. */
    method ShootEnemies(env: Env, next0: nat) returns (next: nat)
      modifies this`bullets, this`enemies, this`explosions, this`particles, this`score, this`sounds
      ensures var r := BulletsFrom(old(State()), 0, env, next0);
        State() == r.state && next == r.next
    {
      next := next0;
      ghost var shot := BulletsFrom(State(), 0, env, next0);
      var bulletIndex := 0;
      while bulletIndex < |bullets|
        invariant var r := BulletsFrom(State(), bulletIndex, env, next);
          r.state == shot.state && r.next == shot.next
        decreases |bullets| - bulletIndex
      {
        next := BulletAgainstEnemies(bullets[bulletIndex], bulletIndex, env, next);
        bulletIndex := bulletIndex + 1;
      }
    }

    /** The inner forEach of checkCollisions for the bullet visited at
        bulletIndex. */
    method BulletAgainstEnemies(bullet: Bullet, bulletIndex: nat, env: Env, next0: nat) returns (next: nat)
      modifies this`bullets, this`enemies, this`explosions, this`particles, this`score, this`sounds
      ensures var r := EnemiesFrom(old(State()), bullet, bulletIndex, 0, env, next0);
        State() == r.state && next == r.next
    {
      next := next0;
      ghost var inner := EnemiesFrom(State(), bullet, bulletIndex, 0, env, next0);
      var enemyIndex := 0;
      while enemyIndex < |enemies|
        invariant var r := EnemiesFrom(State(), bullet, bulletIndex, enemyIndex, env, next);
          r.state == inner.state && r.next == inner.next
        decreases |enemies| - enemyIndex
      {
        var enemy := enemies[enemyIndex];
        if bullet.x < enemy.x + enemy.width && bullet.x + bullet.width > enemy.x &&
           bullet.y < enemy.y + enemy.height && bullet.y + bullet.height > enemy.y
        {
          next := DestroyEnemy(bulletIndex, enemyIndex, env, next);
        }
        enemyIndex := enemyIndex + 1;
      }
    }

    /** The body of the inner forEach on an overlap: both splices, the
        explosion, 15 particles, the points and the hit tone. */
    method DestroyEnemy(bulletIndex: nat, enemyIndex: nat, env: Env, next0: nat) returns (next: nat)
      requires enemyIndex < |enemies|
      modifies this`bullets, this`enemies, this`explosions, this`particles, this`score, this`sounds
      ensures State() == ShootDown(old(State()), bulletIndex, enemyIndex, env, next0)
      ensures next == next0 + HitDraws
    {
      var enemy := enemies[enemyIndex];
      bullets := RemoveAt(bullets, bulletIndex);
      enemies := RemoveAt(enemies, enemyIndex);
      explosions := explosions + [Explosion(enemy.x + enemy.width / 2.0, enemy.y + enemy.height / 2.0,
                                            BulletBlastRadius, 0, BulletBlastFrames)];
      next := CreateParticles(enemy.x + enemy.width / 2.0, enemy.y + enemy.height / 2.0, SparkColor, HitSparks, env, next0);
      score := score + HitPoints;
      sounds := sounds + [HitSound];
    }

    /** The player forEach of checkCollisions. */
    method CrashIntoEnemies(env: Env, next0: nat) returns (next: nat)
      modifies this`enemies, this`explosions, this`particles, this`lives, this`sounds, this`gameOver, this`running
      ensures var r := CrashesFrom(old(State()), 0, env, next0);
        State() == r.state && next == r.next
    {
      next := next0;
      ghost var crash := CrashesFrom(State(), 0, env, next0);
      var index := 0;
      while index < |enemies|
        invariant var r := CrashesFrom(State(), index, env, next);
          r.state == crash.state && r.next == crash.next
        decreases |enemies| - index
      {
        var enemy := enemies[index];
        if (playerX as real) < enemy.x + enemy.width && (playerX as real) + (PlayerWidth as real) > enemy.x &&
           PlayerY < enemy.y + enemy.height && PlayerY + PlayerHeight > enemy.y
        {
          next := HitPlayer(index, env, next);
        }
        index := index + 1;
      }
    }

    /** The body of the player forEach on an overlap: the hit, then endGame
        once the lives are used up. */
    method HitPlayer(index: nat, env: Env, next0: nat) returns (next: nat)
      requires index < |enemies|
      modifies this`enemies, this`explosions, this`particles, this`lives, this`sounds, this`gameOver, this`running
      ensures State() == Crash(old(State()), index, env, next0)
      ensures next == next0 + CrashDraws
    {
      next := TakeHit(index, env, next0);
      if lives <= 0 {
        EndGame();
      }
    }

    /** The splice, the explosion, 20 particles, one life and the tone. */
    method TakeHit(index: nat, env: Env, next0: nat) returns (next: nat)
      requires index < |enemies|
      modifies this`enemies, this`explosions, this`particles, this`lives, this`sounds
      ensures State() == Struck(old(State()), index, env, next0)
      ensures next == next0 + CrashDraws
    {
      var enemy := enemies[index];
      enemies := RemoveAt(enemies, index);
      explosions := explosions + [Explosion(enemy.x + enemy.width / 2.0, enemy.y + enemy.height / 2.0,
                                            PlayerBlastRadius, 0, PlayerBlastFrames)];
      next := CreateParticles(enemy.x + enemy.width / 2.0, enemy.y + enemy.height / 2.0, PlayerHitColor, CrashSparks, env, next0);
      lives := lives - 1;
      sounds := sounds + [PlayerHitSound];
    }

    /** The state change inside drawExplosions: the forEach, then the filter. */
    method DrawExplosions(env: Env, next0: nat) returns (next: nat)
      modifies this`explosions, this`particles
      ensures var a := AgeExplosions(old(explosions), old(particles), env, next0);
        State() == old(State()).(explosions := a.explosions, particles := a.particles) && next == a.next
    {
      next := AgeEveryExplosion(env, next0);
      DropFinishedExplosions();
    }

    /** The forEach of drawExplosions: every explosion grows and advances one
        frame, sparking first on the frames Emits picks. */
    method AgeEveryExplosion(env: Env, next0: nat) returns (next: nat)
      modifies this`explosions, this`particles
      ensures var a := AgeFrom(old(explosions), old(particles), 0, env, next0);
        State() == old(State()).(explosions := a.explosions, particles := a.particles) && next == a.next
    {
      next := next0;
      var i := 0;
      while i < |explosions|
        invariant 0 <= i <= |explosions|
        invariant AgeFrom(explosions, particles, i, env, next) == AgeFrom(old(explosions), old(particles), 0, env, next0)
      {
        var explosion := explosions[i];
        ghost var step := AgeFrom(explosions, particles, i, env, next);
        if explosion.frame % 3 == 0 && (explosion.frame as real) < (explosion.maxFrame as real) * 0.7 {
          next := EmitSparks(explosion, env, next);
        }
        explosions := explosions[i := Grow(explosion)];
        assert AgeFrom(explosions, particles, i + 1, env, next) == step;
        i := i + 1;
      }
    }

    /** The sparks of one explosion frame: three particles around a point
        jittered by up to half the radius. */
    method EmitSparks(explosion: Explosion, env: Env, next0: nat) returns (next: nat)
      modifies this`particles
      ensures particles == old(particles) + Sparks(explosion, env, next0)
      ensures next == next0 + SparkDraws
    {
      var x := explosion.x + (env.random(next0) - 0.5) * explosion.radius;
      var y := explosion.y + (env.random(next0 + 1) - 0.5) * explosion.radius;
      assert x == Jitter(explosion.x, env.random(next0), explosion.radius);
      assert y == Jitter(explosion.y, env.random(next0 + 1), explosion.radius);
      next := CreateParticles(x, y, SparkColor, 3, env, next0 + 2);
    }

    /** The filter at the end of drawExplosions. */
    method DropFinishedExplosions()
      modifies this`explosions
      ensures State() == old(State()).(explosions := Filter(old(explosions), Unfinished))
    {
      var kept: seq<Explosion> := [];
      var j := 0;
      while j < |explosions|
        invariant 0 <= j <= |explosions|
        invariant kept == Filter(explosions[..j], Unfinished)
      {
        if explosions[j].frame < explosions[j].maxFrame {
          kept := kept + [explosions[j]];
        }
        assert explosions[..j + 1][..j] == explosions[..j];
        j := j + 1;
      }
      assert explosions[..j] == explosions;
      explosions := kept;
    }

    /** The state change inside updateAndDrawParticles. */
    method UpdateParticles()
      modifies this`particles
      ensures State() == old(State()).(particles := FadeAll(old(particles)))
    {
      var kept: seq<Particle> := [];
      var i := 0;
      while i < |particles|
        invariant 0 <= i <= |particles|
        invariant kept == FilterMap(particles[..i], Fade, Alive)
      {
        var particle := particles[i];
        particle := particle.(x := particle.x + particle.vx, y := particle.y + particle.vy,
                              life := particle.life - LifeStep);
        if particle.life > 0.0 {
          kept := kept + [particle];
        }
        assert particles[..i + 1][..i] == particles[..i];
        i := i + 1;
      }
      assert particles[..i] == particles;
      particles := kept;
    }

    /** updateGame(t): one frame. */
    method UpdateGame(t: real, env: Env)
      modifies this
      ensures State() == Tick(old(State()), t, env)
    {
      if !running || paused || gameOver {
        return;
      }
      SteerShip(t);
      var next := AdvanceWorld(t, env);
      DrawFrame(env, next);
    }

    /** Steps 1 to 3 of updateGame. */
    method SteerShip(t: real)
      modifies this`playerX, this`bullets, this`lastShot, this`sounds
      ensures State() == Steer(old(State()), t)
    {
      MoveShip();
      FireBullet(t);
      AdvanceBullets();
    }

    /** Steps 4 to 6 of updateGame, with the random draws counted from 0. */
    method AdvanceWorld(t: real, env: Env) returns (next: nat)
      modifies this`bullets, this`enemies, this`explosions, this`particles, this`score, this`sounds,
               this`lives, this`gameOver, this`running, this`enemySpawnTimer
      ensures var r := Advance(old(State()), t, env);
        State() == r.state && next == r.next
    {
      next := SpawnEnemy(t, env, 0);
      AdvanceEnemies();
      next := CheckCollisions(env, next);
    }

    /** The drawing calls at the end of updateGame, reduced to the state they
        change and the random draws they take. */
    method DrawFrame(env: Env, next0: nat)
      modifies this`stars, this`explosions, this`particles
      ensures State() == Redraw(old(State()), env, next0)
    {
      var next := DrawStarfield(env, next0);
      if running && !paused {
        next := next + 1;  // drawPlayer's engine flame takes one draw
      }
      next := DrawExplosions(env, next);
      UpdateParticles();
    }

    /** togglePause. */
    method TogglePause()
      modifies this`paused
      ensures State() == Rules.TogglePause(old(State()))
    {
      if !running || gameOver {
        return;
      }
      paused := !paused;
    }

    /** resetGame: the three flags, then drawGameScreen moves the stars. */
    method ResetGame(env: Env)
      modifies this`running, this`paused, this`gameOver, this`stars
      ensures State() == Reset(old(State()), env)
    {
      running := false;
      paused := false;
      gameOver := false;
      var next := DrawStarfield(env, 0);
    }
  }

  /** startGame: a no-op while a game is running; otherwise gameState is
      replaced by a new object that shares the old stars. */
  method StartGame(game: Game) returns (current: Game)
    ensures current.State() == Start(game.State())
    ensures game.running && !game.gameOver ==> current == game
    ensures !(game.running && !game.gameOver) ==> fresh(current)
  {
    if game.running && !game.gameOver {
      return game;
    }
    current := new Game.NewRound(game.stars, game.sounds);
  }

  /** The canvas click listener: (x, y) relative to the canvas. */
  method ClickCanvas(game: Game, x: real, y: real) returns (current: Game)
    ensures current.State() == Click(game.State(), x, y)
    ensures current == game || fresh(current)
  {
    current := game;
    if game.gameOver {
      if x >= (CanvasWidth as real) / 2.0 - 80.0 && x <= (CanvasWidth as real) / 2.0 + 80.0 &&
         y >= (CanvasHeight as real) / 2.0 + 30.0 && y <= (CanvasHeight as real) / 2.0 + 70.0
      {
        current := StartGame(game);
      }
    }
  }
}
