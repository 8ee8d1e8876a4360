/** What the rules promise: the bookkeeping of the collision scans, the
    effect of one tick on score, lives and the game-over flags, the invariant
    every handler keeps, and the places where the code behaves differently
    from what a reader of it might expect (the skipped enemy after a
    splice, the repeated game over, the ship overshooting the right edge,
    the long-lived enemies). */
module Properties {
  import opened Entities
  import opened Seqs
  import opened Effects
  import opened Rules

  // ------------------------------------------------ what a scan leaves behind

  /** The enemies shot down, in the order of the hits. */
  function HitEnemies(hits: seq<Hit>): (r: seq<Enemy>)
    ensures |r| == |hits|
  {
    if hits == [] then [] else [hits[0].enemy] + HitEnemies(hits[1..])
  }

  /** The explosions added by a run of bullet hits. */
  function Blasts(hits: seq<Hit>): (r: seq<Explosion>)
    ensures |r| == |hits|
  {
    if hits == [] then [] else [BulletBlast(hits[0].enemy)] + Blasts(hits[1..])
  }

  /** The particles added by a run of bullet hits, the first burst taking the
      draws from next on and each later one the next HitDraws. */
  function HitBursts(hits: seq<Hit>, env: Env, next: nat): seq<Particle> {
    if hits == [] then []
    else Burst(CenterX(hits[0].enemy), CenterY(hits[0].enemy), SparkColor, HitSparks, env, next)
         + HitBursts(hits[1..], env, next + HitDraws)
  }

  function Repeat(x: Sound, n: nat): (r: seq<Sound>)
    ensures |r| == n
  {
    if n == 0 then [] else [x] + Repeat(x, n - 1)
  }

  /** The explosions added by a run of player hits. */
  function PlayerBlasts(crashed: seq<Enemy>): (r: seq<Explosion>)
    ensures |r| == |crashed|
  {
    if crashed == [] then [] else [PlayerBlast(crashed[0])] + PlayerBlasts(crashed[1..])
  }

  /** The particles added by a run of player hits. */
  function CrashBursts(crashed: seq<Enemy>, env: Env, next: nat): seq<Particle> {
    if crashed == [] then []
    else Burst(CenterX(crashed[0]), CenterY(crashed[0]), PlayerHitColor, CrashSparks, env, next)
         + CrashBursts(crashed[1..], env, next + CrashDraws)
  }

  /** The tones of n player hits starting from the given lives: every hit plays
      the hit tone, and every hit that leaves no life also plays the game-over
      tone. */
  function CrashSounds(lives: int, n: nat): seq<Sound>
    decreases n
  {
    if n == 0 then []
    else [PlayerHitSound] + (if lives - 1 <= 0 then [GameOverSound] else []) + CrashSounds(lives - 1, n - 1)
  }

  lemma {:induction false} HitEnemiesAppend(a: seq<Hit>, b: seq<Hit>)
    ensures HitEnemies(a + b) == HitEnemies(a) + HitEnemies(b)
  {
    if a != [] {
      assert (a + b)[0] == a[0] && (a + b)[1..] == a[1..] + b;
      HitEnemiesAppend(a[1..], b);
    } else {
      assert a + b == b;
    }
  }

  lemma {:induction false} BlastsAppend(a: seq<Hit>, b: seq<Hit>)
    ensures Blasts(a + b) == Blasts(a) + Blasts(b)
  {
    if a != [] {
      assert (a + b)[0] == a[0] && (a + b)[1..] == a[1..] + b;
      BlastsAppend(a[1..], b);
    } else {
      assert a + b == b;
    }
  }

  /** The bursts of two runs of hits in a row: the second run's draws start
      where the first run's end. */
  lemma {:induction false} HitBurstsAppend(a: seq<Hit>, b: seq<Hit>, env: Env, next: nat)
    ensures HitBursts(a + b, env, next) == HitBursts(a, env, next) + HitBursts(b, env, next + HitDraws * |a|)
  {
    if a != [] {
      assert (a + b)[0] == a[0] && (a + b)[1..] == a[1..] + b;
      HitBurstsAppend(a[1..], b, env, next + HitDraws);
    } else {
      assert a + b == b;
    }
  }

  lemma RepeatAppend(x: Sound, m: nat, n: nat)
    ensures Repeat(x, m) + Repeat(x, n) == Repeat(x, m + n)
  {
    if m > 0 {
      RepeatAppend(x, m - 1, n);
    }
  }

  lemma MultisetStep<T>(rest: seq<T>, taken: seq<T>, mid: seq<T>, x: T, whole: seq<T>)
    requires multiset(rest) + multiset(taken) == multiset(mid)
    requires multiset(mid) + multiset{x} == multiset(whole)
    ensures multiset(rest) + multiset([x] + taken) == multiset(whole)
  {
  }

  lemma SpliceShrinks<T>(s: seq<T>, i: nat)
    ensures multiset(RemoveAt(s, i)) <= multiset(s)
  {
    if i < |s| {
      RemoveAtMultiset(s, i);
    }
  }

  // ---------------------------------------------------------- the bullet scan

  /** The inner forEach for one bullet changes only the bullets, enemies,
      explosions, particles, score and tones. */
  lemma {:induction false} EnemiesFromFrame(s: GameState, b: Bullet, bi: nat, ei: nat, env: Env, next: nat)
    ensures var r := EnemiesFrom(s, b, bi, ei, env, next);
      r.state == s.(bullets := r.state.bullets, enemies := r.state.enemies, explosions := r.state.explosions,
                    particles := r.state.particles, score := r.state.score, sounds := r.state.sounds)
    decreases |s.enemies| - ei
  {
    if ei < |s.enemies| {
      if Overlaps(BulletBox(b), EnemyBox(s.enemies[ei])) {
        EnemiesFromFrame(ShootDown(s, bi, ei, env, next), b, bi, ei + 1, env, next + HitDraws);
      } else {
        EnemiesFromFrame(s, b, bi, ei + 1, env, next);
      }
    }
  }

  /** Each hit of the inner forEach adds exactly 10 points and one hit tone. */
  lemma {:induction false} EnemiesFromTally(s: GameState, b: Bullet, bi: nat, ei: nat, env: Env, next: nat)
    ensures var r := EnemiesFrom(s, b, bi, ei, env, next);
      && r.state.score == s.score + HitPoints * |r.hits|
      && r.state.sounds == s.sounds + Repeat(HitSound, |r.hits|)
    decreases |s.enemies| - ei
  {
    if ei < |s.enemies| {
      if Overlaps(BulletBox(b), EnemyBox(s.enemies[ei])) {
        var s1 := ShootDown(s, bi, ei, env, next);
        EnemiesFromTally(s1, b, bi, ei + 1, env, next + HitDraws);
        var r1 := EnemiesFrom(s1, b, bi, ei + 1, env, next + HitDraws);
        RepeatAppend(HitSound, 1, |r1.hits|);
      } else {
        EnemiesFromTally(s, b, bi, ei + 1, env, next);
      }
    }
  }

  /** Each hit of the inner forEach takes exactly HitDraws random draws. */
  lemma {:induction false} EnemiesFromDraws(s: GameState, b: Bullet, bi: nat, ei: nat, env: Env, next: nat)
    ensures var r := EnemiesFrom(s, b, bi, ei, env, next); r.next == next + HitDraws * |r.hits|
    decreases |s.enemies| - ei
  {
    if ei < |s.enemies| {
      if Overlaps(BulletBox(b), EnemyBox(s.enemies[ei])) {
        EnemiesFromDraws(ShootDown(s, bi, ei, env, next), b, bi, ei + 1, env, next + HitDraws);
      } else {
        EnemiesFromDraws(s, b, bi, ei + 1, env, next);
      }
    }
  }

  /** The explosions of the inner forEach are exactly those of its hits, in
      the order of the hits. */
  lemma {:induction false} EnemiesFromBlasts(s: GameState, b: Bullet, bi: nat, ei: nat, env: Env, next: nat)
    ensures var r := EnemiesFrom(s, b, bi, ei, env, next);
      r.state.explosions == s.explosions + Blasts(r.hits)
    decreases |s.enemies| - ei
  {
    if ei < |s.enemies| {
      if Overlaps(BulletBox(b), EnemyBox(s.enemies[ei])) {
        var s1 := ShootDown(s, bi, ei, env, next);
        EnemiesFromBlasts(s1, b, bi, ei + 1, env, next + HitDraws);
        var r1 := EnemiesFrom(s1, b, bi, ei + 1, env, next + HitDraws);
        var hits := [Hit(b, s.enemies[ei])] + r1.hits;
        assert hits[0].enemy == s.enemies[ei] && hits[1..] == r1.hits;
      } else {
        EnemiesFromBlasts(s, b, bi, ei + 1, env, next);
      }
    }
  }

  /** The particles of the inner forEach are exactly the bursts of its hits,
      in the order of the hits. */
  lemma {:induction false} EnemiesFromBursts(s: GameState, b: Bullet, bi: nat, ei: nat, env: Env, next: nat)
    ensures var r := EnemiesFrom(s, b, bi, ei, env, next);
      r.state.particles == s.particles + HitBursts(r.hits, env, next)
    decreases |s.enemies| - ei
  {
    if ei < |s.enemies| {
      if Overlaps(BulletBox(b), EnemyBox(s.enemies[ei])) {
        var s1 := ShootDown(s, bi, ei, env, next);
        EnemiesFromBursts(s1, b, bi, ei + 1, env, next + HitDraws);
        var r1 := EnemiesFrom(s1, b, bi, ei + 1, env, next + HitDraws);
        var hits := [Hit(b, s.enemies[ei])] + r1.hits;
        assert hits[0].enemy == s.enemies[ei] && hits[1..] == r1.hits;
      } else {
        EnemiesFromBursts(s, b, bi, ei + 1, env, next);
      }
    }
  }

  /** No enemy is lost or made up by the inner forEach: the survivors and the
      enemies shot down are together the enemies it started with. */
  lemma {:induction false} EnemiesFromConserves(s: GameState, b: Bullet, bi: nat, ei: nat, env: Env, next: nat)
    ensures var r := EnemiesFrom(s, b, bi, ei, env, next);
      multiset(r.state.enemies) + multiset(HitEnemies(r.hits)) == multiset(s.enemies)
    decreases |s.enemies| - ei
  {
    if ei < |s.enemies| {
      if Overlaps(BulletBox(b), EnemyBox(s.enemies[ei])) {
        var e := s.enemies[ei];
        var s1 := ShootDown(s, bi, ei, env, next);
        assert s1.enemies == RemoveAt(s.enemies, ei);
        EnemiesFromConserves(s1, b, bi, ei + 1, env, next + HitDraws);
        var r1 := EnemiesFrom(s1, b, bi, ei + 1, env, next + HitDraws);
        var hits := [Hit(b, e)] + r1.hits;
        assert hits[0].enemy == e && hits[1..] == r1.hits;
        assert HitEnemies(hits) == [e] + HitEnemies(r1.hits);
        RemoveAtMultiset(s.enemies, ei);
        MultisetStep(r1.state.enemies, HitEnemies(r1.hits), s1.enemies, e, s.enemies);
      } else {
        EnemiesFromConserves(s, b, bi, ei + 1, env, next);
      }
    }
  }

  /** The inner forEach misses no overlap: it reports a hit exactly when some
      enemy from index ei on overlaps the bullet, and its first hit is the
      first such enemy. */
  lemma {:induction false} EnemiesFromFinds(s: GameState, b: Bullet, bi: nat, ei: nat, env: Env, next: nat)
    ensures var r := EnemiesFrom(s, b, bi, ei, env, next);
      && (r.hits == [] <==>
            forall k :: ei <= k < |s.enemies| ==> !Overlaps(BulletBox(b), EnemyBox(s.enemies[k])))
      && (r.hits != [] ==>
            exists j :: ei <= j < |s.enemies| && r.hits[0].enemy == s.enemies[j]
                        && Overlaps(BulletBox(b), EnemyBox(s.enemies[j]))
                        && forall k :: ei <= k < j ==> !Overlaps(BulletBox(b), EnemyBox(s.enemies[k])))
      && (r.hits == [] ==> r.state == s && r.next == next)
    decreases |s.enemies| - ei
  {
    if ei < |s.enemies| && !Overlaps(BulletBox(b), EnemyBox(s.enemies[ei])) {
      EnemiesFromFinds(s, b, bi, ei + 1, env, next);
    }
  }

  /** Every hit of the inner forEach is a real overlap with its bullet, and
      bullets are only ever removed. */
  lemma {:induction false} EnemiesFromOverlaps(s: GameState, b: Bullet, bi: nat, ei: nat, env: Env, next: nat)
    ensures var r := EnemiesFrom(s, b, bi, ei, env, next);
      && multiset(r.state.bullets) <= multiset(s.bullets)
      && (forall h :: h in r.hits ==> h.bullet == b && Overlaps(BulletBox(b), EnemyBox(h.enemy)))
    decreases |s.enemies| - ei
  {
    if ei < |s.enemies| {
      if Overlaps(BulletBox(b), EnemyBox(s.enemies[ei])) {
        var s1 := ShootDown(s, bi, ei, env, next);
        EnemiesFromOverlaps(s1, b, bi, ei + 1, env, next + HitDraws);
        SpliceShrinks(s.bullets, bi);
      } else {
        EnemiesFromOverlaps(s, b, bi, ei + 1, env, next);
      }
    }
  }

  /** The outer forEach over the bullets: the same bookkeeping as the inner
      one, summed over all bullets; lives, flags, the ship and the timers are
      left alone. */
  lemma {:induction false} BulletsFromCounts(s: GameState, bi: nat, env: Env, next: nat)
    ensures var r := BulletsFrom(s, bi, env, next);
      && r.state == s.(bullets := r.state.bullets, enemies := r.state.enemies, explosions := r.state.explosions,
                       particles := r.state.particles, score := r.state.score, sounds := r.state.sounds)
      && r.state.score == s.score + HitPoints * |r.hits|
      && r.state.sounds == s.sounds + Repeat(HitSound, |r.hits|)
      && r.next == next + HitDraws * |r.hits|
    decreases |s.bullets| - bi
  {
    if bi < |s.bullets| {
      var inner := EnemiesFrom(s, s.bullets[bi], bi, 0, env, next);
      EnemiesFromFrame(s, s.bullets[bi], bi, 0, env, next);
      EnemiesFromTally(s, s.bullets[bi], bi, 0, env, next);
      EnemiesFromDraws(s, s.bullets[bi], bi, 0, env, next);
      BulletsFromCounts(inner.state, bi + 1, env, inner.next);
      var r := BulletsFrom(inner.state, bi + 1, env, inner.next);
      RepeatAppend(HitSound, |inner.hits|, |r.hits|);
    }
  }

  lemma {:induction false} BulletsFromBlasts(s: GameState, bi: nat, env: Env, next: nat)
    ensures var r := BulletsFrom(s, bi, env, next);
      r.state.explosions == s.explosions + Blasts(r.hits)
    decreases |s.bullets| - bi
  {
    if bi < |s.bullets| {
      var inner := EnemiesFrom(s, s.bullets[bi], bi, 0, env, next);
      EnemiesFromBlasts(s, s.bullets[bi], bi, 0, env, next);
      BulletsFromBlasts(inner.state, bi + 1, env, inner.next);
      BlastsAppend(inner.hits, BulletsFrom(inner.state, bi + 1, env, inner.next).hits);
    }
  }

  lemma {:induction false} BulletsFromBursts(s: GameState, bi: nat, env: Env, next: nat)
    ensures var r := BulletsFrom(s, bi, env, next);
      r.state.particles == s.particles + HitBursts(r.hits, env, next)
    decreases |s.bullets| - bi
  {
    if bi < |s.bullets| {
      var inner := EnemiesFrom(s, s.bullets[bi], bi, 0, env, next);
      EnemiesFromBursts(s, s.bullets[bi], bi, 0, env, next);
      EnemiesFromDraws(s, s.bullets[bi], bi, 0, env, next);
      BulletsFromBursts(inner.state, bi + 1, env, inner.next);
      HitBurstsAppend(inner.hits, BulletsFrom(inner.state, bi + 1, env, inner.next).hits, env, next);
    }
  }

  /** Over the whole bullet scan no enemy is lost or made up, bullets are
      only removed, and every hit pairs one of the bullets with an enemy its
      box overlaps. */
  lemma {:induction false} BulletsFromConserves(s: GameState, bi: nat, env: Env, next: nat)
    ensures var r := BulletsFrom(s, bi, env, next);
      && multiset(r.state.enemies) + multiset(HitEnemies(r.hits)) == multiset(s.enemies)
      && multiset(r.state.bullets) <= multiset(s.bullets)
      && (forall h :: h in r.hits ==> h.bullet in s.bullets && Overlaps(BulletBox(h.bullet), EnemyBox(h.enemy)))
    decreases |s.bullets| - bi
  {
    if bi < |s.bullets| {
      var b := s.bullets[bi];
      var inner := EnemiesFrom(s, b, bi, 0, env, next);
      EnemiesFromConserves(s, b, bi, 0, env, next);
      EnemiesFromOverlaps(s, b, bi, 0, env, next);
      BulletsFromConserves(inner.state, bi + 1, env, inner.next);
      var r := BulletsFrom(inner.state, bi + 1, env, inner.next);
      HitEnemiesAppend(inner.hits, r.hits);
      forall h | h in r.hits
        ensures h.bullet in s.bullets
      {
        assert h.bullet in multiset(inner.state.bullets);
      }
    }
  }

  /** The bullet scan misses no overlap either: it reports no hit exactly
      when no bullet from index bi on overlaps any enemy, and then it changes
      nothing. */
  lemma {:induction false} BulletsFromFinds(s: GameState, bi: nat, env: Env, next: nat)
    ensures var r := BulletsFrom(s, bi, env, next);
      && (r.hits == [] <==>
            forall k, j :: bi <= k < |s.bullets| && 0 <= j < |s.enemies| ==>
              !Overlaps(BulletBox(s.bullets[k]), EnemyBox(s.enemies[j])))
      && (r.hits == [] ==> r.state == s && r.next == next)
    decreases |s.bullets| - bi
  {
    if bi < |s.bullets| {
      var inner := EnemiesFrom(s, s.bullets[bi], bi, 0, env, next);
      EnemiesFromFinds(s, s.bullets[bi], bi, 0, env, next);
      if inner.hits == [] {
        BulletsFromFinds(s, bi + 1, env, next);
      } else {
        var j :| 0 <= j < |s.enemies| && Overlaps(BulletBox(s.bullets[bi]), EnemyBox(s.enemies[j]));
      }
    }
  }

  // ---------------------------------------------------------- the crash scan

  /** One crash: a life less, the hit tone, and the end of the game when no
      life is left. */
  lemma CrashStep(s: GameState, ei: nat, env: Env, next: nat)
    requires ei < |s.enemies|
    ensures var c := Crash(s, ei, env, next);
      && c == s.(enemies := c.enemies, explosions := c.explosions, particles := c.particles,
                 lives := c.lives, sounds := c.sounds, gameOver := c.gameOver, running := c.running)
      && c.enemies == RemoveAt(s.enemies, ei)
      && c.explosions == s.explosions + [PlayerBlast(s.enemies[ei])]
      && c.lives == s.lives - 1
      && c.sounds == s.sounds + CrashSounds(s.lives, 1)
      && (c.gameOver <==> s.gameOver || c.lives <= 0)
      && (c.running <==> s.running && c.lives > 0)
  {
  }

  /** The forEach over the enemies against the ship changes only the
      enemies, explosions, particles, lives, tones and the game-over flags. */
  lemma {:induction false} CrashesFromFrame(s: GameState, ei: nat, env: Env, next: nat)
    ensures var r := CrashesFrom(s, ei, env, next);
      r.state == s.(enemies := r.state.enemies, explosions := r.state.explosions, particles := r.state.particles,
                    lives := r.state.lives, sounds := r.state.sounds,
                    gameOver := r.state.gameOver, running := r.state.running)
    decreases |s.enemies| - ei
  {
    if ei < |s.enemies| {
      if Overlaps(PlayerBox(s.playerX), EnemyBox(s.enemies[ei])) {
        CrashStep(s, ei, env, next);
        CrashesFromFrame(Crash(s, ei, env, next), ei + 1, env, next + CrashDraws);
      } else {
        CrashesFromFrame(s, ei + 1, env, next);
      }
    }
  }

  /** Each crash costs exactly one life and CrashDraws random draws. */
  lemma {:induction false} CrashesFromTally(s: GameState, ei: nat, env: Env, next: nat)
    ensures var r := CrashesFrom(s, ei, env, next);
      && r.state.lives == s.lives - |r.crashed|
      && r.next == next + CrashDraws * |r.crashed|
    decreases |s.enemies| - ei
  {
    if ei < |s.enemies| {
      if Overlaps(PlayerBox(s.playerX), EnemyBox(s.enemies[ei])) {
        CrashStep(s, ei, env, next);
        CrashesFromTally(Crash(s, ei, env, next), ei + 1, env, next + CrashDraws);
      } else {
        CrashesFromTally(s, ei + 1, env, next);
      }
    }
  }

  /** Every crash plays the hit tone and, when it leaves no life, the
      game-over tone as well. */
  lemma {:induction false} CrashesFromTones(s: GameState, ei: nat, env: Env, next: nat)
    ensures var r := CrashesFrom(s, ei, env, next);
      r.state.sounds == s.sounds + CrashSounds(s.lives, |r.crashed|)
    decreases |s.enemies| - ei
  {
    if ei < |s.enemies| {
      if Overlaps(PlayerBox(s.playerX), EnemyBox(s.enemies[ei])) {
        var s1 := Crash(s, ei, env, next);
        CrashStep(s, ei, env, next);
        CrashesFromTones(s1, ei + 1, env, next + CrashDraws);
        var r1 := CrashesFrom(s1, ei + 1, env, next + CrashDraws);
        assert CrashSounds(s.lives, 1 + |r1.crashed|)
            == CrashSounds(s.lives, 1) + CrashSounds(s1.lives, |r1.crashed|);
      } else {
        CrashesFromTones(s, ei + 1, env, next);
      }
    }
  }

  /** The game is over after the crash scan exactly when it was over before
      or some crash left no life, and it is running exactly when it was
      running before and no crash left no life. */
  lemma {:induction false} CrashesFromEnding(s: GameState, ei: nat, env: Env, next: nat)
    ensures var r := CrashesFrom(s, ei, env, next);
      && (r.state.gameOver <==> s.gameOver || (|r.crashed| > 0 && r.state.lives <= 0))
      && (r.state.running <==> s.running && !(|r.crashed| > 0 && r.state.lives <= 0))
    decreases |s.enemies| - ei
  {
    if ei < |s.enemies| {
      if Overlaps(PlayerBox(s.playerX), EnemyBox(s.enemies[ei])) {
        var s1 := Crash(s, ei, env, next);
        CrashStep(s, ei, env, next);
        CrashesFromEnding(s1, ei + 1, env, next + CrashDraws);
        CrashesFromTally(s1, ei + 1, env, next + CrashDraws);
      } else {
        CrashesFromEnding(s, ei + 1, env, next);
      }
    }
  }

  /** The explosions of the crash scan are exactly those of its crashes, in
      order. */
  lemma {:induction false} CrashesFromBlasts(s: GameState, ei: nat, env: Env, next: nat)
    ensures var r := CrashesFrom(s, ei, env, next);
      r.state.explosions == s.explosions + PlayerBlasts(r.crashed)
    decreases |s.enemies| - ei
  {
    if ei < |s.enemies| {
      var e := s.enemies[ei];
      if Overlaps(PlayerBox(s.playerX), EnemyBox(e)) {
        var s1 := Crash(s, ei, env, next);
        CrashStep(s, ei, env, next);
        CrashesFromBlasts(s1, ei + 1, env, next + CrashDraws);
        var r1 := CrashesFrom(s1, ei + 1, env, next + CrashDraws);
        var crashed := [e] + r1.crashed;
        assert crashed[0] == e && crashed[1..] == r1.crashed;
      } else {
        CrashesFromBlasts(s, ei + 1, env, next);
      }
    }
  }

  /** The particles of the crash scan are exactly the bursts of its crashes,
      20 red particles each, in order. */
  lemma {:induction false} CrashesFromBursts(s: GameState, ei: nat, env: Env, next: nat)
    ensures var r := CrashesFrom(s, ei, env, next);
      r.state.particles == s.particles + CrashBursts(r.crashed, env, next)
    decreases |s.enemies| - ei
  {
    if ei < |s.enemies| {
      var e := s.enemies[ei];
      if Overlaps(PlayerBox(s.playerX), EnemyBox(e)) {
        var s1 := Crash(s, ei, env, next);
        assert s1.particles == s.particles + Burst(CenterX(e), CenterY(e), PlayerHitColor, CrashSparks, env, next);
        CrashesFromBursts(s1, ei + 1, env, next + CrashDraws);
        var r1 := CrashesFrom(s1, ei + 1, env, next + CrashDraws);
        var crashed := [e] + r1.crashed;
        assert crashed[0] == e && crashed[1..] == r1.crashed;
      } else {
        CrashesFromBursts(s, ei + 1, env, next);
      }
    }
  }

  /** No enemy is lost or made up by the crash scan. */
  lemma {:induction false} CrashesFromConserves(s: GameState, ei: nat, env: Env, next: nat)
    ensures var r := CrashesFrom(s, ei, env, next);
      multiset(r.state.enemies) + multiset(r.crashed) == multiset(s.enemies)
    decreases |s.enemies| - ei
  {
    if ei < |s.enemies| {
      var e := s.enemies[ei];
      if Overlaps(PlayerBox(s.playerX), EnemyBox(e)) {
        var s1 := Crash(s, ei, env, next);
        CrashStep(s, ei, env, next);
        CrashesFromConserves(s1, ei + 1, env, next + CrashDraws);
        var r1 := CrashesFrom(s1, ei + 1, env, next + CrashDraws);
        RemoveAtMultiset(s.enemies, ei);
        MultisetStep(r1.state.enemies, r1.crashed, s1.enemies, e, s.enemies);
      } else {
        CrashesFromConserves(s, ei + 1, env, next);
      }
    }
  }

  /** The player forEach misses no overlap: it reports a crash exactly when
      some enemy from index ei on overlaps the ship, and its first crash is
      the first such enemy. */
  lemma {:induction false} CrashesFromFinds(s: GameState, ei: nat, env: Env, next: nat)
    ensures var r := CrashesFrom(s, ei, env, next);
      && (r.crashed == [] <==>
            forall k :: ei <= k < |s.enemies| ==> !Overlaps(PlayerBox(s.playerX), EnemyBox(s.enemies[k])))
      && (r.crashed != [] ==>
            exists j :: ei <= j < |s.enemies| && r.crashed[0] == s.enemies[j]
                        && Overlaps(PlayerBox(s.playerX), EnemyBox(s.enemies[j]))
                        && forall k :: ei <= k < j ==> !Overlaps(PlayerBox(s.playerX), EnemyBox(s.enemies[k])))
    decreases |s.enemies| - ei
  {
    if ei < |s.enemies| && !Overlaps(PlayerBox(s.playerX), EnemyBox(s.enemies[ei])) {
      CrashesFromFinds(s, ei + 1, env, next);
    }
  }

  /** Every enemy that hit the ship was one of the enemies and overlapped the
      ship's box. */
  lemma {:induction false} CrashesFromOverlaps(s: GameState, ei: nat, env: Env, next: nat)
    ensures var r := CrashesFrom(s, ei, env, next);
      forall e :: e in r.crashed ==> e in s.enemies && Overlaps(PlayerBox(s.playerX), EnemyBox(e))
    decreases |s.enemies| - ei
  {
    if ei < |s.enemies| {
      var e := s.enemies[ei];
      if Overlaps(PlayerBox(s.playerX), EnemyBox(e)) {
        var s1 := Crash(s, ei, env, next);
        CrashStep(s, ei, env, next);
        CrashesFromOverlaps(s1, ei + 1, env, next + CrashDraws);
        var r1 := CrashesFrom(s1, ei + 1, env, next + CrashDraws);
        forall c | c in r1.crashed
          ensures c in s.enemies
        {
          RemoveAtSubset(s.enemies, ei, c);
        }
      } else {
        CrashesFromOverlaps(s, ei + 1, env, next);
      }
    }
  }

  // -------------------------------------------------------------- one tick

  /** What updateGame hands to checkCollisions: the state after moving the
      ship, firing, flying the bullets, spawning and moving the enemies,
      with the number of draws used so far. */
  function BeforeCollisions(s: GameState, t: real, env: Env): Stepped {
    var spawned := Spawn(Steer(s, t), t, env, 0);
    Stepped(spawned.state.(enemies := MoveEnemies(spawned.state.enemies)), spawned.next)
  }

  /** The hits of the bullet scan of one tick. */
  function TickHits(s: GameState, t: real, env: Env): seq<Hit> {
    var m := BeforeCollisions(s, t, env);
    BulletsFrom(m.state, 0, env, m.next).hits
  }

  /** The enemies that hit the ship in one tick. */
  function TickCrashes(s: GameState, t: real, env: Env): seq<Enemy> {
    var m := BeforeCollisions(s, t, env);
    var shot := BulletsFrom(m.state, 0, env, m.next);
    CrashesFrom(shot.state, 0, env, shot.next).crashed
  }

  /** One running tick: the score grows by 10 per hit, a life goes per crash,
      and the game ends exactly when a crash left no life; the ship moves as
      the held keys say and the keys themselves are untouched. */
  lemma TickOutcome(s: GameState, t: real, env: Env)
    requires Active(s)
    ensures var r := Tick(s, t, env);
      && r.score == s.score + HitPoints * |TickHits(s, t, env)|
      && r.lives == s.lives - |TickCrashes(s, t, env)|
      && (r.gameOver <==> |TickCrashes(s, t, env)| > 0 && r.lives <= 0)
      && r.running == !r.gameOver
      && !r.paused
      && r.playerX == MovePlayerX(s.playerX, s.keys)
      && r.keys == s.keys
  {
    var m := BeforeCollisions(s, t, env);
    BulletsFromCounts(m.state, 0, env, m.next);
    var shot := BulletsFrom(m.state, 0, env, m.next);
    CrashesFromFrame(shot.state, 0, env, shot.next);
    CrashesFromTally(shot.state, 0, env, shot.next);
    CrashesFromEnding(shot.state, 0, env, shot.next);
  }

  /** Within a tick, the scans detect every collision there is once the
      ship, the bullets and the enemies have moved: no hit exactly when no
      bullet overlaps an enemy, and, in a tick without hits, no crash
      exactly when no enemy overlaps the ship. */
  lemma TickDetects(s: GameState, t: real, env: Env)
    ensures var m := BeforeCollisions(s, t, env).state;
      && (TickHits(s, t, env) == [] <==>
            forall k, j :: 0 <= k < |m.bullets| && 0 <= j < |m.enemies| ==>
              !Overlaps(BulletBox(m.bullets[k]), EnemyBox(m.enemies[j])))
      && (TickHits(s, t, env) == [] ==>
            (TickCrashes(s, t, env) == [] <==>
               forall j :: 0 <= j < |m.enemies| ==> !Overlaps(PlayerBox(m.playerX), EnemyBox(m.enemies[j]))))
  {
    var m := BeforeCollisions(s, t, env);
    BulletsFromFinds(m.state, 0, env, m.next);
    var shot := BulletsFrom(m.state, 0, env, m.next);
    CrashesFromFinds(shot.state, 0, env, shot.next);
  }

  /** A tick never lowers the score and always raises it by a multiple of
      10. */
  lemma TickScore(s: GameState, t: real, env: Env)
    ensures var r := Tick(s, t, env);
      r.score >= s.score && (r.score - s.score) % HitPoints == 0
  {
    if Active(s) {
      TickOutcome(s, t, env);
    }
  }

  /** A tick never gives a life back, and takes at most one life per enemy on
      the canvas plus the one it may spawn. */
  lemma TickLives(s: GameState, t: real, env: Env)
    ensures var r := Tick(s, t, env);
      s.lives - |s.enemies| - 1 <= r.lives <= s.lives
  {
    if Active(s) {
      TickOutcome(s, t, env);
      var m := BeforeCollisions(s, t, env);
      var shot := BulletsFrom(m.state, 0, env, m.next);
      BulletsFromConserves(m.state, 0, env, m.next);
      CrashesFromConserves(shot.state, 0, env, shot.next);
      var crash := CrashesFrom(shot.state, 0, env, shot.next);
      assert |crash.crashed| <= |shot.state.enemies| by {
        assert |multiset(crash.crashed)| <= |multiset(shot.state.enemies)|;
      }
      assert |shot.state.enemies| <= |m.state.enemies| by {
        assert |multiset(shot.state.enemies)| <= |multiset(m.state.enemies)|;
      }
    }
  }

  /** Tones are only ever added: what was played stays played. */
  lemma TickKeepsSounds(s: GameState, t: real, env: Env)
    ensures var r := Tick(s, t, env);
      |s.sounds| <= |r.sounds| && r.sounds[..|s.sounds|] == s.sounds
  {
    if Active(s) {
      var m := BeforeCollisions(s, t, env);
      BulletsFromCounts(m.state, 0, env, m.next);
      var shot := BulletsFrom(m.state, 0, env, m.next);
      CrashesFromTones(shot.state, 0, env, shot.next);
      var r := Tick(s, t, env);
      assert m.state.sounds[..|s.sounds|] == s.sounds;
      assert r.sounds == m.state.sounds + Repeat(HitSound, |shot.hits|)
                         + CrashSounds(shot.state.lives, |TickCrashes(s, t, env)|);
    }
  }

  // ------------------------------------------------------------ invariant

  /** The right-most x of the ship: 395 passes the guard x < 396 and moves
      on to 400, so the ship's right edge can sit 4 pixels off the canvas. */
  const MaxPlayerX: int := 400

  /** Holding either arrow key keeps the ship on the grid of multiples of 5
      between 0 and MaxPlayerX. */
  lemma ShipStaysInRange(x: int, keys: map<string, bool>)
    requires 0 <= x <= MaxPlayerX && x % PlayerSpeed == 0
    ensures var y := MovePlayerX(x, keys); 0 <= y <= MaxPlayerX && y % PlayerSpeed == 0
  {
  }

  /** What holds between any two events: the ship on its grid, the score a
      non-negative multiple of 10, at most three lives and at least one while
      running, the flag combinations startGame, togglePause and endGame allow,
      and every entity one its own filter would keep. */
  predicate Invariant(s: GameState) {
    && 0 <= s.playerX <= MaxPlayerX && s.playerX % PlayerSpeed == 0
    && s.score >= 0 && s.score % HitPoints == 0
    && s.lives <= StartLives
    && (s.paused ==> s.running)
    && (s.running ==> !s.gameOver && s.lives >= 1)
    && (forall b :: b in s.bullets ==> BulletOnScreen(b))
    && (forall e :: e in s.enemies ==> EnemyOnScreen(e))
    && (forall x :: x in s.explosions ==> Unfinished(x))
    && (forall p :: p in s.particles ==> Alive(p))
    && (forall k :: 0 <= k < |s.stars| ==> InBand(s.stars[k]))
  }

  /** The state at load time satisfies the invariant, given a Math.random()
      in [0, 1). */
  lemma InitialInvariant(env: Env)
    requires UnitRandom(env)
    ensures Invariant(Initial(env))
  {
    var made := InitialStars(env);
    forall k | 0 <= k < |made|
      ensures InBand(made[k])
    {
      NewStarRanges(env, k);
    }
    StarsFromKeepsBand(made, 0, env, 5 * StarCount);
    var sky := StarsFrom(made, 0, env, 5 * StarCount);
    StarsFromKeepsBand(sky.stars, 0, env, sky.next);
  }

  /** Survivors of the two scans were on screen before them. */
  lemma CollideKeepsScreen(s: GameState, env: Env, next: nat)
    requires forall b :: b in s.bullets ==> BulletOnScreen(b)
    requires forall e :: e in s.enemies ==> EnemyOnScreen(e)
    ensures var r := Collide(s, env, next).state;
      && (forall b :: b in r.bullets ==> BulletOnScreen(b))
      && (forall e :: e in r.enemies ==> EnemyOnScreen(e))
  {
    BulletsFromConserves(s, 0, env, next);
    var shot := BulletsFrom(s, 0, env, next);
    CrashesFromFrame(shot.state, 0, env, shot.next);
    CrashesFromTally(shot.state, 0, env, shot.next);
    CrashesFromConserves(shot.state, 0, env, shot.next);
    var r := Collide(s, env, next).state;
    forall b | b in r.bullets
      ensures BulletOnScreen(b)
    {
      assert b in multiset(shot.state.bullets);
    }
    forall e | e in r.enemies
      ensures EnemyOnScreen(e)
    {
      assert e in multiset(shot.state.enemies);
      assert e in multiset(s.enemies);
    }
  }

  /** updateGame keeps the invariant. */
  lemma TickInvariant(s: GameState, t: real, env: Env)
    requires Invariant(s)
    ensures Invariant(Tick(s, t, env))
  {
    if Active(s) {
      TickOutcome(s, t, env);
      TickScore(s, t, env);
      TickLives(s, t, env);
      ShipStaysInRange(s.playerX, s.keys);
      var m := BeforeCollisions(s, t, env);
      CollideKeepsScreen(m.state, env, m.next);
      var hit := Collide(m.state, env, m.next);
      BulletsFromCounts(m.state, 0, env, m.next);
      var shot := BulletsFrom(m.state, 0, env, m.next);
      CrashesFromFrame(shot.state, 0, env, shot.next);
      CrashesFromTally(shot.state, 0, env, shot.next);
      assert hit.state.stars == s.stars;
      StarsFromKeepsBand(hit.state.stars, 0, env, hit.next);
    }
  }

  /** startGame keeps the invariant. */
  lemma StartInvariant(s: GameState)
    requires Invariant(s)
    ensures Invariant(Start(s))
  {
  }

  /** togglePause keeps the invariant. */
  lemma TogglePauseInvariant(s: GameState)
    requires Invariant(s)
    ensures Invariant(TogglePause(s))
  {
  }

  /** resetGame keeps the invariant. */
  lemma ResetInvariant(s: GameState, env: Env)
    requires Invariant(s)
    ensures Invariant(Reset(s, env))
  {
    StarsFromKeepsBand(s.stars, 0, env, 0);
  }

  /** The key handlers and the canvas click keep the invariant. */
  lemma InputInvariant(s: GameState, key: string, x: real, y: real)
    requires Invariant(s)
    ensures Invariant(KeyDown(s, key)) && Invariant(KeyUp(s, key)) && Invariant(Click(s, x, y))
  {
  }

  // ------------------------------------------------- behaviours of the code

  /** Two bullets over three overlapping enemies: splicing inside the forEach
      makes the first bullet take down the first and the third enemy and, on
      its second hit, remove the other bullet, which never hits anything; the
      second enemy moves into the slot just visited, is skipped and survives
      although both bullets overlap it. */
  lemma SpliceSkipsEnemy(s: GameState, env: Env, next: nat)
    requires s.bullets == [Bullet(110.0, 110.0, 8.0, 15.0, 8.0), Bullet(120.0, 110.0, 8.0, 15.0, 8.0)]
    requires s.enemies == [Enemy(100.0, 100.0, 40.0, 40.0, 2.0), Enemy(101.0, 100.0, 40.0, 40.0, 2.0),
                           Enemy(102.0, 100.0, 40.0, 40.0, 2.0)]
    ensures var r := BulletsFrom(s, 0, env, next);
      && r.state.bullets == [] && r.state.enemies == [s.enemies[1]]
      && r.state.score == s.score + 2 * HitPoints
      && r.hits == [Hit(s.bullets[0], s.enemies[0]), Hit(s.bullets[0], s.enemies[2])]
  {
    var b := s.bullets[0];
    var s1 := ShootDown(s, 0, 0, env, next);
    assert s1.bullets == [s.bullets[1]] && s1.enemies == [s.enemies[1], s.enemies[2]];
    var s2 := ShootDown(s1, 0, 1, env, next + HitDraws);
    assert s2.bullets == [] && s2.enemies == [s.enemies[1]];
    assert EnemiesFrom(s2, b, 0, 2, env, next + 2 * HitDraws).hits == [];
    assert EnemiesFrom(s1, b, 0, 1, env, next + HitDraws).state == s2;
    assert EnemiesFrom(s, b, 0, 0, env, next).state == s2;
  }

  /** With one life left and three enemies on the ship, the first crash ends
      the game, the forEach goes on, a second crash takes lives below zero
      and plays the game-over tone a second time; the second enemy moves into
      the slot the first one left, is skipped by the scan and survives. */
  lemma GameOverRepeats(s: GameState, env: Env, next: nat)
    requires s.lives == 1 && s.playerX == PlayerStartX
    requires s.enemies == [Enemy(200.0, 600.0, 40.0, 40.0, 2.0), Enemy(210.0, 600.0, 40.0, 40.0, 2.0),
                           Enemy(220.0, 600.0, 40.0, 40.0, 2.0)]
    ensures var r := CrashesFrom(s, 0, env, next);
      && r.state.lives == -1 && r.state.gameOver && !r.state.running
      && r.state.enemies == [s.enemies[1]] && r.crashed == [s.enemies[0], s.enemies[2]]
      && r.state.sounds == s.sounds + [PlayerHitSound, GameOverSound, PlayerHitSound, GameOverSound]
  {
    var s1 := Crash(s, 0, env, next);
    assert s1.enemies == [s.enemies[1], s.enemies[2]];
    var s2 := Crash(s1, 1, env, next + CrashDraws);
    assert s2.enemies == [s.enemies[1]];
    assert CrashesFrom(s2, 2, env, next + 2 * CrashDraws).crashed == [];
    assert CrashesFrom(s1, 1, env, next + CrashDraws).state == s2;
    assert CrashesFrom(s, 0, env, next).state == s2;
  }

  function DescendTimes(e: Enemy, k: nat): Enemy
    decreases k
  {
    if k == 0 then e else Descend(DescendTimes(e, k - 1))
  }

  /** An enemy keeps its place in the list while its top edge is above
      CanvasHeight + its height: one spawned at y = -40 with the slowest speed
      2 survives 399 moves and is dropped by the 400th, long after it has
      left the 720-pixel canvas. */
  lemma {:induction false} EnemyLifetime(e: Enemy, k: nat)
    ensures DescendTimes(e, k) == e.(y := e.y + (k as real) * e.speed)
    ensures e.y == -40.0 && e.height == 40.0 && e.speed == 2.0 ==>
      (EnemyOnScreen(DescendTimes(e, k)) <==> k < 400)
  {
    if k > 0 {
      EnemyLifetime(e, k - 1);
    }
  }

  /** The ship after k ticks with only the right arrow held. */
  function HoldRight(x: int, k: nat): int
    decreases k
  {
    if k == 0 then x else MovePlayerX(HoldRight(x, k - 1), map["ArrowRight" := true])
  }

  /** From the start position, holding the right arrow moves the ship 5 pixels
      a tick until it stops at 400, where its right edge is past the canvas. */
  lemma {:induction false} ShipOvershoots(k: nat)
    ensures HoldRight(PlayerStartX, k) == if 200 + 5 * k < MaxPlayerX then 200 + 5 * k else MaxPlayerX
    ensures MaxPlayerX + PlayerWidth > CanvasWidth
  {
    if k > 0 {
      ShipOvershoots(k - 1);
    }
  }

  /** A spawn appends one 40 x 40 enemy just above the canvas, fully inside it
      horizontally and with speed in [2, 4), takes two draws and restarts the
      spawn timer; the next spawn then waits for another full interval. */
  lemma SpawnOutcome(s: GameState, t: real, env: Env, next: nat, t2: real)
    requires UnitRandom(env) && SpawnDue(s, t)
    ensures var r := Spawn(s, t, env, next);
      && r.next == next + 2 && r.state.enemySpawnTimer == t
      && |r.state.enemies| == |s.enemies| + 1 && r.state.enemies[..|s.enemies|] == s.enemies
      && (SpawnDue(r.state, t2) <==> t2 - t > EnemySpawnInterval)
      && var e := r.state.enemies[|s.enemies|];
         && e.width == 40.0 && e.height == 40.0 && e.y == -40.0
         && 0.0 <= e.x && e.x + e.width <= CanvasWidth as real
         && 2.0 <= e.speed < 4.0 && EnemyOnScreen(e)
  {
    assert 0.0 <= env.random(next) < 1.0;
    assert 0.0 <= env.random(next + 1) < 1.0;
  }

  /** After a shot at t1 the next shot needs the space key and more than
      250 ms: two shots are always more than the cooldown apart. */
  lemma ShotsSpaced(s: GameState, t1: real, t2: real)
    requires ShotReady(s, t1)
    ensures var fired := Fire(s, t1);
      && |fired.bullets| == |s.bullets| + 1 && fired.lastShot == t1
      && (ShotReady(fired, t2) <==> Held(s.keys, " ") && t2 - t1 > ShotCooldown)
  {
  }

  /** togglePause twice gives back the state it started from. */
  lemma TogglePauseTwice(s: GameState)
    ensures TogglePause(TogglePause(s)) == s
  {
  }

  /** Nothing moves while the game is paused, over or not started. */
  lemma TickFrozen(s: GameState, t: real, env: Env)
    requires !Active(s)
    ensures Tick(s, t, env) == s
  {
  }
}
