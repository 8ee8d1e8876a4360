/** The visual effects whose state lives in gameState: particles
    (createParticles, updateAndDrawParticles), explosions (the aging part of
    drawExplosions) and the background stars (initStarfield, drawStarfield). */
module Effects {
  import opened Entities
  import opened Seqs

  const SparkColor: string := "#ff9f1c"
  const PlayerHitColor: string := "#e63946"

  /** Life lost by a particle on every pass of updateAndDrawParticles. */
  const LifeStep: real := 0.02

  // ---------------------------------------------------------------- particles

  /** The i-th particle of createParticles(x, y, color, count): its speed and
      size are the random draws next + 2i and next + 2i + 1. */
  function NewParticle(x: real, y: real, color: string, count: nat, i: nat, env: Env, next: nat): Particle {
    var speed := env.random(next + 2 * i) * 3.0 + 1.0;
    Particle(x, y, env.cos(i, count) * speed, env.sin(i, count) * speed,
             env.random(next + 2 * i + 1) * 3.0 + 1.0, color, 1.0)
  }

  /** All particles pushed by createParticles(x, y, color, count), the i-th
      one made in round i of its loop; it uses the 2 * count random draws
      from next on. */
  function Burst(x: real, y: real, color: string, count: nat, env: Env, next: nat): (r: seq<Particle>)
    ensures |r| == count
    ensures forall i :: 0 <= i < count ==> r[i] == NewParticle(x, y, color, count, i, env, next)
  {
    seq(count, i requires 0 <= i => NewParticle(x, y, color, count, i, env, next))
  }

  /** createParticles adds exactly count particles, all at (x, y), in the given
      colour and at full life. */
  lemma BurstShape(x: real, y: real, color: string, count: nat, env: Env, next: nat)
    ensures |Burst(x, y, color, count, env, next)| == count
    ensures forall p :: p in Burst(x, y, color, count, env, next) ==>
              p.x == x && p.y == y && p.color == color && p.life == 1.0
  {
  }

  /** One pass of updateAndDrawParticles over one particle. */
  function Fade(p: Particle): Particle {
    p.(x := p.x + p.vx, y := p.y + p.vy, life := p.life - LifeStep)
  }

  predicate Alive(p: Particle) { p.life > 0.0 }

  /** updateAndDrawParticles: move, fade, keep the particles still alive. */
  function FadeAll(ps: seq<Particle>): seq<Particle> {
    FilterMap(ps, Fade, Alive)
  }

  function FadeTimes(p: Particle, k: nat): Particle
    decreases k
  {
    if k == 0 then p else Fade(FadeTimes(p, k - 1))
  }

  /** After k passes a particle has moved k times its velocity and lost k life steps. */
  lemma {:induction false} FadeTimesMotion(p: Particle, k: nat)
    ensures FadeTimes(p, k) == p.(x := p.x + (k as real) * p.vx, y := p.y + (k as real) * p.vy,
                                  life := p.life - (k as real) * LifeStep)
  {
    if k > 0 {
      FadeTimesMotion(p, k - 1);
    }
  }

  /** A particle born at life 1.0 is still alive after exactly the first 49
      passes and is dropped by the 50th. */
  lemma ParticleLifetime(p: Particle, k: nat)
    requires p.life == 1.0
    ensures Alive(FadeTimes(p, k)) <==> k < 50
  {
    FadeTimesMotion(p, k);
  }

  // --------------------------------------------------------------- explosions

  const BulletBlastRadius: real := 10.0
  const BulletBlastFrames: int := 20
  const PlayerBlastRadius: real := 20.0
  const PlayerBlastFrames: int := 30

  /** Random draws used by one spark burst: two for the jitter, two per particle. */
  const SparkDraws: nat := 8

  /** drawExplosions adds sparks on every third frame during the first 70% of the
      explosion. */
  predicate Emits(e: Explosion) {
    e.frame % 3 == 0 && (e.frame as real) < (e.maxFrame as real) * 0.7
  }

  function Grow(e: Explosion): Explosion {
    e.(radius := e.radius + 2.0, frame := e.frame + 1)
  }

  predicate Unfinished(e: Explosion) { e.frame < e.maxFrame }

  /** The three particles of a spark burst, around a point jittered by the
      draws next and next + 1. */
  function Sparks(e: Explosion, env: Env, next: nat): seq<Particle> {
    Burst(Jitter(e.x, env.random(next), e.radius), Jitter(e.y, env.random(next + 1), e.radius),
          SparkColor, 3, env, next + 2)
  }

  /** A coordinate moved by up to half the radius either way, for a draw r in [0, 1). */
  function Jitter(c: real, r: real, radius: real): real {
    c + (r - 0.5) * radius
  }

  datatype Aging = Aging(explosions: seq<Explosion>, particles: seq<Particle>, next: nat)

  /** The forEach of drawExplosions from index i on. */
  function AgeFrom(exps: seq<Explosion>, parts: seq<Particle>, i: nat, env: Env, next: nat): Aging
    decreases |exps| - i
  {
    if i >= |exps| then Aging(exps, parts, next)
    else if Emits(exps[i]) then
      AgeFrom(exps[i := Grow(exps[i])], parts + Sparks(exps[i], env, next), i + 1, env, next + SparkDraws)
    else
      AgeFrom(exps[i := Grow(exps[i])], parts, i + 1, env, next)
  }

  /** drawExplosions: age every explosion, then drop the finished ones. */
  function AgeExplosions(exps: seq<Explosion>, parts: seq<Particle>, env: Env, next: nat): Aging {
    var a := AgeFrom(exps, parts, 0, env, next);
    a.(explosions := Filter(a.explosions, Unfinished))
  }

  /** How many explosions from index i on emit sparks this frame. */
  function EmitCount(exps: seq<Explosion>, i: nat): nat
    decreases |exps| - i
  {
    if i >= |exps| then 0 else (if Emits(exps[i]) then 1 else 0) + EmitCount(exps, i + 1)
  }

  /** Replacing an explosion the loop has already passed does not change the
      count of those still to come. */
  lemma {:induction false} EmitCountPast(exps: seq<Explosion>, j: nat, x: Explosion, i: nat)
    requires j < i && j < |exps|
    ensures EmitCount(exps[j := x], i) == EmitCount(exps, i)
    decreases |exps| - i
  {
    if i < |exps| {
      EmitCountPast(exps, j, x, i + 1);
    }
  }

  /** The forEach grows every explosion not yet visited, appends three
      full-life particles for each one that emits and none for the others,
      and uses SparkDraws draws per emitting explosion. */
  lemma {:induction false} AgeFromEffect(exps: seq<Explosion>, parts: seq<Particle>, i: nat, env: Env, next: nat)
    ensures var a := AgeFrom(exps, parts, i, env, next);
      && |a.explosions| == |exps|
      && (forall k :: 0 <= k < i && k < |exps| ==> a.explosions[k] == exps[k])
      && (forall k :: i <= k < |exps| ==> a.explosions[k] == Grow(exps[k]))
      && |parts| <= |a.particles| && a.particles[..|parts|] == parts
      && (forall k :: |parts| <= k < |a.particles| ==> a.particles[k].life == 1.0)
      && |a.particles| == |parts| + 3 * EmitCount(exps, i)
      && a.next == next + SparkDraws * EmitCount(exps, i)
    decreases |exps| - i
  {
    if i < |exps| {
      var grown := exps[i := Grow(exps[i])];
      EmitCountPast(exps, i, Grow(exps[i]), i + 1);
      if Emits(exps[i]) {
        var more := parts + Sparks(exps[i], env, next);
        BurstShape(Jitter(exps[i].x, env.random(next), exps[i].radius),
                   Jitter(exps[i].y, env.random(next + 1), exps[i].radius), SparkColor, 3, env, next + 2);
        AgeFromEffect(grown, more, i + 1, env, next + SparkDraws);
        var a := AgeFrom(grown, more, i + 1, env, next + SparkDraws);
        assert a.particles[..|more|] == more;
        assert a.particles[..|parts|] == more[..|parts|];
        forall k | |parts| <= k < |a.particles|
          ensures a.particles[k].life == 1.0
        {
          if k < |more| {
            assert a.particles[k] == more[k];
            assert more[k] in Sparks(exps[i], env, next);
          }
        }
      } else {
        AgeFromEffect(grown, parts, i + 1, env, next);
      }
    }
  }

  function GrowTimes(e: Explosion, k: nat): Explosion
    decreases k
  {
    if k == 0 then e else Grow(GrowTimes(e, k - 1))
  }

  /** After k passes the frame counter has advanced by k and the radius by 2k. */
  lemma {:induction false} GrowTimesShape(e: Explosion, k: nat)
    ensures GrowTimes(e, k) == e.(radius := e.radius + 2.0 * (k as real), frame := e.frame + k)
  {
    if k > 0 {
      GrowTimesShape(e, k - 1);
    }
  }

  /** A fresh explosion survives the filter of the k-th pass exactly when
      k < maxFrame, its radius then being the initial one plus 2k. */
  lemma ExplosionLifetime(e: Explosion, k: nat)
    requires e.frame == 0
    ensures Unfinished(GrowTimes(e, k)) <==> k < e.maxFrame
    ensures GrowTimes(e, k).radius == e.radius + 2.0 * (k as real)
  {
    GrowTimesShape(e, k);
  }

  /** A bullet explosion (20 frames) sparks on frames 0, 3, 6, 9 and 12; a
      player explosion (30 frames) on frames 0, 3, ..., 18. */
  lemma SparkFrames(e: Explosion)
    requires 0 <= e.frame
    ensures e.maxFrame == BulletBlastFrames ==>
              (Emits(e) <==> e.frame in {0, 3, 6, 9, 12})
    ensures e.maxFrame == PlayerBlastFrames ==>
              (Emits(e) <==> e.frame in {0, 3, 6, 9, 12, 15, 18})
  {
  }

  // -------------------------------------------------------------------- stars

  /** The star made by the i-th round of initStarfield's loop (draws 5i .. 5i+4). */
  function NewStar(env: Env, i: nat): Star {
    Star(env.random(5 * i) * (CanvasWidth as real), env.random(5 * i + 1) * (CanvasHeight as real),
         env.random(5 * i + 2) * 2.0 + 0.5, env.random(5 * i + 3) * 1.0 + 0.5,
         env.random(5 * i + 4) * 0.8 + 0.2)
  }

  const StarCount: nat := 100

  /** The stars initStarfield pushes, in order. */
  function InitialStars(env: Env): (r: seq<Star>)
    ensures |r| == StarCount
    ensures forall j :: 0 <= j < StarCount ==> r[j] == NewStar(env, j)
  {
    seq(StarCount, j requires 0 <= j => NewStar(env, j))
  }

  /** With Math.random() in [0, 1), a new star lies on the canvas and its size,
      speed and opacity lie in [0.5, 2.5), [0.5, 1.5) and [0.2, 1.0). */
  lemma NewStarRanges(env: Env, i: nat)
    requires UnitRandom(env)
    ensures var s := NewStar(env, i);
      && 0.0 <= s.x < CanvasWidth as real && 0.0 <= s.y < CanvasHeight as real
      && 0.5 <= s.size < 2.5 && 0.5 <= s.speed < 1.5 && 0.2 <= s.opacity < 1.0
  {
    assert 0.0 <= env.random(5 * i) < 1.0;
    assert 0.0 <= env.random(5 * i + 1) < 1.0;
    assert 0.0 <= env.random(5 * i + 2) < 1.0;
    assert 0.0 <= env.random(5 * i + 3) < 1.0;
    assert 0.0 <= env.random(5 * i + 4) < 1.0;
  }

  /** A star that moves below the canvas wraps to the top at a new random x. */
  predicate Wraps(st: Star) { st.y + st.speed > CanvasHeight as real }

  function StarStep(st: Star, r: real): Star {
    if Wraps(st) then st.(y := 0.0, x := r * (CanvasWidth as real)) else st.(y := st.y + st.speed)
  }

  datatype Starfield = Starfield(stars: seq<Star>, next: nat)

  /** The forEach of drawStarfield from index i on; each wrap takes one draw. */
  function StarsFrom(stars: seq<Star>, i: nat, env: Env, next: nat): Starfield
    decreases |stars| - i
  {
    if i >= |stars| then Starfield(stars, next)
    else StarsFrom(stars[i := StarStep(stars[i], env.random(next))], i + 1, env,
                   if Wraps(stars[i]) then next + 1 else next)
  }

  /** A star between the top and the bottom of the canvas. */
  predicate InBand(st: Star) {
    0.0 <= st.y <= CanvasHeight as real && st.speed >= 0.0
  }

  /** drawStarfield never destroys a star, changes only positions, and keeps
      every star of non-negative speed between the top and the bottom edge. */
  lemma {:induction false} StarsFromKeepsBand(stars: seq<Star>, i: nat, env: Env, next: nat)
    ensures var r := StarsFrom(stars, i, env, next).stars;
      && |r| == |stars|
      && (forall k :: 0 <= k < |stars| ==> r[k].size == stars[k].size && r[k].speed == stars[k].speed
                                           && r[k].opacity == stars[k].opacity)
      && (forall k :: 0 <= k < |stars| && InBand(stars[k]) ==> InBand(r[k]))
    decreases |stars| - i
  {
    if i < |stars| {
      StarsFromKeepsBand(stars[i := StarStep(stars[i], env.random(next))], i + 1, env,
                         if Wraps(stars[i]) then next + 1 else next);
    }
  }
}
