/** The records of the preview shooter in js/main.js, its fixed constants, and
    the axis-aligned rectangle test used for every collision. */
module Entities {

  /** The canvas is 460 x 720 (set by initCanvas). */
  const CanvasWidth: int := 460
  const CanvasHeight: int := 720

  /** The player ship: it starts at x = 200 and only ever moves by PlayerSpeed,
      so its x is kept as an integer; y, width, height and speed never change. */
  const PlayerStartX: int := 200
  const PlayerY: real := 600.0
  const PlayerWidth: int := 64
  const PlayerHeight: real := 64.0
  const PlayerSpeed: int := 5

  const StartLives: int := 3
  const ShotCooldown: real := 250.0
  const EnemySpawnInterval: real := 2000.0

  /** Points for shooting down one enemy. */
  const HitPoints: int := 10

  datatype Rect = Rect(x: real, y: real, w: real, h: real)

  /** The strict overlap test written out in checkCollisions. */
  predicate Overlaps(a: Rect, b: Rect) {
    a.x < b.x + b.w && a.x + a.w > b.x && a.y < b.y + b.h && a.y + a.h > b.y
  }

  /** (px, py) lies strictly inside r. */
  ghost predicate Inside(r: Rect, px: real, py: real) {
    r.x < px < r.x + r.w && r.y < py < r.y + r.h
  }

  ghost predicate ShareInteriorPoint(a: Rect, b: Rect) {
    exists px: real, py: real :: Inside(a, px, py) && Inside(b, px, py)
  }

  function Max(a: real, b: real): real { if a < b then b else a }
  function Min(a: real, b: real): real { if a < b then a else b }

  /** For rectangles of positive size, the strict test holds exactly when the
      two open rectangles have a point in common. */
  lemma OverlapsIffCommonPoint(a: Rect, b: Rect)
    requires a.w > 0.0 && a.h > 0.0 && b.w > 0.0 && b.h > 0.0
    ensures Overlaps(a, b) <==> ShareInteriorPoint(a, b)
  {
    if Overlaps(a, b) {
      var px := (Max(a.x, b.x) + Min(a.x + a.w, b.x + b.w)) / 2.0;
      var py := (Max(a.y, b.y) + Min(a.y + a.h, b.y + b.h)) / 2.0;
      assert Inside(a, px, py) && Inside(b, px, py);
    }
    if ShareInteriorPoint(a, b) {
      var px: real, py: real :| Inside(a, px, py) && Inside(b, px, py);
      assert Overlaps(a, b);
    }
  }

  /** Rectangles that only touch along an edge never collide. */
  lemma TouchingNeverOverlaps(a: Rect, b: Rect)
    requires a.x + a.w == b.x || b.x + b.w == a.x || a.y + a.h == b.y || b.y + b.h == a.y
    ensures !Overlaps(a, b)
  {
  }

  /** The test does not depend on which rectangle comes first. */
  lemma OverlapsSymmetric(a: Rect, b: Rect)
    ensures Overlaps(a, b) <==> Overlaps(b, a)
  {
  }

  datatype Bullet = Bullet(x: real, y: real, width: real, height: real, speed: real)
  datatype Enemy = Enemy(x: real, y: real, width: real, height: real, speed: real)
  datatype Explosion = Explosion(x: real, y: real, radius: real, frame: int, maxFrame: int)
  datatype Particle = Particle(x: real, y: real, vx: real, vy: real, size: real, color: string, life: real)
  datatype Star = Star(x: real, y: real, size: real, speed: real, opacity: real)

  function BulletBox(b: Bullet): Rect { Rect(b.x, b.y, b.width, b.height) }
  function EnemyBox(e: Enemy): Rect { Rect(e.x, e.y, e.width, e.height) }
  function PlayerBox(x: int): Rect { Rect(x as real, PlayerY, PlayerWidth as real, PlayerHeight) }

  /** The tones playSound is asked for: shot, enemy hit, player hit, game over. */
  datatype Sound = ShotSound | HitSound | PlayerHitSound | GameOverSound

  /** What the host supplies: random(k) is the value of the k-th Math.random()
      call of one operation, and cos(i, n), sin(i, n) are Math.cos and Math.sin
      of the angle 2 * PI * i / n. */
  datatype Env = Env(random: nat -> real, cos: (nat, nat) -> real, sin: (nat, nat) -> real)

  /** Math.random() returns values in [0, 1). */
  ghost predicate UnitRandom(env: Env) {
    forall k: nat :: 0.0 <= env.random(k) < 1.0
  }

  /** `gameState.keys[key]` is truthy: a keydown for it came after any keyup. */
  predicate Held(keys: map<string, bool>, key: string) {
    key in keys && keys[key]
  }
}
