/** The value entities of the playfield and their per-frame updates.
    Positions are exact reals; the drawing scale factor is fixed at 1. */
module Entities {

  /** A bullet: its centre point and a signed vertical speed (negative moves up). */
  datatype Bullet = Bullet(x: real, y: real, speed: real)

  /** An enemy rectangle; `kind` is 0 or 1 and only chooses the colour. */
  datatype Enemy = Enemy(x: real, y: real, width: real, height: real, kind: nat)

  /** The only power-up kind the game drops. */
  datatype PowerUpKind = Double

  datatype PowerUp = PowerUp(x: real, y: real, radius: real, speed: real, kind: PowerUpKind)

  /** A cosmetic spark: position, velocity and remaining life in seconds. */
  datatype Particle = Particle(x: real, y: real, vx: real, vy: real, life: real)

  const PlayerBulletSpeed: real := -400.0
  const EnemyBulletSpeed: real := 200.0
  const PowerUpRadius: real := 10.0
  const PowerUpFallSpeed: real := 5.0
  const ParticleLife: real := 0.5

  function Max(a: real, b: real): real { if a >= b then a else b }
  function Min(a: real, b: real): real { if a <= b then a else b }

  /** The point (px, py) lies strictly inside the rectangle at (rx, ry) of size rw x rh:
      a point on any of the four edges is outside. */
  predicate StrictlyInside(px: real, py: real, rx: real, ry: real, rw: real, rh: real)
  {
    px > rx && px < rx + rw && py > ry && py < ry + rh
  }

  /** A point on the boundary of a rectangle never counts as inside it. */
  lemma EdgeIsOutside(px: real, py: real, rx: real, ry: real, rw: real, rh: real)
    requires px == rx || px == rx + rw || py == ry || py == ry + rh
    ensures !StrictlyInside(px, py, rx, ry, rw, rh)
  {
  }

  /** Bullet.update: vertical motion only. */
  function MoveBullet(b: Bullet, dt: real): Bullet
  {
    b.(y := b.y + b.speed * dt)
  }

  function BulletMover(dt: real): Bullet -> Bullet
  {
    b => MoveBullet(b, dt)
  }

  /** A player bullet survives pruning unless it has left through the top (y < 0). */
  function KeepPlayerBullet(): Bullet -> bool
  {
    (b: Bullet) => !(b.y < 0.0)
  }

  /** An enemy bullet survives pruning unless it has left through the bottom. */
  function KeepEnemyBullet(canvasHeight: real): Bullet -> bool
  {
    (b: Bullet) => !(b.y > canvasHeight)
  }

  /** Particle.update without the power-up loop: life decays by dt and the spark drifts. */
  function DecayParticle(p: Particle, dt: real): Particle
  {
    p.(life := p.life - dt, x := p.x + p.vx * dt, y := p.y + p.vy * dt)
  }

  function ParticleDecayer(dt: real): Particle -> Particle
  {
    p => DecayParticle(p, dt)
  }

  /** Bullets move straight up or down at their own speed: a player bullet rises and an
      enemy bullet falls whenever time passes. */
  lemma BulletsMoveStraight(b: Bullet, dt: real)
    ensures MoveBullet(b, dt).x == b.x && MoveBullet(b, dt).speed == b.speed
    ensures dt > 0.0 && b.speed == PlayerBulletSpeed ==> MoveBullet(b, dt).y < b.y
    ensures dt > 0.0 && b.speed == EnemyBulletSpeed ==> MoveBullet(b, dt).y > b.y
  {
  }

  /** A particle is pruned once its life is used up (life <= 0). */
  function KeepParticle(): Particle -> bool
  {
    (p: Particle) => !(p.life <= 0.0)
  }

  /** The drawing opacity of a particle, life over its initial life. */
  function Alpha(p: Particle): real
  {
    p.life / ParticleLife
  }

  /** A frame of dt costs a particle dt of life and dt / 0.5 of opacity, and the
      particle survives the frame exactly when it had more than dt of life left. */
  lemma ParticleFades(p: Particle, dt: real)
    ensures DecayParticle(p, dt).life == p.life - dt
    ensures Alpha(DecayParticle(p, dt)) == Alpha(p) - dt / ParticleLife
    ensures KeepParticle()(DecayParticle(p, dt)) <==> p.life > dt
  {
  }

  /** PowerUp.update: it falls at its own speed. */
  function MovePowerUp(p: PowerUp, dt: real): PowerUp
  {
    p.(y := p.y + p.speed * dt)
  }

  /** The power-up pickup test with the square root squared away: the distance between
      the power-up's centre and the ship's centre is below the power-up's radius plus
      half the ship's larger side. */
  predicate Collects(p: PowerUp, px: real, py: real, pw: real, ph: real)
  {
    var dx := p.x - (px + pw / 2.0);
    var dy := p.y - (py + ph / 2.0);
    var reach := p.radius + Max(pw, ph) / 2.0;
    0.0 < reach && dx * dx + dy * dy < reach * reach
  }

  function PowerUpMover(dt: real): PowerUp -> PowerUp
  {
    (p: PowerUp) => MovePowerUp(p, dt)
  }

  function MissedBy(px: real, py: real, pw: real, ph: real): PowerUp -> bool
  {
    (p: PowerUp) => !Collects(p, px, py, pw, ph)
  }

  /** An enemy bullet is kept unless its centre is strictly inside the ship's rectangle. */
  function MissesShip(px: real, py: real, pw: real, ph: real): Bullet -> bool
  {
    (b: Bullet) => !StrictlyInside(b.x, b.y, px, py, pw, ph)
  }

  /** An enemy's centre, where its sparks and its power-up appear. */
  function CentreX(e: Enemy): real { e.x + e.width / 2.0 }
  function CentreY(e: Enemy): real { e.y + e.height / 2.0 }
}
