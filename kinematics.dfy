/** The motion step shared by the player (Player.cpp) and the dragon
    (Enemy.cpp): constant gravity applied to an airborne body, then the
    position moved by the new velocity (semi-implicit Euler). */
module Kinematics {
  import opened Geometry

  /** Downward acceleration in pixels per second squared (screen y grows downward). */
  const GRAVITY: real := 980.0

  /** The moving part of an entity: where it is, how fast it moves, and
      whether a platform currently supports it. */
  datatype Body = Body(position: Vec2, velocity: Vec2, onGround: bool)

  /** One step of `dt` seconds: gravity first, only while airborne, then the
      position advanced with the already updated velocity. */
  function Integrate(b: Body, dt: real): (r: Body)
    ensures r.onGround == b.onGround
    ensures r.velocity.x == b.velocity.x
    ensures r.velocity.y == if b.onGround then b.velocity.y else b.velocity.y + GRAVITY * dt
    ensures r.position == Vec2(b.position.x + r.velocity.x * dt, b.position.y + r.velocity.y * dt)
  {
    var vy := if b.onGround then b.velocity.y else b.velocity.y + GRAVITY * dt;
    Body(Vec2(b.position.x + b.velocity.x * dt, b.position.y + vy * dt), Vec2(b.velocity.x, vy), b.onGround)
  }

  /** `n` successive steps of `dt` seconds each. */
  function IntegrateTimes(b: Body, dt: real, n: nat): Body
  {
    if n == 0 then b else Integrate(IntegrateTimes(b, dt, n - 1), dt)
  }

  /** Falling freely for `n` steps of `dt`: the vertical velocity grows by
      `GRAVITY * n * dt` and the height follows the discrete kinematics of
      velocity-before-position integration, `n*dt*vy + GRAVITY*dt*dt*n*(n+1)/2`;
      the horizontal motion is uniform. */
  lemma {:induction false} FreeFall(b: Body, dt: real, n: nat)
    requires !b.onGround
    ensures FallenFor(b, IntegrateTimes(b, dt, n), dt, n as real)
  {
    if n > 0 {
      FreeFall(b, dt, n - 1);
      FallStep(b, IntegrateTimes(b, dt, n - 1), dt, (n - 1) as real);
    }
  }

  /** `r` is where an airborne body `b` is after `k` steps of `dt`. */
  ghost predicate FallenFor(b: Body, r: Body, dt: real, k: real)
  {
    && !r.onGround
    && r.velocity.x == b.velocity.x
    && r.velocity.y == b.velocity.y + GRAVITY * k * dt
    && r.position.x == b.position.x + k * dt * b.velocity.x
    && r.position.y == b.position.y + k * dt * b.velocity.y + GRAVITY * dt * dt * k * (k + 1.0) / 2.0
  }

  lemma FallStep(b: Body, p: Body, dt: real, k: real)
    requires FallenFor(b, p, dt, k)
    ensures FallenFor(b, Integrate(p, dt), dt, k + 1.0)
  {
    var r := Integrate(p, dt);
    var vy, vx := b.velocity.y, b.velocity.x;
    VelocityStep(vy, dt, k);
    assert r.velocity.y == vy + GRAVITY * (k + 1.0) * dt;
    HeightStep(b.position.y, vy, dt, k);
    HorizontalStep(b.position.x, vx, dt, k);
  }

  lemma VelocityStep(v0: real, dt: real, k: real)
    ensures v0 + GRAVITY * k * dt + GRAVITY * dt == v0 + GRAVITY * (k + 1.0) * dt
  {}

  lemma HorizontalStep(x0: real, vx: real, dt: real, k: real)
    ensures x0 + k * dt * vx + vx * dt == x0 + (k + 1.0) * dt * vx
  {}

  lemma HeightStep(y0: real, v0: real, dt: real, k: real)
    ensures y0 + k * dt * v0 + GRAVITY * dt * dt * k * (k + 1.0) / 2.0 + (v0 + GRAVITY * (k + 1.0) * dt) * dt
         == y0 + (k + 1.0) * dt * v0 + GRAVITY * dt * dt * (k + 1.0) * (k + 2.0) / 2.0
  {}

  /** Falling from rest for `n` steps of `dt` (total time `t = n*dt`): the
      velocity is `GRAVITY * t`, and the drop is `GRAVITY*t*t/2` plus the
      first-order term `GRAVITY*dt*t/2` of the discrete integration. */
  lemma FallFromRest(b: Body, dt: real, n: nat)
    requires !b.onGround && b.velocity == Vec2(0.0, 0.0)
    ensures var r := IntegrateTimes(b, dt, n);
            var t := n as real * dt;
            r.velocity.y == GRAVITY * t
            && r.position.y == b.position.y + GRAVITY * t * t / 2.0 + GRAVITY * dt * t / 2.0
  {
    FreeFall(b, dt, n);
    var k := n as real;
    assert GRAVITY * dt * dt * k * (k + 1.0) / 2.0 == GRAVITY * (k * dt) * (k * dt) / 2.0 + GRAVITY * dt * (k * dt) / 2.0;
  }
}
