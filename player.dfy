/** The player (Player): moves inside fixed world limits, fires straight
    bullets at a fixed cadence while the fire button is held, takes one point
    of damage per enemy bullet outside a short invulnerability window, heals
    two points per enemy killed, and is deactivated when its hit points run
    out. Input is given to the per-frame methods as values. */
module PlayerActor {
  import opened Common
  import opened World

  /** The player's broadcasts: OnPlayerHealthChanged(current) and OnPlayerDied. */
  datatype PlayerEvent = HealthChanged(hp: int) | Died

  /** Hit points after `dmg` damage: never below zero. */
  function Damaged(hp: int, dmg: int): (r: int)
    ensures r >= 0
    ensures dmg <= hp ==> r == hp - dmg
    ensures hp <= dmg ==> r == 0
  {
    MaxInt(0, hp - dmg)
  }

  /** Two rounds of non-negative damage take as much as one round of their
      sum. */
  lemma DamagedTwice(hp: int, a: int, b: int)
    requires hp >= 0 && a >= 0 && b >= 0
    ensures Damaged(Damaged(hp, a), b) == Damaged(hp, a + b)
  {
  }

  /** The position clamped coordinate by coordinate to the limits. */
  function ClampToLimits(p: Vec2, minX: real, maxX: real, minY: real, maxY: real): (r: Vec2)
    ensures minX <= maxX ==> minX <= r.x <= maxX
    ensures minY <= maxY ==> minY <= r.y <= maxY
    ensures minX <= p.x <= maxX && minY <= p.y <= maxY ==> r == p
  {
    Vec2(Clamp(p.x, minX, maxX), Clamp(p.y, minY, maxY))
  }

  /** With ordered limits, clamping twice is clamping once. */
  lemma ClampToLimitsIdempotent(p: Vec2, minX: real, maxX: real, minY: real, maxY: real)
    requires minX <= maxX && minY <= maxY
    ensures var q := ClampToLimits(p, minX, maxX, minY, maxY);
      ClampToLimits(q, minX, maxX, minY, maxY) == q
  {
    ClampIdempotent(p.x, minX, maxX);
    ClampIdempotent(p.y, minY, maxY);
  }

  class Player {
    const scene: Scene
    const moveSpeed: real
    const slowMultiplier: real
    const minX: real
    const maxX: real
    const minY: real
    const maxY: real
    /** A player bullet prefab is assigned. */
    const hasPrefab: bool
    const fireRate: real
    const bulletSpeed: real
    const bulletLife: real
    const shootAngle: real
    const startHP: int
    const hitInvuln: real
    var currentHP: int
    var fireTimer: real
    var lastHitTime: real
    var position: Vec2
    /** The game object is active. */
    var active: bool
    /** Broadcasts so far, oldest first. */
    var events: seq<PlayerEvent>

    /** The fire timer is never negative. */
    ghost predicate Valid()
      reads this
    {
      fireTimer >= 0.0
    }

    /** The player as placed in the scene: no hit yet (the last hit lies far
        in the past, at -999 seconds). */
    constructor (scene: Scene, moveSpeed: real, slowMultiplier: real,
                 minX: real, maxX: real, minY: real, maxY: real,
                 hasPrefab: bool, fireRate: real, bulletSpeed: real, bulletLife: real, shootAngle: real,
                 startHP: int, hitInvuln: real, position: Vec2)
      ensures Valid()
      ensures this.scene == scene && this.moveSpeed == moveSpeed && this.slowMultiplier == slowMultiplier
      ensures this.minX == minX && this.maxX == maxX && this.minY == minY && this.maxY == maxY
      ensures this.hasPrefab == hasPrefab && this.fireRate == fireRate && this.bulletSpeed == bulletSpeed
      ensures this.bulletLife == bulletLife && this.shootAngle == shootAngle
      ensures this.startHP == startHP && this.hitInvuln == hitInvuln && this.position == position
      ensures fireTimer == 0.0 && lastHitTime == -999.0 && active && events == []
    {
      this.scene, this.moveSpeed, this.slowMultiplier := scene, moveSpeed, slowMultiplier;
      this.minX, this.maxX, this.minY, this.maxY := minX, maxX, minY, maxY;
      this.hasPrefab, this.fireRate, this.bulletSpeed := hasPrefab, fireRate, bulletSpeed;
      this.bulletLife, this.shootAngle := bulletLife, shootAngle;
      this.startHP, this.hitInvuln, this.position := startHP, hitInvuln, position;
      currentHP, fireTimer, lastHitTime := 0, 0.0, -999.0;
      active, events := true, [];
    }

    /** Enabling the player restores its starting hit points and broadcasts them. */
    method OnEnable()
      requires Valid()
      modifies this
      ensures Valid()
      ensures currentHP == startHP && events == old(events) + [HealthChanged(startHP)]
      ensures fireTimer == old(fireTimer) && lastHitTime == old(lastHitTime)
      ensures position == old(position) && active == old(active)
    {
      currentHP := startHP;
      events := events + [HealthChanged(currentHP)];
    }

    /** An enemy was killed: two hit points back. */
    method HandleEnemyKilledHeal()
      modifies this
      ensures currentHP == old(currentHP) + 2 && events == old(events) + [HealthChanged(currentHP)]
      ensures fireTimer == old(fireTimer) && lastHitTime == old(lastHitTime)
      ensures position == old(position) && active == old(active)
    {
      Heal(2);
    }

    /** Adds `amount` hit points, with no upper bound, and broadcasts the result. */
    method Heal(amount: int)
      modifies this
      ensures currentHP == old(currentHP) + amount && events == old(events) + [HealthChanged(currentHP)]
      ensures fireTimer == old(fireTimer) && lastHitTime == old(lastHitTime)
      ensures position == old(position) && active == old(active)
    {
      currentHP := currentHP + amount;
      events := events + [HealthChanged(currentHP)];
    }

    /** One frame of `dt` seconds with movement input `dir` (already
        normalized), the slow button and the fire button. */
    method Update(dt: real, dir: Vec2, slow: bool, firePressed: bool)
      requires Valid() && scene.Valid() && dt >= 0.0
      modifies this, scene
      ensures Valid() && scene.Valid()
      ensures position == ClampToLimits(Moved(old(position), dir, slow, dt), minX, maxX, minY, maxY)
      ensures var ready := firePressed && old(fireTimer) + dt >= fireRate;
        && fireTimer == (if ready then 0.0 else old(fireTimer) + dt)
        && scene.bullets == old(scene.bullets) + (if ready && hasPrefab then [Shot()] else [])
      ensures scene.enemies == old(scene.enemies)
      ensures currentHP == old(currentHP) && lastHitTime == old(lastHitTime)
      ensures active == old(active) && events == old(events)
    {
      HandleMovement(dt, dir, slow);
      HandleShooting(dt, firePressed);
    }

    /** The position after moving along `dir` (the normalised input) for
        `dt` seconds, at the base speed or, with the slow button, at the
        reduced speed. Without input, or in a zero-length frame, the player
        stays put. */
    function Moved(p: Vec2, dir: Vec2, slow: bool, dt: real): (r: Vec2)
      ensures dir == Vec2(0.0, 0.0) || dt == 0.0 ==> r == p
    {
      var speed := moveSpeed * (if slow then slowMultiplier else 1.0);
      Vec2(p.x + dir.x * speed * dt, p.y + dir.y * speed * dt)
    }

    /** With the slow button the displacement is the base displacement
        scaled by slowMultiplier, in the same direction. */
    lemma MovedSlowScales(p: Vec2, dir: Vec2, dt: real)
      ensures Moved(p, dir, true, dt).x - p.x == slowMultiplier * (Moved(p, dir, false, dt).x - p.x)
      ensures Moved(p, dir, true, dt).y - p.y == slowMultiplier * (Moved(p, dir, false, dt).y - p.y)
    {
      assert dir.x * (moveSpeed * slowMultiplier) * dt == slowMultiplier * (dir.x * (moveSpeed * 1.0) * dt);
      assert dir.y * (moveSpeed * slowMultiplier) * dt == slowMultiplier * (dir.y * (moveSpeed * 1.0) * dt);
    }

    /** Moves, then clamps the position to the world limits; with ordered
        limits the player always ends up inside them. */
    method HandleMovement(dt: real, dir: Vec2, slow: bool)
      modifies this
      ensures position == ClampToLimits(Moved(old(position), dir, slow, dt), minX, maxX, minY, maxY)
      ensures minX <= maxX && minY <= maxY ==> minX <= position.x <= maxX && minY <= position.y <= maxY
      ensures currentHP == old(currentHP) && fireTimer == old(fireTimer) && lastHitTime == old(lastHitTime)
      ensures active == old(active) && events == old(events)
    {
      position := Moved(position, dir, slow, dt);
      ClampToWorldLimits();
    }

    /** Clamps the position to the world limits. */
    method ClampToWorldLimits()
      modifies this
      ensures position == ClampToLimits(old(position), minX, maxX, minY, maxY)
      ensures currentHP == old(currentHP) && fireTimer == old(fireTimer) && lastHitTime == old(lastHitTime)
      ensures active == old(active) && events == old(events)
    {
      position := ClampToLimits(position, minX, maxX, minY, maxY);
    }

    /** The fire timer always advances; with the fire button held and the
        timer at the fire rate, the timer restarts and one shot is fired. */
    method HandleShooting(dt: real, firePressed: bool)
      requires Valid() && scene.Valid() && dt >= 0.0
      modifies this, scene
      ensures Valid() && scene.Valid()
      ensures var ready := firePressed && old(fireTimer) + dt >= fireRate;
        && fireTimer == (if ready then 0.0 else old(fireTimer) + dt)
        && scene.bullets == old(scene.bullets) + (if ready && hasPrefab then [Shot()] else [])
      ensures scene.enemies == old(scene.enemies)
      ensures currentHP == old(currentHP) && lastHitTime == old(lastHitTime) && position == old(position)
      ensures active == old(active) && events == old(events)
    {
      fireTimer := fireTimer + dt;
      if !firePressed {
        return;
      }
      if fireTimer >= fireRate {
        fireTimer := 0.0;
        ShootOne();
      }
    }

    /** The bullet the player fires. */
    function Shot(): BulletRec
    {
      BulletRec(Player, shootAngle, bulletSpeed, bulletLife)
    }

    /** Instantiates one player bullet; nothing without a prefab. */
    method ShootOne()
      requires scene.Valid()
      modifies scene
      ensures scene.Valid()
      ensures scene.bullets == old(scene.bullets) + (if hasPrefab then [Shot()] else [])
      ensures scene.enemies == old(scene.enemies)
    {
      if !hasPrefab {
        return;
      }
      scene.SpawnBullet(Shot());
    }

    /** A contact at game time `now`: an enemy bullet tries one point of
        damage; anything else is ignored. */
    method OnTriggerEnter2D(other: Contact, now: real)
      modifies this
      ensures other != BulletOf(Enemy) ==> unchanged(this)
      ensures other == BulletOf(Enemy) ==> Damage(1, now, old(currentHP), old(lastHitTime), old(events), old(active))
      ensures fireTimer == old(fireTimer) && position == old(position)
    {
      if other == BulletOf(Enemy) {
        TryTakeDamage(1, now);
      }
    }

    /** The outcome of TryTakeDamage(dmg) at game time `now` from hit points
        `hp0`, last hit `last0`, broadcasts `events0` and activity `active0`:
        within `hitInvuln` of the last hit nothing changes; otherwise the hit
        is recorded at `now`, the hit points drop by `dmg` but not below zero
        and are broadcast, and at zero the player broadcasts its death and is
        deactivated. */
    ghost predicate Damage(dmg: int, now: real, hp0: int, last0: real, events0: seq<PlayerEvent>, active0: bool)
      reads this
    {
      if now - last0 < hitInvuln then
        currentHP == hp0 && lastHitTime == last0 && events == events0 && active == active0
      else
        && lastHitTime == now
        && currentHP == Damaged(hp0, dmg)
        && events == events0 + [HealthChanged(currentHP)] + (if currentHP == 0 then [Died] else [])
        && active == (active0 && currentHP > 0)
    }

    /** Applies `dmg` damage at game time `now`, respecting the
        invulnerability window after the last hit. */
    method TryTakeDamage(dmg: int, now: real)
      modifies this
      ensures Damage(dmg, now, old(currentHP), old(lastHitTime), old(events), old(active))
      ensures fireTimer == old(fireTimer) && position == old(position)
    {
      if now - lastHitTime < hitInvuln {
        return;
      }
      lastHitTime := now;
      currentHP := Damaged(currentHP, dmg);
      events := events + [HealthChanged(currentHP)];
      if currentHP <= 0 {
        events := events + [Died];
        active := false;
      }
    }
  }
}
