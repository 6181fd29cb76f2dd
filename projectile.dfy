/** One bullet (Bullet): it remembers where it was spawned, moves along its
    facing direction at constant speed, and destroys itself once its
    lifetime is used up. Its record in World.Scene is what that destroy
    removes, and the removal decrements the scene's bullet counter (the
    counter its OnEnable and OnDisable maintain). */
module Projectile {
  import opened Common
  import opened World

  /** Position of a bullet `t` seconds after spawning at `spawn`, moving at
      `speed` along the facing direction `right` (transform.right); at time
      zero it is at the spawn point. */
  function Movement(spawn: Vec2, speed: real, right: Vec2, t: real): (r: Vec2)
    ensures t == 0.0 ==> r == spawn
  {
    Vec2(t * speed * right.x + spawn.x, t * speed * right.y + spawn.y)
  }

  /** Along a facing direction of length one the bullet is `t * speed` away
      from its spawn point. */
  lemma MovementDistance(spawn: Vec2, speed: real, right: Vec2, t: real)
    requires right.x * right.x + right.y * right.y == 1.0
    ensures var r := Movement(spawn, speed, right, t);
      (r.x - spawn.x) * (r.x - spawn.x) + (r.y - spawn.y) * (r.y - spawn.y) == (t * speed) * (t * speed)
  {
    var d := t * speed;
    assert (d * right.x) * (d * right.x) + (d * right.y) * (d * right.y)
      == (d * d) * (right.x * right.x + right.y * right.y);
  }

  /** The displacement from the spawn point is linear in time: the
      displacement after t1 + t2 is the sum of the displacements, and the
      displacement after k * t is k times the displacement after t. */
  lemma MovementLinear(spawn: Vec2, speed: real, right: Vec2, t1: real, t2: real, k: real)
    ensures var d := (t: real) => Movement(spawn, speed, right, t);
      && d(t1 + t2).x - spawn.x == (d(t1).x - spawn.x) + (d(t2).x - spawn.x)
      && d(t1 + t2).y - spawn.y == (d(t1).y - spawn.y) + (d(t2).y - spawn.y)
      && d(k * t1).x - spawn.x == k * (d(t1).x - spawn.x)
      && d(k * t1).y - spawn.y == k * (d(t1).y - spawn.y)
  {
    assert (t1 + t2) * speed * right.x == t1 * speed * right.x + t2 * speed * right.x;
    assert (t1 + t2) * speed * right.y == t1 * speed * right.y + t2 * speed * right.y;
    assert (k * t1) * speed * right.x == k * (t1 * speed * right.x);
    assert (k * t1) * speed * right.y == k * (t1 * speed * right.y);
  }

  /** The bullet record in `scene` at `slot` is the one for a bullet with
      these parameters. */
  predicate RecordOf(scene: seq<BulletRec>, slot: nat, rotation: real, speed: real, bulletLife: real)
  {
    slot < |scene| && scene[slot].angle == rotation && scene[slot].speed == speed && scene[slot].life == bulletLife
  }

  class Bullet {
    /** The scene the bullet lives in. */
    const scene: Scene
    const bulletLife: real
    const speed: real
    /** The bullet's rotation in degrees, set by whoever fired it. */
    const rotation: real
    /** transform.right once the rotation is applied (trigonometry is not
        modelled: the direction is given, and it has length one). */
    var right: Vec2
    var spawnPoint: Vec2
    var position: Vec2
    var timer: real
    var destroyed: bool

    ghost predicate Valid()
      reads this
    {
      timer >= 0.0 && right.x * right.x + right.y * right.y == 1.0
    }

    /** Instantiate at `position` in `scene`. */
    constructor (scene: Scene, bulletLife: real, speed: real, rotation: real, position: Vec2)
      ensures Valid()
      ensures this.scene == scene
      ensures this.bulletLife == bulletLife && this.speed == speed && this.rotation == rotation
      ensures this.position == position && timer == 0.0 && !destroyed
    {
      this.scene := scene;
      this.bulletLife, this.speed, this.rotation := bulletLife, speed, rotation;
      this.position := position;
      spawnPoint, right := position, Vec2(1.0, 0.0);
      timer, destroyed := 0.0, false;
    }

    /** Unity's Start: remembers the spawn point and applies the rotation,
        whose facing direction is `right`. */
    method Start(right: Vec2)
      requires Valid() && right.x * right.x + right.y * right.y == 1.0
      modifies this
      ensures Valid()
      ensures spawnPoint == old(position) && this.right == right
      ensures position == old(position) && timer == old(timer) && destroyed == old(destroyed)
    {
      spawnPoint := position;
      this.right := right;
    }

    /** One frame of a live bullet whose scene record is at `slot`: the
        timer advances by `dt`; on the first frame whose timer reaches the
        lifetime the bullet is destroyed, without moving, and its record
        leaves the scene with the counter decremented; otherwise it moves to
        its position on the line and the scene is untouched. */
    method Update(dt: real, slot: nat)
      requires Valid() && dt >= 0.0 && !destroyed
      requires scene.Valid() && RecordOf(scene.bullets, slot, rotation, speed, bulletLife)
      modifies this, scene
      ensures Valid() && scene.Valid()
      ensures timer == old(timer) + dt && timer >= old(timer)
      ensures timer >= bulletLife ==>
        && destroyed && position == old(position)
        && scene.bullets == old(scene.bullets[..slot] + scene.bullets[slot + 1..])
        && scene.bulletActive == old(scene.bulletActive) - 1
        && scene.enemies == old(scene.enemies) && scene.nextId == old(scene.nextId)
      ensures timer < bulletLife ==>
        && !destroyed && position == Movement(spawnPoint, speed, right, timer)
        && unchanged(scene)
      ensures spawnPoint == old(spawnPoint) && right == old(right)
    {
      timer := timer + dt;
      if timer >= bulletLife {
        destroyed := true;
        scene.DestroyBullet(slot);
        return;
      }
      position := Movement(spawnPoint, speed, right, timer);
    }
  }
}
