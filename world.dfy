/** The scene as the game logic sees it: the bullets and the enemies that
    exist, and the two active counters that their enable and disable
    callbacks maintain. Instantiate and Destroy are the methods of Scene;
    the "find every object of a type and destroy it" loops of the level
    controller and of the emitters are the Destroy* methods. */
module World {
  import opened Common
  import Lifecycle

  /** A live bullet: its owner tag, its rotation (degrees), speed and lifetime. */
  datatype BulletRec = BulletRec(owner: Owner, angle: real, speed: real, life: real)

  /** A live enemy: the handle Instantiate returned and its spawn position. */
  datatype EnemyRec = EnemyRec(id: nat, pos: Vec2)

  function Ids(s: seq<EnemyRec>): set<nat>
  {
    set e | e in s :: e.id
  }

  /** Handles are handed out in increasing order, so they are distinct. */
  ghost predicate IdsIncreasing(s: seq<EnemyRec>)
  {
    forall i, j :: 0 <= i < j < |s| ==> s[i].id < s[j].id
  }

  /** The enemies whose handle is not in `gone`, in their original order. */
  function Purge(s: seq<EnemyRec>, gone: set<nat>): (r: seq<EnemyRec>)
    ensures |r| <= |s|
    ensures forall e :: e in r <==> e in s && e.id !in gone
    decreases |s|
  {
    if s == [] then []
    else if s[0].id in gone then Purge(s[1..], gone)
    else [s[0]] + Purge(s[1..], gone)
  }

  /** The bullets that a hard clear keeps: those not owned by Enemy, in order. */
  function KeepFriendly(s: seq<BulletRec>): (r: seq<BulletRec>)
    ensures |r| <= |s|
    ensures forall b :: b in r <==> b in s && b.owner != Enemy
    decreases |s|
  {
    if s == [] then []
    else if s[0].owner == Enemy then KeepFriendly(s[1..])
    else [s[0]] + KeepFriendly(s[1..])
  }

  lemma {:induction false} KeepFriendlyAppend(a: seq<BulletRec>, b: seq<BulletRec>)
    ensures KeepFriendly(a + b) == KeepFriendly(a) + KeepFriendly(b)
    decreases |a|
  {
    if a == [] {
      assert a + b == b;
    } else {
      assert (a + b)[1..] == a[1..] + b;
      KeepFriendlyAppend(a[1..], b);
    }
  }

  /** Clearing enemy bullets twice is clearing them once. */
  lemma {:induction false} KeepFriendlyIdempotent(s: seq<BulletRec>)
    ensures KeepFriendly(KeepFriendly(s)) == KeepFriendly(s)
    decreases |s|
  {
    if s != [] {
      KeepFriendlyIdempotent(s[1..]);
      if s[0].owner != Enemy {
        assert ([s[0]] + KeepFriendly(s[1..]))[1..] == KeepFriendly(s[1..]);
      }
    }
  }

  lemma {:induction false} PurgeAppend(a: seq<EnemyRec>, b: seq<EnemyRec>, gone: set<nat>)
    ensures Purge(a + b, gone) == Purge(a, gone) + Purge(b, gone)
    decreases |a|
  {
    if a == [] {
      assert a + b == b;
    } else {
      assert (a + b)[1..] == a[1..] + b;
      PurgeAppend(a[1..], b, gone);
    }
  }

  /** Purging twice is purging the union of the handles. */
  lemma {:induction false} PurgeTwice(s: seq<EnemyRec>, a: set<nat>, b: set<nat>)
    ensures Purge(Purge(s, a), b) == Purge(s, a + b)
    decreases |s|
  {
    if s != [] {
      PurgeTwice(s[1..], a, b);
    }
  }

  /** Purging handles that do not occur changes nothing. */
  lemma {:induction false} PurgeAbsent(s: seq<EnemyRec>, gone: set<nat>)
    requires forall e :: e in s ==> e.id !in gone
    ensures Purge(s, gone) == s
    decreases |s|
  {
    if s != [] {
      assert s[0] in s;
      assert forall e :: e in s[1..] ==> e in s;
      PurgeAbsent(s[1..], gone);
      assert [s[0]] + s[1..] == s;
    }
  }

  /** Purging only ever removes handles. */
  lemma PurgeIdsSubset(s: seq<EnemyRec>, gone: set<nat>)
    ensures Ids(Purge(s, gone)) <= Ids(s)
  {
  }

  /** Purging a handle no record carries changes nothing. */
  lemma PurgeMissing(s: seq<EnemyRec>, id: nat)
    requires id !in Ids(s)
    ensures Purge(s, {id}) == s
  {
    forall e | e in s ensures e.id !in {id} {
      assert e.id in Ids(s);
    }
    PurgeAbsent(s, {id});
  }

  lemma {:induction false} PurgeKeepsIncreasing(s: seq<EnemyRec>, gone: set<nat>)
    requires IdsIncreasing(s)
    ensures IdsIncreasing(Purge(s, gone))
    decreases |s|
  {
    if s != [] {
      var t := s[1..];
      assert IdsIncreasing(t);
      PurgeKeepsIncreasing(t, gone);
      if s[0].id !in gone {
        HeadBelowRest(s);
        ConsIncreasing(s[0], Purge(t, gone));
      }
    }
  }

  lemma HeadBelowRest(s: seq<EnemyRec>)
    requires IdsIncreasing(s) && |s| > 0
    ensures forall e :: e in s[1..] ==> s[0].id < e.id
  {
    forall e | e in s[1..] ensures s[0].id < e.id {
      var k :| 0 <= k < |s[1..]| && s[1..][k] == e;
      assert s[k + 1] == e;
    }
  }

  lemma ConsIncreasing(h: EnemyRec, p: seq<EnemyRec>)
    requires IdsIncreasing(p)
    requires forall e :: e in p ==> h.id < e.id
    ensures IdsIncreasing([h] + p)
  {
    var r := [h] + p;
    forall i, j | 0 <= i < j < |r| ensures r[i].id < r[j].id {
      assert r[j] == p[j - 1];
      if i > 0 {
        assert r[i] == p[i - 1];
      } else {
        assert r[j] in p;
      }
    }
  }

  /** Removing one handle that occurs in a list of distinct handles removes
      exactly one record. */
  lemma {:induction false} PurgeOne(s: seq<EnemyRec>, id: nat)
    requires IdsIncreasing(s) && id in Ids(s)
    ensures |Purge(s, {id})| == |s| - 1
    decreases |s|
  {
    if s[0].id == id {
      forall e | e in s[1..] ensures e.id != id {
        var k :| 0 <= k < |s[1..]| && s[1..][k] == e;
        assert s[k + 1] == e;
      }
      PurgeAbsent(s[1..], {id});
    } else {
      var e :| e in s && e.id == id;
      assert e in s[1..];
      assert IdsIncreasing(s[1..]);
      PurgeOne(s[1..], id);
    }
  }

  /** Destroying the first of a list of distinct handles leaves the rest. */
  lemma PurgeHead(s: seq<EnemyRec>)
    requires IdsIncreasing(s) && |s| > 0
    ensures Purge(s, {s[0].id}) == s[1..]
  {
    forall e | e in s[1..] ensures e.id != s[0].id {
      var k :| 0 <= k < |s[1..]| && s[1..][k] == e;
      assert s[k + 1] == e;
    }
    PurgeAbsent(s[1..], {s[0].id});
  }

  class Scene {
    /** Every live bullet, in creation order. */
    var bullets: seq<BulletRec>
    /** Every live enemy, in creation order. */
    var enemies: seq<EnemyRec>
    /** The next handle Instantiate hands out. */
    var nextId: nat
    /** Bullet.ActiveCount. */
    var bulletActive: int
    /** BulletSpawnerEnemy.ActiveCount. */
    var enemyActive: int

    /** Every enable has a matching disable, so each counter equals the number
        of objects it counts; handles are fresh and distinct. */
    ghost predicate Valid()
      reads this
    {
      && bulletActive == |bullets|
      && enemyActive == |enemies|
      && IdsIncreasing(enemies)
      && forall e :: e in enemies ==> e.id < nextId
    }

    constructor ()
      ensures Valid()
      ensures bullets == [] && enemies == []
    {
      bullets, enemies := [], [];
      nextId, bulletActive, enemyActive := 0, 0, 0;
    }

    /** Instantiate of a bullet: it is added and its OnEnable increments the
        bullet counter. */
    method SpawnBullet(b: BulletRec)
      requires Valid()
      modifies this
      ensures Valid()
      ensures bullets == old(bullets) + [b]
      ensures bulletActive == old(bulletActive) + 1
      ensures enemies == old(enemies) && enemyActive == old(enemyActive) && nextId == old(nextId)
    {
      bullets := bullets + [b];
      bulletActive := Lifecycle.Enabled(bulletActive);
    }

    /** Instantiate of an enemy at `pos`: a fresh handle is returned, and the
        enemy's OnEnable increments the enemy counter. */
    method SpawnEnemy(pos: Vec2) returns (id: nat)
      requires Valid()
      modifies this
      ensures Valid()
      ensures id !in old(Ids(enemies)) && id == old(nextId) && nextId == id + 1
      ensures enemies == old(enemies) + [EnemyRec(id, pos)]
      ensures enemyActive == old(enemyActive) + 1
      ensures bullets == old(bullets) && bulletActive == old(bulletActive)
    {
      id := nextId;
      enemies := enemies + [EnemyRec(id, pos)];
      nextId := nextId + 1;
      enemyActive := Lifecycle.Enabled(enemyActive);
    }

    /** Destroy of an enemy: it is removed and its OnDisable decrements the
        enemy counter; destroying an enemy that is already gone does nothing. */
    method DestroyEnemy(id: nat)
      requires Valid()
      modifies this
      ensures Valid()
      ensures enemies == Purge(old(enemies), {id})
      ensures id in old(Ids(enemies)) ==> enemyActive == old(enemyActive) - 1
      ensures id !in old(Ids(enemies)) ==> enemies == old(enemies)
      ensures bullets == old(bullets) && bulletActive == old(bulletActive) && nextId == old(nextId)
    {
      PurgeKeepsIncreasing(enemies, {id});
      if id in Ids(enemies) {
        PurgeOne(enemies, id);
        enemyActive := Lifecycle.Disabled(enemyActive);
      } else {
        PurgeMissing(enemies, id);
      }
      enemies := Purge(enemies, {id});
    }

    /** Destroy of the bullet at `slot`: it leaves the scene and its
        OnDisable decrements the bullet counter, which stays equal to the
        number of live bullets. */
    method DestroyBullet(slot: nat)
      requires Valid() && slot < |bullets|
      modifies this
      ensures Valid()
      ensures bullets == old(bullets[..slot] + bullets[slot + 1..])
      ensures bulletActive == Lifecycle.Disabled(old(bulletActive)) && bulletActive == old(bulletActive) - 1
      ensures enemies == old(enemies) && enemyActive == old(enemyActive) && nextId == old(nextId)
    {
      bullets := bullets[..slot] + bullets[slot + 1..];
      bulletActive := Lifecycle.Disabled(bulletActive);
    }

    /** Destroys every enemy found in the scene, one by one; returns how many. */
    method DestroyAllEnemies() returns (n: nat)
      requires Valid()
      modifies this
      ensures Valid()
      ensures enemies == [] && n == |old(enemies)|
      ensures bullets == old(bullets) && bulletActive == old(bulletActive) && nextId == old(nextId)
    {
      var found := enemies;
      n := 0;
      while n < |found|
        invariant Valid()
        invariant 0 <= n <= |found|
        invariant enemies == found[n..]
        invariant bullets == old(bullets) && bulletActive == old(bulletActive) && nextId == old(nextId)
      {
        PurgeHead(enemies);
        assert found[n] == enemies[0] && found[n].id in Ids(enemies);
        DestroyEnemy(found[n].id);
        n := n + 1;
      }
    }

    /** Destroys every bullet found whose owner is Enemy and leaves the other
        bullets in place; each destroyed bullet's OnDisable decrements the
        bullet counter. Returns how many were destroyed. */
    method DestroyEnemyBullets() returns (n: nat)
      requires Valid()
      modifies this
      ensures Valid()
      ensures bullets == KeepFriendly(old(bullets))
      ensures n == |old(bullets)| - |bullets|
      ensures enemies == old(enemies) && enemyActive == old(enemyActive) && nextId == old(nextId)
    {
      var found := bullets;
      var kept: seq<BulletRec> := [];
      var i := 0;
      n := 0;
      while i < |found|
        invariant 0 <= i <= |found|
        invariant kept == KeepFriendly(found[..i])
        invariant n + |kept| == i
        invariant bulletActive == |found| - n
        invariant enemies == old(enemies) && enemyActive == old(enemyActive) && nextId == old(nextId)
      {
        KeepFriendlyAppend(found[..i], [found[i]]);
        assert found[..i + 1] == found[..i] + [found[i]];
        if found[i].owner == Enemy {
          bulletActive := Lifecycle.Disabled(bulletActive);
          n := n + 1;
        } else {
          kept := kept + [found[i]];
        }
        i := i + 1;
      }
      assert found[..i] == found;
      bullets := kept;
    }

    /** Destroys every bullet found, whatever its owner; returns how many. */
    method DestroyAllBullets() returns (n: nat)
      requires Valid()
      modifies this
      ensures Valid()
      ensures bullets == [] && n == |old(bullets)|
      ensures enemies == old(enemies) && enemyActive == old(enemyActive) && nextId == old(nextId)
    {
      var found := bullets;
      n := 0;
      while n < |found|
        invariant Valid()
        invariant 0 <= n <= |found|
        invariant bullets == found[n..]
        invariant enemies == old(enemies) && enemyActive == old(enemyActive) && nextId == old(nextId)
      {
        DestroyBullet(0);
        assert found[n + 1..] == found[n..][1..];
        n := n + 1;
      }
    }

    /** Instantiates the bullets of one volley, one after the other. */
    method SpawnVolley(shots: seq<BulletRec>)
      requires Valid()
      modifies this
      ensures Valid()
      ensures bullets == old(bullets) + shots
      ensures enemies == old(enemies) && enemyActive == old(enemyActive) && nextId == old(nextId)
    {
      var i := 0;
      while i < |shots|
        invariant 0 <= i <= |shots|
        invariant Valid()
        invariant bullets == old(bullets) + shots[..i]
        invariant enemies == old(enemies) && enemyActive == old(enemyActive) && nextId == old(nextId)
      {
        SpawnBullet(shots[i]);
        assert shots[..i + 1] == shots[..i] + [shots[i]];
        i := i + 1;
      }
      assert shots[..i] == shots;
    }
  }

  /** The bullets of a volley fired at the given angles. */
  function Shots(angles: seq<real>, owner: Owner, speed: real, life: real): (r: seq<BulletRec>)
    ensures |r| == |angles|
    ensures forall i :: 0 <= i < |r| ==> r[i] == BulletRec(owner, angles[i], speed, life)
  {
    seq(|angles|, i requires 0 <= i < |angles| => BulletRec(owner, angles[i], speed, life))
  }

  /** Firing the next angle of a layout extends the fired prefix by one shot. */
  lemma ShotsSnoc(angles: seq<real>, i: int, owner: Owner, speed: real, life: real)
    requires 0 <= i < |angles|
    ensures Shots(angles[..i + 1], owner, speed, life)
      == Shots(angles[..i], owner, speed, life) + [BulletRec(owner, angles[i], speed, life)]
  {
    assert angles[..i + 1] == angles[..i] + [angles[i]];
  }

  /** A hard clear keeps every player bullet and no enemy bullet. */
  lemma KeepFriendlyOwners(s: seq<BulletRec>)
    ensures forall b :: b in s && b.owner == Player ==> b in KeepFriendly(s)
    ensures forall b :: b in KeepFriendly(s) ==> b.owner == Player
  {
  }
}
