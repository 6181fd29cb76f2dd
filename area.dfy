/** An enemy spawn area (AreaEnemy): it keeps a target number of enemies
    alive at random positions inside a rectangle, forgets enemies that have
    been destroyed, and refills after a delay once it has lost some. The
    tracked enemies are handles into World.Scene; a destroyed enemy is a
    handle the scene no longer holds. The delayed fills scheduled with Invoke
    are the game times in `pending`. */
module Area {
  import opened Common
  import opened World

  /** The handles of a run of enemy records, in order. */
  function Handles(s: seq<EnemyRec>): (r: seq<nat>)
    ensures |r| == |s|
    ensures forall i :: 0 <= i < |s| ==> r[i] == s[i].id
  {
    seq(|s|, i requires 0 <= i < |s| => s[i].id)
  }

  /** Every record lies inside the rectangle spanned by the two ranges. */
  ghost predicate AllWithin(s: seq<EnemyRec>, xRange: Vec2, yRange: Vec2)
  {
    forall e :: e in s ==> Between(e.pos.x, xRange.x, xRange.y) && Between(e.pos.y, yRange.x, yRange.y)
  }

  /** The tracked handles that are still live, in their original order (the
      RemoveAll of destroyed enemies). */
  function KeepLive(s: seq<nat>, live: set<nat>): (r: seq<nat>)
    ensures |r| <= |s|
    ensures forall x :: x in r <==> x in s && x in live
    decreases |s|
  {
    if s == [] then []
    else if s[0] in live then [s[0]] + KeepLive(s[1..], live)
    else KeepLive(s[1..], live)
  }

  /** Nothing is removed exactly when every tracked handle is live, and then
      the list is unchanged. */
  lemma {:induction false} KeepLiveFull(s: seq<nat>, live: set<nat>)
    ensures |KeepLive(s, live)| == |s| <==> forall k :: 0 <= k < |s| ==> s[k] in live
    ensures |KeepLive(s, live)| == |s| ==> KeepLive(s, live) == s
    decreases |s|
  {
    if s != [] {
      KeepLiveFull(s[1..], live);
      assert forall k :: 1 <= k < |s| ==> s[k] == s[1..][k - 1];
      assert [s[0]] + s[1..] == s;
    }
  }

  /** Removal keeps the order: the live part of a concatenation is the live
      part of each piece, in turn. */
  lemma {:induction false} KeepLiveAppend(a: seq<nat>, b: seq<nat>, live: set<nat>)
    ensures KeepLive(a + b, live) == KeepLive(a, live) + KeepLive(b, live)
    decreases |a|
  {
    if a == [] {
      assert a + b == b;
    } else {
      assert (a + b)[1..] == a[1..] + b;
      KeepLiveAppend(a[1..], b, live);
    }
  }

  /** The set of handles in a list. */
  function Elems(s: seq<nat>): set<nat>
  {
    set x | x in s
  }

  lemma ElemsSnoc(s: seq<nat>, i: int)
    requires 0 <= i < |s|
    ensures Elems(s[..i + 1]) == Elems(s[..i]) + {s[i]}
  {
    assert s[..i + 1] == s[..i] + [s[i]];
  }

  /** After purging every tracked handle, none of them is held any more. */
  lemma TrackedGone(enemies: seq<EnemyRec>, tracked: seq<nat>)
    ensures forall k :: 0 <= k < |tracked| ==> tracked[k] !in Ids(Purge(enemies, Elems(tracked)))
  {
    forall k | 0 <= k < |tracked| ensures tracked[k] !in Ids(Purge(enemies, Elems(tracked))) {
      assert tracked[k] in Elems(tracked);
    }
  }

  class AreaEnemy {
    const scene: Scene
    /** An enemy prefab is assigned. */
    const hasPrefab: bool
    const xRange: Vec2
    const yRange: Vec2
    const targetAlive: int
    const respawnDelay: real
    /** The tracked enemies, in spawn order. */
    var alive: seq<nat>
    /** The game times at which scheduled fills run. */
    var pending: seq<real>

    /** Every tracked handle was handed out by the scene. */
    ghost predicate Valid()
      reads this, scene
    {
      forall k :: 0 <= k < |alive| ==> alive[k] < scene.nextId
    }

    constructor (scene: Scene, hasPrefab: bool, xRange: Vec2, yRange: Vec2, targetAlive: int, respawnDelay: real)
      ensures Valid()
      ensures this.scene == scene && this.hasPrefab == hasPrefab
      ensures this.xRange == xRange && this.yRange == yRange
      ensures this.targetAlive == targetAlive && this.respawnDelay == respawnDelay
      ensures alive == [] && pending == []
    {
      this.scene, this.hasPrefab := scene, hasPrefab;
      this.xRange, this.yRange := xRange, yRange;
      this.targetAlive, this.respawnDelay := targetAlive, respawnDelay;
      alive, pending := [], [];
    }

    /** What a fill does, from tracked list `alive0`, scene enemies
        `enemies0` and next handle `next0`: the scene only gains enemies, and
        the tracked list only gains their handles, in spawn order, until it
        holds max(its old length, max(0, targetAlive)) entries; every new
        enemy has a fresh handle and a position inside the ranges. */
    ghost predicate Filled(alive0: seq<nat>, enemies0: seq<EnemyRec>, next0: nat,
                           alive1: seq<nat>, enemies1: seq<EnemyRec>)
    {
      && |enemies1| >= |enemies0| && enemies1[..|enemies0|] == enemies0
      && alive1 == alive0 + Handles(enemies1[|enemies0|..])
      && |alive1| == MaxInt(|alive0|, MaxInt(0, targetAlive))
      && AllWithin(enemies1[|enemies0|..], xRange, yRange)
      && forall e :: e in enemies1[|enemies0|..] ==> e.id >= next0
    }

    /** Spawns enemies at random positions inside the ranges until the target
        is reached; nothing without a prefab. */
    method FillToTarget()
      requires Valid() && scene.Valid()
      modifies this, scene
      ensures Valid() && scene.Valid()
      ensures !hasPrefab ==> unchanged(this) && unchanged(scene)
      ensures hasPrefab ==> Filled(old(alive), old(scene.enemies), old(scene.nextId), alive, scene.enemies)
      ensures scene.bullets == old(scene.bullets) && pending == old(pending) && scene.nextId >= old(scene.nextId)
    {
      if !hasPrefab {
        return;
      }
      var target := MaxInt(0, targetAlive);
      ghost var n0 := |scene.enemies|;
      while |alive| < target
        invariant Valid() && scene.Valid()
        invariant scene.nextId >= old(scene.nextId)
        invariant |scene.enemies| >= n0 && scene.enemies[..n0] == old(scene.enemies)
        invariant alive == old(alive) + Handles(scene.enemies[n0..])
        invariant |old(alive)| <= |alive| <= MaxInt(|old(alive)|, target)
        invariant AllWithin(scene.enemies[n0..], xRange, yRange)
        invariant forall e :: e in scene.enemies[n0..] ==> e.id >= old(scene.nextId)
        invariant scene.bullets == old(scene.bullets) && pending == old(pending)
        decreases target - |alive|
      {
        assert Between(xRange.x, xRange.x, xRange.y) && Between(yRange.x, yRange.x, yRange.y);
        var x :| Between(x, xRange.x, xRange.y);
        var y :| Between(y, yRange.x, yRange.y);
        ghost var before := scene.enemies;
        var e := scene.SpawnEnemy(Vec2(x, y));
        assert scene.enemies[n0..] == before[n0..] + [EnemyRec(e, Vec2(x, y))];
        assert scene.enemies[..n0] == before[..n0];
        alive := alive + [e];
      }
    }

    /** Enabling the area forgets every tracked enemy and fills up again, so
        with a prefab it then tracks exactly max(0, targetAlive) new enemies. */
    method OnEnable()
      requires Valid() && scene.Valid()
      modifies this, scene
      ensures Valid() && scene.Valid()
      ensures !hasPrefab ==> alive == [] && unchanged(scene)
      ensures hasPrefab ==> Filled([], old(scene.enemies), old(scene.nextId), alive, scene.enemies)
      ensures hasPrefab ==> |alive| == MaxInt(0, targetAlive)
      ensures scene.bullets == old(scene.bullets) && pending == old(pending) && scene.nextId >= old(scene.nextId)
    {
      alive := [];
      FillToTarget();
    }

    /** Disabling the area destroys every tracked enemy that still exists,
        forgets them all and cancels every scheduled fill. */
    method OnDisable()
      requires Valid() && scene.Valid()
      modifies this, scene
      ensures Valid() && scene.Valid()
      ensures scene.enemies == Purge(old(scene.enemies), Elems(old(alive)))
      ensures forall k :: 0 <= k < |old(alive)| ==> old(alive)[k] !in Ids(scene.enemies)
      ensures alive == [] && pending == []
      ensures scene.bullets == old(scene.bullets) && scene.nextId == old(scene.nextId)
    {
      var i := 0;
      PurgeAbsent(scene.enemies, {});
      assert Elems(alive[..0]) == {};
      while i < |alive|
        invariant 0 <= i <= |alive| && alive == old(alive)
        invariant scene.Valid()
        invariant scene.enemies == Purge(old(scene.enemies), Elems(alive[..i]))
        invariant scene.bullets == old(scene.bullets) && scene.nextId == old(scene.nextId)
      {
        var id := alive[i];
        ghost var cur := scene.enemies;
        if id in Ids(scene.enemies) {
          scene.DestroyEnemy(id);
        } else {
          PurgeMissing(cur, id);
        }
        PurgeTwice(old(scene.enemies), Elems(alive[..i]), {id});
        ElemsSnoc(alive, i);
        i := i + 1;
      }
      assert alive[..i] == alive;
      TrackedGone(old(scene.enemies), alive);
      alive := [];
      pending := [];
    }

    /** One frame at game time `now`: the destroyed enemies are forgotten and
        the live ones kept in order. If any was forgotten, a fill is
        scheduled `respawnDelay` seconds from now and nothing is spawned;
        otherwise, when fewer than targetAlive are tracked, the area fills up
        at once. */
    method Update(now: real)
      requires Valid() && scene.Valid()
      modifies this, scene
      ensures Valid() && scene.Valid()
      ensures var live := KeepLive(old(alive), Ids(old(scene.enemies)));
        && (|live| < |old(alive)| ==>
              alive == live && pending == old(pending) + [now + respawnDelay] && unchanged(scene))
        && (|live| == |old(alive)| && |old(alive)| < targetAlive && hasPrefab ==>
              pending == old(pending) && Filled(old(alive), old(scene.enemies), old(scene.nextId), alive, scene.enemies))
        && (|live| == |old(alive)| && (|old(alive)| >= targetAlive || !hasPrefab) ==>
              alive == old(alive) && pending == old(pending) && unchanged(scene))
      ensures scene.bullets == old(scene.bullets)
    {
      var before := alive;
      alive := KeepLive(alive, Ids(scene.enemies));
      KeepLiveFull(before, Ids(scene.enemies));
      forall k | 0 <= k < |alive| ensures alive[k] < scene.nextId {
        assert alive[k] in alive;
        var j :| 0 <= j < |before| && before[j] == alive[k];
      }
      if |alive| < |before| {
        pending := pending + [now + respawnDelay];
      } else if |alive| < targetAlive {
        FillToTarget();
      }
    }

    /** The scheduled fills whose time has not come. */
    static function NotDue(pending: seq<real>, now: real): (r: seq<real>)
      ensures |r| <= |pending|
      ensures forall t :: t in r <==> t in pending && t > now
      decreases |pending|
    {
      if pending == [] then []
      else if pending[0] <= now then NotDue(pending[1..], now)
      else [pending[0]] + NotDue(pending[1..], now)
    }

    /** The engine's Invoke at game time `now`: each scheduled fill whose
        time has come runs, in turn, and is dropped from the schedule. The
        first fill reaches the target, so the others spawn nothing. */
    method RunDueFills(now: real)
      requires Valid() && scene.Valid()
      modifies this, scene
      ensures Valid() && scene.Valid()
      ensures pending == NotDue(old(pending), now)
      ensures |pending| == |old(pending)| || !hasPrefab ==> alive == old(alive) && unchanged(scene)
      ensures |pending| < |old(pending)| && hasPrefab ==>
        Filled(old(alive), old(scene.enemies), old(scene.nextId), alive, scene.enemies)
      ensures scene.bullets == old(scene.bullets)
    {
      var due := |pending| - |NotDue(pending, now)|;
      pending := NotDue(pending, now);
      var i := 0;
      while i < due
        invariant 0 <= i <= due
        invariant Valid() && scene.Valid()
        invariant pending == NotDue(old(pending), now)
        invariant i == 0 || !hasPrefab ==> alive == old(alive) && unchanged(scene)
        invariant i > 0 && hasPrefab ==> Filled(old(alive), old(scene.enemies), old(scene.nextId), alive, scene.enemies)
        invariant scene.bullets == old(scene.bullets)
      {
        ghost var a1, e1, n1 := alive, scene.enemies, scene.nextId;
        FillToTarget();
        if i > 0 && hasPrefab {
          FillAgain(old(alive), old(scene.enemies), old(scene.nextId), a1, e1, n1, alive, scene.enemies);
        }
        i := i + 1;
      }
    }

    /** A second fill right after a first spawns nothing. */
    lemma FillAgain(a0: seq<nat>, e0: seq<EnemyRec>, n0: nat,
                    a1: seq<nat>, e1: seq<EnemyRec>, n1: nat, a2: seq<nat>, e2: seq<EnemyRec>)
      requires Filled(a0, e0, n0, a1, e1)
      requires Filled(a1, e1, n1, a2, e2)
      ensures a2 == a1 && e2 == e1
      ensures Filled(a0, e0, n0, a2, e2)
    {
      assert |Handles(e2[|e1|..])| == 0;
      assert e2 == e2[..|e1|];
    }
  }
}
