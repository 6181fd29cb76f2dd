/** A shooting enemy (BulletSpawnerEnemy): it cycles through three aimed
    patterns on per-pattern durations, fires at per-pattern rates, destroys
    itself once it has been off screen after a grace period, and is killed by
    player bullets. Its handle in World.Scene says whether it still exists;
    the ActiveCount its OnEnable and OnDisable maintain is the scene's enemy
    counter (World.Scene.SpawnEnemy and World.Scene.DestroyEnemy). */
module EnemyActor {
  import opened Common
  import opened Patterns
  import opened World

  datatype Pattern = Single | Fan3 | Circle

  /** The serialized settings of an enemy. */
  datatype EnemyConfig = EnemyConfig(
    hasPrefab: bool,          // a bullet prefab is assigned
    bulletSpeed: real,
    bulletLife: real,
    singleDuration: real,
    fanDuration: real,
    circleDuration: real,
    loopPatterns: bool,
    fireRateSingle: real,
    fireRateFan: real,
    fireRateCircle: real,
    fanAngleStep: real,
    circleCount: int,
    destructible: bool,
    hp: int,
    offscreenPadding: real,
    spawnGrace: real)

  /** How long the pattern lasts before the enemy moves on. */
  function PatternDuration(cfg: EnemyConfig, p: Pattern): (r: real)
    ensures p == Single ==> r == cfg.singleDuration
    ensures p == Fan3 ==> r == cfg.fanDuration
    ensures p == Circle ==> r == cfg.circleDuration
  {
    match p
    case Single => cfg.singleDuration
    case Fan3 => cfg.fanDuration
    case Circle => cfg.circleDuration
  }

  /** The firing period of the pattern. */
  function FireRate(cfg: EnemyConfig, p: Pattern): (r: real)
    ensures p == Single ==> r == cfg.fireRateSingle
    ensures p == Fan3 ==> r == cfg.fireRateFan
    ensures p == Circle ==> r == cfg.fireRateCircle
  {
    match p
    case Single => cfg.fireRateSingle
    case Fan3 => cfg.fireRateFan
    case Circle => cfg.fireRateCircle
  }

  /** Single is followed by Fan3, Fan3 by Circle, and Circle by Single when
      the patterns loop and by Circle again when they do not. */
  function NextPattern(p: Pattern, loop: bool): (r: Pattern)
    ensures r != p <==> p != Circle || loop
    ensures r == Single <==> p == Circle && loop
  {
    match p
    case Single => Fan3
    case Fan3 => Circle
    case Circle => if loop then Single else Circle
  }

  /** The pattern after `k` pattern changes. */
  function PatternAfter(p: Pattern, loop: bool, k: nat): Pattern
  {
    if k == 0 then p else NextPattern(PatternAfter(p, loop, k - 1), loop)
  }

  /** Looping patterns repeat every three changes. */
  lemma {:induction false} LoopingPatternsRepeat(p: Pattern, k: nat)
    ensures PatternAfter(p, true, k + 3) == PatternAfter(p, true, k)
  {
    if k == 0 {
      assert PatternAfter(p, true, 1) == NextPattern(p, true);
      assert PatternAfter(p, true, 2) == NextPattern(NextPattern(p, true), true);
    } else {
      LoopingPatternsRepeat(p, k - 1);
    }
  }

  /** Without looping, the enemy settles on Circle after at most two
      changes, and stays there. */
  lemma {:induction false} NonLoopingSettles(p: Pattern, k: nat)
    requires k >= 2
    ensures PatternAfter(p, false, k) == Circle
  {
    if k > 2 {
      NonLoopingSettles(p, k - 1);
    }
  }

  /** The angle towards the player, given as the Atan2 angle when a player
      exists; straight down (-90 degrees) when there is none. */
  function AimToPlayerDeg(playerAngle: Option<real>): (r: real)
    ensures playerAngle.None? ==> r == -90.0
    ensures playerAngle.Some? ==> r == playerAngle.value
  {
    match playerAngle
    case None => -90.0
    case Some(a) => a
  }

  /** The off-screen test on the enemy's viewport coordinates: outside when
      a coordinate lies more than `pad` below 0 or above 1; never outside
      when there is no camera. */
  function IsOutsideViewport(view: Option<Vec2>, pad: real): (r: bool)
    ensures view.None? ==> !r
    ensures view.Some? ==> (r <==> !(-pad <= view.value.x <= 1.0 + pad && -pad <= view.value.y <= 1.0 + pad))
  {
    match view
    case None => false
    case Some(v) => v.x < -pad || v.x > 1.0 + pad || v.y < -pad || v.y > 1.0 + pad
  }

  /** A wider padding never puts a point off screen that a narrower one
      keeps, and with a non-negative padding every point of the unit square
      is on screen. */
  lemma PaddingMonotone(v: Vec2, pad1: real, pad2: real)
    requires pad1 <= pad2
    ensures IsOutsideViewport(Some(v), pad2) ==> IsOutsideViewport(Some(v), pad1)
    ensures pad1 >= 0.0 && 0.0 <= v.x <= 1.0 && 0.0 <= v.y <= 1.0 ==> !IsOutsideViewport(Some(v), pad1)
  {
  }

  /** Mathf.RoundToInt: the nearest integer, halves going to the even one. */
  function RoundToInt(x: real): (r: int)
    ensures -0.5 <= x - r as real <= 0.5
    ensures x - r as real == 0.5 || x - r as real == -0.5 ==> r % 2 == 0
  {
    var f := x.Floor;
    var d := x - f as real;
    if d < 0.5 then f
    else if d > 0.5 then f + 1
    else if f % 2 == 0 then f
    else f + 1
  }

  /** The rounding is the only integer within one half of `x`, or the even
      one of the two when `x` lies halfway. */
  lemma RoundToIntUnique(x: real, n: int)
    requires -0.5 <= x - n as real <= 0.5
    requires x - n as real == 0.5 || x - n as real == -0.5 ==> n % 2 == 0
    ensures RoundToInt(x) == n
  {
  }

  /** Halves go to the even neighbour: concrete instances of RoundToInt's
      tie clause, as illustrations. */
  lemma RoundToIntHalves()
    ensures RoundToInt(0.5) == 0 && RoundToInt(1.5) == 2 && RoundToInt(2.5) == 2 && RoundToInt(-0.5) == 0
  {
  }

  /** Fan3: the aim, then one step to either side of it. */
  function Fan3Angles(aim: real, step: real): (r: seq<real>)
    ensures |r| == 3 && r[0] == aim
    ensures r[1] == aim - step && r[2] == aim + step
    ensures r[1] + r[2] == 2.0 * r[0]
  {
    [aim, aim - step, aim + step]
  }

  lemma MulNonNegative(a: real, b: real)
    requires a >= 0.0 && b >= 0.0
    ensures a * b >= 0.0
  {
  }

  /** The multiple of `step` nearest `aim`, ties going to the even multiple;
      it is within half a step of the aim. */
  function NearestMultiple(aim: real, step: real): (r: real)
    requires step > 0.0
    ensures -step / 2.0 <= r - aim <= step / 2.0
  {
    var q := aim / step;
    var n := RoundToInt(q) as real;
    DivMul(aim, step);
    MulNonNegative(0.5 - (n - q), step);
    MulNonNegative((n - q) + 0.5, step);
    assert (0.5 - (n - q)) * step == step / 2.0 - (n * step - q * step);
    assert ((n - q) + 0.5) * step == (n * step - q * step) + step / 2.0;
    n * step
  }

  /** The nearest multiple is a whole number of steps, and an even number
      of them when the aim lies halfway between two multiples. */
  lemma NearestMultipleOnGrid(aim: real, step: real)
    requires step > 0.0
    ensures var r := NearestMultiple(aim, step);
      && (r / step).Floor as real * step == r
      && (r - aim == step / 2.0 || aim - r == step / 2.0 ==> (r / step).Floor % 2 == 0)
  {
    var q := aim / step;
    var k := RoundToInt(q);
    var n := k as real;
    var r := NearestMultiple(aim, step);
    assert r == n * step;
    MulCancel(r / step, n, step);
    assert (r / step).Floor == k;
    DivMul(aim, step);
    assert r - aim == (n - q) * step;
    if r - aim == step / 2.0 {
      MulCancel(n - q, 0.5, step);
    } else if aim - r == step / 2.0 {
      MulCancel(q - n, 0.5, step);
    }
  }

  lemma MulCancel(a: real, b: real, step: real)
    requires step > 0.0 && a * step == b * step
    ensures a == b
  {
    assert (a - b) * step == 0.0;
  }

  lemma MulPositive(a: real, b: real)
    requires a > 0.0 && b > 0.0
    ensures a * b > 0.0
  {
  }

  /** The nearest multiple is the only multiple of `step` within half a step
      of `aim`, or the even one of the two when `aim` lies halfway. */
  lemma NearestMultipleUnique(aim: real, step: real, m: int)
    requires step > 0.0
    requires -step / 2.0 <= m as real * step - aim <= step / 2.0
    requires m as real * step - aim == step / 2.0 || aim - m as real * step == step / 2.0 ==> m % 2 == 0
    ensures NearestMultiple(aim, step) == m as real * step
  {
    var q := aim / step;
    var d := m as real - q;
    DivMul(aim, step);
    assert m as real * step - aim == d * step;
    if d > 0.5 {
      MulPositive(d - 0.5, step);
      assert false;
    }
    if d < -0.5 {
      MulPositive(-0.5 - d, step);
      assert false;
    }
    if d == 0.5 || d == -0.5 {
      assert m as real * step - aim == step / 2.0 || aim - m as real * step == step / 2.0;
    }
    RoundToIntUnique(q, m);
  }

  /** CircleOriented: `count` shots 360 / count apart, no shots when the
      count is not positive; the first shot is on the multiple of the step
      nearest the aim, so within half a step of it, and the shots cover less
      than one turn from there, in increasing order. */
  function CircleOrientedAngles(count: int, aim: real): (r: seq<real>)
    ensures count <= 0 ==> r == []
    ensures count > 0 ==> |r| == count
    ensures count > 0 ==> r[0] == NearestMultiple(aim, 360.0 / count as real)
    ensures count > 0 ==> -180.0 / count as real <= r[0] - aim <= 180.0 / count as real
    ensures count > 0 ==> forall i :: 0 <= i < count ==> r[i] == r[0] + (360.0 / count as real) * i as real
    ensures forall i, j :: 0 <= i < j < |r| ==> r[i] < r[j]
    ensures forall i :: 0 <= i < |r| ==> r[0] <= r[i] < r[0] + 360.0
  {
    if count <= 0 then []
    else
      var step := 360.0 / count as real;
      var start := NearestMultiple(aim, step);
      assert step / 2.0 == 180.0 / count as real;
      ProgressionWithinTurn(count, start, step);
      Progression(count, start, step)
  }

  /** The direction `n` steps of 360 / count from angle 0. */
  function GridAngle(n: int, count: int): real
    requires count > 0
  {
    n as real * (360.0 / count as real)
  }

  /** Every shot lies on a whole number of steps: the first shot is `k`
      steps from angle 0 and shot `i` is `k + i` steps from it. */
  lemma CircleOrientedOnGrid(count: int, aim: real) returns (k: int)
    requires count > 0
    ensures forall i :: 0 <= i < count ==> CircleOrientedAngles(count, aim)[i] == GridAngle(k + i, count)
  {
    var step := 360.0 / count as real;
    var r := CircleOrientedAngles(count, aim);
    NearestMultipleOnGrid(aim, step);
    k := (r[0] / step).Floor;
    forall i | 0 <= i < count ensures r[i] == GridAngle(k + i, count) {
      assert r[i] == r[0] + step * i as real;
      assert k as real * step + step * i as real == (k as real + i as real) * step;
    }
  }

  /** Snapping the first shot to the grid of steps makes the set of
      directions independent of the aim: every shot of the volley aimed at
      `aim1` points the same way as some shot of the volley aimed at `aim2`,
      up to whole turns. Only which shot comes first depends on the aim. */
  lemma CircleOrientedIgnoresAim(count: int, aim1: real, aim2: real, i: int) returns (j: int, turns: int)
    requires 0 <= i < count
    ensures 0 <= j < count
    ensures CircleOrientedAngles(count, aim1)[i] == CircleOrientedAngles(count, aim2)[j] + 360.0 * turns as real
  {
    var k1 := CircleOrientedOnGrid(count, aim1);
    var k2 := CircleOrientedOnGrid(count, aim2);
    j, turns := SplitTurns(k1 + i - k2, count);
    WholeTurns(k1 + i, k2 + j, turns, count);
  }

  /** Grid directions `turns * count` steps apart differ by `turns` whole
      turns. */
  lemma WholeTurns(a: int, b: int, turns: int, count: int)
    requires count > 0 && a == b + turns * count
    ensures GridAngle(a, count) == GridAngle(b, count) + 360.0 * turns as real
  {
    var step := 360.0 / count as real;
    DivMul(360.0, count as real);
    assert a as real * step == b as real * step + (turns * count) as real * step;
    assert (turns * count) as real * step == turns as real * (count as real * step);
  }

  /** `d` is `turns` whole rounds of `count` plus a remainder `j` below `count`. */
  lemma SplitTurns(d: int, count: int) returns (j: int, turns: int)
    requires count > 0
    ensures 0 <= j < count && d == j + turns * count
  {
    j, turns := d % count, d / count;
  }

  /** The angles of one volley of pattern `p` aimed at `aim`. */
  function AimedAngles(cfg: EnemyConfig, p: Pattern, aim: real): (r: seq<real>)
    ensures p == Single ==> r == [aim]
    ensures p == Fan3 ==> r == Fan3Angles(aim, cfg.fanAngleStep) && |r| == 3
    ensures p == Circle ==> r == CircleOrientedAngles(cfg.circleCount, aim) && |r| == MaxInt(0, cfg.circleCount)
  {
    match p
    case Single => [aim]
    case Fan3 => Fan3Angles(aim, cfg.fanAngleStep)
    case Circle => CircleOrientedAngles(cfg.circleCount, aim)
  }

  /** An enemy bullet fired at `zDeg`. */
  function EnemyShot(cfg: EnemyConfig, zDeg: real): BulletRec
  {
    BulletRec(Enemy, zDeg, cfg.bulletSpeed, cfg.bulletLife)
  }

  class BulletSpawnerEnemy {
    const scene: Scene
    const cfg: EnemyConfig
    /** The handle Instantiate returned for this enemy. */
    const id: nat
    var current: Pattern
    var patternTimer: real
    var fireTimer: real
    var aliveTime: real
    var hp: int
    /** How many times this enemy broadcast OnEnemyKilled. */
    var kills: nat

    ghost predicate Valid()
      reads this
    {
      patternTimer >= 0.0 && fireTimer >= 0.0 && aliveTime >= 0.0
    }

    /** The enemy still exists in the scene. */
    predicate Alive()
      reads this, scene
    {
      id in Ids(scene.enemies)
    }

    /** The enemy with handle `id`, with its serialized hit points. */
    constructor (scene: Scene, cfg: EnemyConfig, id: nat)
      ensures Valid()
      ensures this.scene == scene && this.cfg == cfg && this.id == id
      ensures current == Single && hp == cfg.hp && kills == 0
    {
      this.scene, this.cfg, this.id := scene, cfg, id;
      current, patternTimer, fireTimer, aliveTime := Single, 0.0, 0.0, 0.0;
      hp, kills := cfg.hp, 0;
    }

    /** Enabling restarts the pattern cycle at Single with every timer at zero. */
    method OnEnable()
      requires Valid()
      modifies this
      ensures Valid()
      ensures current == Single && patternTimer == 0.0 && fireTimer == 0.0 && aliveTime == 0.0
      ensures hp == old(hp) && kills == old(kills)
    {
      aliveTime := 0.0;
      patternTimer := 0.0;
      fireTimer := 0.0;
      current := Single;
    }

    /** The volley of the current pattern aimed through `playerAngle`. */
    function Volley(playerAngle: Option<real>): (r: seq<BulletRec>)
      reads this
      ensures |r| == |AimedAngles(cfg, current, AimToPlayerDeg(playerAngle))|
      ensures forall i :: 0 <= i < |r| ==> r[i].owner == Enemy
      ensures forall i :: 0 <= i < |r| ==> r[i] == EnemyShot(cfg, AimedAngles(cfg, current, AimToPlayerDeg(playerAngle))[i])
    {
      Shots(AimedAngles(cfg, current, AimToPlayerDeg(playerAngle)), Enemy, cfg.bulletSpeed, cfg.bulletLife)
    }

    /** One frame of `dt` seconds; `view` is the enemy's viewport point (None
        without a camera) and `playerAngle` the direction to the player (None
        without a player). Once the grace period is over an enemy off screen
        is destroyed and does nothing else. Otherwise the pattern timer
        advances and, when it reaches the duration of the pattern that was
        active, the enemy moves to the next pattern with the pattern timer at
        zero; then the fire timer advances and, when it reaches the rate of
        the pattern now active, one volley is fired and the fire timer
        restarts at zero. */
    method Update(dt: real, view: Option<Vec2>, playerAngle: Option<real>)
      requires Valid() && scene.Valid() && Alive() && dt >= 0.0
      modifies this, scene
      ensures Valid() && scene.Valid()
      ensures aliveTime == old(aliveTime) + dt
      ensures hp == old(hp) && kills == old(kills)
      ensures var culled := old(aliveTime) + dt >= cfg.spawnGrace && IsOutsideViewport(view, cfg.offscreenPadding);
        && (culled ==>
              && scene.enemies == Purge(old(scene.enemies), {id}) && !Alive()
              && scene.bullets == old(scene.bullets)
              && current == old(current) && patternTimer == old(patternTimer) && fireTimer == old(fireTimer))
        && (!culled ==>
              && var switched := old(patternTimer) + dt >= PatternDuration(cfg, old(current));
              && current == (if switched then NextPattern(old(current), cfg.loopPatterns) else old(current))
              && patternTimer == (if switched then 0.0 else old(patternTimer) + dt)
              && var fired := old(fireTimer) + dt >= FireRate(cfg, current);
              && fireTimer == (if fired then 0.0 else old(fireTimer) + dt)
              && scene.bullets == old(scene.bullets) + (if fired && cfg.hasPrefab then Volley(playerAngle) else [])
              && scene.enemies == old(scene.enemies))
    {
      aliveTime := aliveTime + dt;
      if aliveTime >= cfg.spawnGrace && IsOutsideViewport(view, cfg.offscreenPadding) {
        Destroy();
        return;
      }
      patternTimer := patternTimer + dt;
      fireTimer := fireTimer + dt;
      if patternTimer >= PatternDuration(cfg, current) {
        patternTimer := 0.0;
        current := NextPattern(current, cfg.loopPatterns);
      }
      var rate := FireRate(cfg, current);
      if fireTimer >= rate {
        FireCurrentPattern(playerAngle);
        fireTimer := 0.0;
      }
    }

    /** Fires the current pattern; nothing without a bullet prefab. */
    method FireCurrentPattern(playerAngle: Option<real>)
      requires scene.Valid()
      modifies scene
      ensures scene.Valid()
      ensures scene.bullets == old(scene.bullets) + (if cfg.hasPrefab then Volley(playerAngle) else [])
      ensures scene.enemies == old(scene.enemies)
    {
      if !cfg.hasPrefab {
        return;
      }
      match current
      case Single => FireSingleAimed(playerAngle);
      case Fan3 => FireFan3Aimed(playerAngle);
      case Circle => FireCircleOriented(playerAngle);
    }

    /** One bullet at the player. */
    method FireSingleAimed(playerAngle: Option<real>)
      requires scene.Valid()
      modifies scene
      ensures scene.Valid()
      ensures scene.bullets == old(scene.bullets) + [EnemyShot(cfg, AimToPlayerDeg(playerAngle))]
      ensures scene.enemies == old(scene.enemies)
    {
      ShootAtAngle(AimToPlayerDeg(playerAngle));
    }

    /** Three bullets: at the player, then one fan step to either side. */
    method FireFan3Aimed(playerAngle: Option<real>)
      requires scene.Valid()
      modifies scene
      ensures scene.Valid()
      ensures scene.bullets == old(scene.bullets) +
        Shots(Fan3Angles(AimToPlayerDeg(playerAngle), cfg.fanAngleStep), Enemy, cfg.bulletSpeed, cfg.bulletLife)
      ensures scene.enemies == old(scene.enemies)
    {
      var baseAng := AimToPlayerDeg(playerAngle);
      ShootAtAngle(baseAng);
      ShootAtAngle(baseAng - cfg.fanAngleStep);
      ShootAtAngle(baseAng + cfg.fanAngleStep);
      assert Shots(Fan3Angles(baseAng, cfg.fanAngleStep), Enemy, cfg.bulletSpeed, cfg.bulletLife)
          == [EnemyShot(cfg, baseAng), EnemyShot(cfg, baseAng - cfg.fanAngleStep), EnemyShot(cfg, baseAng + cfg.fanAngleStep)];
    }

    /** A full circle of bullets whose first shot is the multiple of the step
        nearest the player's direction, fired one after the other. */
    method FireCircleOriented(playerAngle: Option<real>)
      requires scene.Valid()
      modifies scene
      ensures scene.Valid()
      ensures scene.bullets == old(scene.bullets) +
        Shots(CircleOrientedAngles(cfg.circleCount, AimToPlayerDeg(playerAngle)), Enemy, cfg.bulletSpeed, cfg.bulletLife)
      ensures scene.enemies == old(scene.enemies)
    {
      if cfg.circleCount <= 0 {
        return;
      }
      var baseAng := AimToPlayerDeg(playerAngle);
      var step := 360.0 / cfg.circleCount as real;
      var start := NearestMultiple(baseAng, step);
      ghost var angles := CircleOrientedAngles(cfg.circleCount, baseAng);
      for i := 0 to cfg.circleCount
        invariant scene.Valid()
        invariant scene.bullets == old(scene.bullets) + Shots(angles[..i], Enemy, cfg.bulletSpeed, cfg.bulletLife)
        invariant scene.enemies == old(scene.enemies)
      {
        ShootAtAngle(start + step * i as real);
        ShotsSnoc(angles, i, Enemy, cfg.bulletSpeed, cfg.bulletLife);
        assert angles[i] == start + step * i as real;
      }
      assert angles[..cfg.circleCount] == angles;
    }

    /** Instantiates one enemy bullet at `zDeg`, unwrapped. */
    method ShootAtAngle(zDeg: real)
      requires scene.Valid()
      modifies scene
      ensures scene.Valid()
      ensures scene.bullets == old(scene.bullets) + [EnemyShot(cfg, zDeg)]
      ensures scene.enemies == old(scene.enemies)
    {
      scene.SpawnBullet(EnemyShot(cfg, zDeg));
    }

    /** Destroys this enemy. */
    method Destroy()
      requires scene.Valid()
      modifies scene
      ensures scene.Valid() && !Alive()
      ensures scene.enemies == Purge(old(scene.enemies), {id}) && scene.bullets == old(scene.bullets)
    {
      scene.DestroyEnemy(id);
    }

    /** A contact: when the enemy is destructible, each player bullet takes
        one hit point, and at zero or below the enemy broadcasts its death
        and is destroyed. Anything else is ignored. */
    method OnTriggerEnter2D(other: Contact)
      requires scene.Valid()
      modifies this, scene
      ensures scene.Valid()
      ensures !(cfg.destructible && other == BulletOf(Player)) ==> unchanged(this) && unchanged(scene)
      ensures cfg.destructible && other == BulletOf(Player) ==>
        && hp == old(hp) - 1
        && (hp <= 0 ==> kills == old(kills) + 1 && scene.enemies == Purge(old(scene.enemies), {id}) && !Alive())
        && (hp > 0 ==> kills == old(kills) && unchanged(scene))
      ensures current == old(current) && patternTimer == old(patternTimer)
      ensures fireTimer == old(fireTimer) && aliveTime == old(aliveTime)
      ensures scene.bullets == old(scene.bullets)
    {
      if !cfg.destructible {
        return;
      }
      if other == BulletOf(Player) {
        hp := hp - 1;
        if hp <= 0 {
          kills := kills + 1;
          Destroy();
        }
      }
    }
  }
}
