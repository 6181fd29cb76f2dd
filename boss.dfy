/** The boss (BulletSpawnerBoss): a pattern emitter that cycles through its
    patterns on a timer, with hit points that player bullets wear down. The
    PatternSwitcher coroutine is an explicit deadline: `switcherOn` says the
    coroutine is alive and `nextSwitchAt` is the game time at which its
    WaitForSeconds ends. */
module BossEmitter {
  import opened Common
  import opened Patterns
  import opened World

  /** The boss's broadcasts: OnBossHealthChanged(current, max) and OnBossDefeated. */
  datatype BossEvent = HealthChanged(hp: int, maxHP: int) | Defeated

  /** Hit points after one player hit: one less, never below zero. */
  function HitHP(hp: int): (r: int)
    ensures r >= 0
    ensures hp >= 1 ==> r == hp - 1
    ensures hp <= 1 ==> r == 0
  {
    MaxInt(0, hp - 1)
  }

  /** Hit points after `k` player hits. */
  function HPAfterHits(hp: int, k: nat): int
  {
    if k == 0 then hp else HitHP(HPAfterHits(hp, k - 1))
  }

  /** Each hit takes exactly one point until none is left. */
  lemma {:induction false} HitsWearDown(hp: int, k: nat)
    requires hp >= 0
    ensures HPAfterHits(hp, k) == MaxInt(0, hp - k)
  {
    if k > 0 {
      HitsWearDown(hp, k - 1);
    }
  }

  /** A freshly enabled boss survives fewer than max(1, maxHP) hits and is
      brought to zero by exactly that many. */
  lemma DefeatedByFullHits(maxHP: int, k: nat)
    ensures k < MaxInt(1, maxHP) ==> HPAfterHits(MaxInt(1, maxHP), k) > 0
    ensures HPAfterHits(MaxInt(1, maxHP), MaxInt(1, maxHP)) == 0
  {
    HitsWearDown(MaxInt(1, maxHP), k);
    HitsWearDown(MaxInt(1, maxHP), MaxInt(1, maxHP));
  }

  class BulletSpawnerBoss {
    const scene: Scene
    const cfg: EmitterConfig
    const maxHP: int
    var currentHP: int
    var spawnerType: SpawnerType
    var timer: real
    var cycleIndex: int
    var rosePhaseDeg: real
    var isActive: bool
    var switcherOn: bool
    var nextSwitchAt: real
    /** Broadcasts so far, oldest first. */
    var events: seq<BossEvent>
    var destroyed: bool

    /** The fire timer is never negative, the cycle index stays inside a
        non-empty cycle, no switcher runs over an empty cycle, and the hit
        points stay between zero and max(1, maxHP). */
    ghost predicate Valid()
      reads this
    {
      && timer >= 0.0
      && (|cfg.cycle| > 0 ==> 0 <= cycleIndex < |cfg.cycle|)
      && (|cfg.cycle| == 0 ==> cycleIndex == 0 && !switcherOn)
      && 0 <= currentHP <= MaxInt(1, maxHP)
    }

    /** The boss as placed in the scene, inactive until enabled; `pattern` is
        the serialized starting pattern. */
    constructor (scene: Scene, cfg: EmitterConfig, maxHP: int, pattern: SpawnerType)
      ensures Valid()
      ensures this.scene == scene && this.cfg == cfg && this.maxHP == maxHP
      ensures spawnerType == pattern && !isActive && !switcherOn && !destroyed && events == []
    {
      this.scene, this.cfg, this.maxHP := scene, cfg, maxHP;
      currentHP, spawnerType, timer, cycleIndex, rosePhaseDeg := 0, pattern, 0.0, 0, 0.0;
      isActive, switcherOn, nextSwitchAt, events, destroyed := false, false, 0.0, [], false;
    }

    /** Enabling the boss at game time `now`: full hit points (at least one),
        timer and cycle index back to zero, active; with a non-empty cycle the
        first pattern of the cycle is set and the switcher starts. */
    method OnEnable(now: real)
      requires Valid() && scene.Valid()
      modifies this, scene
      ensures Valid() && scene.Valid()
      ensures currentHP == MaxInt(1, maxHP) && events == old(events) + [HealthChanged(currentHP, maxHP)]
      ensures timer == 0.0 && cycleIndex == 0 && isActive && destroyed == old(destroyed)
      ensures |cfg.cycle| > 0 ==>
        && spawnerType == cfg.cycle[0]
        && rosePhaseDeg == (if cfg.cycle[0] == RoseStar then 0.0 else old(rosePhaseDeg))
        && switcherOn && nextSwitchAt == now + cfg.switchInterval
        && scene.bullets == (if cfg.clearOnSwitch then KeepFriendly(old(scene.bullets)) else old(scene.bullets))
      ensures |cfg.cycle| == 0 ==>
        && spawnerType == old(spawnerType) && rosePhaseDeg == old(rosePhaseDeg)
        && !switcherOn && nextSwitchAt == old(nextSwitchAt)
        && scene.bullets == old(scene.bullets)
      ensures scene.enemies == old(scene.enemies) && scene.nextId == old(scene.nextId)
    {
      currentHP := MaxInt(1, maxHP);
      events := events + [HealthChanged(currentHP, maxHP)];
      timer := 0.0;
      cycleIndex := 0;
      isActive := true;
      if |cfg.cycle| > 0 {
        SetPattern(cfg.cycle[cycleIndex]);
        switcherOn := true;
        nextSwitchAt := now + cfg.switchInterval;
      }
    }

    /** Disabling the boss deactivates it and stops the switcher. */
    method OnDisable()
      requires Valid()
      modifies this
      ensures Valid()
      ensures !isActive && !switcherOn
      ensures currentHP == old(currentHP) && spawnerType == old(spawnerType) && timer == old(timer)
      ensures cycleIndex == old(cycleIndex) && rosePhaseDeg == old(rosePhaseDeg)
      ensures nextSwitchAt == old(nextSwitchAt) && events == old(events) && destroyed == old(destroyed)
    {
      isActive := false;
      switcherOn := false;
    }

    /** One frame of `dt` seconds with fan sway `sway`. An inactive boss does
        nothing. An active one advances the rose phase while RoseStar is
        active, advances the fire timer, and fires one volley of the active
        pattern exactly when the timer reaches that pattern's period, after
        which the timer restarts at zero. */
    method Update(dt: real, sway: real)
      requires Valid() && scene.Valid() && dt >= 0.0
      modifies this, scene
      ensures Valid() && scene.Valid()
      ensures !old(isActive) ==> unchanged(this) && unchanged(scene)
      ensures old(isActive) ==>
        && rosePhaseDeg == old(rosePhaseDeg) + (if spawnerType == RoseStar then cfg.roseSpin * dt else 0.0)
        && var fired := old(timer) + dt >= FiringPeriod(cfg, spawnerType);
           && timer == (if fired then 0.0 else old(timer) + dt)
           && scene.bullets == old(scene.bullets) +
                (if fired && cfg.hasBullet then Volley(sway) else [])
      ensures spawnerType == old(spawnerType) && cycleIndex == old(cycleIndex) && isActive == old(isActive)
      ensures currentHP == old(currentHP) && events == old(events) && destroyed == old(destroyed)
      ensures switcherOn == old(switcherOn) && nextSwitchAt == old(nextSwitchAt)
      ensures scene.enemies == old(scene.enemies)
    {
      if !isActive {
        return;
      }
      if spawnerType == RoseStar {
        rosePhaseDeg := rosePhaseDeg + cfg.roseSpin * dt;
      }
      var currentRate := FiringPeriod(cfg, spawnerType);
      timer := timer + dt;
      if timer >= currentRate {
        Fire(sway);
        timer := 0.0;
      }
    }

    /** The bullets of one volley of the active pattern. */
    function Volley(sway: real): (r: seq<BulletRec>)
      reads this
      ensures |r| == |VolleyAngles(cfg, spawnerType, sway, rosePhaseDeg)|
      ensures forall i :: 0 <= i < |r| ==>
        r[i] == BulletRec(Enemy, VolleyAngles(cfg, spawnerType, sway, rosePhaseDeg)[i], cfg.speed, cfg.bulletLife)
    {
      Shots(VolleyAngles(cfg, spawnerType, sway, rosePhaseDeg), Enemy, cfg.speed, cfg.bulletLife)
    }

    /** The switcher at game time `now`. Before its deadline, or once it has
        stopped, nothing happens. At the deadline an inactive boss ends the
        switcher; an active one moves to the next entry of the cycle, wrapping
        around, sets that pattern and waits another interval. */
    method SwitcherStep(now: real)
      requires Valid() && scene.Valid()
      modifies this, scene
      ensures Valid() && scene.Valid()
      ensures !old(switcherOn) || now < old(nextSwitchAt) ==> unchanged(this) && unchanged(scene)
      ensures old(switcherOn) && now >= old(nextSwitchAt) && !old(isActive) ==>
        && !switcherOn && unchanged(scene)
        && cycleIndex == old(cycleIndex) && spawnerType == old(spawnerType) && timer == old(timer)
        && rosePhaseDeg == old(rosePhaseDeg)
      ensures old(switcherOn) && now >= old(nextSwitchAt) && old(isActive) ==>
        && cycleIndex == NextCycleIndex(old(cycleIndex), |cfg.cycle|)
        && spawnerType == cfg.cycle[cycleIndex] && timer == 0.0
        && rosePhaseDeg == (if spawnerType == RoseStar then 0.0 else old(rosePhaseDeg))
        && switcherOn && nextSwitchAt == now + cfg.switchInterval
        && scene.bullets == (if cfg.clearOnSwitch then KeepFriendly(old(scene.bullets)) else old(scene.bullets))
        && scene.enemies == old(scene.enemies)
      ensures currentHP == old(currentHP) && isActive == old(isActive)
      ensures events == old(events) && destroyed == old(destroyed)
    {
      if !switcherOn || now < nextSwitchAt {
        return;
      }
      if !isActive {
        switcherOn := false;
        return;
      }
      cycleIndex := NextCycleIndex(cycleIndex, |cfg.cycle|);
      SetPattern(cfg.cycle[cycleIndex]);
      nextSwitchAt := now + cfg.switchInterval;
    }

    /** Makes `next` the active pattern: the fire timer restarts, the rose
        phase restarts only when switching to RoseStar, and with clearOnSwitch
        the enemy bullets are cleared. */
    method SetPattern(next: SpawnerType)
      requires Valid() && scene.Valid()
      modifies this, scene
      ensures Valid() && scene.Valid()
      ensures spawnerType == next && timer == 0.0
      ensures rosePhaseDeg == (if next == RoseStar then 0.0 else old(rosePhaseDeg))
      ensures scene.bullets == (if cfg.clearOnSwitch then KeepFriendly(old(scene.bullets)) else old(scene.bullets))
      ensures scene.enemies == old(scene.enemies) && scene.nextId == old(scene.nextId)
      ensures currentHP == old(currentHP) && cycleIndex == old(cycleIndex) && isActive == old(isActive)
      ensures switcherOn == old(switcherOn) && nextSwitchAt == old(nextSwitchAt)
      ensures events == old(events) && destroyed == old(destroyed)
    {
      spawnerType := next;
      timer := 0.0;
      if spawnerType == RoseStar {
        rosePhaseDeg := 0.0;
      }
      if cfg.clearOnSwitch {
        ClearExistingBullets();
      }
    }

    /** Fires one volley of the active pattern; nothing without a bullet
        prefab or while inactive. */
    method Fire(sway: real)
      requires Valid() && scene.Valid()
      modifies scene
      ensures scene.Valid()
      ensures scene.bullets == old(scene.bullets) + (if cfg.hasBullet && isActive then Volley(sway) else [])
      ensures scene.enemies == old(scene.enemies)
    {
      if !cfg.hasBullet || !isActive {
        return;
      }
      match spawnerType
      case Fan => FireFan(sway);
      case CircleBurst => FireCircleBurst();
      case RoseStar => FireRoseStar();
    }

    /** The fan volley, spawned one bullet at a time. */
    method FireFan(sway: real)
      requires scene.Valid()
      modifies scene
      ensures scene.Valid()
      ensures scene.bullets == old(scene.bullets) +
        Shots(FanAngles(cfg.fanCount, cfg.fanSpread, cfg.angleOffset, sway), Enemy, cfg.speed, cfg.bulletLife)
      ensures scene.enemies == old(scene.enemies)
    {
      scene.SpawnVolley(Shots(FanAngles(cfg.fanCount, cfg.fanSpread, cfg.angleOffset, sway), Enemy, cfg.speed, cfg.bulletLife));
    }

    /** The circle burst, spawned one bullet at a time. */
    method FireCircleBurst()
      requires scene.Valid()
      modifies scene
      ensures scene.Valid()
      ensures scene.bullets == old(scene.bullets) +
        Shots(CircleAngles(cfg.circleCount, cfg.angleOffset), Enemy, cfg.speed, cfg.bulletLife)
      ensures scene.enemies == old(scene.enemies)
    {
      scene.SpawnVolley(Shots(CircleAngles(cfg.circleCount, cfg.angleOffset), Enemy, cfg.speed, cfg.bulletLife));
    }

    /** The rose volley at the current phase, ring after ring. */
    method FireRoseStar()
      requires scene.Valid()
      modifies scene
      ensures scene.Valid()
      ensures scene.bullets == old(scene.bullets) +
        Shots(RoseAngles(cfg.roseSamples, cfg.roseRingsPerTick, cfg.angleOffset, rosePhaseDeg), Enemy, cfg.speed, cfg.bulletLife)
      ensures scene.enemies == old(scene.enemies)
    {
      scene.SpawnVolley(Shots(RoseAngles(cfg.roseSamples, cfg.roseRingsPerTick, cfg.angleOffset, rosePhaseDeg), Enemy, cfg.speed, cfg.bulletLife));
    }

    /** Destroys every enemy-owned bullet and leaves player bullets. */
    method ClearExistingBullets()
      requires scene.Valid()
      modifies scene
      ensures scene.Valid()
      ensures scene.bullets == KeepFriendly(old(scene.bullets))
      ensures scene.enemies == old(scene.enemies) && scene.nextId == old(scene.nextId)
    {
      var _ := scene.DestroyEnemyBullets();
    }

    /** A contact: each player bullet takes one hit point, never going below
        zero, and broadcasts the new hit points; at zero the boss broadcasts
        its defeat and is destroyed (which disables it). Anything else is
        ignored. A boss already at zero that is hit again within the frame
        broadcasts its defeat again. */
    method OnTriggerEnter2D(other: Contact)
      requires Valid()
      modifies this
      ensures Valid()
      ensures other != BulletOf(Player) ==> unchanged(this)
      ensures other == BulletOf(Player) ==>
        && currentHP == HitHP(old(currentHP))
        && events == old(events) + [HealthChanged(currentHP, maxHP)] + (if currentHP == 0 then [Defeated] else [])
        && (currentHP == 0 ==> destroyed && !isActive && !switcherOn)
        && (currentHP > 0 ==> destroyed == old(destroyed) && isActive == old(isActive) && switcherOn == old(switcherOn))
      ensures spawnerType == old(spawnerType) && timer == old(timer) && cycleIndex == old(cycleIndex)
      ensures rosePhaseDeg == old(rosePhaseDeg) && nextSwitchAt == old(nextSwitchAt)
    {
      if other == BulletOf(Player) {
        currentHP := HitHP(currentHP);
        events := events + [HealthChanged(currentHP, maxHP)];
        if currentHP <= 0 {
          events := events + [Defeated];
          destroyed := true;
          OnDisable();
        }
      }
    }

    /** The player died: the boss stops firing and clears enemy bullets. */
    method HandlePlayerDiedStop()
      requires Valid() && scene.Valid()
      modifies this, scene
      ensures Valid() && scene.Valid()
      ensures !isActive
      ensures scene.bullets == KeepFriendly(old(scene.bullets)) && scene.enemies == old(scene.enemies)
      ensures currentHP == old(currentHP) && spawnerType == old(spawnerType) && timer == old(timer)
      ensures cycleIndex == old(cycleIndex) && rosePhaseDeg == old(rosePhaseDeg) && switcherOn == old(switcherOn)
      ensures nextSwitchAt == old(nextSwitchAt) && events == old(events) && destroyed == old(destroyed)
    {
      isActive := false;
      ClearExistingBullets();
    }
  }
}
