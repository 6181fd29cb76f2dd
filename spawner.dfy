/** The ambient emitter (BulletSpawner): the same three patterns as the boss,
    cycling forever from the scene's first frame, with no hit points and no
    active flag. Its bullets are not tagged by the emitter, so they keep the
    owner their prefab was saved with. The PatternSwitcher coroutine is an
    explicit deadline, as for the boss. */
module AmbientEmitter {
  import opened Common
  import opened Patterns
  import opened World

  class BulletSpawner {
    const scene: Scene
    const cfg: EmitterConfig
    /** The owner tag saved on the bullet prefab. */
    const prefabOwner: Owner
    var spawnerType: SpawnerType
    var timer: real
    var cycleIndex: int
    var rosePhaseDeg: real
    var switcherOn: bool
    var nextSwitchAt: real

    /** The timer is never negative, the cycle index stays inside a non-empty
        cycle and no switcher runs over an empty cycle. */
    ghost predicate Valid()
      reads this
    {
      && timer >= 0.0
      && (|cfg.cycle| > 0 ==> 0 <= cycleIndex < |cfg.cycle|)
      && (|cfg.cycle| == 0 ==> cycleIndex == 0 && !switcherOn)
    }

    /** The emitter as placed in the scene; `pattern` is the serialized
        starting pattern. */
    constructor (scene: Scene, cfg: EmitterConfig, prefabOwner: Owner, pattern: SpawnerType)
      ensures Valid()
      ensures this.scene == scene && this.cfg == cfg && this.prefabOwner == prefabOwner
      ensures spawnerType == pattern && timer == 0.0 && cycleIndex == 0 && rosePhaseDeg == 0.0 && !switcherOn
    {
      this.scene, this.cfg, this.prefabOwner := scene, cfg, prefabOwner;
      spawnerType, timer, cycleIndex, rosePhaseDeg := pattern, 0.0, 0, 0.0;
      switcherOn, nextSwitchAt := false, 0.0;
    }

    /** Unity's Start at game time `now` runs the switcher up to its first
        wait: with a non-empty cycle the first entry becomes the pattern and
        the switcher waits one interval; with an empty cycle the serialized
        pattern stays and there is no switcher. */
    method Start(now: real)
      requires Valid() && scene.Valid()
      modifies this, scene
      ensures Valid() && scene.Valid()
      ensures |cfg.cycle| == 0 ==> unchanged(this) && unchanged(scene)
      ensures |cfg.cycle| > 0 ==>
        && cycleIndex == 0 && spawnerType == cfg.cycle[0] && timer == 0.0
        && rosePhaseDeg == (if cfg.cycle[0] == RoseStar then 0.0 else old(rosePhaseDeg))
        && switcherOn && nextSwitchAt == now + cfg.switchInterval
        && scene.bullets == (if cfg.clearOnSwitch then [] else old(scene.bullets))
        && scene.enemies == old(scene.enemies)
    {
      if |cfg.cycle| == 0 {
        return;
      }
      cycleIndex := 0;
      SetPattern(cfg.cycle[cycleIndex]);
      switcherOn := true;
      nextSwitchAt := now + cfg.switchInterval;
    }

    /** One frame of `dt` seconds with fan sway `sway`: the rose phase
        advances while RoseStar is active, the timer advances, and one volley
        of the active pattern is fired exactly when the timer reaches that
        pattern's period, after which the timer restarts at zero. */
    method Update(dt: real, sway: real)
      requires Valid() && scene.Valid() && dt >= 0.0
      modifies this, scene
      ensures Valid() && scene.Valid()
      ensures rosePhaseDeg == old(rosePhaseDeg) + (if spawnerType == RoseStar then cfg.roseSpin * dt else 0.0)
      ensures var fired := old(timer) + dt >= FiringPeriod(cfg, spawnerType);
        && timer == (if fired then 0.0 else old(timer) + dt)
        && scene.bullets == old(scene.bullets) + (if fired && cfg.hasBullet then Volley(sway) else [])
      ensures spawnerType == old(spawnerType) && cycleIndex == old(cycleIndex)
      ensures switcherOn == old(switcherOn) && nextSwitchAt == old(nextSwitchAt)
      ensures scene.enemies == old(scene.enemies)
    {
      if spawnerType == RoseStar {
        rosePhaseDeg := rosePhaseDeg + cfg.roseSpin * dt;
      }
      var currentRate := FiringPeriod(cfg, spawnerType);
      timer := timer + dt;
      if timer >= currentRate {
        Fire(sway);
        timer := 0.0;
      }
    }

    /** The bullets of one volley of the active pattern, tagged with the
        prefab's owner. */
    function Volley(sway: real): (r: seq<BulletRec>)
      reads this
      ensures |r| == |VolleyAngles(cfg, spawnerType, sway, rosePhaseDeg)|
      ensures forall i :: 0 <= i < |r| ==>
        r[i] == BulletRec(prefabOwner, VolleyAngles(cfg, spawnerType, sway, rosePhaseDeg)[i], cfg.speed, cfg.bulletLife)
    {
      Shots(VolleyAngles(cfg, spawnerType, sway, rosePhaseDeg), prefabOwner, cfg.speed, cfg.bulletLife)
    }

    /** The switcher at game time `now`: at its deadline it moves to the next
        entry of the cycle, wrapping around, sets that pattern and waits
        another interval; before the deadline nothing happens. */
    method SwitcherStep(now: real)
      requires Valid() && scene.Valid()
      modifies this, scene
      ensures Valid() && scene.Valid()
      ensures !old(switcherOn) || now < old(nextSwitchAt) ==> unchanged(this) && unchanged(scene)
      ensures old(switcherOn) && now >= old(nextSwitchAt) ==>
        && cycleIndex == NextCycleIndex(old(cycleIndex), |cfg.cycle|)
        && spawnerType == cfg.cycle[cycleIndex] && timer == 0.0
        && rosePhaseDeg == (if spawnerType == RoseStar then 0.0 else old(rosePhaseDeg))
        && switcherOn && nextSwitchAt == now + cfg.switchInterval
        && scene.bullets == (if cfg.clearOnSwitch then [] else old(scene.bullets))
        && scene.enemies == old(scene.enemies)
    {
      if !switcherOn || now < nextSwitchAt {
        return;
      }
      cycleIndex := NextCycleIndex(cycleIndex, |cfg.cycle|);
      SetPattern(cfg.cycle[cycleIndex]);
      nextSwitchAt := now + cfg.switchInterval;
    }

    /** Makes `next` the active pattern: the timer restarts, the rose phase
        restarts only when switching to RoseStar, and with clearOnSwitch every
        bullet in the scene is destroyed. */
    method SetPattern(next: SpawnerType)
      requires Valid() && scene.Valid()
      modifies this, scene
      ensures Valid() && scene.Valid()
      ensures spawnerType == next && timer == 0.0
      ensures rosePhaseDeg == (if next == RoseStar then 0.0 else old(rosePhaseDeg))
      ensures scene.bullets == (if cfg.clearOnSwitch then [] else old(scene.bullets))
      ensures scene.enemies == old(scene.enemies)
      ensures cycleIndex == old(cycleIndex) && switcherOn == old(switcherOn) && nextSwitchAt == old(nextSwitchAt)
    {
      spawnerType := next;
      timer := 0.0;
      if spawnerType == RoseStar {
        rosePhaseDeg := 0.0;
      }
      if cfg.clearOnSwitch {
        ClearExistingBullets();
      }
    }

    /** Fires one volley of the active pattern; nothing without a bullet prefab. */
    method Fire(sway: real)
      requires Valid() && scene.Valid()
      modifies scene
      ensures scene.Valid()
      ensures scene.bullets == old(scene.bullets) + (if cfg.hasBullet then Volley(sway) else [])
      ensures scene.enemies == old(scene.enemies)
    {
      if !cfg.hasBullet {
        return;
      }
      match spawnerType
      case Fan => FireFan(sway);
      case CircleBurst => FireCircleBurst();
      case RoseStar => FireRoseStar();
    }

    method FireFan(sway: real)
      requires scene.Valid()
      modifies scene
      ensures scene.Valid()
      ensures scene.bullets == old(scene.bullets) +
        Shots(FanAngles(cfg.fanCount, cfg.fanSpread, cfg.angleOffset, sway), prefabOwner, cfg.speed, cfg.bulletLife)
      ensures scene.enemies == old(scene.enemies)
    {
      scene.SpawnVolley(Shots(FanAngles(cfg.fanCount, cfg.fanSpread, cfg.angleOffset, sway), prefabOwner, cfg.speed, cfg.bulletLife));
    }

    method FireCircleBurst()
      requires scene.Valid()
      modifies scene
      ensures scene.Valid()
      ensures scene.bullets == old(scene.bullets) +
        Shots(CircleAngles(cfg.circleCount, cfg.angleOffset), prefabOwner, cfg.speed, cfg.bulletLife)
      ensures scene.enemies == old(scene.enemies)
    {
      scene.SpawnVolley(Shots(CircleAngles(cfg.circleCount, cfg.angleOffset), prefabOwner, cfg.speed, cfg.bulletLife));
    }

    method FireRoseStar()
      requires scene.Valid()
      modifies scene
      ensures scene.Valid()
      ensures scene.bullets == old(scene.bullets) +
        Shots(RoseAngles(cfg.roseSamples, cfg.roseRingsPerTick, cfg.angleOffset, rosePhaseDeg), prefabOwner, cfg.speed, cfg.bulletLife)
      ensures scene.enemies == old(scene.enemies)
    {
      scene.SpawnVolley(Shots(RoseAngles(cfg.roseSamples, cfg.roseRingsPerTick, cfg.angleOffset, rosePhaseDeg), prefabOwner, cfg.speed, cfg.bulletLife));
    }

    /** Destroys every bullet in the scene, whoever fired it. */
    method ClearExistingBullets()
      requires scene.Valid()
      modifies scene
      ensures scene.Valid()
      ensures scene.bullets == [] && scene.enemies == old(scene.enemies)
    {
      var _ := scene.DestroyAllBullets();
    }
  }
}
