/** The level controller (LevelController): phase 1 with the enemy spawn
    areas running, then at a fixed time the switch to the boss phase (areas
    off, every enemy and enemy bullet cleared, the boss shown after a
    delay), and the end of the game on the first of the player's death and
    the boss's defeat. The game time is the global clock's elapsed time.
    The boss root is modelled as holding the boss emitter: activating the
    root enables the boss, deactivating it disables the boss, and a
    destroyed boss is left alone. */
module Level {
  import opened Common
  import opened World
  import opened Clock
  import opened Area
  import opened BossEmitter

  datatype Phase = NoPhase | Phase1 | Boss | End

  /** When the boss is due after a transition at game time `t`: the delay
      counts only when it is positive, so never before the transition. */
  function BossEnableAt(t: real, bossDelay: real): (r: real)
    ensures r >= t
    ensures bossDelay >= 0.0 ==> r == t + bossDelay
    ensures bossDelay <= 0.0 ==> r == t
  {
    t + MaxReal(0.0, bossDelay)
  }

  /** The boss is shown on a frame exactly when it has not been shown yet,
      a time for it has been set (a positive one) and that time has come. */
  predicate BossDue(shown: bool, enableAt: real, t: real)
  {
    !shown && enableAt > 0.0 && t >= enableAt
  }

  /** The initial time of -1, or any time that is not positive, never
      brings the boss out; in particular a transition at time 0 with no
      delay leaves the boss hidden for the rest of the game. */
  lemma BossNeverDueBeforeScheduled(t: real, bossDelay: real, later: real)
    ensures !BossDue(false, -1.0, later)
    ensures bossDelay <= 0.0 ==> !BossDue(false, BossEnableAt(0.0, bossDelay), later)
    ensures t > 0.0 && later < BossEnableAt(t, bossDelay) ==> !BossDue(false, BossEnableAt(t, bossDelay), later)
    ensures t > 0.0 && later >= BossEnableAt(t, bossDelay) ==> BossDue(false, BossEnableAt(t, bossDelay), later)
  {
  }

  class LevelController {
    const clock: TimeManager
    const scene: Scene
    /** The spawn areas assigned to the level. */
    const spawners: seq<AreaEnemy>
    /** A boss root is assigned. */
    const hasBossRoot: bool
    const boss: BulletSpawnerBoss
    const phase1EndAt: real
    const bossDelay: real
    var phase: Phase
    var gameOverTriggered: bool
    var phase1Started: bool
    var bossTransitionDone: bool
    var bossShown: bool
    var gameEnded: bool
    var bossEnableAt: real
    /** Which spawn areas are active. */
    var spawnersActive: seq<bool>
    var bossRootActive: bool

    /** The areas, as a set. */
    ghost function Areas(): set<AreaEnemy>
      reads this
    {
      set s | s in spawners
    }

    /** The objects every operation may change. */
    ghost function Objects(): set<object>
      reads this
    {
      {this, scene, clock, boss} + Areas()
    }

    /** The clock, the scene, the boss and the areas are each in a good
        state, the areas are distinct and share the level's scene, and an
        inactive area tracks nothing and has no fill scheduled. */
    ghost predicate Valid()
      reads this, scene, clock, boss, spawners
    {
      && clock.Valid() && scene.Valid() && boss.Valid() && boss.scene == scene
      && (hasBossRoot && !boss.destroyed ==> boss.isActive == bossRootActive)
      && |spawnersActive| == |spawners|
      && (forall i, j :: 0 <= i < j < |spawners| ==> spawners[i] != spawners[j])
      && (forall i :: 0 <= i < |spawners| ==> spawners[i].scene == scene)
      && (forall i :: 0 <= i < |spawners| ==> spawners[i].Valid())
      && (forall i :: 0 <= i < |spawners| && !spawnersActive[i] ==> spawners[i].alive == [] && spawners[i].pending == [])
    }

    /** The level as loaded, before its Start: no phase yet, the boss
        scheduled at the sentinel time -1. */
    constructor (clock: TimeManager, scene: Scene, spawners: seq<AreaEnemy>, spawnersActive: seq<bool>,
                 hasBossRoot: bool, boss: BulletSpawnerBoss, bossRootActive: bool,
                 phase1EndAt: real, bossDelay: real)
      requires clock.Valid() && scene.Valid() && boss.Valid() && boss.scene == scene
      requires hasBossRoot && !boss.destroyed ==> boss.isActive == bossRootActive
      requires |spawnersActive| == |spawners|
      requires forall i, j :: 0 <= i < j < |spawners| ==> spawners[i] != spawners[j]
      requires forall i :: 0 <= i < |spawners| ==> spawners[i].scene == scene && spawners[i].Valid()
      requires forall i :: 0 <= i < |spawners| && !spawnersActive[i] ==> spawners[i].alive == [] && spawners[i].pending == []
      ensures Valid()
      ensures this.clock == clock && this.scene == scene && this.spawners == spawners
      ensures this.spawnersActive == spawnersActive && this.bossRootActive == bossRootActive
      ensures this.hasBossRoot == hasBossRoot && this.boss == boss
      ensures this.phase1EndAt == phase1EndAt && this.bossDelay == bossDelay
      ensures phase == NoPhase && !gameOverTriggered && !phase1Started && !bossTransitionDone && !bossShown
      ensures bossEnableAt == -1.0
    {
      this.clock, this.scene, this.spawners, this.spawnersActive := clock, scene, spawners, spawnersActive;
      this.hasBossRoot, this.boss, this.bossRootActive := hasBossRoot, boss, bossRootActive;
      this.phase1EndAt, this.bossDelay := phase1EndAt, bossDelay;
      phase, gameOverTriggered, phase1Started, bossTransitionDone := NoPhase, false, false, false;
      bossShown, gameEnded, bossEnableAt := false, false, -1.0;
    }

    /** The level's Start: the clock restarts from zero, phase 1 begins with
        every area active and the boss root inactive. */
    method Start()
      requires Valid()
      modifies Objects()
      ensures Valid()
      ensures clock.elapsed == 0.0 && clock.running
      ensures phase == Phase1 && phase1Started && !bossShown && !bossTransitionDone && !gameEnded
      ensures forall i :: 0 <= i < |spawners| ==> spawnersActive[i]
      ensures hasBossRoot ==> !bossRootActive
      ensures hasBossRoot && !old(boss.destroyed) ==> !boss.isActive
      ensures gameOverTriggered == old(gameOverTriggered) && bossEnableAt == old(bossEnableAt)
      ensures scene.bullets == old(scene.bullets)
    {
      clock.ResetAndStart();
      phase := Phase1;
      phase1Started := true;
      bossShown := false;
      bossTransitionDone := false;
      gameEnded := false;
      SetAllAreaSpawnersEnabled(true);
      SetBossRootActive(false, clock.elapsed);
    }

    /** One frame. With `t` the clock's elapsed time: phase 1 starts if it
        has not (never after Start); at the first frame with t at or past
        phase1EndAt the boss phase begins, the areas are switched off,
        enemies and enemy bullets are cleared, and the boss is scheduled for
        t + max(0, bossDelay); at the first frame at which the boss is due it
        is shown. A frame at which none of these is due changes nothing. */
    method Update()
      requires Valid()
      modifies Objects()
      ensures Valid()
      ensures unchanged(clock)
      ensures gameOverTriggered == old(gameOverTriggered) && gameEnded == old(gameEnded)
      ensures var t := clock.elapsed;
        && phase1Started == (old(phase1Started) || t >= 0.0)
        && bossTransitionDone == (old(bossTransitionDone) || t >= phase1EndAt)
        && var transition := !old(bossTransitionDone) && t >= phase1EndAt;
        && (transition ==>
              && phase == Boss && bossEnableAt == BossEnableAt(t, bossDelay)
              && scene.enemies == [] && scene.bullets == KeepFriendly(old(scene.bullets))
              && (forall i :: 0 <= i < |spawners| ==> !spawnersActive[i]))
        && (!transition ==>
              && bossEnableAt == old(bossEnableAt)
              && phase == (if !old(phase1Started) && t >= 0.0 then Phase1 else old(phase)))
        && (!old(phase1Started) && t >= 0.0 && !transition ==>
              forall i :: 0 <= i < |spawners| ==> spawnersActive[i])
        && (old(phase1Started) && !transition ==>
              spawnersActive == old(spawnersActive) && scene.enemies == old(scene.enemies))
        && bossShown == (old(bossShown) || BossDue(old(bossShown), bossEnableAt, t))
        && (BossDue(old(bossShown), bossEnableAt, t) && hasBossRoot ==> bossRootActive)
        && (BossDue(old(bossShown), bossEnableAt, t) && hasBossRoot && !old(boss.destroyed) ==> boss.isActive)
        && (!BossDue(old(bossShown), bossEnableAt, t) ==> bossRootActive == old(bossRootActive))
        && (!transition && !BossDue(old(bossShown), bossEnableAt, t) ==> scene.bullets == old(scene.bullets))
        && (!transition ==> scene.bullets == old(scene.bullets) || scene.bullets == KeepFriendly(old(scene.bullets)))
      ensures var t := clock.elapsed;
        (old(phase1Started) || t < 0.0) && (old(bossTransitionDone) || t < phase1EndAt)
          && !BossDue(old(bossShown), bossEnableAt, t) ==>
        unchanged(this) && unchanged(scene) && unchanged(boss) && forall i :: 0 <= i < |spawners| ==> unchanged(spawners[i])
    {
      var t := clock.elapsed;
      StartPhase1IfDue(t);
      StartBossPhaseIfDue(t);
      ShowBossIfDue(t);
      // Showing the boss may clear enemy bullets again, which changes
      // nothing once they are cleared.
      KeepFriendlyIdempotent(old(scene.bullets));
    }

    /** The first step of a frame at game time `t`: phase 1 starts, with
        every area active, unless it already has or `t` is negative. */
    method StartPhase1IfDue(t: real)
      requires Valid()
      modifies this, scene, Areas()
      ensures Valid()
      ensures phase1Started == (old(phase1Started) || t >= 0.0)
      ensures !old(phase1Started) && t >= 0.0 ==>
        phase == Phase1 && forall i :: 0 <= i < |spawners| ==> spawnersActive[i]
      ensures scene.bullets == old(scene.bullets)
      ensures old(phase1Started) || t < 0.0 ==>
        unchanged(this) && unchanged(scene) && forall i :: 0 <= i < |spawners| ==> unchanged(spawners[i])
      ensures bossTransitionDone == old(bossTransitionDone) && bossShown == old(bossShown)
      ensures bossEnableAt == old(bossEnableAt) && bossRootActive == old(bossRootActive)
      ensures gameOverTriggered == old(gameOverTriggered) && gameEnded == old(gameEnded)
    {
      if !phase1Started && t >= 0.0 {
        phase1Started := true;
        phase := Phase1;
        SetAllAreaSpawnersEnabled(true);
      }
    }

    /** The second step of a frame at game time `t`: at the first frame at or
        past phase1EndAt the boss phase begins, every area is switched off,
        enemies and enemy bullets are cleared and the boss is scheduled. */
    method StartBossPhaseIfDue(t: real)
      requires Valid()
      modifies this, scene, Areas()
      ensures Valid()
      ensures bossTransitionDone == (old(bossTransitionDone) || t >= phase1EndAt)
      ensures !old(bossTransitionDone) && t >= phase1EndAt ==>
        && phase == Boss && bossEnableAt == BossEnableAt(t, bossDelay)
        && scene.enemies == [] && scene.bullets == KeepFriendly(old(scene.bullets))
        && (forall i :: 0 <= i < |spawners| ==> !spawnersActive[i])
      ensures old(bossTransitionDone) || t < phase1EndAt ==>
        unchanged(this) && unchanged(scene) && forall i :: 0 <= i < |spawners| ==> unchanged(spawners[i])
      ensures phase1Started == old(phase1Started) && bossShown == old(bossShown) && bossRootActive == old(bossRootActive)
      ensures gameOverTriggered == old(gameOverTriggered) && gameEnded == old(gameEnded)
    {
      if !bossTransitionDone && t >= phase1EndAt {
        bossTransitionDone := true;
        phase := Boss;
        SetAllAreaSpawnersEnabled(false);
        var _ := HardClearAllEnemiesAndEnemyBullets();
        bossEnableAt := t + MaxReal(0.0, bossDelay);
      }
    }

    /** The last step of a frame at game time `t`: once the boss is due it is
        shown, once. */
    method ShowBossIfDue(t: real)
      requires Valid()
      modifies this, scene, boss
      ensures Valid()
      ensures bossShown == (old(bossShown) || BossDue(old(bossShown), bossEnableAt, t))
      ensures BossDue(old(bossShown), bossEnableAt, t) && hasBossRoot ==> bossRootActive
      ensures BossDue(old(bossShown), bossEnableAt, t) && hasBossRoot && !old(boss.destroyed) ==> boss.isActive
      ensures scene.bullets == old(scene.bullets) || scene.bullets == KeepFriendly(old(scene.bullets))
      ensures !BossDue(old(bossShown), bossEnableAt, t) ==> unchanged(this) && unchanged(scene) && unchanged(boss)
      ensures scene.enemies == old(scene.enemies) && spawnersActive == old(spawnersActive)
      ensures phase == old(phase) && bossEnableAt == old(bossEnableAt)
      ensures phase1Started == old(phase1Started) && bossTransitionDone == old(bossTransitionDone)
      ensures gameOverTriggered == old(gameOverTriggered) && gameEnded == old(gameEnded)
    {
      if !bossShown && bossEnableAt > 0.0 && t >= bossEnableAt {
        bossShown := true;
        SetBossRootActive(true, t);
      }
    }

    /** Activates or deactivates the boss root at game time `now`: a change
        of state enables or disables the boss; once the boss is destroyed
        only the root's own state changes, and without a root nothing
        happens. */
    method SetBossRootActive(active: bool, now: real)
      requires Valid()
      modifies this, scene, boss
      ensures Valid()
      ensures !hasBossRoot ==> bossRootActive == old(bossRootActive)
      ensures hasBossRoot ==> bossRootActive == active
      ensures !hasBossRoot || old(boss.destroyed) ==> unchanged(scene) && unchanged(boss)
      ensures hasBossRoot && !old(boss.destroyed) && active && !old(bossRootActive) ==>
        boss.isActive && boss.currentHP == MaxInt(1, boss.maxHP)
      ensures hasBossRoot && !old(boss.destroyed) && active && !old(bossRootActive) ==>
        scene.bullets == (if |boss.cfg.cycle| > 0 && boss.cfg.clearOnSwitch then KeepFriendly(old(scene.bullets)) else old(scene.bullets))
      ensures hasBossRoot && !old(boss.destroyed) && !active && old(bossRootActive) ==>
        !boss.isActive && !boss.switcherOn
      ensures !active ==> unchanged(scene)
      ensures hasBossRoot && !old(boss.destroyed) && active == old(bossRootActive) ==>
        unchanged(scene) && unchanged(boss)
      ensures scene.enemies == old(scene.enemies) && scene.nextId == old(scene.nextId)
      ensures phase == old(phase) && gameOverTriggered == old(gameOverTriggered)
      ensures phase1Started == old(phase1Started) && bossTransitionDone == old(bossTransitionDone)
      ensures bossShown == old(bossShown) && gameEnded == old(gameEnded) && bossEnableAt == old(bossEnableAt)
      ensures spawnersActive == old(spawnersActive)
    {
      if !hasBossRoot {
        return;
      }
      if boss.destroyed {
      } else if active && !bossRootActive {
        boss.OnEnable(now);
      } else if !active && bossRootActive {
        boss.OnDisable();
      }
      bossRootActive := active;
    }

    /** Activates or deactivates every area. An area that changes state is
        enabled (it fills up) or disabled (it destroys what it tracks and
        cancels its fills); one already in the requested state is left as it
        is. */
    method SetAllAreaSpawnersEnabled(enabled: bool)
      requires Valid()
      modifies this, scene, Areas()
      ensures Valid()
      ensures forall i :: 0 <= i < |spawners| ==> spawnersActive[i] == enabled
      ensures forall i :: 0 <= i < |spawners| && old(spawnersActive[i]) == enabled ==>
        spawners[i].alive == old(spawners[i].alive) && spawners[i].pending == old(spawners[i].pending)
      ensures enabled ==> forall i :: 0 <= i < |spawners| && !old(spawnersActive[i]) && spawners[i].hasPrefab ==>
        |spawners[i].alive| == MaxInt(0, spawners[i].targetAlive)
      ensures !enabled ==> forall i, k :: 0 <= i < |spawners| && 0 <= k < |old(spawners[i].alive)| ==>
        old(spawners[i].alive)[k] !in Ids(scene.enemies)
      ensures !enabled ==> Ids(scene.enemies) <= old(Ids(scene.enemies))
      ensures scene.bullets == old(scene.bullets) && scene.nextId >= old(scene.nextId)
      ensures phase == old(phase) && gameOverTriggered == old(gameOverTriggered)
      ensures phase1Started == old(phase1Started) && bossTransitionDone == old(bossTransitionDone)
      ensures bossShown == old(bossShown) && gameEnded == old(gameEnded) && bossEnableAt == old(bossEnableAt)
      ensures bossRootActive == old(bossRootActive)
    {
      var i := 0;
      while i < |spawners|
        invariant 0 <= i <= |spawners|
        invariant Valid()
        invariant forall j :: 0 <= j < i ==> spawnersActive[j] == enabled
        invariant forall j :: i <= j < |spawners| ==> spawnersActive[j] == old(spawnersActive[j])
        invariant forall j :: i <= j < |spawners| ==> spawners[j].alive == old(spawners[j].alive)
        invariant forall j :: 0 <= j < |spawners| && old(spawnersActive[j]) == enabled ==>
          spawners[j].alive == old(spawners[j].alive) && spawners[j].pending == old(spawners[j].pending)
        invariant enabled ==> forall j :: 0 <= j < i && !old(spawnersActive[j]) && spawners[j].hasPrefab ==>
          |spawners[j].alive| == MaxInt(0, spawners[j].targetAlive)
        invariant !enabled ==> forall j, k :: 0 <= j < i && 0 <= k < |old(spawners[j].alive)| ==>
          old(spawners[j].alive)[k] !in Ids(scene.enemies)
        invariant !enabled ==> Ids(scene.enemies) <= old(Ids(scene.enemies))
        invariant scene.bullets == old(scene.bullets) && scene.nextId >= old(scene.nextId)
        invariant phase == old(phase) && gameOverTriggered == old(gameOverTriggered)
        invariant phase1Started == old(phase1Started) && bossTransitionDone == old(bossTransitionDone)
        invariant bossShown == old(bossShown) && gameEnded == old(gameEnded) && bossEnableAt == old(bossEnableAt)
        invariant bossRootActive == old(bossRootActive)
      {
        assert spawners[i] in Areas();
        SetAreaActive(i, enabled);
        i := i + 1;
      }
    }

    /** SetActive on area `i`. */
    method SetAreaActive(i: int, enabled: bool)
      requires Valid() && 0 <= i < |spawners|
      modifies this, scene, spawners[i]
      ensures Valid()
      ensures spawnersActive == old(spawnersActive)[i := enabled]
      ensures old(spawnersActive[i]) == enabled ==>
        unchanged(scene) && unchanged(spawners[i])
      ensures enabled && !old(spawnersActive[i]) && spawners[i].hasPrefab ==>
        |spawners[i].alive| == MaxInt(0, spawners[i].targetAlive)
      ensures !enabled ==> Ids(scene.enemies) <= old(Ids(scene.enemies))
      ensures !enabled ==> forall k :: 0 <= k < |old(spawners[i].alive)| ==> old(spawners[i].alive)[k] !in Ids(scene.enemies)
      ensures scene.bullets == old(scene.bullets) && scene.nextId >= old(scene.nextId)
      ensures phase == old(phase) && gameOverTriggered == old(gameOverTriggered)
      ensures phase1Started == old(phase1Started) && bossTransitionDone == old(bossTransitionDone)
      ensures bossShown == old(bossShown) && gameEnded == old(gameEnded) && bossEnableAt == old(bossEnableAt)
      ensures bossRootActive == old(bossRootActive)
    {
      var area := spawners[i];
      if enabled && !spawnersActive[i] {
        area.OnEnable();
      } else if !enabled && spawnersActive[i] {
        area.OnDisable();
        PurgeIdsSubset(old(scene.enemies), Elems(old(area.alive)));
      }
      spawnersActive := spawnersActive[i := enabled];
    }

    /** Destroys every enemy and every enemy bullet, keeping the player's
        bullets; returns how many objects were destroyed. */
    method HardClearAllEnemiesAndEnemyBullets() returns (cleared: nat)
      requires Valid()
      modifies scene
      ensures Valid()
      ensures scene.enemies == [] && scene.bullets == KeepFriendly(old(scene.bullets))
      ensures cleared == |old(scene.enemies)| + (|old(scene.bullets)| - |scene.bullets|)
      ensures scene.nextId == old(scene.nextId)
    {
      var enemies := scene.DestroyAllEnemies();
      var bullets := scene.DestroyEnemyBullets();
      cleared := enemies + bullets;
    }

    /** The player died: the game ends, unless it already has. */
    method HandlePlayerDied()
      requires Valid()
      modifies Objects()
      ensures Valid()
      ensures old(gameOverTriggered) ==> Unchanged()
      ensures !old(gameOverTriggered) ==> Ended()
      ensures !old(gameOverTriggered) ==> scene.bullets == KeepFriendly(old(scene.bullets)) && clock.elapsed == old(clock.elapsed)
    {
      if gameOverTriggered {
        return;
      }
      EndGame();
    }

    /** The boss was defeated: the game ends, unless it already has. */
    method HandleBossDefeated()
      requires Valid()
      modifies Objects()
      ensures Valid()
      ensures old(gameOverTriggered) ==> Unchanged()
      ensures !old(gameOverTriggered) ==> Ended()
      ensures !old(gameOverTriggered) ==> scene.bullets == KeepFriendly(old(scene.bullets)) && clock.elapsed == old(clock.elapsed)
    {
      if gameOverTriggered {
        return;
      }
      EndGame();
    }

    /** Nothing the level can reach has changed. */
    twostate predicate Unchanged()
      reads this, scene, clock, boss, spawners
    {
      unchanged(this, scene, clock, boss) && forall i :: 0 <= i < |spawners| ==> unchanged(spawners[i])
    }

    /** The state after the end of the game: the latch is set, the phase is
        End, the boss root and every area are inactive, no area tracks
        anything, no enemy is left, and the clock is stopped. */
    ghost predicate Ended()
      reads this, scene, clock, boss, spawners
    {
      && gameOverTriggered && phase == End && |spawnersActive| == |spawners|
      && (hasBossRoot ==> !bossRootActive)
      && (hasBossRoot && !boss.destroyed ==> !boss.isActive)
      && (forall i :: 0 <= i < |spawners| ==> !spawnersActive[i] && spawners[i].alive == [] && spawners[i].pending == [])
      && scene.enemies == []
      && !clock.running
    }

    /** The end of the game, shared by both handlers. */
    method EndGame()
      requires Valid()
      modifies Objects()
      ensures Valid() && Ended()
      ensures scene.bullets == KeepFriendly(old(scene.bullets)) && clock.elapsed == old(clock.elapsed)
    {
      gameOverTriggered := true;
      phase := End;
      SetBossRootActive(false, clock.elapsed);
      SetAllAreaSpawnersEnabled(false);
      var _ := HardClearAllEnemiesAndEnemyBullets();
      clock.StopTimer();
    }
  }
}
