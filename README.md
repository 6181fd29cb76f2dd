# DodgeQuest game logic in Dafny

DodgeQuest is a small Unity bullet-hell game. The player moves inside fixed
world limits, fires straight up and must survive two phases:

- **Phase 1.** Spawn areas keep a population of shooting enemies alive.
- **Boss phase.** At a fixed time the areas are switched off and the field is
  cleared. After a delay a boss appears that cycles through geometric
  bullet patterns.

The game ends on the first of two events: the player's death or the boss's
defeat.

This project models the logic under the engine calls, one module per
component:

| module | component |
|---|---|
| `Common` | owner tags, points, `Option`, Mathf.Max / Mathf.Clamp, the Random.Range bounds |
| `Lifecycle` | the active counters of bullets and enemies (`ActiveCount`) |
| `World` | the scene: live bullets, live enemy handles, Instantiate and Destroy, the find-and-destroy sweeps |
| `Clock` | the global clock (`TimeManager`) |
| `Projectile` | one bullet (`Bullet`): lifetime and linear motion |
| `Patterns` | the Fan, CircleBurst and RoseStar layouts shared by the boss and the ambient emitter |
| `BossEmitter` | the boss (`BulletSpawnerBoss`) |
| `AmbientEmitter` | the ambient emitter (`BulletSpawner`) |
| `EnemyActor` | the shooting enemy (`BulletSpawnerEnemy`) |
| `Area` | the enemy spawn area (`AreaEnemy`) |
| `PlayerActor` | the player (`Player`) |
| `Level` | the level controller (`LevelController`) |

How the engine is represented:

- **Per-frame callbacks.** They are methods of classes whose fields are the
  component's fields. The frame delta, the game time, the input and the
  results of trigonometry are parameters.
- **The scene.** `World.Scene` holds the live bullets as records (owner,
  angle, speed, lifetime) and the live enemies as handles with a spawn
  position.
  - Instantiate hands out a fresh, increasing handle.
  - Destroy removes the record; a destroyed enemy is a handle the scene no
    longer holds.
  - The enable and disable callbacks increment and decrement the two active
    counters.
- **Coroutines and Invoke.** They are explicit deadlines.
  - A pattern switcher is `switcherOn` plus `nextSwitchAt`, advanced by
    `SwitcherStep(now)`.
  - An area's delayed fills are the list `pending` of game times, run by
    `RunDueFills(now)`.
- **Broadcast events** (health changes, death, defeat, ticks) are appended
  to an `events` or `ticks` log on the object that raises them.
- **Random positions.** `Random.Range` is a nondeterministic choice between
  the two ends of the range.
- **Numbers.** Times and angles are `real`. Hit points and counts are `int`.

One edge case follows from the code as written (`LevelController.Update`):

- The boss is shown only when `bossEnableAt > 0`.
- So if the phase-1 deadline is reached at game time 0 (`phase1EndAt <= 0`)
  and `bossDelay <= 0`, `bossEnableAt` is 0 and the boss never appears.
- `Level.BossNeverDueBeforeScheduled` states this. It is a consequence of
  the `-1` sentinel rather than a clear defect, so it is not listed as a
  finding.

A second consequence concerns the enemy's CircleOriented pattern
(`BulletSpawnerEnemy.FireCircleOriented`):

- The first shot is snapped to the nearest multiple of 360 / count.
- So every shot lies on the same fixed grid of directions, whatever the aim.
  `EnemyActor.CircleOrientedIgnoresAim` states this.
- The aim only decides which shot of the ring is fired first. Whether the
  authors meant the ring to point at the player cannot be read from the
  code, so this is not listed as a finding either.

## Model

| member | source | states |
|---|---|---|
| Common.MaxInt | DodgeQuest/Assets/Scripts/bulletSpawnerBoss.cs:99 | Mathf.Max on integers: the result is one of the arguments and at least both |
| Common.MaxReal | DodgeQuest/Assets/Scripts/levelController.cs:101 | Mathf.Max on scalars: the result is one of the arguments and at least both |
| Common.Clamp | DodgeQuest/Assets/Scripts/player.cs:205-211 | with ordered limits the result lies within them; a value already inside is kept; the result is the value or one of the limits |
| Common.ClampIdempotent | DodgeQuest/Assets/Scripts/player.cs:205-211 | with ordered limits, clamping twice is clamping once |
| Common.ClampReversedLimits | DodgeQuest/Assets/Scripts/player.cs:205-211 | with reversed limits, clamping twice differs from clamping once (0 goes to 1, then to -1) |
| Lifecycle.Enabled | DodgeQuest/Assets/Scripts/bullet.cs:19-23 | enabling increases the counter by exactly one |
| Lifecycle.Disabled | DodgeQuest/Assets/Scripts/bullet.cs:25-29 | disabling yields max(0, count - 1): never negative, one less from a positive count |
| Lifecycle.ReplayNeverNegative | DodgeQuest/Assets/Scripts/bullet.cs:21-28 | from a non-negative start, no sequence of enables and disables, matched or not, makes the counter negative |
| Lifecycle.ReplayCountsLive | DodgeQuest/Assets/Scripts/bullet.cs:19-29 | when every disable follows a matching enable, the counter equals the number of enabled objects |
| Lifecycle.UnmatchedDisableClamps | DodgeQuest/Assets/Scripts/bullet.cs:27 | an unmatched disable of a counter at zero leaves it at zero |
| World.Purge | DodgeQuest/Assets/Scripts/areaEnemy.cs:43-46 | the records left after destroying a set of handles are exactly the records whose handle is not in the set, in order |
| World.KeepFriendly | DodgeQuest/Assets/Scripts/levelController.cs:144-152 | the bullets a hard clear keeps are exactly those not owned by Enemy |
| World.KeepFriendlyAppend | DodgeQuest/Assets/Scripts/levelController.cs:144-152 | the hard-clear filter keeps order: it distributes over concatenation |
| World.KeepFriendlyIdempotent | DodgeQuest/Assets/Scripts/levelController.cs:144-152 | clearing enemy bullets a second time changes nothing |
| World.PurgeAppend | DodgeQuest/Assets/Scripts/areaEnemy.cs:43-46 | destroying handles distributes over concatenation of the enemy list |
| World.PurgeTwice | DodgeQuest/Assets/Scripts/areaEnemy.cs:43-46 | destroying two sets of handles in turn is destroying their union |
| World.PurgeAbsent | DodgeQuest/Assets/Scripts/areaEnemy.cs:43-46 | destroying handles that no enemy carries changes nothing |
| World.Scene.SpawnBullet | DodgeQuest/Assets/Scripts/bullet.cs:19-23 | Instantiate of a bullet appends it and increments the bullet counter; enemies unchanged |
| World.Scene.DestroyBullet | DodgeQuest/Assets/Scripts/bullet.cs:25-29 | Destroy of one bullet removes exactly its record, keeping the others in order, and its OnDisable decrements the counter; enemies unchanged |
| World.Scene.SpawnEnemy | DodgeQuest/Assets/Scripts/bulletSpawnerEnemy.cs:104-123 | Instantiate of an enemy appends a record with a fresh handle and increments the enemy counter |
| World.Scene.DestroyEnemy | DodgeQuest/Assets/Scripts/bulletSpawnerEnemy.cs:125-130 | Destroy removes exactly that enemy and decrements the counter; destroying a missing enemy does nothing |
| World.Scene.DestroyAllEnemies | DodgeQuest/Assets/Scripts/levelController.cs:134-142 | every enemy is destroyed and the count returned is the number there were; bullets unchanged |
| World.Scene.DestroyEnemyBullets | DodgeQuest/Assets/Scripts/levelController.cs:144-152 | exactly the Enemy-owned bullets are destroyed, the others kept in order; the count destroyed is returned |
| World.Scene.DestroyAllBullets | DodgeQuest/Assets/Scripts/bulletSpawner.cs:183-188 | every bullet is destroyed regardless of owner and the counter follows |
| World.Scene.SpawnVolley | DodgeQuest/Assets/Scripts/bulletSpawnerBoss.cs:271-282 | instantiating a volley one bullet at a time appends exactly the volley |
| World.Shots | DodgeQuest/Assets/Scripts/bulletSpawnerBoss.cs:271-282 | one bullet per angle, each with the given owner, speed and lifetime |
| World.KeepFriendlyOwners | DodgeQuest/Assets/Scripts/levelController.cs:144-152 | a hard clear keeps every player bullet and no enemy bullet |
| Clock.TimeManager.Start | DodgeQuest/Assets/Scripts/timeManager.cs:52-55 | the clock starts exactly when autoStart is set; elapsed is kept |
| Clock.TimeManager.Update | DodgeQuest/Assets/Scripts/timeManager.cs:60-65 | a running clock advances by dt, one step of ElapsedAfter, and broadcasts the new value; a stopped one changes nothing and broadcasts nothing; elapsed never decreases |
| Clock.TimeManager.StartTimer | DodgeQuest/Assets/Scripts/timeManager.cs:70 | running, with elapsed unchanged |
| Clock.TimeManager.StopTimer | DodgeQuest/Assets/Scripts/timeManager.cs:75 | stopped with elapsed kept; stopping a stopped clock changes nothing |
| Clock.TimeManager.ResetTimer | DodgeQuest/Assets/Scripts/timeManager.cs:80 | elapsed is 0 and running is unchanged |
| Clock.TimeManager.ResetAndStart | DodgeQuest/Assets/Scripts/timeManager.cs:85-89 | elapsed is 0 and the clock is running |
| Clock.ElapsedMonotone | DodgeQuest/Assets/Scripts/timeManager.cs:60-65 | over any run of non-negative frame deltas, elapsed never decreases and stays non-negative |
| Clock.ElapsedAfterConcat | DodgeQuest/Assets/Scripts/timeManager.cs:60-65 | running the frames of a and then of b ends where running a + b does, so a run of Update calls on a running clock ends at ElapsedAfter of its deltas |
| Projectile.Movement | DodgeQuest/Assets/Scripts/bullet.cs:49-54 | at time zero the bullet is at its spawn point |
| Projectile.MovementDistance | DodgeQuest/Assets/Scripts/bullet.cs:49-54 | along a facing direction of length one the bullet is speed * t away from its spawn point |
| Projectile.MovementLinear | DodgeQuest/Assets/Scripts/bullet.cs:49-54 | the displacement from the spawn point is additive and homogeneous in time |
| Projectile.Bullet.Start | DodgeQuest/Assets/Scripts/bullet.cs:31-35 | the spawn point is the current position and the facing is applied |
| Projectile.Bullet.Update | DodgeQuest/Assets/Scripts/bullet.cs:37-47 | the timer grows by dt; on reaching the lifetime the bullet is destroyed without moving, its record leaves the scene and the bullet counter drops by one; otherwise it is at Movement(timer) and the scene is untouched |
| Patterns.Progression | DodgeQuest/Assets/Scripts/bulletSpawnerBoss.cs:229-237 | n angles, angle i being first + i * step |
| Patterns.ProgressionSpaced | DodgeQuest/Assets/Scripts/bulletSpawnerBoss.cs:229-237 | consecutive angles are exactly one step apart |
| Patterns.ProgressionWithinTurn | DodgeQuest/Assets/Scripts/bulletSpawnerBoss.cs:229-237 | with step 360 / n the angles are strictly increasing and span less than one turn from the first |
| Patterns.FanAngles | DodgeQuest/Assets/Scripts/bulletSpawnerBoss.cs:202-222 | count <= 1: one shot at offset + sway; otherwise count shots evenly spaced from centre - spread/2 to centre + spread/2 |
| Patterns.FanSymmetric | DodgeQuest/Assets/Scripts/bulletSpawnerBoss.cs:206-221 | the fan is symmetric about offset + sway |
| Patterns.FanSingleIgnoresSpread | DodgeQuest/Assets/Scripts/bulletSpawnerBoss.cs:206-209 | a one-shot fan does not depend on the spread |
| Patterns.CircleAngles | DodgeQuest/Assets/Scripts/bulletSpawnerBoss.cs:227-238 | count shots at offset + i * 360 / count, none when count <= 0; distinct, increasing, within one turn |
| Patterns.CircleOfEight | DodgeQuest/Assets/Scripts/bulletSpawnerBoss.cs:227-238 | a burst of 8 with no offset fires at the multiples of 45 degrees |
| Patterns.RoseRing | DodgeQuest/Assets/Scripts/bulletSpawnerBoss.cs:251-257 | one ring: samples shots at offset + (i * 360 / samples + phase) |
| Patterns.Repeat | DodgeQuest/Assets/Scripts/bulletSpawnerBoss.cs:249 | n copies of a ring hold n times as many shots |
| Patterns.RepeatAt | DodgeQuest/Assets/Scripts/bulletSpawnerBoss.cs:249 | shot i of copy j is shot i of the ring |
| Patterns.RoseAngles | DodgeQuest/Assets/Scripts/bulletSpawnerBoss.cs:243-266 | max(1, rings) * samples shots, none when samples <= 0 |
| Patterns.RoseRingsRepeat | DodgeQuest/Assets/Scripts/bulletSpawnerBoss.cs:249-263 | every ring of one volley fires at the same angles, offset + (i * 360 / samples + phase) |
| Patterns.VolleySize | DodgeQuest/Assets/Scripts/bulletSpawnerBoss.cs:185-266 | shots per volley: max(1, fanCount) for Fan, max(0, circleCount) for CircleBurst, max(1, rings) * samples or 0 for RoseStar |
| Patterns.VolleyAngles | DodgeQuest/Assets/Scripts/bulletSpawnerBoss.cs:189-194 | the pattern switch of Fire: the Fan, CircleBurst or RoseStar layout of the active type |
| Patterns.FiringPeriod | DodgeQuest/Assets/Scripts/bulletSpawnerBoss.cs:138-141 | the firing period of the active pattern: circleFiringRate, roseFiringRate or firingRate |
| Patterns.NextCycleIndex | DodgeQuest/Assets/Scripts/bulletSpawnerBoss.cs:163-164 | (i + 1) % len stays in range: it moves on by one and wraps from the last entry to 0 |
| Patterns.Iterate | DodgeQuest/Assets/Scripts/bulletSpawnerBoss.cs:154-166 | the cycle index after any number of switches stays in range |
| Patterns.CycleInOrder | DodgeQuest/Assets/Scripts/bulletSpawner.cs:76-83 | from index 0, switch k selects entry k of the cycle |
| Patterns.CyclePeriodic | DodgeQuest/Assets/Scripts/bulletSpawner.cs:76-83 | after len switches the cycle starts over |
| BossEmitter.HitHP | DodgeQuest/Assets/Scripts/bulletSpawnerBoss.cs:305 | one hit takes one point and never goes below zero |
| BossEmitter.HitsWearDown | DodgeQuest/Assets/Scripts/bulletSpawnerBoss.cs:300-314 | k hits from hp leave max(0, hp - k) |
| BossEmitter.DefeatedByFullHits | DodgeQuest/Assets/Scripts/bulletSpawnerBoss.cs:300-314 | a freshly enabled boss survives fewer than max(1, maxHP) hits and falls at exactly that many |
| BossEmitter.BulletSpawnerBoss.OnEnable | DodgeQuest/Assets/Scripts/bulletSpawnerBoss.cs:97-113 | HP max(1, maxHP) broadcast, timer and index 0, active; pattern cycle[0] and switcher started only with a non-empty cycle |
| BossEmitter.BulletSpawnerBoss.OnDisable | DodgeQuest/Assets/Scripts/bulletSpawnerBoss.cs:118-126 | inactive and the switcher stopped; nothing else changes |
| BossEmitter.BulletSpawnerBoss.Update | DodgeQuest/Assets/Scripts/bulletSpawnerBoss.cs:131-149 | inactive: nothing; active: rose phase advances only under RoseStar, a volley fires exactly when timer + dt reaches the pattern's period, then the timer restarts |
| BossEmitter.BulletSpawnerBoss.SwitcherStep | DodgeQuest/Assets/Scripts/bulletSpawnerBoss.cs:154-166 | at the deadline: an inactive boss ends the switcher; an active one moves to the next index, wrapping, sets that pattern and waits again |
| BossEmitter.BulletSpawnerBoss.SetPattern | DodgeQuest/Assets/Scripts/bulletSpawnerBoss.cs:171-180 | timer 0, rose phase reset only for RoseStar, enemy bullets cleared with clearOnSwitch |
| BossEmitter.BulletSpawnerBoss.Fire | DodgeQuest/Assets/Scripts/bulletSpawnerBoss.cs:185-195 | the volley of the active pattern is appended; nothing without a prefab or while inactive |
| BossEmitter.BulletSpawnerBoss.FireFan | DodgeQuest/Assets/Scripts/bulletSpawnerBoss.cs:202-222 | appends the fan volley, owned by Enemy |
| BossEmitter.BulletSpawnerBoss.FireCircleBurst | DodgeQuest/Assets/Scripts/bulletSpawnerBoss.cs:227-238 | appends the circle volley, owned by Enemy |
| BossEmitter.BulletSpawnerBoss.FireRoseStar | DodgeQuest/Assets/Scripts/bulletSpawnerBoss.cs:243-266 | appends the rose volley at the current phase, owned by Enemy |
| BossEmitter.BulletSpawnerBoss.ClearExistingBullets | DodgeQuest/Assets/Scripts/bulletSpawnerBoss.cs:287-295 | exactly the enemy bullets are destroyed |
| BossEmitter.BulletSpawnerBoss.OnTriggerEnter2D | DodgeQuest/Assets/Scripts/bulletSpawnerBoss.cs:300-314 | a player bullet takes one HP (clamped at 0) and broadcasts it; at 0 defeat is broadcast and the boss is destroyed and inactive; other contacts change nothing |
| BossEmitter.BulletSpawnerBoss.HandlePlayerDiedStop | DodgeQuest/Assets/Scripts/bulletSpawnerBoss.cs:319-323 | the boss is inactive and the enemy bullets are cleared |
| AmbientEmitter.BulletSpawner.Start | DodgeQuest/Assets/Scripts/bulletSpawner.cs:72-78 | empty cycle: nothing changes and no switcher runs; otherwise index 0, pattern cycle[0], the switcher waits one interval |
| AmbientEmitter.BulletSpawner.Update | DodgeQuest/Assets/Scripts/bulletSpawner.cs:54-70 | the rose phase advances by roseSpin * dt only under RoseStar; a volley fires exactly when timer + dt reaches the period, then the timer restarts |
| AmbientEmitter.BulletSpawner.SwitcherStep | DodgeQuest/Assets/Scripts/bulletSpawner.cs:79-84 | at the deadline: the next index, wrapping, and that pattern set; before it nothing changes |
| AmbientEmitter.BulletSpawner.SetPattern | DodgeQuest/Assets/Scripts/bulletSpawner.cs:87-96 | timer 0, rose phase reset only for RoseStar, every bullet cleared with clearOnSwitch |
| AmbientEmitter.BulletSpawner.Fire | DodgeQuest/Assets/Scripts/bulletSpawner.cs:98-108 | the volley of the active pattern with the prefab's owner is appended; nothing without a prefab |
| AmbientEmitter.BulletSpawner.FireFan | DodgeQuest/Assets/Scripts/bulletSpawner.cs:111-131 | appends the fan volley |
| AmbientEmitter.BulletSpawner.FireCircleBurst | DodgeQuest/Assets/Scripts/bulletSpawner.cs:133-144 | appends the circle volley |
| AmbientEmitter.BulletSpawner.FireRoseStar | DodgeQuest/Assets/Scripts/bulletSpawner.cs:146-169 | appends the rose volley |
| AmbientEmitter.BulletSpawner.ClearExistingBullets | DodgeQuest/Assets/Scripts/bulletSpawner.cs:183-188 | every bullet is destroyed, whatever its owner |
| EnemyActor.NextPattern | DodgeQuest/Assets/Scripts/bulletSpawnerEnemy.cs:148-154 | the pattern changes unless it is Circle without looping; it returns to Single exactly from Circle with looping |
| EnemyActor.LoopingPatternsRepeat | DodgeQuest/Assets/Scripts/bulletSpawnerEnemy.cs:148-154 | with looping, the patterns repeat every three changes |
| EnemyActor.NonLoopingSettles | DodgeQuest/Assets/Scripts/bulletSpawnerEnemy.cs:148-154 | without looping, the enemy is on Circle after two or more changes |
| EnemyActor.AimToPlayerDeg | DodgeQuest/Assets/Scripts/bulletSpawnerEnemy.cs:214-219 | -90 without a player, the angle to the player otherwise |
| EnemyActor.IsOutsideViewport | DodgeQuest/Assets/Scripts/bulletSpawnerEnemy.cs:261-268 | outside exactly when a viewport coordinate is below -pad or above 1 + pad; never without a camera |
| EnemyActor.PaddingMonotone | DodgeQuest/Assets/Scripts/bulletSpawnerEnemy.cs:266-267 | a wider padding culls no more; with pad >= 0 the unit square is on screen |
| EnemyActor.RoundToInt | DodgeQuest/Assets/Scripts/bulletSpawnerEnemy.cs:202 | Mathf.RoundToInt: within one half of x, halves going to the even integer |
| EnemyActor.RoundToIntUnique | DodgeQuest/Assets/Scripts/bulletSpawnerEnemy.cs:202 | those two properties determine the rounding |
| EnemyActor.PatternDuration | DodgeQuest/Assets/Scripts/bulletSpawnerEnemy.cs:239-246 | the duration configured for the given pattern |
| EnemyActor.FireRate | DodgeQuest/Assets/Scripts/bulletSpawnerEnemy.cs:249-256 | the firing period configured for the given pattern |
| EnemyActor.RoundToIntHalves | DodgeQuest/Assets/Scripts/bulletSpawnerEnemy.cs:202 | 0.5, 1.5, 2.5 and -0.5 round to 0, 2, 2 and 0 |
| EnemyActor.Fan3Angles | DodgeQuest/Assets/Scripts/bulletSpawnerEnemy.cs:186-192 | three shots: the aim, aim - step, aim + step, symmetric about the aim |
| EnemyActor.NearestMultiple | DodgeQuest/Assets/Scripts/bulletSpawnerEnemy.cs:202-203 | the rounded multiple of the step lies within half a step of the aim |
| EnemyActor.NearestMultipleOnGrid | DodgeQuest/Assets/Scripts/bulletSpawnerEnemy.cs:202-203 | that multiple is a whole number of steps, and an even number of them when the aim lies halfway |
| EnemyActor.NearestMultipleUnique | DodgeQuest/Assets/Scripts/bulletSpawnerEnemy.cs:202-203 | any multiple of the step within half a step of the aim, even on a tie, is the one chosen |
| EnemyActor.CircleOrientedAngles | DodgeQuest/Assets/Scripts/bulletSpawnerEnemy.cs:195-207 | count shots, none when count <= 0, starting at the nearest multiple of 360 / count (within 180 / count of the aim), then 360 / count apart, increasing, within one turn |
| EnemyActor.CircleOrientedOnGrid | DodgeQuest/Assets/Scripts/bulletSpawnerEnemy.cs:202-206 | shot i lies k + i steps of 360 / count from angle 0, for one whole k |
| EnemyActor.CircleOrientedIgnoresAim | DodgeQuest/Assets/Scripts/bulletSpawnerEnemy.cs:195-207 | every shot of a volley aimed one way points, up to whole turns, like some shot of a volley aimed any other way: the set of directions does not depend on the aim |
| EnemyActor.BulletSpawnerEnemy.OnEnable | DodgeQuest/Assets/Scripts/bulletSpawnerEnemy.cs:104-123 | pattern Single and the pattern, fire and alive timers at zero |
| EnemyActor.BulletSpawnerEnemy.Volley | DodgeQuest/Assets/Scripts/bulletSpawnerEnemy.cs:170-180 | record i is the enemy shot, with the configured speed and lifetime, at angle i of the current pattern aimed at the player |
| EnemyActor.AimedAngles | DodgeQuest/Assets/Scripts/bulletSpawnerEnemy.cs:174-179 | the pattern switch of FireCurrentPattern: one shot at the aim, the three Fan3 shots, or the max(0, circleCount) CircleOriented shots |
| BossEmitter.BulletSpawnerBoss.Volley | DodgeQuest/Assets/Scripts/bulletSpawnerBoss.cs:185-195 | one enemy-owned bullet per angle of the active pattern, with the configured speed and lifetime |
| AmbientEmitter.BulletSpawner.Volley | DodgeQuest/Assets/Scripts/bulletSpawner.cs:98-108 | one bullet per angle of the active pattern, owned like the prefab, with the configured speed and lifetime |
| EnemyActor.BulletSpawnerEnemy.Update | DodgeQuest/Assets/Scripts/bulletSpawnerEnemy.cs:132-163 | after the grace period an off-screen enemy is destroyed and nothing else happens; otherwise the pattern advances exactly when its duration is reached, and a volley of the pattern then active fires exactly when its rate is reached, each timer restarting |
| EnemyActor.BulletSpawnerEnemy.FireCurrentPattern | DodgeQuest/Assets/Scripts/bulletSpawnerEnemy.cs:170-180 | appends the volley of the current pattern; nothing without a prefab |
| EnemyActor.BulletSpawnerEnemy.FireSingleAimed | DodgeQuest/Assets/Scripts/bulletSpawnerEnemy.cs:183 | one bullet at the aim |
| EnemyActor.BulletSpawnerEnemy.FireFan3Aimed | DodgeQuest/Assets/Scripts/bulletSpawnerEnemy.cs:186-192 | the three Fan3 bullets, in order |
| EnemyActor.BulletSpawnerEnemy.FireCircleOriented | DodgeQuest/Assets/Scripts/bulletSpawnerEnemy.cs:195-207 | the loop appends exactly the CircleOriented volley |
| EnemyActor.BulletSpawnerEnemy.ShootAtAngle | DodgeQuest/Assets/Scripts/bulletSpawnerEnemy.cs:224-236 | one enemy-owned bullet at the given angle |
| EnemyActor.BulletSpawnerEnemy.Destroy | DodgeQuest/Assets/Scripts/bulletSpawnerEnemy.cs:137-141 | the enemy is removed from the scene and gone |
| EnemyActor.BulletSpawnerEnemy.OnTriggerEnter2D | DodgeQuest/Assets/Scripts/bulletSpawnerEnemy.cs:275-289 | only when destructible and hit by a player bullet: hp drops by one, and at hp <= 0 the kill is broadcast and the enemy destroyed |
| Area.Handles | DodgeQuest/Assets/Scripts/areaEnemy.cs:81 | the handles of a run of records, in order |
| Area.KeepLive | DodgeQuest/Assets/Scripts/areaEnemy.cs:57 | the tracked handles kept are exactly the live ones, in order |
| Area.KeepLiveFull | DodgeQuest/Assets/Scripts/areaEnemy.cs:57-58 | nothing is removed exactly when every tracked handle is live, and then the list is unchanged |
| Area.KeepLiveAppend | DodgeQuest/Assets/Scripts/areaEnemy.cs:57 | removal distributes over concatenation, so the kept entries keep their order |
| Area.AreaEnemy.FillToTarget | DodgeQuest/Assets/Scripts/areaEnemy.cs:69-83 | without a prefab nothing changes; with one, new enemies with fresh handles and positions inside the ranges are appended until the list holds max(old length, max(0, targetAlive)) |
| Area.AreaEnemy.OnEnable | DodgeQuest/Assets/Scripts/areaEnemy.cs:32-36 | the list is emptied and refilled: exactly max(0, targetAlive) new enemies with a prefab |
| Area.AreaEnemy.OnDisable | DodgeQuest/Assets/Scripts/areaEnemy.cs:41-49 | every tracked enemy is destroyed and no other, the list is empty and every scheduled fill cancelled |
| Area.AreaEnemy.Update | DodgeQuest/Assets/Scripts/areaEnemy.cs:55-63 | the destroyed entries are removed and the live ones kept in order; if any was removed a fill is scheduled respawnDelay later and nothing spawns; otherwise it fills only when below target |
| Area.AreaEnemy.NotDue | DodgeQuest/Assets/Scripts/areaEnemy.cs:60 | the scheduled fills left are exactly those whose time has not come |
| Area.AreaEnemy.RunDueFills | DodgeQuest/Assets/Scripts/areaEnemy.cs:69-83 | every due fill runs and leaves the schedule; if any ran, the area is filled as by one FillToTarget |
| Area.AreaEnemy.FillAgain | DodgeQuest/Assets/Scripts/areaEnemy.cs:73 | a fill right after a fill spawns nothing |
| PlayerActor.Damaged | DodgeQuest/Assets/Scripts/player.cs:234 | hit points after damage are max(0, hp - dmg), never negative |
| PlayerActor.DamagedTwice | DodgeQuest/Assets/Scripts/player.cs:234 | two rounds of non-negative damage equal one round of their sum |
| PlayerActor.ClampToLimits | DodgeQuest/Assets/Scripts/player.cs:205-211 | with ordered limits the position lies inside them; a position inside is kept |
| PlayerActor.Player.Moved | DodgeQuest/Assets/Scripts/player.cs:159-163 | without input or in a zero-length frame the player stays put |
| PlayerActor.Player.MovedSlowScales | DodgeQuest/Assets/Scripts/player.cs:161 | with the slow button the displacement is the base one scaled by slowMultiplier |
| PlayerActor.ClampToLimitsIdempotent | DodgeQuest/Assets/Scripts/player.cs:205-211 | with ordered limits, clamping twice is clamping once |
| PlayerActor.Player.OnEnable | DodgeQuest/Assets/Scripts/player.cs:113-123 | hit points are startHP and that value is broadcast |
| PlayerActor.Player.HandleEnemyKilledHeal | DodgeQuest/Assets/Scripts/player.cs:140-143 | each kill heals exactly 2 and broadcasts the result |
| PlayerActor.Player.Heal | DodgeQuest/Assets/Scripts/player.cs:249-253 | adds the amount with no upper bound and broadcasts the result |
| PlayerActor.Player.Update | DodgeQuest/Assets/Scripts/player.cs:148-152 | the player moves then clamps, and shoots by the fire rule; health unchanged |
| PlayerActor.Player.HandleMovement | DodgeQuest/Assets/Scripts/player.cs:157-165 | position moved at base or slowed speed, then clamped; with ordered limits it lies inside them |
| PlayerActor.Player.ClampToWorldLimits | DodgeQuest/Assets/Scripts/player.cs:205-211 | the position is clamped coordinate by coordinate |
| PlayerActor.Player.HandleShooting | DodgeQuest/Assets/Scripts/player.cs:170-180 | the fire timer always grows; a shot happens exactly when fire is held and the timer reaches the fire rate, and the timer then restarts |
| PlayerActor.Player.ShootOne | DodgeQuest/Assets/Scripts/player.cs:185-200 | one player bullet at the shooting angle; nothing without a prefab |
| PlayerActor.Player.OnTriggerEnter2D | DodgeQuest/Assets/Scripts/player.cs:216-223 | only an enemy bullet damages, by exactly 1; other contacts change nothing |
| PlayerActor.Player.TryTakeDamage | DodgeQuest/Assets/Scripts/player.cs:229-242 | within hitInvuln of the last hit nothing changes; otherwise the hit is recorded, HP = max(0, HP - dmg) is broadcast, and at 0 death is broadcast and the player deactivated |
| Level.BossEnableAt | DodgeQuest/Assets/Scripts/levelController.cs:101 | t + max(0, bossDelay): never before the transition time |
| Level.BossNeverDueBeforeScheduled | DodgeQuest/Assets/Scripts/levelController.cs:105-109 | the boss is never due at the initial -1 or at a time of 0; after a transition at t > 0 it is due exactly from bossEnableAt on |
| Level.LevelController.Start | DodgeQuest/Assets/Scripts/levelController.cs:47-63 | clock at 0 and running, phase Phase1, every area active, the boss root inactive |
| Level.LevelController.Update | DodgeQuest/Assets/Scripts/levelController.cs:80-110 | after Start the Phase1 branch changes nothing; the boss transition happens once, on the first frame with t >= phase1EndAt, disabling every area and clearing every enemy and every enemy bullet; the boss is shown once, when due, clearing at most the enemy bullets; a frame with nothing due leaves the level, the scene, the boss and every area unchanged |
| Level.LevelController.StartPhase1IfDue | DodgeQuest/Assets/Scripts/levelController.cs:85-90 | phase 1 starts, with every area active, unless it already has or t < 0 |
| Level.LevelController.StartBossPhaseIfDue | DodgeQuest/Assets/Scripts/levelController.cs:93-102 | the first time t >= phase1EndAt: phase Boss, every area inactive, no enemy, only player bullets left, boss scheduled for t + max(0, bossDelay) |
| Level.LevelController.ShowBossIfDue | DodgeQuest/Assets/Scripts/levelController.cs:105-109 | the boss root is activated once, exactly when bossEnableAt > 0 and t >= bossEnableAt |
| Level.LevelController.SetBossRootActive | DodgeQuest/Assets/Scripts/levelController.cs:108 | with a root, the root takes the requested state, and a change enables or disables the boss unless it is already destroyed; without a root nothing changes |
| Level.LevelController.SetAllAreaSpawnersEnabled | DodgeQuest/Assets/Scripts/levelController.cs:116-125 | every area ends in the requested state; an area turned on fills to its target, an area turned off destroys what it tracks, an area already in that state is untouched |
| Level.LevelController.SetAreaActive | DodgeQuest/Assets/Scripts/levelController.cs:120 | SetActive on one area: a change of state runs its OnEnable or OnDisable |
| Level.LevelController.HardClearAllEnemiesAndEnemyBullets | DodgeQuest/Assets/Scripts/levelController.cs:130-153 | every enemy and exactly the enemy bullets are destroyed; player bullets stay; the source tallies the destroyed objects in a local it then discards; the model returns the number it destroys, which under immediate Destroy (see "## Left out") leaves out enemies an area destroyed just before the clear, objects the source would still find and count |
| Level.LevelController.HandlePlayerDied | DodgeQuest/Assets/Scripts/levelController.cs:159-170 | the first end of the game: phase End, boss root and areas inactive, no enemy, only player bullets, clock stopped; any later call changes nothing |
| Level.LevelController.HandleBossDefeated | DodgeQuest/Assets/Scripts/levelController.cs:176-187 | the same end of the game as HandlePlayerDied, sharing the one latch |
| Level.LevelController.EndGame | DodgeQuest/Assets/Scripts/levelController.cs:161-169 | the body both handlers share: latch set and every end-of-game effect |

## Left out

- UI: the counter labels and their update code are not part of this model. So are the per-owner bullet counters and their events, which bullet.cs does not define.
- Input: the Input System bindings and reading the move and fire actions. The movement vector (already normalized), the slow button and the fire button are parameters of `PlayerActor.Player.Update`.
- Trigonometry and rotation: the fan sway (a sine of the clock), the rose radius and the spawn offsets are not modelled. Atan2 aim is the parameter `playerAngle`. The viewport projection is the parameter `view`. Quaternion composition with the emitter's own rotation and Euler read-back are left out. Bullets carry their layout angle, not a world rotation.
- Spawn positions: bullet spawn points and the rose radius are left out; bullet records have no position.
- Floating point: times, angles and positions are exact reals. Float rounding, including in `Mathf.RoundToInt`'s input, is not modelled.
- Engine scheduling: Unity's frame order, and when the engine runs `SwitcherStep` and `RunDueFills`, are not modelled. Callers pick the game time.
- Destroy: a destroyed object leaves the scene at once, not at the end of the frame. So `Level.LevelController.HardClearAllEnemiesAndEnemyBullets` does not count enemies destroyed earlier in the same frame, which the source's search would still find.
- Bullet owners: bullet.cs as given declares no owner field and no Owner type, yet the other components read and set one. The model gives every bullet record an owner, Player or Enemy, and the ambient emitter's bullets take a configured `prefabOwner`.
- Area fills: a fill that runs while the area is inactive is not modelled, because disabling cancels every scheduled fill.
- Null slots: null entries in the level's area list are not modelled; every slot holds an area.
- Unlisted areas: the second sweep of `SetAllAreaSpawnersEnabled` over areas found in the scene but not in the list is not modelled. The model's level owns every area.
- Boss without a root: when the level has no boss root, the boss object is not modelled beyond the flag `hasBossRoot`.
- `gameEndAt`: it is declared on the level but never read, so no timeout transition exists.
- TimeManager singleton: `Awake`, and the level adding a TimeManager when none exists, are not modelled. The level is given its clock. The "no TimeManager, so t = 0" fallback in `Update` is not modelled.
- Event wiring: subscribing and unsubscribing to the player-died, boss-defeated and enemy-killed broadcasts is not modelled. The handlers are methods called directly. Broadcasts are recorded in logs.
- Active-count broadcasts: OnActiveCountChanged broadcasts are not recorded; the counters themselves are.
- `OnBecameInvisible`: a renderer callback, left out.
- Non-bullet colliders: contacts with objects that carry no Bullet component are the single value `NotABullet`.
- `Projectile.Bullet.Start`: the facing direction is given, as a vector of length one, rather than computed from the rotation, because trigonometry is not modelled.
- Boss defeat order: in the source the defeat broadcast runs before the deferred Destroy, so the level's handler disables a boss that still exists. In the model `BossEmitter.BulletSpawnerBoss.OnTriggerEnter2D` marks the boss destroyed and disables it itself; the level's handler then only deactivates the root. The boss root is modelled as outliving the boss.
- Bullet identity: `Projectile.Bullet.Update` is told the slot of its own record in the scene. That this slot stays correct as other bullets come and go is not modelled.
- `EnemyActor.BulletSpawnerEnemy.Update`: the enemy's OnDisable when destroyed is the scene's counter decrement; no other teardown is modelled.
