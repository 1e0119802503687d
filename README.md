# BugzDefenders combat and bookkeeping rules, in Dafny

This project models the rules BugzDefenders runs on each physics tick, each
frame and each trigger. BugzDefenders is a 2D Unity game in which the player
and a party of allied bugs fight enemies that keep spawning around the map.
Each behaviour script becomes one Dafny module. A script whose fields change
in place becomes a `class` with those fields and one method per modelled C# method.

| module | file | script |
|---|---|---|
| `Scene` | scene.dfy | values the scripts share: positions, tags, colliders, overlap hits, damage calls, `Mathf.Clamp` |
| `Targeting` | targeting.dfy | the nearest-tagged-collider loop that both `UpdateTarget` methods run |
| `Enemies` | enemy_unit.dfy | `EnemyUnit`: patrol, chase and attack; unclamped health |
| `Bugs` | bug_manager.dfy | `BugFollowPlayer`, declared in BugManager.cs: follows the player with a hysteresis band, attacks enemies, clamped health |
| `Spawning` | enemy_spawner.dfy | `EnemySpawner`: population cap, spread-out spawn positions, patrol points, removal on death |
| `Projectiles` | projectile.dfy | `Projectile`: the one-shot impact latch |
| `Shooting` | player_attack.dfy | `PlayerAttack`: fire point, cooldown gate, projectile delay |
| `Party` | player_party.dfy | `PlayerParty`: the append-only roster |

How the engine is represented:

- **Overlap queries.** `Physics2D.OverlapCircleAll` arrives as a sequence of `Hit`s. Each hit holds the collider's identity, its tag, which script it carries, and its distance from the querying object.
- **Other distances and directions.** The distances to the player and to the patrol point, the normalised movement direction and the clock (`Time.time`) are method parameters.
- **Obstacle tests and object positions.** `OverlapCircle`, `Linecast` and "where is this enemy now" are functions in a `World` value. Start's spawn attempts all run in one frame, so after each spawn the burst's `World` places the new enemy at its spawn position for the attempts that follow.
- **Random draws.** They are supplied sequences. There are ten spawn candidates per spawn, and ten draws per patrol point.
- **Distance comparisons.** `Vector2.Distance(a, b) < r` is stated exactly over the reals, as `0 < r && |a-b|² < r²`.
- **Damage on another object.** When a script damages another object, the damage is returned as a `Strike(victim, amount)` value. It is not a call into the other object's class. Each class's own `TakeDamage` is modelled, and the caller is expected to apply a returned `Strike` by calling the victim's `TakeDamage`; no member of the model does this itself.
- **Animator and destruction.** Animator triggers are kept as an event log (`triggers`). A `Destroy(obj, delay)` request is kept as the delay it asked for.

Behaviour the model follows exactly as the scripts have it:

- **Enemy health.** An enemy's health is not clamped; it can go negative. Each `TakeDamage` that leaves it at or below zero calls `Die` again, because there is no clamp and no already-dead guard.
- **Enemy target.** The enemy targets the nearest Ally strictly inside its detection radius. Ties go to the first hit. An Ally exactly at the radius is never chosen.
- **Enemy attack cooldown.** The cooldown restarts whenever the gate passes, even when no damage is dealt.
- **Bug attack cooldown.** The cooldown restarts only when damage lands, but the Attack animation plays on every attack tick.
- **Bug that loses its player.** A bug that has no player at Start never gets past the first check: its first target is null, so every tick returns at once. The fault needs the public `player` field to become null after Start has set a target; in the model a caller assigns `None` to `player` after construction. If no enemy is in range on such a tick, `UpdateTarget` sets the target to null, and the next line dereferences it. The model reports this tick as `Faulted` and changes nothing but the target.
- **Spawner with no prefabs.** With an empty prefab list, `SpawnRegularEnemy` throws on its prefab draw whenever it is below the cap. The model reports `NoPrefab` and leaves the list unchanged. The exception ends the caller too: inside `Start` it ends the burst before the spawn loop starts, and inside the spawn loop it ends the loop for good.
- **Spawner zero sentinel.** `FindSpreadOutSpawnPosition` returns the zero vector to mean "no position", and `SpawnRegularEnemy` tests for it with Unity's `Vector2 !=`. That operator treats vectors whose squared distance is below 1e-10 as equal. So a valid candidate within 1e-5 of the origin is discarded like a failure.
- **Integer health.** `currentHealth -= damage` is unchecked 32-bit `int` arithmetic in both units, so it wraps around. A large negative damage can overflow and leave health negative, which kills the unit.
- **Patrol points.** `GeneratePatrolPoint` returns its tenth draw even when that draw fails the tests.
- **Fire points.** `PlayerAttack`'s moving and stationary fire-point branches are identical: the fire point depends on facing alone.

## Model

| member | source | states |
|---|---|---|
| Scene.Clamp | Assets/Scripts/EnemySpawner.cs:109-110 | `Mathf.Clamp` on floats: with ordered bounds the result lies in them, a value already in them is kept, and the result is always the value or one of the bounds |
| Scene.Wrap32 | Assets/Scripts/EnemyUnit.cs:151 | C#'s unchecked `int` subtraction: the result is a 32-bit value, equal to the exact difference modulo 2^32, and equal to it when no overflow happens |
| Scene.OverflowWrapsNegative | Assets/Scripts/BugManager.cs:144-148 | when 32-bit health minus 32-bit damage overflows upward, the stored health is the difference minus 2^32 and is negative |
| Scene.ClampInt | Assets/Scripts/BugManager.cs:145 | the same three facts for the int overload of `Mathf.Clamp`, which the bug's integer health uses |
| Targeting.NearestSpec | Assets/Scripts/EnemyUnit.cs:70-87 | the running-minimum search finds a tagged hit strictly inside the radius, strictly nearer than every earlier tagged hit and no farther than every later one; it finds nothing only when no tagged hit is strictly inside the radius |
| Targeting.NearestUnique | Assets/Scripts/BugManager.cs:66-84 | that characterisation is exact in both directions: a hit satisfies it if and only if the search returns it |
| Targeting.NoneInRangeExact | Assets/Scripts/EnemyUnit.cs:70-87 | the search returns nothing if and only if no tagged hit is strictly inside the radius |
| Targeting.FindNearest | Assets/Scripts/EnemyUnit.cs:71-85 | the foreach loop over the hits computes the specified search, and its result is the nearest in-range tagged hit or nothing |
| Enemies.ChooseTarget | Assets/Scripts/EnemyUnit.cs:68-88 | the target is an Ally hit exactly when some Ally is strictly inside the detection radius, and then it is the nearest one (first on ties); otherwise it is the player |
| Enemies.Decide | Assets/Scripts/EnemyUnit.cs:45-65 | patrol if and only if the distance exceeds the detection radius; chase if and only if stop distance < distance ≤ detection radius; attack if and only if the distance is within both |
| Enemies.NextPatrolIndex | Assets/Scripts/EnemyUnit.cs:127-146 | with no patrol points the index is unchanged; an index inside the points stays inside; it changes only when within 0.1 of the point, and then it moves to the next point, wrapping to 0 after the last |
| Enemies.StrikeFor | Assets/Scripts/EnemyUnit.cs:102-119 | the damage call carries `damageAmount`; the player is hit if and only if the target is the player and the player has its script; a bug is hit if and only if the target is an Ally carrying the bug script, and then it is that target's own bug; no enemy is ever hit |
| Enemies.EnemyUnit.constructor | Assets/Scripts/EnemyUnit.cs:29-35 | Start: full health, patrol index 0, no target yet, enabled |
| Enemies.EnemyUnit.FixedUpdate | Assets/Scripts/EnemyUnit.cs:37-66 | a tick with no player or no rigidbody, or on a disabled component, changes nothing; otherwise it retargets, then patrols, chases or attacks by `Decide`; only `Patrol` moves the index, and only a passed cooldown strikes and restarts it |
| Enemies.EnemyUnit.UpdateTarget | Assets/Scripts/EnemyUnit.cs:68-88 | the current target becomes `ChooseTarget` of the overlap hits |
| Enemies.EnemyUnit.AttackTarget | Assets/Scripts/EnemyUnit.cs:98-123 | once `now - lastAttackTime >= attackCooldown`, it makes the target's damage call and sets `lastAttackTime := now` whatever the target is; before that, it changes nothing |
| Enemies.EnemyUnit.Patrol | Assets/Scripts/EnemyUnit.cs:125-147 | the index becomes `NextPatrolIndex` and remains a valid patrol index |
| Enemies.EnemyUnit.TakeDamage | Assets/Scripts/EnemyUnit.cs:149-158 | health becomes `h - damage` in wrapping 32-bit arithmetic, unclamped; every call that leaves it at or below zero runs `Die` (again, if already dead); otherwise nothing else changes |
| Enemies.EnemyUnit.Die | Assets/Scripts/EnemyUnit.cs:160-173 | Die trigger, collider and component disabled, destruction requested after 0.45 s |
| Enemies.DeadEnemyStaysInert | Assets/Scripts/EnemyUnit.cs:149-173 | after a `TakeDamage` that leaves the enemy at or below zero health, the next tick does nothing |
| Bugs.ChooseTarget | Assets/Scripts/BugManager.cs:64-85 | the target is an Enemy hit exactly when some Enemy is strictly inside the detection radius, and then it is the nearest one (first on ties); otherwise it is the player, or null when there is none; the target answers "Enemy" exactly when it is an enemy hit |
| Bugs.Following | Assets/Scripts/BugManager.cs:91-99 | the follow flag is set beyond stop + buffer, cleared within stop, and kept in the band between |
| Bugs.StoppedUntilBeyondBand | Assets/Scripts/BugManager.cs:91-99 | a stopped bug stays stopped through any run of player distances that never exceeds stop + buffer |
| Bugs.FollowingUntilWithinStop | Assets/Scripts/BugManager.cs:91-99 | a following bug keeps following through any run of player distances that stay beyond stop |
| Bugs.Flip | Assets/Scripts/BugManager.cs:113-120 | the sprite faces right for a positive x direction and left for a negative one, and keeps its flip for zero |
| Bugs.StrikeFor | Assets/Scripts/BugManager.cs:130-139 | once the cooldown allows, damage is dealt if and only if the target carries an EnemyUnit, and it is `damageAmount` on that enemy |
| Bugs.BugFollowPlayer.constructor | Assets/Scripts/BugManager.cs:29-36 | Start: full health, and the player (or null) as the first target |
| Bugs.BugFollowPlayer.FixedUpdate | Assets/Scripts/BugManager.cs:38-62 | a tick with no rigidbody or no target, or on a disabled component, changes nothing; otherwise it retargets; an enemy within attack range is attacked: the Attack trigger fires, the strike is `Bugs.StrikeFor` when the cooldown has passed and none otherwise, `lastAttackTime` moves to `now` exactly when a strike is made, and velocity, flip and follow flag are kept; an enemy beyond range is approached; the player is followed with the hysteresis; a null target faults |
| Bugs.BugFollowPlayer.UpdateTarget | Assets/Scripts/BugManager.cs:64-85 | the current target becomes `Bugs.ChooseTarget` of the overlap hits |
| Bugs.BugFollowPlayer.FollowPlayer | Assets/Scripts/BugManager.cs:87-105 | the flag follows `Following`; within stop distance the velocity is zeroed; the bug moves only while following |
| Bugs.BugFollowPlayer.MoveTowardsTarget | Assets/Scripts/BugManager.cs:107-121 | velocity is the direction times the follow speed, and the flip follows `Flip` |
| Bugs.BugFollowPlayer.AttackEnemy | Assets/Scripts/BugManager.cs:123-140 | the Attack trigger always fires; damage needs both the cooldown and an EnemyUnit target; `lastAttackTime` moves to `now` exactly when damage is dealt |
| Bugs.BugFollowPlayer.TakeDamage | Assets/Scripts/BugManager.cs:142-152 | health becomes `clamp(h - damage, 0, maxHealth)`, the subtraction wrapping as 32-bit `int` arithmetic does, and stays in `[0, maxHealth]`; `Die` runs exactly when it is at or below zero |
| Bugs.BugFollowPlayer.Die | Assets/Scripts/BugManager.cs:161-175 | Die trigger, collider and component disabled, destruction requested after 1 s |
| Spawning.ClampToBounds | Assets/Scripts/EnemySpawner.cs:108-110 | with ordered bounds the clamped candidate lies in the map rectangle, and a candidate already inside is kept |
| Spawning.FirstSpawnSpec | Assets/Scripts/EnemySpawner.cs:93-137 | the search yields the first clamped candidate that is clear of the player's safe radius, of every enemy still in existence and of obstacles; if no candidate passes, the zero sentinel; anything else it returns lies in the bounds and passes all three tests |
| Spawning.PatrolPickSpec | Assets/Scripts/EnemySpawner.cs:139-157 | the patrol point is one of the draws: the first acceptable one if there is one, otherwise the last draw even though it fails the tests |
| Spawning.RemoveFirst | Assets/Scripts/EnemySpawner.cs:172-175 | `List.Remove`: a missing entry leaves the list as it is; otherwise the list is one shorter and loses exactly one occurrence |
| Spawning.RemoveFirstShape | Assets/Scripts/EnemySpawner.cs:172-175 | the occurrence removed is the first one, and the entries before and after it keep their order |
| Spawning.RemoveFirstUnique | Assets/Scripts/EnemySpawner.cs:172-175 | in a list without duplicates, the dead enemy is gone afterwards and the list still has no duplicates |
| Spawning.EnemySpawner.constructor | Assets/Scripts/EnemySpawner.cs:24-26 | no active enemies, and the player alive |
| Spawning.EnemySpawner.Start | Assets/Scripts/EnemySpawner.cs:28-37 | the list becomes exactly `StartBurst` of `startingSpawnCount` capped attempts (none when it is negative), each attempt seeing the enemies the earlier ones placed; the spawn loop starts unless an attempt threw on an empty prefab list |
| Spawning.EnemySpawner.SpawnCycle | Assets/Scripts/EnemySpawner.cs:39-49 | one pass of the spawn loop: a stopped loop, or a dead player, adds nothing and leaves the loop stopped; at the cap it adds nothing; below the cap it makes exactly the attempt `SpawnResult` describes, and the loop ends if that attempt threw |
| Spawning.EnemySpawner.SpawnRegularEnemy | Assets/Scripts/EnemySpawner.cs:51-91 | the outcome is exactly `SpawnResult` of the list before the call, and the list is that list with the new instance appended exactly when the outcome is a spawn; the cap and uniqueness still hold |
| Spawning.SpawnResultSpec | Assets/Scripts/EnemySpawner.cs:53-85 | an attempt does nothing if and only if the count is at the cap; it throws if and only if it is below the cap with no prefabs; it spawns if and only if it is below the cap, a prefab exists, the search finds a position Unity's `!=` tells apart from the zero vector, the instance is an EnemyUnit and a clear patrol pair is found; a spawned enemy is the new instance, at the searched position, farther than 1e-5 from the origin, in bounds that passes the three tests, with a clear path between its patrol points; the count never passes the cap |
| Spawning.FirstClearPairSound | Assets/Scripts/EnemySpawner.cs:73-77 | the pair the path-clear retry settles on always has a clear path |
| Spawning.StartBurstSpec | Assets/Scripts/EnemySpawner.cs:31-34 | the burst only appends the draws' instances, at most one per attempt, never past the cap; it throws if and only if there is an attempt, no prefab and room below the cap, and then adds nothing |
| Spawning.Place | Assets/Scripts/EnemySpawner.cs:60 | after a spawn, the world places the new enemy at its spawn position and answers everything else as before |
| Spawning.BurstSpreadOut | Assets/Scripts/EnemySpawner.cs:119-127 | within one burst, every enemy spawned keeps at least `minDistanceBetweenEnemies` from each enemy listed before it that still exists |
| Spawning.ThrownBurstStops | Assets/Scripts/EnemySpawner.cs:31-34 | once an attempt of the burst has thrown, the later attempts never run |
| Spawning.EnemySpawner.FindSpreadOutSpawnPosition | Assets/Scripts/EnemySpawner.cs:93-137 | the ten-attempt loop, with its inner loop over the active enemies, computes the first valid clamped candidate; a non-zero result is in the bounds and passes the three tests; if every candidate fails, the zero vector |
| Spawning.EnemySpawner.GeneratePatrolPoint | Assets/Scripts/EnemySpawner.cs:139-157 | the do-while stops at the first acceptable draw or after ten draws; an unacceptable result is the tenth draw, and every draw failed |
| Spawning.EnemySpawner.PickPatrolPair | Assets/Scripts/EnemySpawner.cs:71-77 | the retry ends at the first attempt whose two points see each other, and the pair it returns has a clear path |
| Spawning.EnemySpawner.HandleEnemyDeath | Assets/Scripts/EnemySpawner.cs:172-175 | the dead enemy's first occurrence leaves the list, no other entry changes, and the cap and uniqueness still hold |
| Spawning.EnemySpawner.OnPlayerDeath | Assets/Scripts/EnemySpawner.cs:177-180 | the player-alive flag becomes false |
| Projectiles.ImpactStrike | Assets/Scripts/Projectile.cs:37-57 | a trigger deals damage if and only if the latch is unset and the other object is Enemy-tagged with an EnemyUnit; the damage is the projectile's, on that enemy; a damaging trigger is always a latching one |
| Projectiles.AtMostOneImpact | Assets/Scripts/Projectile.cs:34-82 | over any run of triggers at most one impact is processed and at most one damage call made, and none once the latch is set |
| Projectiles.Projectile.constructor | Assets/Scripts/Projectile.cs:9 | a new projectile is unlatched |
| Projectiles.Projectile.OnTriggerEnter2D | Assets/Scripts/Projectile.cs:34-82 | the first Enemy or Tiles contact sets the latch, stops the projectile, disables its collider, plays Impact and schedules destruction, and only an Enemy contact damages; a latched projectile or any other tag changes nothing |
| Shooting.FirePointFor | Assets/Scripts/PlayerAttack.cs:47-60 | the fire point is the right one if and only if the player faces right, moving or not |
| Shooting.After | Assets/Scripts/PlayerAttack.cs:82 | the next attack time lies after the click for a positive rate, before it for a negative rate, and never comes for a zero rate |
| Shooting.ShotsSpaced | Assets/Scripts/PlayerAttack.cs:62-82 | with a positive rate and a clock that never runs backward, no shot comes before the scheduled time, and consecutive shots are at least `1/attackRate` apart |
| Shooting.ZeroRateFiresOnce | Assets/Scripts/PlayerAttack.cs:82 | with a zero rate at most one shot is ever fired |
| Shooting.PlayerAttack.constructor | Assets/Scripts/PlayerAttack.cs:17 | the first attack is allowed from time 0 |
| Shooting.PlayerAttack.Update | Assets/Scripts/PlayerAttack.cs:45-85 | the fire point follows facing; a shot happens if and only if the button is pressed and the clock has reached `nextAttackTime`; then the delay is the animation length minus the moving or stationary offset, and `nextAttackTime` moves one period past now; otherwise `nextAttackTime` is unchanged |
| Party.SpawnPosition | Assets/Scripts/PlayerParty.cs:14-15 | a unit-disc draw scaled by the spawn radius places the bug within that radius of the player |
| Party.PlayerParty.constructor | Assets/Scripts/PlayerParty.cs:6 | the party starts empty |
| Party.PlayerParty.AddBugToParty | Assets/Scripts/PlayerParty.cs:9-35 | a null prefab leaves the roster unchanged; otherwise exactly one bug is appended, within the spawn radius of the player, and earlier entries stay as they were; a bug with a follow script follows the party's owner |

## Left out

- Rendering, animation timing and audio are not modelled. This covers `FlashRed`, sprite colours, the enemy's sprite flip in `ChaseTarget` and `Patrol`, and the animator state lengths. Animator triggers are kept only as an event log.
- Movement is not modelled. `MovePosition`, `Translate` and the patrol and chase speeds are floating-point vector steps the engine performs; the model keeps the decision to move and the velocity the bug sets.
- Physics queries, random sampling, trigonometry and normalisation are supplied as inputs. These are `OverlapCircleAll`, `OverlapCircle`, `Linecast`, `Random.Range`, `Random.insideUnitCircle`, `Mathf.Cos/Sin`, `normalized` and `ScreenToWorldPoint`.
- Floating-point rounding is not modelled: times and distances are exact reals.
- A zero `attackRate` is modelled as the single-precision infinity it produces. NaN and negative zero are not modelled.
- Spawning.EnemySpawner.PickPatrolPair: the engine's path-clear retry has no bound. The model retries over the supplied attempts and reports `Hung` when they run out.
- Spawning.EnemySpawner.SpawnRegularEnemy: the prefab chosen and the enemy's own settings are not modelled. These are `playerObject`, `playerPosition`, `strengthLevel`, `AssignBugAlly`, the patrol-point objects and the `OnDeath` subscription. The EnemyUnit script of this repository does not declare those members, so a spawned enemy is an opaque handle. `HandleEnemyDeath` is modelled as the callback it was meant to be.
- Spawning.EnemySpawner.Start and SpawnRegularEnemy require each draw to name a new instance that is not yet listed, because `Instantiate` always creates a new object.
- The spawn loop's `WaitForSeconds(spawnInterval)` is not modelled: the loop is a sequence of `SpawnCycle` calls. `StartCoroutine` runs the first pass at once, at the end of `Start`; each later pass comes one interval after the previous one.
- Shooting.PlayerAttack.Update: the delayed projectile is returned as a `Shot` carrying the aim direction at the click. The coroutine reads the field `shootDirection` after the delay, and a second click inside that delay would change it; coroutine timing is not modelled. Instantiating the projectile and its rotation are left out as well.
- Projectile `SetDirection`, `speed` and the unused `range` field are left out. The model's projectile starts with whatever velocity it is given.
- Projectiles.Projectile.OnTriggerEnter2D, Enemies.EnemyUnit.Die, Bugs.BugFollowPlayer.Die, Bugs.BugFollowPlayer.AttackEnemy, Shooting.PlayerAttack.Update and Spawning.EnemySpawner.SpawnRegularEnemy: the components and references they use are assumed present, so the exception a missing one throws is not modelled. The Attack trigger (BugManager.cs line 126) and the Die triggers (EnemyUnit.cs line 162, BugManager.cs line 164) are set only when an Animator is present; the model always logs them. Projectile.cs lines 17-20 only log a missing `Rigidbody2D` or `Animator`, and the impact at lines 44 and 50 (or 70 and 76) would then throw after latching and before any damage. EnemyUnit.cs line 168 and BugManager.cs line 170 would throw on a missing collider before the destruction request. PlayerAttack.cs line 70 would throw on a missing animator before `nextAttackTime` moves. EnemySpawner.cs lines 66, 105, 113 and 152 would throw on a null `player`.
- Enemies.EnemyUnit.TakeDamage and Bugs.BugFollowPlayer.TakeDamage: the wrap-around agrees with C# when health and damage are 32-bit values. The model's `int` fields do not enforce that range.
- Enemies.EnemyUnit.FixedUpdate and Bugs.BugFollowPlayer.FixedUpdate: a player or target object destroyed after it was set is not tracked. The enemy's `hasPlayer` is fixed at construction. The bug's `currentTarget` changes only by retargeting; its `player` changes only when a caller clears it. Unity would report such an object as null at the checks the scripts already make (EnemyUnit.cs line 39, BugManager.cs line 40).
- Damage to the player is returned as a `Strike` only. PlayerMovement, which would receive it, is not part of this model. PlayerMovement as shipped declares neither `TakeDamage`, `IsMoving` nor `facingRight`, so facing and moving are parameters.
- GameManager.cs (score text, scene reload, pause), MainMenu.cs (scene loading) and BugFollowPlayer.cs (an older copy of the class in BugManager.cs) are not part of this model.
- Positions are 2D; the z coordinate of `transform.position` is dropped.
