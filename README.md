# Pokemon-Survivors, modelled in Dafny

A model of the gameplay bookkeeping of the Unity game *Pokemon-Survivors*, with
proofs about it. Each game script of `Assets/Scripts` is one module. Its
engine-free logic is datatypes, functions and lemmas. Its per-frame state is
a class whose methods change fields in place, and those methods are proved
equal to the pure functions.

- `Spawning` (`enemy_spawner.dfy`) is the wave spawner. Each frame adds the
  frame time to the current wave's timer. The wave spawns at most once per
  interval, inside a band above or below the camera. A wave moves on when its
  count reaches its target. When the table wraps, every interval is damped by
  0.9, down to a floor of 0.5.
- `WeaponRules` (`weapons_lifecycle.dfy`) and `Armory` (`weapons.dfy`) are the
  weapon. They cover the clamped upgrade index and the list of enemies in range
  (enter, exit, and the reverse sweep that drops destroyed enemies). They also
  cover the damage counter, the duration countdown and the bounded wait for the
  player. The hide/cooldown/show coroutines become one state machine, which
  resumes once per frame.
- `DamageNumbers` (`damage_numbers.dfy`) is the floating damage labels and
  their pool: a queue of free labels plus a list of labels in use. Each label
  counts its lifetime down and hands itself back through a callback.
- `Players` (`player.dfy`) is the player. It holds the level table (×3 with
  ceiling), experience with at most one level-up per call, the two-second
  immunity timer and the button/keyboard input switch.
- `Enemies` (`enemy.dfy`) is the enemy. It loses integer health and dies at 0
  or below. Knockback flips the sign of its speed. Contact damages the player
  by the current wave's damage, and the player's health is clamped at 0.
- `Game` (`game_manager.dfy`) is the game manager. `Pause(bool?)` toggles or
  forces the pause. The time scale is 0 exactly while paused. The clock shows
  "MM:SS".
- `Lists`, `Text` and `Wrappers` are shared helpers:
  - `List.Remove` and distinctness;
  - decimal and zero-padded printing, with parsers that prove the printing
    round-trips;
  - `Option`.

Engine effects become explicit data:
- A hit is a `Hit(enemy, amount)` value, and enemies are identities.
- The enemies the engine has destroyed are a set parameter.
- `Vector3.Lerp`, `Random.Range`, key presses and `Time.deltaTime` are
  parameters. Each draw parameter is constrained to its range.
- `Time.deltaTime` is required to be non-negative.

Where the code and its intent could be read two ways, the model follows the code:
- A weapon whose configured duration is zero or negative hides on the first
  frame (`Weapons.cs:187` tests `duration <= 0`). It is not a weapon that never
  expires.
- The spawn band includes both edges, x = -16 and x = 16: the float overload of
  `Random.Range` (`EnemySpawner.cs:143`) includes both ends.
- `waveNumber` starts at 1 (`EnemySpawner.cs:31`). So wave 0 is first played
  after a rollover, and a one-wave table never spawns.
- Destruction takes effect at the end of the frame. So an enemy hit twice in the
  frame it dies runs `Die` twice and gives its experience twice.
  `Enemies.EnemyController.TakeDamage` states this: the experience is given
  whenever the health ends at 0 or below.

## Model

| member | source | states |
|---|---|---|
| Spawning.GenerateSpawnPosition | Assets/Scripts/EnemySpawner.cs:141-152 | every in-range draw lands in the band x ∈ [-16, 16] (both ends can be drawn), y = camera y ± 10, z = 0 |
| Spawning.SpawnBandIsReachable | Assets/Scripts/EnemySpawner.cs:141-152 | conversely, every point of that band, x = ±16 included, is produced by some in-range draw |
| Spawning.AdjustedInterval | Assets/Scripts/EnemySpawner.cs:214-217 | the adjusted interval is at least 0.5 and at least 0.9 × the old one, and equals one of the two |
| Spawning.AdjustedIntervalApproachesFloor | Assets/Scripts/EnemySpawner.cs:214-217 | above 0.5 an interval strictly shrinks but stays ≥ 0.5; at or below 0.5 it becomes 0.5 |
| Spawning.Escalated | Assets/Scripts/EnemySpawner.cs:200-212 | the difficulty increase keeps the table's length |
| Spawning.EscalationFloorsEveryInterval | Assets/Scripts/EnemySpawner.cs:200-217 | after an increase, null waves stay null; every other wave has interval max(0.5, 0.9 × old), so ≥ 0.5, and no other field changed |
| Spawning.RolloversClosedForm | Assets/Scripts/EnemySpawner.cs:181-217 | after n ≥ 1 rollovers an interval is max(0.5, 0.9ⁿ × original) |
| Spawning.DampedStep | Assets/Scripts/EnemySpawner.cs:216 | one more damping step multiplies the unfloored interval by 0.9 |
| Spawning.TickGuard | Assets/Scripts/EnemySpawner.cs:68-87 | a frame with an empty table, an out-of-range wave number or a null current wave changes nothing and spawns nothing |
| Spawning.TickSpawnsAtMostOnce | Assets/Scripts/EnemySpawner.cs:101-138 | a frame spawns at most once, exactly when timer + dt reaches the interval and a prefab and camera exist; the spawn is in the band; the count rises by 1 exactly then; the timer resets whenever the interval was reached, even without a spawn |
| Spawning.TickCompletesWave | Assets/Scripts/EnemySpawner.cs:77-79 | the completion check sees the post-spawn count and advances the wave exactly when it has reached the target |
| Spawning.AdvanceStaysInRange | Assets/Scripts/EnemySpawner.cs:165-188 | advancing gives wave (n + 1) mod Count, always in range, and 0 exactly after the last wave |
| Spawning.AdvanceResetsOnlyNewWave | Assets/Scripts/EnemySpawner.cs:190-196 | without a wrap, only the new wave's spawned count is reset; its timer and every other wave are untouched |
| Spawning.RolloverEscalatesEveryWave | Assets/Scripts/EnemySpawner.cs:181-217 | on a wrap every non-null interval is damped with the 0.5 floor, wave 0's count is reset, nothing else changes |
| Spawning.OneWaveTableNeverSpawns | Assets/Scripts/EnemySpawner.cs:31 | from the initial wave number 1, a table of at most one wave does nothing |
| Spawning.SteadyWaveSpawnsEveryFrame | Assets/Scripts/EnemySpawner.cs:112-128 | with frames one interval long, k frames short of the target stay on the wave and spawn exactly k enemies |
| Spawning.SteadyFrame | Assets/Scripts/EnemySpawner.cs:112-128 | a frame exactly one interval long on a spawnable wave spawns, raises the count by one, and advances exactly when the count reaches the target |
| Spawning.FreshWaveEmitsItsTarget | Assets/Scripts/EnemySpawner.cs:112-128 | a fresh wave on such frames spawns on each of its first n frames (n = its target) and advances on frame n, not before |
| Spawning.EnemySpawner.constructor | Assets/Scripts/EnemySpawner.cs:28-31 | the spawner starts at wave number 1 with the configured table |
| Spawning.EnemySpawner.ProcessSpawning | Assets/Scripts/EnemySpawner.cs:68-80 | the in-place frame leaves exactly the state and spawn of the pure frame `Tick` |
| Spawning.EnemySpawner.CheckForSpawn | Assets/Scripts/EnemySpawner.cs:112-119 | the in-place spawn check writes back the wave given by `SpawnCheck` and touches no other wave |
| Spawning.EnemySpawner.SpawnEnemy | Assets/Scripts/EnemySpawner.cs:130-138 | with a prefab and camera, the count rises by one and the position is in the band; otherwise nothing changes |
| Spawning.EnemySpawner.CheckForWaveCompletion | Assets/Scripts/EnemySpawner.cs:122-128 | the wave advances exactly when its count has reached its target |
| Spawning.EnemySpawner.AdvanceToNextWave | Assets/Scripts/EnemySpawner.cs:165-173 | the in-place advance equals `Advanced`, whose range and reset properties are proved above |
| Spawning.EnemySpawner.HandleWaveRollover | Assets/Scripts/EnemySpawner.cs:181-188 | the in-place wrap equals `Rollover` |
| Spawning.EnemySpawner.ResetNewWaveSpawnCount | Assets/Scripts/EnemySpawner.cs:190-196 | the in-place reset equals `ResetNewWave` |
| Spawning.EnemySpawner.IncreaseDifficulty | Assets/Scripts/EnemySpawner.cs:200-212 | the in-place loop over the table leaves exactly `Escalated` of the old table |
| WeaponRules.CheckedIndex | Assets/Scripts/Weapons.cs:139-146 | an in-range index is kept and an out-of-range one becomes 0 |
| WeaponRules.IndexCheckIffNonEmpty | Assets/Scripts/Weapons.cs:139-146 | the index check passes exactly on a non-empty table, and the index is then in range |
| WeaponRules.UpgradeIsClampedAndMonotone | Assets/Scripts/Weapons.cs:480-483 | an upgrade never lowers an in-range index, never reaches Count, and adds exactly one until the last weapon |
| WeaponRules.ThreeUpgradesFromZero | Assets/Scripts/Weapons.cs:472-483 | on a three-weapon table, upgrades from 0 give 1, 2, 2 |
| WeaponRules.EnterThenExitRestoresRange | Assets/Scripts/Weapons.cs:297-305 | entering then leaving restores the multiset of tracked enemies, and the list itself when the enemy was not already tracked |
| WeaponRules.SurvivorsSpec | Assets/Scripts/Weapons.cs:330-343 | the sweep keeps no destroyed entry and keeps every other entry with its multiplicity |
| WeaponRules.SweepHitsSurvivorsInReverse | Assets/Scripts/Weapons.cs:330-343 | the sweep hits each survivor exactly once with the weapon's damage, last entry first |
| WeaponRules.CountdownOnlyWhilePositive | Assets/Scripts/Weapons.cs:259-265 | a positive duration drops by exactly dt; a non-positive one stays put |
| WeaponRules.CountdownCurrent | Assets/Scripts/Weapons.cs:259-265 | the countdown keeps the table's length |
| WeaponRules.DamageCounterStaysInInterval | Assets/Scripts/Weapons.cs:312-328 | the counter stays in (0, 0.5]; a sweep happens exactly on the frame it reaches 0, and the counter is then reset to 0.5 |
| WeaponRules.ResumeKeepsPhaseFlags | Assets/Scripts/Weapons.cs:368-444 | every resumption keeps each phase's `isHiding`/visibility flags; the table changes at most in the current weapon's duration, set back to the captured one |
| WeaponRules.ActiveHidesIffExpired | Assets/Scripts/Weapons.cs:185-188 | an active weapon starts hiding exactly when its duration is ≤ 0, zero and negative included |
| WeaponRules.HideEndsSnapped | Assets/Scripts/Weapons.cs:383-392 | hiding ends exactly when the scale is within 0.01 of the minimal scale; it then snaps to it, deactivates, sets `isHiding` and starts the stay-time wait |
| WeaponRules.CooldownWaitsStayTime | Assets/Scripts/Weapons.cs:395-410 | the cooldown lasts until the stay time has elapsed; then the weapon is shown, its duration is reset to `initialDuration` and it grows toward its configured scale |
| WeaponRules.ShowEndsSnapped | Assets/Scripts/Weapons.cs:401-439 | showing ends exactly when the scale is within 0.01 of the target; it then snaps to it, clears `isHiding` and the weapon is active again |
| Armory.Weapons.constructor | Assets/Scripts/Weapons.cs:44-48 | the configured table and index, no enemies in range, no weapon instance |
| Armory.Weapons.IsValidWeaponConfiguration | Assets/Scripts/Weapons.cs:131-152 | holds exactly on a non-empty table whose current weapon has a prefab after the index reset; an empty table keeps its index |
| Armory.Weapons.WaitForPlayerController | Assets/Scripts/Weapons.cs:345-363 | the bounded wait stops at the first poll that finds the player and gives up after 50 polls of 0.1 |
| Armory.Weapons.CreateInitialWeapon | Assets/Scripts/Weapons.cs:201-234 | the current duration is captured once, and the instance is created at the configured scale with the lifecycle active |
| Armory.Weapons.Start | Assets/Scripts/Weapons.cs:114-129 | a bad table disables the component; otherwise the weapon exists exactly when the player appears within 50 polls |
| Armory.Weapons.Update | Assets/Scripts/Weapons.cs:63-66 | a disabled component does nothing; otherwise the frame is the damage counter and sweep, then the countdown, then one lifecycle resumption; the captured duration, the instance and the panel are untouched |
| Armory.Weapons.ProcessWeaponBehavior | Assets/Scripts/Weapons.cs:241-249 | an out-of-range index changes nothing; otherwise the counter and sweep run whatever the lifecycle phase, then the countdown |
| Armory.Weapons.UpdateWeaponDuration | Assets/Scripts/Weapons.cs:259-265 | the live countdown is stored in the current weapon's entry of the table |
| Armory.Weapons.ProcessDamageCounter | Assets/Scripts/Weapons.cs:312-328 | the counter follows `DamageCounterStep`, and the sweep runs exactly when it asks for one |
| Armory.Weapons.DamageAllEnemiesInRange | Assets/Scripts/Weapons.cs:330-343 | the reverse loop with `RemoveAt` leaves exactly the survivors and emits exactly the sweep's hits |
| Armory.Weapons.HandleEnemyEnter | Assets/Scripts/Weapons.cs:267-278 | an "Enemy" collider with a controller is appended (duplicates allowed) and hit once with the current damage; anything else changes nothing |
| Armory.Weapons.HandleEnemyExit | Assets/Scripts/Weapons.cs:280-305 | an "Enemy" collider's first occurrence is removed; leaving while absent is a no-op |
| Armory.Weapons.ScaleWeaponTo | Assets/Scripts/Weapons.cs:413-439 | scaling continues while the distance exceeds 0.01, and otherwise snaps exactly to the target |
| Armory.Weapons.HideWeapon | Assets/Scripts/Weapons.cs:383-398 | the in-place hide step equals `HideFrom` |
| Armory.Weapons.ShowWeapon | Assets/Scripts/Weapons.cs:401-410 | the in-place show step equals `ShowFrom` |
| Armory.Weapons.ResetWeaponDuration | Assets/Scripts/Weapons.cs:441-444 | the captured `initialDuration` is written into whichever index is current |
| Armory.Weapons.ResumeLifecycle | Assets/Scripts/Weapons.cs:368-380 | the in-place resumption equals `Resume` and keeps the component invariant |
| Armory.Weapons.UpgradePanel | Assets/Scripts/Weapons.cs:446-457 | the panel is shown if present, and the game manager takes the forced pause step (paused, time scale 0, its panel shown), with its clock untouched |
| Armory.Weapons.UpgradeWeapon | Assets/Scripts/Weapons.cs:459-483 | the index advances with the clamp on a non-empty table, the panel hides, and the game manager takes the forced unpause step (time scale 1); nothing else of the component changes |
| Lists.RemoveFirstAbsent | Assets/Scripts/Weapons.cs:302-305 | removing an element that is not there leaves the list unchanged |
| Lists.RemoveFirstAt | Assets/Scripts/Weapons.cs:302-305 | removal takes out exactly the first match, keeping the rest in order |
| Lists.RemoveFirstMultiset | Assets/Scripts/Weapons.cs:302-305 | removal takes exactly one copy out of the multiset, if there was one |
| Lists.RemoveFirstOfDistinct | Assets/Scripts/DamageNumberController.cs:95-104 | in a duplicate-free list, removal keeps it duplicate-free and the removed element is gone |
| Text.NatToString | Assets/Scripts/DamageNumber.cs:23-29 | non-empty decimal digits without a leading zero; one digit exactly below 10 |
| Text.IntToString | Assets/Scripts/DamageNumber.cs:23-29 | a leading '-' exactly for negatives, then decimal digits |
| Text.Pad2 | Assets/Scripts/GameManager.cs:110 | the `00` format gives at least two digits, exactly two below 100, and adds no padding from 10 up |
| Text.ParseNatToString | Assets/Scripts/DamageNumber.cs:23-29 | reading a printed natural back gives the number |
| Text.IntToStringRoundTrip | Assets/Scripts/DamageNumber.cs:23-29 | reading a printed integer back gives the integer, sign included |
| Text.Pad2RoundTrip | Assets/Scripts/GameManager.cs:110 | reading a padded field back gives the number |
| Game.ClockSplitsWholeSeconds | Assets/Scripts/GameManager.cs:106-111 | for t ≥ 0, minutes ≥ 0, seconds ∈ [0, 60), and 60 × minutes + seconds = ⌊t⌋ |
| Game.FormatTime | Assets/Scripts/GameManager.cs:106-111 | the display is digits, a colon, then two digits |
| Game.FormatTimeReadsBack | Assets/Scripts/GameManager.cs:106-111 | reading the display back gives ⌊t / 60⌋ and ⌊t mod 60⌋ |
| Game.PauseStep | Assets/Scripts/GameManager.cs:59-67 | the new pause state is the forced one, or the toggle without an argument |
| Game.ForcedPauseIsIdempotent | Assets/Scripts/GameManager.cs:59-67 | forcing gives the forced state; forcing the current state changes nothing; forcing twice is forcing once |
| Game.PauseChangeIsConsistent | Assets/Scripts/GameManager.cs:128-139 | after any change of state the time scale is 0 exactly when paused and the panel shows exactly when paused |
| Game.ToggleTwiceRestores | Assets/Scripts/GameManager.cs:59-67 | from a consistent state, toggling flips the flag and toggling twice restores everything |
| Game.GameManager.constructor | Assets/Scripts/GameManager.cs:14-15 | not paused, time scale 1, clock at 0 |
| Game.GameManager.Pause | Assets/Scripts/GameManager.cs:59-67 | the in-place pause equals `PauseStep`, and does nothing at all when the state would not change |
| Game.GameManager.UpdateTimeScale | Assets/Scripts/GameManager.cs:128-131 | the time scale is 0 when paused and 1 otherwise |
| Game.GameManager.UpdatePauseUI | Assets/Scripts/GameManager.cs:133-139 | an attached panel shows exactly when paused |
| Game.GameManager.ResetTimeScale | Assets/Scripts/GameManager.cs:123-126 | the time scale becomes 1 |
| Game.GameManager.RestartGame | Assets/Scripts/GameManager.cs:39-43 | time scale 1 and a reload of the active scene, `isPaused` untouched |
| Game.GameManager.PlayGame | Assets/Scripts/GameManager.cs:45-49 | time scale 1 and a load of "Game", `isPaused` untouched |
| Game.GameManager.MainMenu | Assets/Scripts/GameManager.cs:51-55 | time scale 1 and a load of "MainMenu", `isPaused` untouched |
| Game.GameManager.UpdateGameTimer | Assets/Scripts/GameManager.cs:96-103 | the clock advances by dt, and shows "MM:SS", only while a timer text exists |
| Game.GameManager.DisplayFormattedTime | Assets/Scripts/GameManager.cs:106-111 | the text becomes the formatted elapsed time |
| Game.GameManager.Update | Assets/Scripts/GameManager.cs:82-103 | Escape takes the toggle step of `PauseStep` only while a player exists, so a consistent time scale and panel stay consistent; then the clock runs and, with a timer text, shows the formatted time |
| DamageNumbers.RoundToInt | Assets/Scripts/DamageNumberController.cs:119 | `Mathf.RoundToInt` gives an integer within ½ of the value, and the even one on a tie |
| DamageNumbers.RoundingIsUnique | Assets/Scripts/DamageNumberController.cs:119 | those two properties determine the rounded value |
| DamageNumbers.RoundingKeepsWholeValues | Assets/Scripts/DamageNumberController.cs:119 | a whole damage value is shown as itself |
| DamageNumbers.LabelReadsBackRounded | Assets/Scripts/DamageNumberController.cs:119 | the label, read back, is the rounded damage |
| DamageNumbers.DamageNumber.constructor | Assets/Scripts/DamageNumber.cs:5-15 | a fresh copy is active, with no callback and zeroed timers |
| DamageNumbers.DamageNumber.SetDamage | Assets/Scripts/DamageNumber.cs:23-29 | with a text component, the text is the decimal string of the value and reads back as it; without one, nothing changes |
| DamageNumbers.DamageNumber.SetReturnToPoolCallback | Assets/Scripts/DamageNumber.cs:31-34 | the callback is stored |
| DamageNumbers.DamageNumber.Initialize | Assets/Scripts/DamageNumber.cs:37-41 | the lifetime becomes 1 and the speed is the draw from [0.1, 1] |
| DamageNumbers.DamageNumber.Update | Assets/Scripts/DamageNumber.cs:17-21 | a frame raises y by speed × dt, leaves x and z, and lowers the lifetime by dt; on reaching 0 or below the label returns to its pool, or is destroyed without one; the pool stays valid |
| DamageNumbers.DamageNumber.FloatUpward | Assets/Scripts/DamageNumber.cs:43-46 | only y changes, by exactly speed × dt |
| DamageNumbers.DamageNumber.UpdateLifetime | Assets/Scripts/DamageNumber.cs:49-56 | the lifetime falls by dt, and the return fires exactly on the frame it becomes ≤ 0 |
| DamageNumbers.DamageNumber.ReturnToPool | Assets/Scripts/DamageNumber.cs:60-70 | the callback runs if set (the pool takes the label back if it is in use); otherwise the object is destroyed |
| DamageNumbers.DamageNumberController.constructor | Assets/Scripts/DamageNumberController.cs:59-68 | after initialisation the queue holds `poolSize` new hidden labels, none is in use, and the pool invariant holds |
| DamageNumbers.DamageNumberController.CreatePooledDamageNumber | Assets/Scripts/DamageNumberController.cs:70-76 | exactly one new hidden label, wired to this pool, joins the back of the queue |
| DamageNumbers.DamageNumberController.GetPooledDamageNumber | Assets/Scripts/DamageNumberController.cs:81-91 | the pool grows by one only when the queue is empty; the front is always dequeued and appended to the in-use list |
| DamageNumbers.DamageNumberController.ReturnToPool | Assets/Scripts/DamageNumberController.cs:95-104 | a label in use leaves the list, is hidden and joins the back of the queue; anything else changes nothing, so a second return is a no-op; the total is conserved |
| DamageNumbers.DamageNumberController.SetupDamageNumber | Assets/Scripts/DamageNumberController.cs:112-122 | the label is placed and activated, shows the rounded value, and its lifetime and speed restart |
| DamageNumbers.DamageNumberController.CreateNumber | Assets/Scripts/DamageNumberController.cs:33-43 | without a prefab nothing happens; otherwise one more label is in use, showing the rounded value at the location, and the pool invariant holds |
| Players.CeilToInt | Assets/Scripts/PlayerController.cs:220 | the ceiling c of r satisfies r ≤ c < r + 1 |
| Players.NextLevelRequirement | Assets/Scripts/PlayerController.cs:216-223 | the next requirement is 3 × the last entry, or 100 for an empty table |
| Players.Extended | Assets/Scripts/PlayerController.cs:209-213 | generating k levels appends k entries and keeps the existing ones |
| Players.GeneratedLength | Assets/Scripts/PlayerController.cs:205-214 | generation keeps the existing entries and ends with max(old length, maxLevel + 1) entries |
| Players.ExtendedClosedForm | Assets/Scripts/PlayerController.cs:205-223 | the j-th generated entry is the last configured entry × 3ʲ |
| Players.ExtendedStaysIncreasing | Assets/Scripts/PlayerController.cs:205-223 | from a positive, strictly increasing table the generated table is positive and strictly increasing |
| Players.Gain | Assets/Scripts/PlayerController.cs:346-379 | experience grows by the gain; the level rises by at most one, exactly when the level is in the table and the experience has reached its requirement |
| Players.GainsAccumulate | Assets/Scripts/PlayerController.cs:346-379 | over n calls, experience is the sum of the gains, the level rises by at most n and never passes the end of the table |
| Players.BigGainLevelsOnce | Assets/Scripts/PlayerController.cs:360-379 | a gain worth two levels still gives one level per call |
| Players.ImmunityStep | Assets/Scripts/PlayerController.cs:287-307 | the timer runs only while immune, and immunity ends on the frame it reaches 0 |
| Players.ImmunityLasts | Assets/Scripts/PlayerController.cs:287-320 | with constant frames, immunity started at T > 0 holds exactly while n × dt < T, with timer T − n × dt |
| Players.ImmunityLastsTwoSeconds | Assets/Scripts/PlayerController.cs:309-313 | after a hit the player is immune exactly while n × dt < 2 |
| Players.PlayerController.constructor | Assets/Scripts/PlayerController.cs:141-161 | health = max health = 10, experience 0, level 0, and a table that is the configured one or, when empty, [100] |
| Players.PlayerController.InitializePlayerStats | Assets/Scripts/PlayerController.cs:141-148 | health = max health = 10, experience 0, level 0 |
| Players.PlayerController.InitializeLevelSystem | Assets/Scripts/PlayerController.cs:150-161 | the table is non-empty afterwards; if it was empty, it is exactly [100] |
| Players.PlayerController.Start | Assets/Scripts/PlayerController.cs:58-65 | the level table is extended as `Extended` describes |
| Players.PlayerController.GenerateAdditionalLevels | Assets/Scripts/PlayerController.cs:205-214 | the loop leaves exactly `Extended(old table, max(0, maxLevel − Count + 1))` |
| Players.PlayerController.Experience | Assets/Scripts/PlayerController.cs:85-89 | progress follows `Gain`; a level-up opens the upgrade panel and the game manager takes the forced pause step; of the weapon component only the panel flag may change, and its invariant is kept; without a level-up nothing else is touched |
| Players.PlayerController.ActivateImmune | Assets/Scripts/PlayerController.cs:79-83 | immune, with the timer at 2 and the sprite tinted |
| Players.PlayerController.ProcessImmunity | Assets/Scripts/PlayerController.cs:287-320 | the in-place timer follows `ImmunityStep`; the tint clears when immunity ends |
| Players.PlayerController.SetDirectionalInput | Assets/Scripts/PlayerController.cs:397-402 | a button takes over the input and sets the direction |
| Players.PlayerController.ButtonUp | Assets/Scripts/PlayerController.cs:91-94 | button input, moving up |
| Players.PlayerController.ButtonDown | Assets/Scripts/PlayerController.cs:96-99 | button input, moving down |
| Players.PlayerController.ButtonLeft | Assets/Scripts/PlayerController.cs:101-104 | button input, moving left |
| Players.PlayerController.ButtonRight | Assets/Scripts/PlayerController.cs:106-109 | button input, moving right |
| Players.PlayerController.ButtonRelease | Assets/Scripts/PlayerController.cs:404-413 | the player stops and the keyboard takes over again |
| Players.PlayerController.Update | Assets/Scripts/PlayerController.cs:67-71 | keyboard input is ignored while a button is held; the immunity timer runs and the tint clears when immunity ends |
| Enemies.KnockbackStep | Assets/Scripts/EnemyController.cs:109-125 | the magnitude of the speed never changes; while the counter runs the speed is non-positive and then made positive again; with no counter nothing changes |
| Enemies.KnockbackRecovers | Assets/Scripts/EnemyController.cs:109-142 | after a hit, constant steps move the enemy backwards while n × dt < push time and forwards at the magnitude of its old speed from then on (a negative speed comes back positive) |
| Enemies.HealthAfterContact | Assets/Scripts/EnemyController.cs:155-185 | the player's health after contact is never negative; it is the damaged health while positive, and otherwise 0 |
| Enemies.EnemyController.constructor | Assets/Scripts/EnemyController.cs:57-74 | initial health is the current wave's health when the spawner is usable, and 10 otherwise |
| Enemies.EnemyController.InitializeHealth | Assets/Scripts/EnemyController.cs:57-74 | the current wave's health when the spawner is usable, and 10 otherwise |
| Enemies.EnemyController.TakeDamage | Assets/Scripts/EnemyController.cs:40-50 | health drops by exactly the damage; the number is appended after the labels already in use, and a pool without a prefab is untouched; the knockback restarts; `Die` runs (experience given) exactly when health ends ≤ 0; a resulting level-up opens the panel and takes the forced pause step, and otherwise the weapon component and the game manager are untouched |
| Enemies.EnemyController.ShowDamageNumber | Assets/Scripts/EnemyController.cs:187-193 | with a pool that has a prefab, a label showing the exact damage is appended at the enemy, the labels already in use are kept; a pool without a prefab is untouched |
| Enemies.EnemyController.ApplyKnockback | Assets/Scripts/EnemyController.cs:139-142 | a hit sets the push counter to the push time |
| Enemies.EnemyController.Die | Assets/Scripts/EnemyController.cs:203-216 | the player gains this enemy's experience and the enemy is destroyed; a level-up opens the panel and takes the forced pause step, and otherwise the weapon component and the game manager are untouched |
| Enemies.EnemyController.HandleMovement | Assets/Scripts/EnemyController.cs:96-107 | the knockback step runs only while the player exists |
| Enemies.EnemyController.HandleKnockback | Assets/Scripts/EnemyController.cs:109-125 | the in-place step equals `KnockbackStep` |
| Enemies.EnemyController.HandlePlayerCollision | Assets/Scripts/EnemyController.cs:144-153 | only a non-immune "Player" with a spawner present is hurt; then the wave's damage is dealt, immunity starts, and the sprite is tinted; at 0 or below the health is clamped to 0, the game manager takes the forced pause step and the player is deactivated |
| Enemies.EnemyController.DamagePlayer | Assets/Scripts/EnemyController.cs:155-162 | the current wave's damage is subtracted when the spawner is usable |
| Enemies.EnemyController.CheckPlayerDeath | Assets/Scripts/EnemyController.cs:172-185 | health ≤ 0 is clamped to 0, the game manager takes the forced pause step (time scale 0) and the player is deactivated; otherwise nothing changes |

## Left out

- `Assets/Scripts/Effect.cs` is not part of this model. It only destroys its object after a duration reported by the animator.
- Singletons (`InitializeSingleton`, `OnDestroy`, `IsInstanceValid`) are left out. Instances are passed as nullable references instead.
- Rendering and UI are left out, because they are engine effects without logic: sliders, sprite colours beyond the immunity tint, collider `isTrigger` and `SetActive` on the pause panel beyond a flag.
- Physics and movement are left out: `rb.velocity`, `.normalized`, keyboard axes, animator parameters, sprite flipping, the enemy's move direction and the weapon following the player. The keyboard direction enters as a parameter.
- `Vector3.Lerp` is a parameter (`lerped`). Only the stop-and-snap rule of the scaling loops is modelled.
- `Random.Range` draws are parameters, constrained to their ranges.
- Every `dt` parameter stands for the engine's scaled frame time, `Time.deltaTime`, which is 0 while `Time.timeScale` is 0. No member ties `dt` to `Game.GameManager.timeScale`, so the model does not derive that a paused game freezes the spawner, the weapon, the timers and `WaitForSeconds`. The caller has to pass `dt = 0` while paused.
- Floating point is modelled as exact real arithmetic. A `float` acts as a mathematical real, with no rounding and no overflow.
- Integers are unbounded, so the model does not wrap at 32 bits. With `maxLevel` ≥ 16 the real level table would overflow `int` at entry 16 (100 × 3¹⁶). Single-precision rounding shows even earlier: from the default table [100], entry 13 is computed as `53144100 * 3f`, which rounds to 159432304 rather than 159432300, so `Players.ExtendedClosedForm` matches the program exactly only up to entry 12.
- Scene loading is a returned `SceneRequest` value.
- Coroutine timing is flattened to one resumption per frame, and coroutine scheduling is not treated as concurrency:
  - the lifecycle's first synchronous run at start is taken at the next frame;
  - a nested coroutine is taken to resume its parent in the same frame;
  - the player wait runs without frames of the other components in between.
- `Armory.Weapons.Start`: the wait for the player is taken as one step, so the component's own frames during the wait are not modelled. In the program `Update` keeps running while `WaitForPlayerController` waits: the current weapon's duration counts down and the damage sweeps hit enemies already in range. `CreateInitialWeapon` then captures that counted-down duration, and every later cooldown writes it back. The model captures the configured duration instead.
- Null entries in the weapon table are not modelled. The code throws on them everywhere except the start check.
- A negative configured weapon index is not modelled: the index is a `nat`. The reset to 0 applies only to indices past the end.
- A negative configured wave number is not modelled: `waveNumber` is a `nat`. The code's range checks (`EnemySpawner.cs:86`, `EnemyController.cs:73`) let a negative value through, and the indexing then throws in the spawner's frame, in every enemy's `InitializeHealth` and in `DamagePlayer`.
- Wave table entries are modelled as values (`seq<Option<Spawner>>`), with no aliasing between them. `Spawner` is a reference class, but serialized inspector tables cannot share an instance. If two entries were the same object, `IncreaseDifficulty` would damp it twice.
- `Armory.Weapons.UpgradeWeapon` leaves the running weapon instance, and its scale, as they were, matching the code.
- `Enemies.EnemyController.constructor` and the wave reads require a non-null current wave whenever the spawner is usable. The code would throw there.
- The destroy effect of `Die` is not modelled.
