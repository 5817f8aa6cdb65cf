# Soul Harvest core, modelled in Dafny

A model of the core of the Soul Harvest browser game (Phaser 3, JavaScript), with
its properties proved.

- **Account profile** (`PlayerData`). The `PlayerDataManager` keeps gold, blood shards,
  meta experience, account level, the unlocked weapons and abilities, and the chosen
  loadout. It mirrors the record into a storage slot after every change and merges the
  slot back in on load.
- **Menu loadout picker** (`Menu`). Two cyclic indices into the unlocked lists; every
  click on a "next" button writes the selected pair to the profile.
- **Run scene** (`Game`):
  - the player's velocity from the keys;
  - a pool of 50 enemies and a pool of 30 bullets;
  - the periodic enemy spawn and the periodic shot at the nearest enemy;
  - the two overlap handlers;
  - the per-frame enemy and bullet passes.
- **Pooled entities**, one module each: `Enemies`, `Projectiles`, `Couriers`,
  `BloodShards`, `GoldCoins`, `ExperienceOrbs` and `Portals`. Each shows, hides and
  re-targets itself in place.

Shared modules:

- `Options`: the optional-value type.
- `Arcade`: the world size, the sprite state every entity shares, a symbolic velocity and
  the squared distance used for targeting.
- `Pool`: a pool seen through the `active` flags of its slots.

Entities, the profile manager, the menu and the scene are classes whose methods update
their fields. Each method is tied to a pure function (`Restore`, `GrantMetaXp`, `Reuse`,
`SteerAll`, `CullAll`, `NearestAmong`, ...). The properties are proved as lemmas about
those functions.

Where the intended behaviour and the code disagree, the model follows the code:

- **Account level-up.** The intended rule is a loop: while `metaXp >= accountLevel * 1000`,
  subtract `accountLevel * 1000` from `metaXp` and raise `accountLevel` by one. Under that
  rule a grant split in two parts ends where the whole grant does. The code (`addMetaXp`)
  uses a single `if`, so one call levels up at most once.
  - `GrantMetaXp` models the `if`.
  - `Settle` models the loop. `SettleSplit` proves the split-grant property for it.
  - `GrantAgreesWithSettle` proves the two agree when a grant crosses at most one
    threshold.
  - `SplitGrantDiverges` exhibits a grant where they differ.
- **Persistence.** The intended behaviour writes the profile at a few terminal events. The code calls
  `save` after every mutator; the model does the same.
- **Loadout clamping.** The intended behaviour clamps a stored loadout that is not unlocked to the first
  unlocked item on load. The code does not touch the stored loadout. Only the menu's
  starting index falls back to 0; the profile's loadout changes at the first click.

## Model

| member | source | states |
|---|---|---|
| Arcade.BoundaryIsInside | src/entities/Projectile.js:31 | the world rectangle includes its boundary; one unit past any edge is outside |
| Arcade.OutOfWorld | src/entities/Projectile.js:31 | a point is outside exactly when it lies left of 0, right of 1280, above 0 or below 720 |
| Arcade.Shown | src/entities/Enemy.js:16-25 | a spawned object is active, visible and collidable, at exactly the requested point |
| Arcade.Hidden | src/entities/Projectile.js:22-25 | a removed object is inactive, invisible and has no body, and stays where it was |
| Arcade.HiddenIdempotent | src/entities/Enemy.js:36-43 | deactivating twice equals deactivating once |
| Arcade.ShownAfterHidden | src/entities/Enemy.js:16-25 | re-showing a deactivated object depends only on the new position, not on where it was left |
| Arcade.SqDistance | src/scenes/GameScene.js:62 | the squared distance is zero exactly when the points coincide (it orders pairs as the distance does) |
| Pool.FirstInactive | src/scenes/GameScene.js:42-43 | a group's `get` serves the first inactive slot; none exactly when every slot is active |
| Pool.CountActive | src/scenes/GameScene.js:20-23 | the active count is at most the capacity; it equals the capacity iff every slot is active and is 0 iff none is |
| Pool.CountAfterActivate | src/scenes/GameScene.js:42-43 | switching one inactive slot on adds exactly one active member |
| Pool.CountAfterDeactivate | src/scenes/GameScene.js:73-75 | switching one active slot off removes exactly one active member |
| Pool.AcquireWithinCapacity | src/scenes/GameScene.js:20-23 | serving a request never pushes the active count past the capacity; with no free slot the group is full |
| Pool.CountMonotone | src/scenes/GameScene.js:101 | switching slots off, never on, cannot raise the active count |
| PlayerData.Defaults | src/data/PlayerData.js:2-22 | a new profile has no gold, shards or experience, is at level 1 and has two weapons and two abilities unlocked, with the first of each chosen |
| PlayerData.Snapshot | src/data/PlayerData.js:25 | `save` writes every key, so merging the written record into any record gives back exactly the saved one |
| PlayerData.Merge | src/data/PlayerData.js:31 | each key present in the stored object is taken as stored, the loadout wholesale; each absent key keeps the current value |
| PlayerData.Restore | src/data/PlayerData.js:28-33 | an empty slot leaves the record unchanged; a stored loadout replaces the current one wholesale; missing gold, level or loadout keep the current value (every key is stated by `Merge`) |
| PlayerData.RestoreSnapshot | src/data/PlayerData.js:24-33 | loading what `save` wrote gives back exactly the saved record, whatever was in memory |
| PlayerData.RestoreEmpty | src/data/PlayerData.js:31 | merging a stored object with no keys changes nothing |
| PlayerData.LoadoutReplacedNotMerged | src/data/PlayerData.js:31 | the nested loadout is not merged: a stored loadout without an ability leaves the profile without one |
| PlayerData.GrantMetaXp | src/data/PlayerData.js:47-58 | the level rises by at most one, and by one iff the new total reaches `level * 1000`, which is then subtracted; the experience stays non-negative for non-negative input; nothing else changes |
| PlayerData.GrantKeepsLifetimeXp | src/data/PlayerData.js:47-56 | a grant raises lifetime experience (completed thresholds plus current experience) by exactly the amount |
| PlayerData.SplitGrantSameLifetimeXp | src/data/PlayerData.js:47-56 | two grants and their sum give the same lifetime experience |
| PlayerData.Settle | src/data/PlayerData.js:50-54 | the repeated level-up rule (while the experience reaches level times 1000, subtract it and level up): the level never drops, non-negative experience stays non-negative, and the leftover lies below the reached level's threshold |
| PlayerData.LevelBase | src/data/PlayerData.js:50-54 | the experience consumed in reaching a level is 1000 times the sum of the levels below it: twice it equals (level - 1) * level * 1000 |
| PlayerData.SettleSplit | src/data/PlayerData.js:50-54 | under repeated level-up, settling part of a grant and then the rest ends where settling the whole grant does |
| PlayerData.GrantAgreesWithSettle | src/data/PlayerData.js:50-54 | when a grant crosses at most one threshold, the single `if` ends in the same level and experience as repeated level-up |
| PlayerData.SplitGrantDiverges | src/data/PlayerData.js:52-54 | from a new profile, 3000 at once gives level 2 with 2000 left; 1000 then 2000 gives level 3 with 0; repeated level-up gives level 3 with 0 |
| PlayerData.PlayerDataManager.constructor | src/data/PlayerData.js:2-22 | starts from the defaults merged with whatever the slot holds, and writes nothing back |
| PlayerData.PlayerDataManager.Save | src/data/PlayerData.js:24-26 | the slot holds the full record afterwards |
| PlayerData.PlayerDataManager.Load | src/data/PlayerData.js:28-33 | the record becomes the merge of the old record and the slot, or stays as it was when the slot is empty |
| PlayerData.PlayerDataManager.AddGold | src/data/PlayerData.js:36-39 | gold grows by the amount, nothing else changes, and the slot mirrors the record |
| PlayerData.PlayerDataManager.AddShards | src/data/PlayerData.js:41-44 | shards grow by the amount, nothing else changes, and the slot mirrors the record |
| PlayerData.PlayerDataManager.AddMetaXp | src/data/PlayerData.js:47-58 | the record becomes `GrantMetaXp` of the old one, and the slot mirrors it |
| PlayerData.PlayerDataManager.SetLoadout | src/data/PlayerData.js:61-65 | the loadout becomes exactly the given pair, nothing else changes, and the slot mirrors the record |
| PlayerData.PlayerDataManager.GetLoadout | src/data/PlayerData.js:67-69 | returns the current loadout |
| PlayerData.SetThenGetLoadout | src/data/PlayerData.js:61-69 | reading back a loadout just set gives that pair; currencies, experience and level are untouched |
| Menu.IndexOf | src/scenes/MenuScene.js:39-40 | the first position holding the item, or -1 exactly when it is absent or undefined |
| Menu.StartIndex | src/scenes/MenuScene.js:39-43 | the picker starts at the loadout item's first position, or at 0 when the item is not unlocked |
| Menu.Next | src/scenes/MenuScene.js:51 | "next" moves one position on and wraps from the last to the first; on an empty list it gives NaN |
| Menu.ItemAt | src/scenes/MenuScene.js:52 | reading the list at an index is defined exactly for in-range numeric indices, and undefined otherwise |
| Menu.PressesBeforeWrap | src/scenes/MenuScene.js:50-53 | k presses that stay inside the list move exactly k positions |
| Menu.PressesAfterWrap | src/scenes/MenuScene.js:50-53 | k presses that wrap once land k positions on, minus the list length |
| Menu.FullCycle | src/scenes/MenuScene.js:50-53 | as many presses as the list has items return to the start |
| Menu.MenuScene.constructor | src/scenes/MenuScene.js:35-64 | both indices start at the loadout items' positions (0 when absent), in range; building writes nothing to the profile |
| Menu.MenuScene.NextWeapon | src/scenes/MenuScene.js:50-53 | only the weapon index advances, the range invariant is kept and the profile stores the displayed pair |
| Menu.MenuScene.NextAbility | src/scenes/MenuScene.js:60-63 | only the ability index advances, the range invariant is kept and the profile stores the displayed pair |
| Menu.MenuScene.UpdateSelection | src/scenes/MenuScene.js:66-70 | the profile's loadout becomes the given pair and is saved |
| Enemies.Enemy.constructor | src/entities/Enemy.js:2-13 | a new enemy is active, visible, collidable and still, with speed 80 |
| Enemies.Enemy.Spawn | src/entities/Enemy.js:16-25 | shown at the point with its body enabled; its velocity is left as it was |
| Enemies.Enemy.Update | src/entities/Enemy.js:28-33 | an active enemy with a player heads for it at its speed; otherwise nothing changes; the sprite never changes |
| Enemies.Enemy.Die | src/entities/Enemy.js:36-43 | hidden, body disabled and stopped, position kept |
| Enemies.DieTwiceThenRespawn | src/entities/Enemy.js:16-43 | killing twice then spawning leaves a fresh, still enemy at the spawn point |
| Projectiles.Projectile.constructor | src/entities/Projectile.js:2-10 | a new bullet is active, visible, collidable and still, with speed 400 |
| Projectiles.Projectile.Fire | src/entities/Projectile.js:12-20 | shown at the muzzle point and heading for the target's current position at its speed |
| Projectiles.Projectile.Die | src/entities/Projectile.js:22-27 | hidden, body disabled and stopped, position kept |
| Projectiles.Projectile.Update | src/entities/Projectile.js:29-34 | a bullet outside the world dies; one inside (boundary included) is untouched; it is active afterwards iff it was and is inside |
| Couriers.Courier.constructor | src/entities/Courier.js:2-14 | active and visible, with its label 40 units above it and no pending callback |
| Couriers.Courier.Spawn | src/entities/Courier.js:16-27 | shown with its label, and one more leave callback is queued, tagged with this spawn |
| Couriers.Courier.Leave | src/entities/Courier.js:29-34 | the courier and its label are hidden and the body is disabled; the label keeps its place |
| Couriers.Courier.FireLeaveTimer | src/entities/Courier.js:24-26 | the oldest callback is consumed; it sends the courier away iff the courier is active, whichever spawn queued it |
| Couriers.LeaveTwice | src/entities/Courier.js:29-34 | leaving twice equals leaving once: the courier and its label are hidden, and the label position, pending callbacks and spawn count are as before |
| Couriers.StaleTimerRemovesRespawn | src/entities/Courier.js:16-34 | a callback queued by an earlier spawn also removes a courier spawned again since; the newer callback is still pending |
| BloodShards.BloodShard.constructor | src/entities/BloodShard.js:2-20 | a new shard is shown where created and worth 1 |
| BloodShards.BloodShard.Spawn | src/entities/BloodShard.js:22-27 | shown at the point with its body enabled |
| BloodShards.BloodShard.Collect | src/entities/BloodShard.js:29-33 | hidden with its body disabled |
| GoldCoins.GoldCoin.constructor | src/entities/GoldCoin.js:2-10 | a new coin is shown where created and worth 1 |
| GoldCoins.GoldCoin.Spawn | src/entities/GoldCoin.js:12-18 | shown at the point and worth the given value |
| GoldCoins.GoldCoin.Collect | src/entities/GoldCoin.js:20-24 | hidden with its body disabled; the value is kept |
| ExperienceOrbs.ExperienceOrb.constructor | src/entities/ExperienceOrb.js:2-10 | a new orb is shown where created and worth 10 |
| ExperienceOrbs.ExperienceOrb.Spawn | src/entities/ExperienceOrb.js:12-18 | shown at the point and worth the given value |
| ExperienceOrbs.ExperienceOrb.Collect | src/entities/ExperienceOrb.js:20-24 | hidden with its body disabled; the value is kept |
| Portals.Portal.constructor | src/entities/Portal.js:2-18 | a new portal is active, visible and collidable where created |
| Portals.Portal.Spawn | src/entities/Portal.js:20-25 | shown at the point with its body enabled |
| Portals.SpawnAgain | src/entities/Portal.js:20-25 | spawning an open portal again only moves it; it stays active, visible and collidable |
| Game.AxisVelocity | src/scenes/GameScene.js:91-94 | -250 exactly when the negative key is held, +250 exactly when only the positive key is, 0 exactly when neither is |
| Game.Intent | src/scenes/GameScene.js:89-94 | x is -250 iff left or A is held, +250 iff neither of those but right or D is, 0 iff none of the four; y likewise with up/W and down/S |
| Game.SpawnSide | src/scenes/GameScene.js:40 | a new enemy enters at x = -50 exactly when the draw exceeds one half, otherwise at x = 1330 |
| Game.NearestAmong | src/scenes/GameScene.js:56-70 | the scan returns none exactly when no enemy is active; otherwise an active enemy no farther than any other, strictly closer than every earlier one (the first slot wins ties) |
| Game.Reuse | src/scenes/GameScene.js:42-43 | the group keeps its size and only one slot can change: the first inactive one, which becomes the revived member |
| Game.Spawned | src/entities/Enemy.js:16-25 | a spawned enemy is active, visible and collidable at the point, with its old velocity |
| Game.Fired | src/entities/Projectile.js:12-20 | a fired bullet is active, visible and collidable at the muzzle and heads for the target at 400 |
| Game.Removed | src/entities/Projectile.js:22-27 | `die()` switches a member off and stops it where it stands |
| Game.RemovedCount | src/scenes/GameScene.js:72-85 | a hit that kills an active member lowers its group's active count by exactly one |
| Game.ReuseTakesFirstFree | src/scenes/GameScene.js:42-52 | a group's `get` plus spawn/fire changes exactly the first inactive slot, or nothing when all are busy |
| Game.ReuseCount | src/scenes/GameScene.js:42-52 | reuse adds one active member iff a slot was free and never exceeds the group size |
| Game.Steered | src/entities/Enemy.js:28-33 | the enemy update never moves or switches the sprite; an active enemy heads for the player at 80; an inactive one is untouched |
| Game.SteerAll | src/scenes/GameScene.js:100 | the enemy pass applies the enemy update to every slot, in place |
| Game.SteerAllKeepsSprites | src/scenes/GameScene.js:100 | the enemy pass moves and switches nothing; every active enemy then heads for the player |
| Game.Culled | src/entities/Projectile.js:29-34 | after the bounds check an active bullet lies inside the world and is untouched; a bullet inside or inactive is untouched; the position is kept |
| Game.CullAll | src/scenes/GameScene.js:101 | the bullet pass applies the bounds check to every slot, in place |
| Game.CullAllLeavesNoStray | src/scenes/GameScene.js:101 | after the bullet pass no active bullet is outside the world; bullets inside or inactive are untouched; none is switched on; the count does not grow; a second pass changes nothing |
| Game.NewEnemyPool | src/scenes/GameScene.js:20 | 50 distinct inactive enemies |
| Game.NewProjectilePool | src/scenes/GameScene.js:23 | 30 distinct inactive bullets |
| Game.GameScene.constructor | src/scenes/GameScene.js:9-37 | the player starts still at (640, 360) and both groups are empty |
| Game.GameScene.AcquireEnemy | src/scenes/GameScene.js:42 | returns the first inactive enemy, or null exactly when the group is full |
| Game.GameScene.AcquireProjectile | src/scenes/GameScene.js:49 | returns the first inactive bullet, or null exactly when the group is full |
| Game.GameScene.SpawnEnemy | src/scenes/GameScene.js:39-44 | the enemy slots become `Reuse` of the old ones with a spawn at the chosen edge and height |
| Game.GameScene.GetNearestEnemy | src/scenes/GameScene.js:56-70 | null exactly when no enemy is active; otherwise the enemy in the slot `NearestAmong` picks |
| Game.GameScene.AutoShoot | src/scenes/GameScene.js:46-54 | with no active enemy the bullets are untouched; otherwise the first free bullet is fired from the player at the nearest enemy |
| Game.GameScene.FireFirstFree | src/scenes/GameScene.js:49-52 | the bullet slots become `Reuse` of the old ones with a shot from the player at the target |
| Game.GameScene.HandleProjectileHit | src/scenes/GameScene.js:72-78 | when both are active, both die; otherwise neither changes |
| Game.GameScene.HandlePlayerHit | src/scenes/GameScene.js:80-85 | an active enemy dies; an inactive one is untouched |
| Game.GameScene.Update | src/scenes/GameScene.js:87-102 | the player's velocity comes from the keys, scaled to 250; the enemies are steered and the bullets culled as `SteerAll` and `CullAll` say |
| Game.GameScene.UpdateEnemies | src/scenes/GameScene.js:100 | the enemy slots become `SteerAll` of the old ones towards the player |
| Game.GameScene.UpdateProjectiles | src/scenes/GameScene.js:101 | the bullet slots become `CullAll` of the old ones |

## Left out

- Rendering: the texts, colours, tweens, the menu's header and the label text updates in
  `updateSelection` are not modelled. Only the state they display is.
- Physics: positions are integers and velocities are symbolic (`Toward`, `Scaled`, `Still`).
  The library's floating-point normalisation and the per-step motion of bodies are not
  modelled. Between frames, positions change only through the methods above.
- Overlap detection and world-bounds collision of the player are library work. The overlap
  handlers are modelled as methods the caller invokes with the colliding pair.
- Timers: the 1000 ms spawn and 800 ms shot loops and the courier's 30-second callback are
  modelled as methods the caller invokes in order (`SpawnEnemy`, `AutoShoot`,
  `FireLeaveTimer`). Real time and the scheduler are not modelled.
- Randomness: `Math.random()` and `Phaser.Math.Between(0, 720)` are parameters of
  `SpawnEnemy`.
- Storage: `localStorage` is a field holding an optional parsed record; JSON text is not
  modelled. Stored values of the wrong type, `null` values, and unknown keys carried
  through the spread are not modelled.
- Pools: Phaser creates group members lazily up to `maxSize`. The model preallocates every
  slot and switches it off, which no caller can tell apart. The library order of
  `getChildren` is taken to be slot order.
- `PlayerData.PlayerDataManager.GetLoadout` returns the loadout by value. In the code it
  returns the stored object itself, so a caller that mutates it would change the profile
  without saving. No caller in the core does.
- Numbers: JavaScript numbers are modelled as unbounded integers. Precision loss beyond
  2^53 and fractional amounts are not modelled.
- The `if (this.body)` guards in `Enemy.spawn` and `Enemy.die` always hold, because every
  enemy gets a body at construction. The model has no body-less enemy.
- Logging: the `console.log` messages of `addMetaXp` (`src/data/PlayerData.js:55`) and of the
  two overlap handlers (`src/scenes/GameScene.js:76`, `src/scenes/GameScene.js:83`) are
  not modelled; they change no state.
- `src/config.js` contributes only the world size constants.
- The `MenuScene` start button and the scene switch to the run scene are not modelled.
