# CHAOS-RUSH-2 game rules in Dafny

CHAOS-RUSH-2 is a top-down survival game built on Phaser. Enemies are spawned
around the player by a spawn director. The player levels up, picks upgrades
and carries a class passive: the alchemist (Alquimista), the gravedigger
(Coveiro) or the sentinel (Sentinela). The repository holds three
generations of the same game side by side:

- the first game: `entities/`, `Director/` and `systems/`;
- an intermediate enemy: `js/entities/enemy.js`;
- the current game: the rest of `js/`.

This project models the rule logic of all three as immutable state records
and pure step functions, and proves properties of them. Phaser calls,
timers, randomness and geometry are stripped away:

- a scheduled callback is an explicit transition, with a counter or flag
  for callbacks still pending;
- random draws, shuffles and sampled spawn candidates are parameters;
- JavaScript numbers are `real`;
- slots that may be `undefined` or `NaN` are `Js.Value`, and `x || d`,
  `x ?? d` and comparisons with a missing value behave as in JavaScript.

The modules follow the source files:

| module | file | what it holds |
|---|---|---|
| `Js` | — | JavaScript value semantics shared by every module |
| `SpawnDirector`, `SpawnDirectorProps`, `UnlockTracker`, `SpawnSampler` | js/Director/SpawnDirector.js | the current spawn director: point budget, time unlocks, the chaos event, the per-type ledger, the paced spawn queue, the bounded position sampler and their invariants |
| `LevelDirector` | Director/SpawnDirector.js | the older, level-driven director with its difficulty multiplier and cooldown |
| `Enemy` | js/entities/Enemy/enemy.js | AI type and variant resolution, stat scaling, the shooter's band and cooldown, damage and the death latch |
| `ScaledEnemy`, `EnemyLife` | js/entities/enemy.js | the intermediate enemy and the damage/death latch the enemies share |
| `BasicEnemy` | entities/enemy.js | the first game's enemy |
| `DamagePlayer` | js/entities/Player/DamagePlayer.js | the incoming-damage pipeline and outgoing damage |
| `StatsPlayer` | js/entities/Player/StatsPlayer.js | the stat store, its change events and reset |
| `PlayerMovement` | js/entities/Player/player.js | movement, facing and the dash flags |
| `LegacyPlayer` | entities/player.js | experience, levels, hit points and class selection |
| `UpgradeSystem` | js/systems/UpgradeSystem.js | level-up, the upgrade menu and the upgrade arithmetic |
| `ClassNames`, `PassiveSwitch` | js/systems/PassiveSystem/PassiveSystem.js | class-name normalisation and switching between passive modules |
| `Coveiro` | js/systems/PassiveSystem/PassiveCoveiro.js | the gravedigger's kill counter, ascension and zombie tank |
| `Alquimista` | js/systems/PassiveSystem/PassiveAlquimista.js | the alchemist's charge, charging and overloading phases |
| `BottlePassives` | js/systems/PassiveSystem.js | the bottle-throwing passive system |
| `ClassicPassives` | systems/PassiveSystem.js | the first game's passive system |
| `WeaponSystem` | systems/WeaponSystem.js | weapon cooldowns, the flask, the scythe and the bell |

Two behaviours of the spawn director are easy to get wrong:

- The director has no pressure/breather cycle. It never refunds points: when
  no spawn position is found, it returns before it charges anything.
- In the director's chaos event, the timer is already decremented on the tick
  the event starts. With one-second ticks the first event therefore runs from
  second 60 through second 78 and is off from second 79
  (`SpawnDirectorProps.FirstChaosWindow`).

## Model

| member | source | states |
|---|---|---|
| ClassNames.Normalize | js/systems/PassiveSystem/PassiveSystem.js:19-25 | the normalised class name is no longer than the input, holds only the letters a to z, and an already lower-case a-to-z name is left as it is |
| ClassNames.NormalizeIdempotent | js/systems/PassiveSystem/PassiveSystem.js:19-25 | normalising a name twice gives the same key as normalising it once |
| ClassNames.FirstMatch | systems/PassiveSystem.js:27-33 | the key-map loop picks the first key the name contains, and no earlier key is contained; with no match, no key is contained |
| ClassNames.Choose | systems/PassiveSystem.js:9-36 | an empty or missing class name selects nothing; otherwise the passive selected is the one at the first alquimista/coveiro/sentinela key contained in the normalised name, and nothing when none is contained |
| PassiveSwitch.Selected | js/systems/PassiveSystem/PassiveSystem.js:27-39 | a name containing "alquimista" selects the alchemist whatever else it contains; the gravedigger is selected only when "coveiro" appears without "alquimista"; nothing else is ever selected |
| PassiveSwitch.ResetCurrent | js/systems/PassiveSystem/PassiveSystem.js:41-44 | only the current module is reset; the other module, the player and the selection are unchanged |
| PassiveSwitch.ActivateClassAbilities | js/systems/PassiveSystem/PassiveSystem.js:27-54 | a missing, empty or unrecognised name leaves the whole system unchanged; otherwise the previous module is reset first, the selection becomes current, and the gravedigger is activated on the reset state |
| PassiveSwitch.SwitchResetsPrevious | js/systems/PassiveSystem/PassiveSystem.js:41-46 | switching from the gravedigger to the alchemist leaves the gravedigger in its initial state with the alchemist current |
| PassiveSwitch.DeactivateCurrent | js/systems/PassiveSystem/PassiveSystem.js:56-61 | afterwards nothing is current, the player is untouched, the module that was current is back at rest and the other module is untouched |
| PassiveSwitch.OnEnemyKilled | js/systems/PassiveSystem/PassiveSystem.js:63-70 | a kill reaches only the current module; with none current nothing changes, and the module that is not current never sees the kill |
| Alquimista.Init | js/systems/PassiveSystem/PassiveAlquimista.js:3-29 | a new passive is idle with an empty charge out of 600, no saved speed or multiplier, and a damage-taken multiplier of 1 only when the player had none; whether the player defines `setCanAttack` is recorded |
| Alquimista.InitValid | js/systems/PassiveSystem/PassiveAlquimista.js:3-29 | the constructed passive satisfies the invariant that every later event preserves |
| Alquimista.BeginChargePhase | js/systems/PassiveSystem/PassiveAlquimista.js:102-123 | re-entry while a phase runs changes nothing; otherwise the passive is charging with the speed (200 when the player had none) and multiplier saved and the charge untouched. On a player with `setCanAttack` the phase continues: timer pending, attacks disabled, speed at 40 % of the saved speed, damage taken at 0.2. On a player without it the unguarded call at :111 throws, and speed, multiplier, attack flag and timers stay as they were |
| Alquimista.HandleKill | js/systems/PassiveSystem/PassiveAlquimista.js:81-100 | a kill counts only while the alchemist is current and idle; the charge grows by 15 capped at the maximum, and the charge phase begins exactly when the cap is reached |
| Alquimista.FinishFullCharge | js/systems/PassiveSystem/PassiveAlquimista.js:158-173 | a stale timer does nothing; while charging, the phase turns into overloading with the bomb in flight and the saved speed and multiplier given back |
| Alquimista.Explode | js/systems/PassiveSystem/PassiveAlquimista.js:190-215 | with no bomb in flight nothing happens; otherwise the bomb is gone and the end of the overload is pending |
| Alquimista.ExplodesOnce | js/systems/PassiveSystem/PassiveAlquimista.js:190-215 | the fuse and the overlap detector together schedule the end of the overload only once |
| Alquimista.ExplodeFinish | js/systems/PassiveSystem/PassiveAlquimista.js:197-202 | after the overload the player can attack again, the charge is empty and the overload is over |
| Alquimista.Reset | js/systems/PassiveSystem/PassiveAlquimista.js:32-62 | every timer is cancelled, both phases end and the charge empties; a passive caught mid-phase gives back the saved speed and multiplier, and gives back attacks only on a player that has `setCanAttack` (the call is `?.`), an idle one leaves the player as it was |
| Alquimista.TransitionsKeepValid | js/systems/PassiveSystem/PassiveAlquimista.js:81-216 | kills, the charge timer, the explosion, the overload end and reset all keep the invariant: never charging and overloading at once, the charge within 0 to 600, overloading only on a player with `setCanAttack`, each phase on such a player holding the timer that ends it, and on a player without it a charge phase that is full and has no timer |
| Alquimista.HudPercent | js/systems/PassiveSystem/PassiveAlquimista.js:294-295 | in every reachable state the idle bar fraction lies in 0 to 1 and is full exactly when the charge is at 600 |
| Alquimista.KillsToCharge | js/systems/PassiveSystem/PassiveAlquimista.js:81-123 | from an empty idle charge, n kills (n at most 40) leave 15 n charge; the charge phase starts on the fortieth kill and not before, and its timer is pending exactly when the player defines `setCanAttack` |
| Alquimista.KillsSplit | js/systems/PassiveSystem/PassiveAlquimista.js:81-100 | n + 1 kills in a row are n kills followed by one more |
| Alquimista.StuckAtForty | js/systems/PassiveSystem/PassiveAlquimista.js:81-123 | on a player without `setCanAttack` the fortieth kill leaves the alchemist charging with a full bar and no charge timer, with the player's speed, multiplier and attack flag untouched; only a reset clears the phase |
| Alquimista.StuckIgnoresKills | js/systems/PassiveSystem/PassiveAlquimista.js:81-90 | a stuck alchemist ignores any number of kills |
| Alquimista.StuckAfterForty | js/systems/PassiveSystem/PassiveAlquimista.js:81-123 | on a player without `setCanAttack` every kill after the fortieth changes nothing |
| Alquimista.KillsCompose | js/systems/PassiveSystem/PassiveAlquimista.js:81-100 | m + n kills are m kills followed by n more |
| Coveiro.Init | js/systems/PassiveSystem/PassiveCoveiro.js:2-11 | a new gravedigger module has no SPACE handler, no aura, no pending timer and no zombie |
| Coveiro.Reset | js/systems/PassiveSystem/PassiveCoveiro.js:50-75 | a reset returns the module to its initial state (handler reference cleared, no aura, no pending timer, no zombie) and runs the death effects of exactly the zombies still alive |
| Coveiro.Living | js/systems/PassiveSystem/PassiveCoveiro.js:71-74 | the count of zombies whose death effects a reset runs is at most the list length, zero exactly when every zombie is dead, and the full length exactly when none is |
| Coveiro.LivingAppend | js/systems/PassiveSystem/PassiveCoveiro.js:71-74 | the living count of two lists together is the sum of their counts |
| Coveiro.Activate | js/systems/PassiveSystem/PassiveCoveiro.js:13-38 | activation always resets; only when the gravedigger is current does it also restart the kill counter, ascension count and state, set the first threshold to 30 and install the SPACE handler |
| Coveiro.OnEnemyKilled | js/systems/PassiveSystem/PassiveCoveiro.js:40-48 | a kill adds one to the counter only while the gravedigger is current and not ascending; no other player field changes |
| Coveiro.HudPercent | js/systems/PassiveSystem/PassiveCoveiro.js:96-109 | the bar fraction never exceeds one, is non-negative for a non-negative count, and is full exactly when the kills reach the threshold |
| Coveiro.Tier | js/systems/PassiveSystem/PassiveCoveiro.js:169 | the tank's tier is 1 to 3: tier 3 from the 13th ascension, tier 1 before the 7th |
| Coveiro.TierMonotone | js/systems/PassiveSystem/PassiveCoveiro.js:169 | later ascensions never summon a lower tier |
| Coveiro.SpawnZombie | js/systems/PassiveSystem/PassiveCoveiro.js:165-182 | a summoned tank is alive, has 220, 450 or 320 hit points by tier, and its speed and corrosion grow with its tier |
| Coveiro.Phase | js/systems/PassiveSystem/PassiveCoveiro.js:122 | with JavaScript's truncating `%`, the ascensions from the first on run through phases 1, 2, 3 in turn, phase 3 exactly on multiples of three; a count of 0 gives phase 0 and no count below 1 reaches phase 2 |
| Coveiro.Duration | js/systems/PassiveSystem/PassiveCoveiro.js:121 | the n-th ascension lasts 10 s plus 2 s per ascension |
| Coveiro.ActivateAscension | js/systems/PassiveSystem/PassiveCoveiro.js:111-163 | if not current nothing happens; otherwise the ascension count rises by one, the player ascends with 40 + 4 asc temporary speed and 40 + 6 asc temporary hit points, which are added to a numeric `hp` property while a missing one (the current player has none; its health is `currentHP`) becomes NaN; the scythe poison multiplier is 1.5 from phase 2, the aura appears and the end timer is pending, and every third ascension adds one zombie tank with its own expiry timer |
| Coveiro.Space | js/systems/PassiveSystem/PassiveCoveiro.js:31-37 | SPACE ascends exactly when the handler is installed, the gravedigger is current, the kills have reached the threshold and no ascension is running; otherwise nothing changes |
| Coveiro.AscensionEnd | js/systems/PassiveSystem/PassiveCoveiro.js:143-160 | the end callback consumes its timer; if still current, the ascension ends, the kill counter restarts, the threshold rises by 30, the temporary hit points are taken from a numeric `hp` (a missing or NaN one stays NaN), the poison multiplier returns to 1 and the aura is gone |
| Coveiro.AscensionRoundTrip | js/systems/PassiveSystem/PassiveCoveiro.js:111-160 | an ascension followed by its end leaves a numeric `hp` as it was and a missing one NaN (as on the current player), the count one higher, and the next threshold 30 kills further |
| Coveiro.AscensionBlocksProgress | js/systems/PassiveSystem/PassiveCoveiro.js:31-48 | while ascending, neither kills nor SPACE change anything |
| Coveiro.OnDeath | js/systems/PassiveSystem/PassiveCoveiro.js:223-225 | the death latch: afterwards the zombie is dead, and its effects run exactly when it was not dead before |
| Coveiro.ZombieTakeDamage | js/systems/PassiveSystem/PassiveCoveiro.js:218-221 | a hit always lowers the hit points, even on a dead zombie; the death effects run only for the hit that takes a living zombie to zero or below |
| Coveiro.ZombieDiesOnce | js/systems/PassiveSystem/PassiveCoveiro.js:218-225 | whatever hits a zombie takes before its expiry timer, its death effects run exactly once if it was alive and never if it was dead |
| Coveiro.Explosion | js/systems/PassiveSystem/PassiveCoveiro.js:230-231 | the explosion radius and damage are never zero: a zombie's own non-zero values are used and 120 and 100 otherwise |
| Coveiro.SpawnedExplosion | js/systems/PassiveSystem/PassiveCoveiro.js:179-182 | a summoned tank explodes with its own tier-dependent radius and damage |
| Coveiro.Corrode | js/systems/PassiveSystem/PassiveCoveiro.js:253-274 | inactive, dead or out-of-range enemies are untouched; an enemy in range gains three corrosion ticks (from zero when it had none) and takes the explosion's damage per tick |
| StatsPlayer.Default | js/entities/Player/StatsPlayer.js:6-35 | each of the nineteen stats has a numeric default (100 hit points, 1.5 critical damage, 110 aura range, 1 for the multipliers, 0 otherwise), and any other key reads as missing |
| StatsPlayer.Defaults | js/entities/Player/StatsPlayer.js:6-35 | a new store holds exactly the nineteen stats, each at its default |
| StatsPlayer.EmitChange | js/entities/Player/StatsPlayer.js:83-93 | at most one change event, emitted exactly when the new value is not strictly equal to the old one (so a NaN result always reports), carrying key, new and old value |
| StatsPlayer.Write | js/entities/Player/StatsPlayer.js:50-80 | a write stores the value under its key, leaves every other key as it was, and reports the change against the old value |
| StatsPlayer.Set | js/entities/Player/StatsPlayer.js:50-56 | the setter stores any value under its key, leaves every other key unchanged, and reports exactly when the value differs |
| StatsPlayer.AddFlat | js/entities/Player/StatsPlayer.js:59-64 | a numeric stat grows by the amount, a missing one becomes NaN, no other stat changes, and an event is emitted unless a number grows by zero |
| StatsPlayer.AddPercent | js/entities/Player/StatsPlayer.js:67-72 | a numeric stat is scaled by one plus the percentage, a missing one becomes NaN, no other stat changes, and an event is emitted unless the value stays the same |
| StatsPlayer.Multiply | js/entities/Player/StatsPlayer.js:75-80 | a numeric stat is scaled by the factor, a missing one becomes NaN, no other stat changes, and an event is emitted unless the value stays the same |
| StatsPlayer.ResetEvents | js/entities/Player/StatsPlayer.js:136-140 | the reset events name only the walked keys, carry the default against the old value, never report an unchanged value, and cover every key whose value changed |
| StatsPlayer.Reset | js/entities/Player/StatsPlayer.js:101-141 | after a reset every stat reads its default (extra keys disappear), and a stat is reported exactly when its value changed |
| StatsPlayer.ResetEventsAppend | js/entities/Player/StatsPlayer.js:136-140 | walking one more key appends that key's event, if any |
| StatsPlayer.ResetLoop | js/entities/Player/StatsPlayer.js:136-140 | the reset loop emits exactly the events described for the keys, each with the default and the old value |
| StatsPlayer.NoResetEvents | js/entities/Player/StatsPlayer.js:136-140 | keys already at their defaults produce no events |
| StatsPlayer.ResetIdempotent | js/entities/Player/StatsPlayer.js:101-141 | resetting a freshly reset store changes nothing and reports nothing |
| StatsPlayer.MovementSpeed | js/entities/Player/StatsPlayer.js:44-47 | the movement speed is a number exactly when the multiplier is a number, and is then 200 times the multiplier |
| StatsPlayer.DefaultMovementSpeed | js/entities/Player/StatsPlayer.js:6-47 | a fresh store moves at 200 |
| UpgradeSystem.Flat | js/systems/UpgradeSystem.js:120-147 | a flat upgrade adds its amount to one stat, through the store when there is one and to the plain field (missing or zero taken as the default) otherwise; nothing else changes |
| UpgradeSystem.Scaled | js/systems/UpgradeSystem.js:148-231 | a scaling upgrade multiplies one stat, through the store when there is one and on the plain field (missing or zero taken as the default) otherwise; nothing else changes |
| UpgradeSystem.RaiseMaxHP | js/systems/UpgradeSystem.js:44-64 | through the store, maximum hit points grow by a fifth and current hit points become `min(currentHP ?? maxHP, floor(maxHP))`: the smaller of the old value and the rounded-down new maximum, that maximum when they were missing, and NaN when either is not a number; without a store both become the raised maximum rounded down (100 taken when missing); no other field changes |
| UpgradeSystem.Apply | js/systems/UpgradeSystem.js:30-43 | attack speed only shortens the weapon loop delay by 15 % and never below 50; every other upgrade leaves the loop alone and does nothing without a player; no upgrade adds or removes the player |
| UpgradeSystem.ApplyToPlayer | js/systems/UpgradeSystem.js:11-289 | no upgrade adds or removes the stat store; regeneration is switched on by the regeneration upgrade and by nothing else, and that upgrade changes no stat |
| UpgradeSystem.FlatUpgradesAddExactly | js/systems/UpgradeSystem.js:120-288 | through the store, each of the seven flat upgrades adds exactly its amount to its own stat and leaves every other stat and field unchanged |
| UpgradeSystem.DamageUpgradesScale | js/systems/UpgradeSystem.js:11-29 | "Dano +20%" and "Dano +35%" multiply `baseDamage` by 1.2 and 1.35, a missing or zero damage counting as 5, with or without a stat store, and change no other field, stat or flag |
| UpgradeSystem.RegenTick | js/systems/UpgradeSystem.js:75-81 | a regeneration tick heals two hit points capped at the maximum, only current hit points change, and a missing maximum yields NaN |
| UpgradeSystem.InitMenu | js/systems/UpgradeSystem.js:2-11 | the menu starts closed, with nothing shown, over the full upgrade list |
| UpgradeSystem.DistinctNoRepeats | js/systems/UpgradeSystem.js:349 | pairwise distinct entries occur once each |
| UpgradeSystem.AllUpgradesNoRepeats | js/systems/UpgradeSystem.js:11-289 | no upgrade is listed twice |
| UpgradeSystem.NoRepeatsDistinct | js/systems/UpgradeSystem.js:349 | a list with no repeats has distinct entries at distinct positions |
| UpgradeSystem.PrefixNoRepeats | js/systems/UpgradeSystem.js:349 | a prefix of a list with no repeats has none |
| UpgradeSystem.OpenUpgradeMenu | js/systems/UpgradeSystem.js:309-428 | an open menu stays as it is; otherwise the menu is open afterwards; with no player it shows nothing, and with one the list is shuffled in place, the game is paused and the first three shuffled upgrades are offered |
| UpgradeSystem.OptionsDistinct | js/systems/UpgradeSystem.js:349 | a menu opened over any permutation of the list offers three different upgrades from the list and keeps the list a permutation |
| UpgradeSystem.CloseMenu | js/systems/UpgradeSystem.js:467-481 | closing removes the menu and resumes the game without touching the list |
| UpgradeSystem.Sync | js/systems/UpgradeSystem.js:448-460 | after an upgrade the magnet radius, speed and experience gain follow every store stat that is defined, and no other field changes |
| UpgradeSystem.ApplyUpgrade | js/systems/UpgradeSystem.js:430-465 | without a player nothing changes; with one the upgrade is applied, the derived fields are synchronised and the menu closes |
| UpgradeSystem.MenuLatchWithoutPlayer | js/systems/UpgradeSystem.js:309-314 | without a player an opened menu stays open for good: it can neither reopen nor be closed by choosing an upgrade |
| UpgradeSystem.CheckForLevelUp | js/systems/UpgradeSystem.js:294-305 | no player or too little experience changes nothing; otherwise exactly one level is gained, the threshold's experience is spent, the next threshold is a quarter higher rounded down, and the menu opens |
| UpgradeSystem.OneLevelPerCheck | js/systems/UpgradeSystem.js:294-305 | experience enough for several levels still yields only one per check |
| LegacyPlayer.LevelUp | entities/player.js:145-157 | a level-up adds one level, spends exactly the threshold's experience, and raises the threshold to one and a half times itself rounded down (strictly, for thresholds of two or more) |
| LegacyPlayer.InitialProgress | entities/player.js:36-38 | a new player is at level 1 with no experience and threshold 10, needs no repair and gains no level from nothing |
| LegacyPlayer.Climbing | entities/player.js:140-142 | the level-up loop ends below the threshold, the experience left plus the thresholds spent equals the experience it started with, gains no level exactly when the experience was already below the threshold, never lowers the threshold, and keeps non-negative experience non-negative |
| LegacyPlayer.ClimbingSpendsThresholds | entities/player.js:140-142 | every level the loop gains spends at least the starting threshold, because each level-up only raises the threshold |
| LegacyPlayer.Repaired | entities/player.js:135-136 | before the loop a level of 0 becomes 1 and a missing or non-positive threshold becomes 10, so the loop always has a positive threshold |
| LegacyPlayer.GainXP | entities/player.js:133-143 | gaining experience ends below the threshold, the experience spent plus what is left equals what the player had plus the gain, and some level is gained exactly when the total reached the repaired threshold |
| LegacyPlayer.GainXPLoop | entities/player.js:133-143 | the while loop computes the same progress and number of level-ups as the recursive description, and ends below the threshold |
| LegacyPlayer.FirstLevels | entities/player.js:36-38 | from a fresh player, 10 experience reaches level 2 with threshold 15, and 25 reaches level 3 with threshold 22 after two level-ups |
| LegacyPlayer.TakeDamage | entities/player.js:159-171 | a non-number is ignored; otherwise hit points fall by the amount, clamped at zero, and death happens exactly when they reach zero or below; a NaN amount leaves NaN hit points without death |
| LegacyPlayer.Heal | entities/player.js:173-177 | a non-number is ignored; otherwise hit points rise by the amount but never above the maximum, and a non-negative heal never lowers them |
| LegacyPlayer.HealAfterDamage | entities/player.js:159-177 | after damage and a heal the hit points stay between where the damage left them and the maximum |
| LegacyPlayer.SelectClass | entities/player.js:203-211 | a string is taken as it is, an object gives its name unless it is empty or missing, and nothing gives no class |
| LegacyPlayer.InitialClass | entities/player.js:55-61 | the constructor's class is what selecting the argument gives, except that an empty string leaves it unset |
| PlayerMovement.Init | js/entities/Player/player.js:14-38 | a new player moves at 200 (the stat store's movement speed overrides the earlier computation), is not dashing, has no cooldown and faces down |
| PlayerMovement.Direction | js/entities/Player/player.js:47-56 | each axis is -1, 0 or 1; up wins over down and left wins over right |
| PlayerMovement.GetFacingDirection | js/entities/Player/player.js:67-70 | the facing is horizontal exactly when the horizontal input dominates strictly, and it points the way the dominant component does (up on a tie with no downward input) |
| PlayerMovement.HandleMovement | js/entities/Player/player.js:47-65 | the velocity is the key direction times the speed, tripled while dashing; the facing changes only when some key is held, and the dash flags are untouched |
| PlayerMovement.FacingFollowsKeys | js/entities/Player/player.js:47-70 | a single held direction key decides the facing; with a vertical and a horizontal key held the facing is vertical |
| PlayerMovement.HandleDash | js/entities/Player/player.js:73-86 | a dash starts, with both callbacks scheduled, exactly when the dash key is held and the player is neither dashing nor cooling down; otherwise nothing changes |
| PlayerMovement.AfterDash | js/entities/Player/player.js:73-86 | t milliseconds after a dash starts the player is dashing exactly while t is under 150 and cooling down exactly while t is under 600 |
| PlayerMovement.DashEnd | js/entities/Player/player.js:78-80 | 150 ms after a dash the dash ends and the cooldown flag is left alone |
| PlayerMovement.CooldownEnd | js/entities/Player/player.js:82-84 | 600 ms after a dash the cooldown ends and the dash flag is left alone |
| PlayerMovement.DashWithinCooldown | js/entities/Player/player.js:73-86 | a dashing player is always cooling down, and a second dash can start exactly when the key is held 600 ms or more after the first |
| DamagePlayer.InitHP | js/entities/Player/DamagePlayer.js:6-9 | hit points that are already a number (even NaN) are kept; missing ones become the maximum, or 100 when the maximum is missing or zero |
| DamagePlayer.Dealt | js/entities/Player/DamagePlayer.js:30-34 | the damage that reaches hit points is at least one and at least what shield and armor leave of the hit |
| DamagePlayer.TakeDamage | js/entities/Player/DamagePlayer.js:12-47 | a positive shield absorbs up to the hit and stays between zero and its old value; a hit it swallows costs no hit points; otherwise the hit points fall by the dealt damage, clamped at zero, death happens exactly when they reach zero, and missing hit points become NaN |
| DamagePlayer.HitCostsAtLeastOne | js/entities/Player/DamagePlayer.js:30-44 | a hit the shield does not swallow costs at least one hit point, or all that are left |
| DamagePlayer.ArmorNeverHurts | js/entities/Player/DamagePlayer.js:30-37 | more armor never leaves the player with fewer hit points |
| DamagePlayer.ShieldNeverHurts | js/entities/Player/DamagePlayer.js:15-37 | for a non-negative hit, more shield never leaves the player with fewer hit points |
| DamagePlayer.CalculateDamage | js/entities/Player/DamagePlayer.js:49-79 | a hit is critical exactly when the roll is below the critical chance and then multiplies the base damage (1 when missing) by the critical damage; it is double exactly when the second roll is below the double-hit chance; a heal of damage times lifesteal is requested exactly when lifesteal is positive |
| DamagePlayer.ChanceBounds | js/entities/Player/DamagePlayer.js:58-65 | with rolls in [0, 1), a chance of one or more always lands and a chance of zero or less, or a missing one, never does |
| DamagePlayer.GetKnockback | js/entities/Player/DamagePlayer.js:81-84 | the knockback force is scaled by the knockback stat, or unchanged when the stat is missing or zero |
| DamagePlayer.DealDamageToEnemy | js/entities/Player/DamagePlayer.js:86-98 | the enemy takes the computed damage once per hit, and is pushed back with a force of 50 scaled by the knockback stat after each hit exactly when it can be pushed |
| EnemyLife.Die | js/entities/Enemy/enemy.js:325-338 | the death latch: afterwards the enemy is dead with its hit points and activity unchanged, and the kill events are emitted exactly when it was not dead before |
| EnemyLife.TakeDamage | js/entities/enemy.js:135-144 | a dead enemy (or, when activity is checked as the intermediate enemy does, an inactive one) ignores the hit; otherwise it loses exactly the amount and is killed exactly when its hit points reach zero or below |
| EnemyLife.KilledAtMostOnce | js/entities/Enemy/enemy.js:304-338 | however many hits land, the kill events are emitted at most once, and exactly once when a living enemy ends dead; a dead enemy is untouched, and a surviving living one loses exactly the summed damage |
| Enemy.PrefixesExclusive | js/entities/Enemy/enemy.js:3-20 | no type name starts with both "shooter" and "wanderer", so the order of the two tests does not matter |
| Enemy.ResolveAIType | js/entities/Enemy/enemy.js:3-10 | the behaviour is always chaser, shooter or wanderer; it is shooter exactly for names starting with "shooter" and wanderer exactly for names starting with "wanderer" |
| Enemy.ResolveVariant | js/entities/Enemy/enemy.js:12-20 | the variant is one of six; any variant other than chaser is a prefix of the name, and chaser is chosen exactly when the name starts with none of the other five |
| Enemy.AITypeFollowsVariant | js/entities/Enemy/enemy.js:3-20 | the behaviour is the variant for shooters and wanderers and chaser for every other variant |
| Enemy.SpeedScale | js/entities/Enemy/enemy.js:42 | the level speed bonus never exceeds a quarter, and is between none and a quarter for non-negative levels |
| Enemy.HpScale | js/entities/Enemy/enemy.js:39 | hit points and experience grow by a quarter of the base per game level |
| Enemy.DamageScale | js/entities/Enemy/enemy.js:40 | damage grows by 28 % of the base per game level |
| Enemy.Base | js/entities/Enemy/enemy.js:46-52 | the base stats by behaviour: chaser 20/80/5/10, wanderer 100/60/8/12, shooter 80/40/10/15 (hit points, speed, damage, experience), chaser for anything else |
| Enemy.Create | js/entities/Enemy/enemy.js:36-61 | a new enemy's behaviour and variant follow its type; its maximum hit points, experience, damage and speed are its base stats times their level factors, rounded; it starts alive at full health with an 1800 ms shot cooldown; at a non-negative level it is never weaker than its base and its speed gains at most a quarter |
| Enemy.CreateAtLevelZero | js/entities/Enemy/enemy.js:36-61 | at level 0 an enemy has exactly its behaviour's base stats |
| Enemy.DefaultChaser | js/entities/Enemy/enemy.js:36-61 | a chaser at the default level 1 has 25 hit points, speed 82, damage 6 and 13 experience |
| Enemy.RoundMonotone | js/entities/Enemy/enemy.js:56-61 | rounding as Math.round does preserves order |
| Enemy.CreateMonotone | js/entities/Enemy/enemy.js:36-61 | a higher game level never gives a weaker enemy of the same type: hit points, damage, speed and experience never drop |
| Enemy.UpdateShooter | js/entities/Enemy/enemy.js:184-220 | a shooter approaches beyond 250, retreats under 120 and strafes in between; it fires only while strafing and only once the cooldown since its last shot has passed, recording the time; the strafe direction is always plus or minus one and is redrawn only when the strafe timer runs out |
| Enemy.ShotsSpaced | js/entities/Enemy/enemy.js:215-218 | two consecutive shots of one shooter are at least a cooldown apart |
| Enemy.TakeDamage | js/entities/Enemy/enemy.js:304-313 | only the death latch guards damage: a dead enemy ignores it, and an inactive but living one still loses hit points and can be killed |
| ScaledEnemy.ScaleFactor | js/entities/enemy.js:11-14 | the level scale factor is at least one for non-negative levels |
| ScaledEnemy.Create | js/entities/enemy.js:2-46 | a new enemy keeps its raw type, starts with full hit points and a 1000 ms shot cooldown, has speed, hit points and experience scaled from the base stats of its type (chaser for unknown types), and for non-negative levels is never weaker than its base |
| ScaledEnemy.Base | js/entities/enemy.js:17-23 | the base stats keyed by the raw type: chaser 120/80/10, wanderer 100/60/12, shooter 80/30/15 (hit points, speed, experience), chaser for any other type |
| ScaledEnemy.CreateMonotone | js/entities/enemy.js:11-46 | higher player and game levels never give an enemy of the same type fewer hit points, less experience or less speed |
| ScaledEnemy.AIKey | js/entities/enemy.js:51-58 | the melee types normal, fast, tank and elite (and chaser itself) map to chaser, and every other type is its own key |
| ScaledEnemy.Dispatch | js/entities/enemy.js:68-80 | the chaser behaviour runs exactly for the melee types and chaser, wandering exactly for wanderer, shooting exactly for shooter, and any other type does nothing |
| ScaledEnemy.UpdateShooter | js/entities/enemy.js:111-122 | a shot is fired exactly when the target is closer than 300 and the cooldown since the last shot has passed, and only then is the shot time recorded |
| ScaledEnemy.ShotsSpaced | js/entities/enemy.js:111-122 | two consecutive shots are at least a cooldown apart |
| BasicEnemy.Create | entities/enemy.js:2-26 | a new enemy has its drawn speed between 50 and 100, 150 hit points, 10 experience, and is active and alive |
| BasicEnemy.Moves | entities/enemy.js:28-42 | an enemy moves exactly when it is active and alive and its own target (or the player when it has none) exists, is active and is not at its position |
| BasicEnemy.TakeDamage | entities/enemy.js:44-53 | inactive and dead enemies ignore damage; otherwise the amount is subtracted and the enemy dies exactly when its hit points reach zero |
| BasicEnemy.FirstHit | entities/enemy.js:2-53 | a fresh enemy is killed by a single hit exactly when the hit reaches 150, and keeps 150 minus the hit |
| UnlockTracker.Apply | js/Director/SpawnDirector.js:97-104 | the unlock pass only appends to the pool; afterwards a type is in the pool exactly when it was already there or some rule names it with its threshold met; a pool without duplicates stays without duplicates |
| UnlockTracker.ApplySaturated | js/Director/SpawnDirector.js:97-104 | once every type whose threshold is met is in the pool, the pass changes nothing |
| UnlockTracker.ApplyIdempotent | js/Director/SpawnDirector.js:97-104 | running the unlock pass twice at the same time is running it once |
| UnlockTracker.ApplyMonotone | Director/SpawnDirector.js:44-60 | a later pass never loses a type, and unlocking at a later value unlocks at least as much |
| SpawnSampler.FirstInWorld | js/Director/SpawnDirector.js:197-209 | the first candidate inside the world is returned, and nothing exactly when no candidate lies inside |
| SpawnSampler.Sample | js/Director/SpawnDirector.js:193-213 | only the first attempts count: the position found lies inside the world and among them, and none is found exactly when none of them lies inside |
| SpawnSampler.GetSpawnPosition | Director/SpawnDirector.js:80-101 | the attempt loop returns the first in-world candidate within the attempt bound, every earlier candidate being outside, and null exactly when all attempted candidates are outside; it agrees with the functional sampler |
| SpawnDirector.UpdateChaos | js/Director/SpawnDirector.js:215-246 | before its scheduled start the event does nothing; a running event keeps its start time and has time left; it starts with 20 seconds and counts down by the frame's time, and when it ends the next start is 90 seconds after the moment it ended |
| SpawnDirector.Init | js/Director/SpawnDirector.js:4-66 | a new director has no points, only chasers pooled, no time elapsed, no chaos until second 60, an empty queue and an empty ledger |
| SpawnDirector.Cost | js/Director/SpawnDirector.js:19-26 | the point cost per type: chaser 1, wanderer 1.2, shooter 1.5, fast 1.3, tank 2.5, elite 4, and 1 for any other type (:149) |
| SpawnDirector.Limit | js/Director/SpawnDirector.js:57-63 | the live cap per type: chaser 18, wanderer 10, shooter 8, tank 6, elite 3, and 99 for any other type, fast included (:154) |
| SpawnDirector.SpawnEnemy | js/Director/SpawnDirector.js:180-186 | spawning counts one more live enemy of that type and leaves every other count as it was |
| SpawnDirector.Release | js/Director/SpawnDirector.js:188-190 | the destroy hook counts one fewer live enemy of that type and leaves every other count as it was |
| SpawnDirector.AllowedPool | js/Director/SpawnDirector.js:123-126 | the allowed pool holds exactly the pool's types whose unlock time (if any) has passed |
| SpawnDirector.Cheap | js/Director/SpawnDirector.js:135 | the cheap list holds exactly the types costing at most 1.2 |
| SpawnDirector.Roulette | js/Director/SpawnDirector.js:130-144 | the roulette holds exactly the allowed types, and is the allowed pool itself outside chaos |
| SpawnDirector.FirstBuyable | js/Director/SpawnDirector.js:148-156 | the type chosen comes from the shuffled roulette and is affordable and under its per-type cap, and none is chosen exactly when no entry passes both tests |
| SpawnDirector.FirstBuyableIsFirst | js/Director/SpawnDirector.js:148-156 | every roulette entry before the chosen one fails the purchase test |
| SpawnDirector.Requests | js/Director/SpawnDirector.js:167-173 | a purchase queues the batch size's requests of the bought type, each jittered around the spawn point |
| SpawnDirector.Drain | js/Director/SpawnDirector.js:111-119 | with a batch pending nothing is bought; the head request is spawned exactly when 40 ms have passed since the last one, which removes it from the queue, records the time and counts it live |
| SpawnDirector.ShuffleMembers | js/Director/SpawnDirector.js:137-143 | a shuffle keeps exactly the members of the list it shuffles |
| SpawnDirector.NoneBuyable | js/Director/SpawnDirector.js:148-177 | when no entry of the shuffled roulette can be bought, no allowed type can |
| SpawnDirector.BatchCostUniform | js/Director/SpawnDirector.js:165 | a batch of one type costs that type's cost times its size |
| SpawnDirector.Buy | js/Director/SpawnDirector.js:158-176 | buying n enemies queues n requests of that type, each within 20 of the spawn point on both axes, charges the cost n times, records the time, and spawns nothing yet |
| SpawnDirector.Pick | js/Director/SpawnDirector.js:121-156 | the roulette settles on a type that is in the pool, unlocked and buyable, and settles on none exactly when no allowed type is buyable |
| SpawnDirector.Place | js/Director/SpawnDirector.js:158-176 | once a type is chosen, a batch is queued exactly when a spawn position is found; it has one request outside chaos and the drawn size during it, all of the chosen type and within 20 of the position, its cost is charged and the time recorded; without a position nothing changes |
| SpawnDirector.Purchase | js/Director/SpawnDirector.js:121-177 | a batch is queued exactly when some allowed type is buyable and a spawn position is found; the type queued is in the pool, unlocked and buyable, the batch has one request outside chaos and the drawn size during it, the points spent are the batch's cost, and otherwise nothing changes |
| SpawnDirector.TrySpawn | js/Director/SpawnDirector.js:106-178 | a frame either spawns the head of a pending batch after the 40 ms delay or buys a new batch of one allowed, buyable type; it never touches the clock, pool or chaos, spends only what it queues, and changes nothing when it does neither |
| SpawnDirector.Tick | js/Director/SpawnDirector.js:68-88 | the clock advances by the frame's seconds, the unlock pass and the chaos update run against the new time, and points accrue at 1.2 per second (2.64 during chaos) |
| SpawnDirector.Update | js/Director/SpawnDirector.js:68-94 | without a player and an enemy group nothing happens; otherwise the bookkeeping always runs, and nothing is spawned or bought while the live enemies reach the cap (30, or 50 during chaos); any spawn or purchase is as the spawn step describes |
| SpawnDirectorProps.QueuedUniform | js/Director/SpawnDirector.js:167-173 | a queue holding one type holds all its requests for that type |
| SpawnDirectorProps.InitValid | js/Director/SpawnDirector.js:9-63 | the constructed director satisfies the invariant and the per-type caps |
| SpawnDirectorProps.UpdateKeepsValid | js/Director/SpawnDirector.js:68-191 | every frame keeps the invariant: the pool starts with chaser and has no repeats, at most one batch of at most three is queued, and live plus queued enemies of a type exceed its cap by at most two |
| SpawnDirectorProps.CalmUpdateKeepsTypeCaps | js/Director/SpawnDirector.js:148-176 | outside chaos a frame keeps live plus queued enemies of every type within its cap |
| SpawnDirectorProps.ReleaseKeepsValid | js/Director/SpawnDirector.js:188-190 | the destroy hook keeps both the invariant and the per-type caps |
| SpawnDirectorProps.ReleaseUndoesSpawn | js/Director/SpawnDirector.js:180-190 | spawning then destroying an enemy restores every live count |
| SpawnDirectorProps.CalmUpdateKeepsPointsNonNegative | js/Director/SpawnDirector.js:80-91 | outside chaos the director never spends points it does not have |
| SpawnDirectorProps.CalmBuysOne | js/Director/SpawnDirector.js:158-176 | outside chaos a purchase queues one request of the chosen type and charges its cost once |
| SpawnDirectorProps.ChaosChargesWholeBatch | js/Director/SpawnDirector.js:149-165 | during chaos a purchase charges the chosen type's cost times the drawn batch size, although only one member had to be affordable |
| SpawnDirectorProps.ChaosCanOverdraw | js/Director/SpawnDirector.js:149-165 | with one point and only chasers unlocked, a chaos batch of three chasers is bought whatever the shuffle, leaving the budget at -2 |
| SpawnDirectorProps.FirstTick | js/Director/SpawnDirector.js:68-88 | after the first second of a game the director holds 1.2 points, only the chaser is unlocked and no chaos event has started |
| SpawnDirectorProps.FirstSecond | js/Director/SpawnDirector.js:68-177 | in the first second of a game one chaser is bought with one of the 1.2 points earned and queued rather than spawned, leaving 0.2 |
| SpawnDirectorProps.ChaosRunSplit | js/Director/SpawnDirector.js:215-232 | a + b one-second chaos ticks are a ticks followed by b |
| SpawnDirectorProps.CalmRun | js/Director/SpawnDirector.js:217-222 | before its scheduled start the chaos state does not change |
| SpawnDirectorProps.CountdownRun | js/Director/SpawnDirector.js:225-231 | while the timer exceeds the ticks left, the event stays on and counts down one per tick |
| SpawnDirectorProps.ChaosStarts | js/Director/SpawnDirector.js:215-246 | the tick that lands on the scheduled start turns the event on with one second of its 20 already spent |
| SpawnDirectorProps.ChaosEnds | js/Director/SpawnDirector.js:215-246 | nineteen ticks after the start the event is off, with the next one due 90 seconds after that tick |
| SpawnDirectorProps.ChaosWindow | js/Director/SpawnDirector.js:215-246 | with one-second ticks landing on the scheduled start, the event is on for 19 ticks and then off, with the next start 90 seconds after it ended |
| SpawnDirectorProps.FirstChaosWindow | js/Director/SpawnDirector.js:40-48 | in a game played in one-second ticks the first event is off through second 59, on from second 60 through 78, and off at 79 with the next one due at 169 |
| LevelDirector.UpdateDifficulty | Director/SpawnDirector.js:44-60 | nothing changes while the level (defaulting to 1) is the last one seen; a new level sets the multiplier to 1 + level/10, the cap to 25 + floor(2·level) and unlocks types by appending to the pool, which never loses a type; the pool invariant is kept |
| LevelDirector.Init | Director/SpawnDirector.js:2-24 | a new director has no cooldown, a cap of 35, multiplier 1, last level 1 and only normal enemies pooled |
| LevelDirector.EffectiveLevel | Director/SpawnDirector.js:45 | the level read from the player, 1 when it is missing or zero |
| LevelDirector.UpdateDifficultyIdempotent | Director/SpawnDirector.js:44-47 | a second difficulty pass at the same level changes nothing |
| LevelDirector.LevelUnlocks | Director/SpawnDirector.js:50-55 | after a level change a type is pooled exactly when it was already or its unlock level is reached |
| LevelDirector.GetRandom | Director/SpawnDirector.js:63 | the random pick is a member of the pool |
| LevelDirector.Rescale | Director/SpawnDirector.js:69-75 | each stat becomes the floor of its level-scaled value (5% hit points, 3% speed, 4% damage per level) and a missing damage stays non-numeric; `hp` is set to the new maximum, but the health the first game's enemy reads, `currentHP`, keeps its created value |
| LevelDirector.RescaleLeavesHealth | Director/SpawnDirector.js:69-75 | the first game's 150-hit-point enemy rescaled at level 1 has maximum 157 but health 150 |
| LevelDirector.RescaleIntended | Director/SpawnDirector.js:69-75 | the rescale with the full-health reset on `currentHP`: the health equals the new maximum and every other stat is as in the rescale |
| LevelDirector.RescaleIntendedFullHealth | Director/SpawnDirector.js:69-75 | so rescaled at a non-negative level, an enemy starts at full health and never with less health than it was created with |
| LevelDirector.RescaleNeverWeakens | Director/SpawnDirector.js:69-72 | at a non-negative level rescaling never lowers whole, non-negative hit points or speed |
| LevelDirector.SpawnEnemy | Director/SpawnDirector.js:62-76 | an enemy is created exactly when a spawn position is found among the first 20 candidates; its type is pooled, its position lies in the world and its stats are the rescaled ones |
| LevelDirector.Update | Director/SpawnDirector.js:27-42 | without a player nothing happens; otherwise the difficulty pass runs, a full population freezes the cooldown, the cooldown otherwise counts down by the frame time, and when it runs out it restarts at the interval divided by the multiplier (positive, at most 1200) with a spawn exactly when a position is found; the invariant is kept |
| BottlePassives.Init | js/systems/PassiveSystem.js:11-13 | a new system has all three bottles ready and has thrown none |
| BottlePassives.Cooldown | js/systems/PassiveSystem.js:7-9 | the bottle cooldowns: fire 2000 ms, poison 2500 ms, slow 3000 ms |
| BottlePassives.SetReady | js/systems/PassiveSystem.js:46-71 | setting one bottle's ready flag touches no other flag and throws nothing |
| BottlePassives.Cast | js/systems/PassiveSystem.js:46-71 | a bottle that is not ready is not thrown and nothing changes; a ready one is thrown once and stays unavailable until restored; the other bottles are unaffected |
| BottlePassives.Restore | js/systems/PassiveSystem.js:50 | the end of a bottle's cooldown makes it ready again without touching the others |
| BottlePassives.AreaTradesDamage | js/systems/PassiveSystem.js:112-128 | fire, poison and slow bottles cover growing areas with shrinking damage, and any other type name has no damage and no area |
| BottlePassives.BottleDamage | js/systems/PassiveSystem.js:112-119 | bottle damage: fire 40, poison 20, slow 5, and 0 for any other type |
| BottlePassives.BottleArea | js/systems/PassiveSystem.js:121-128 | bottle area: fire 40, poison 70, slow 125, and 0 for any other type |
| BottlePassives.ActivatePassiva | js/systems/PassiveSystem.js:130-142 | the full-charge burst throws one fire, one poison and one slow bottle in that order whatever their cooldowns, and leaves all three cooling down |
| BottlePassives.HandleKill | js/systems/PassiveSystem.js:155-174 | only a class whose lower-cased name contains the alchemist's name charges; it fills in missing values (0 and 100) and adds 15, never exceeding the maximum |
| BottlePassives.ActivateAlquimista | js/systems/PassiveSystem.js:412-414 | activation keeps charge values that are present and defaults only missing ones (0 and 100) |
| BottlePassives.ActivationMatchesKillDefaults | js/systems/PassiveSystem.js:162-163 | activation and the kill handler default the same way, so activating first does not change what a kill does, and activating twice is activating once |
| BottlePassives.Tick | js/systems/PassiveSystem.js:423-451 | every 70 ms the maximum is kept; a missing or non-numeric charge never moves; a charge well below the maximum gains one point and throws nothing; a charge within [0, max] stays there; a tick either throws nothing or fires the burst and empties the charge |
| BottlePassives.AlchBarFraction | js/systems/PassiveSystem.js:457-462 | the bar's fill lies in [0, 1]; with a positive maximum it is the charge's share of the maximum, full at or above it and empty at or below zero |
| BottlePassives.TicksFill | js/systems/PassiveSystem.js:423-451 | from an empty charge with maximum m, fewer than m ticks count up one per tick and throw nothing, and the m-th tick fires the burst and empties the charge |
| BottlePassives.TicksSplit | js/systems/PassiveSystem.js:423-426 | n + 1 ticks are n ticks and then one |
| BottlePassives.ActivateCoveiro | js/systems/PassiveSystem.js:180-190 | right after activation SPACE does nothing and the next ascension is the first, which summons no tank; hit points and the temporary buffs are untouched |
| BottlePassives.OnKill | js/systems/PassiveSystem.js:195-199 | a kill counts one unless an ascension is running, and changes nothing else |
| BottlePassives.SpawnZombieTank | js/systems/PassiveSystem.js:278-304 | this copy builds the same tank as the modular gravedigger (tier, hit points, speed, corrosion), plus a taunt radius of 260 + 30 per tier and lifesteal exactly from the 13th ascension on |
| BottlePassives.ActivateAscension | js/systems/PassiveSystem.js:230-249 | an ascension marks the player ascended, counts one more ascension, and summons the tank exactly on every third ascension |
| BottlePassives.Space | js/systems/PassiveSystem.js:203-207 | SPACE starts an ascension exactly when enough kills have been counted and none is running, and otherwise does nothing |
| BottlePassives.AscensionEnd | js/systems/PassiveSystem.js:259-266 | the end of an ascension clears it, resets the counter, raises the threshold by 30, takes the bonus hit points back from a numeric `hp` (a missing or NaN one stays NaN) and resets the poison multiplier |
| BottlePassives.AscensionRoundTrip | js/systems/PassiveSystem.js:230-266 | an ascension and its end give a numeric `hp` back exactly, leave a missing one NaN (as on the current player), leave the player out of ascension and move the threshold on by 30 |
| BottlePassives.SameAscensionAsModule | js/systems/PassiveSystem.js:195-273 | this copy starts and ends ascensions, counts kills and summons tanks exactly as the modular gravedigger does while that class is current |
| BottlePassives.ZombieTakeDamage | js/systems/PassiveSystem.js:341-344 | a hit lowers the tank's hit points by its amount and triggers the death effects exactly when they reach zero or below |
| BottlePassives.NoDeathLatch | js/systems/PassiveSystem.js:341-346 | with no latch, a second hit on a dead tank runs the death effects again |
| BottlePassives.ActivateClassAbilities | js/systems/PassiveSystem.js:22-44 | the first class name found in the normalised name decides: the alchemist gets its defaults, the gravedigger a fresh counter when a player exists, anything else nothing |
| ClassicPassives.Refresh | systems/PassiveSystem.js:70-89 | the bar refresh never moves the kill count and makes the passive ready exactly when it already was or forty kills are reached |
| ClassicPassives.ActivateAlquimista | systems/PassiveSystem.js:61-68 | with a player and a weapon system the counter starts fresh and not ready; without them nothing changes |
| ClassicPassives.AlchemistKill | systems/PassiveSystem.js:91-96 | a kill counts only while the passive is not ready, and the passive becomes ready exactly at the fortieth |
| ClassicPassives.AlchemistSpace | systems/PassiveSystem.js:98-112 | SPACE does nothing until the passive is ready; then it throws three flasks and starts the counter over, not ready |
| ClassicPassives.ReadyAtForty | systems/PassiveSystem.js:66-96 | from a fresh counter, up to forty kills count one each and the passive turns ready exactly at the fortieth |
| ClassicPassives.KillsSplit | systems/PassiveSystem.js:91-96 | n + 1 kills are n kills and then one |
| ClassicPassives.ReadyIgnoresKills | systems/PassiveSystem.js:92 | once ready, any number of kills leaves the counter unchanged |
| ClassicPassives.AlchemistCycle | systems/PassiveSystem.js:61-115 | forty kills and a SPACE press throw three flasks and return the counter to its fresh state |
| ClassicPassives.ActivateCoveiro | systems/PassiveSystem.js:117-136 | activation leaves numeric counters and a non-zero threshold, keeps non-zero values already present, defaults the threshold to 30, and registers one more kill listener |
| ClassicPassives.KillListeners | systems/PassiveSystem.js:131-136 | n listeners each count the kill once, so the counter rises by n, or not at all during an ascension |
| ClassicPassives.OnEnemyKilled | systems/PassiveSystem.js:131-136 | a kill adds one per registered listener to the counter outside an ascension and changes nothing else |
| ClassicPassives.DoubleActivationDoubleCounts | systems/PassiveSystem.js:117-136 | activating twice makes every later kill count twice |
| ClassicPassives.GetZombieTier | systems/PassiveSystem.js:214-218 | the tier is 1 to 3: the top tier exactly from 13 ascensions, the bottom one exactly below 7 |
| ClassicPassives.ZombieTierMonotone | systems/PassiveSystem.js:214-218 | more ascensions never give a lower tier |
| ClassicPassives.SameTiersAsModule | systems/PassiveSystem.js:214-218 | the first game's tier thresholds agree with the later gravedigger's for every ascension count |
| ClassicPassives.SpawnTank | systems/PassiveSystem.js:230-267 | the zombie's stats follow its tier, it starts at full health with a taunt radius of 240, and only the third tier steals life, a quarter |
| ClassicPassives.ActivateAscensaoCarcaca | systems/PassiveSystem.js:152-192 | during an ascension nothing happens; otherwise the ascension starts, the count rises by one, a zombie of the new count's tier appears and an expiry is scheduled |
| ClassicPassives.CoveiroSpace | systems/PassiveSystem.js:139-145 | SPACE starts an ascension exactly when none is running and the kills (default 0) reach the threshold (default 99999), and otherwise does nothing |
| ClassicPassives.AscensionExpiry | systems/PassiveSystem.js:192-195 | the expiry ends the ascension, restarts the kills and moves the threshold (default 30) 30 further, leaving the count and the listeners |
| ClassicPassives.TransitionsKeepInitialised | systems/PassiveSystem.js:125-195 | kills, SPACE and the expiry keep an activated gravedigger's counters numeric and its threshold positive |
| ClassicPassives.AscensionCycle | systems/PassiveSystem.js:139-195 | SPACE at the threshold and then the expiry leave the player out of ascension with zero kills, the threshold exactly 30 further and the count one higher |
| ClassicPassives.BarPercent | systems/PassiveSystem.js:38-47 | the bar's fill is at most one, not negative for non-negative kills, and full exactly when the kills reach the threshold |
| ClassicPassives.TankTakeDamage | systems/PassiveSystem.js:324-335 | a hit lowers the zombie's hit points by its amount; the player is healed exactly when the zombie steals life, the hit is its own attack and a player exists, by the floor of damage times lifesteal; the death runs exactly when hit points reach zero or below |
| ClassicPassives.OnlyTierThreeHeals | systems/PassiveSystem.js:264-330 | only a third-tier zombie ever heals the player, by a quarter of the damage rounded down |
| ClassicPassives.ActivateSentinela | systems/PassiveSystem.js:409-416 | the sentinel sets the knockback bonus to 1.3 and the push damage bonus to 1, and changes nothing else |
| ClassicPassives.ActivateClassAbilities | systems/PassiveSystem.js:9-36 | at most one passive runs, the one the normalised class name selects, and only with a player (the alchemist also needs the weapon system); no other part of the state changes |
| WeaponSystem.StartCooldown | systems/WeaponSystem.js:47-48 | starting a cooldown raises that weapon's flag, adds its key if new, and leaves every other flag |
| WeaponSystem.CooldownEnd | systems/WeaponSystem.js:49 | the scheduled end of a cooldown lowers that weapon's flag and leaves every other flag |
| WeaponSystem.ResetAllCooldowns | systems/WeaponSystem.js:52-54 | the reset keeps exactly the known keys and leaves none of them cooling |
| WeaponSystem.WeaponOf | systems/WeaponSystem.js:28-43 | a key selects the weapon whose key it is, and selects nothing exactly when it is no weapon's key |
| WeaponSystem.CooldownMs | systems/WeaponSystem.js:88 | the flask cools down for 1200 ms, the scythe (:196) for 2500 ms and the bell (:338) for 1400 ms |
| WeaponSystem.ChooseEffect | systems/WeaponSystem.js:64-65 | a draw in [0, 1) picks one of fire, poison and slow |
| WeaponSystem.FlaskRadius | systems/WeaponSystem.js:73-77 | the flask's area is 60, plus for the slow flask the slow radius bonus or 30 when that is missing or zero |
| WeaponSystem.UseFlask | systems/WeaponSystem.js:57-104 | without the flask texture nothing is thrown and no cooldown starts; otherwise one flask with a random effect and that effect's radius is thrown and the flask's cooldown starts |
| WeaponSystem.GroundRadius | systems/WeaponSystem.js:113 | the ground effect uses the radius it is given, or 60 when that is zero |
| WeaponSystem.TotalTicks | systems/WeaponSystem.js:110-111 | the ground effect lasts 6 ticks, or 6 times the duration multiplier rounded up when one is set |
| WeaponSystem.RunGroundEffect | systems/WeaponSystem.js:120-142 | the ground effect's timer applies its debuff exactly the total number of ticks, and once when that total is below one |
| WeaponSystem.BaseDotDamage | systems/WeaponSystem.js:148 | the base damage per tick is 8, times the damage-over-time bonus when one is set |
| WeaponSystem.DebuffDamage | systems/WeaponSystem.js:146-172 | fire deals one and a half times the base per tick, poison the base plus 2, slow a tenth; any other effect deals nothing |
| WeaponSystem.DebuffOrder | systems/WeaponSystem.js:146-158 | with no bonus the debuffs deal 12, 10 and 0.8 a tick, and with a base of at least 4 fire hurts at least as much as poison and poison more than slow |
| WeaponSystem.Remember | systems/WeaponSystem.js:160 | the first slow remembers the current speed; a remembered speed that is set is kept; the speed itself is untouched |
| WeaponSystem.FlaskSlow | systems/WeaponSystem.js:157-169 | a slow tick drops the speed to 0.6 of the remembered speed exactly when it is above that, and only then schedules a restore |
| WeaponSystem.FlaskRestore | systems/WeaponSystem.js:164-168 | the restore gives an active enemy slower than its remembered speed that speed back, and otherwise changes nothing |
| WeaponSystem.SlowCapturesOnce | systems/WeaponSystem.js:160-163 | a second slow keeps the speed remembered by the first, and with a positive remembered speed slowing an already slowed enemy changes nothing |
| WeaponSystem.SlowRestoreRoundTrip | systems/WeaponSystem.js:157-168 | a slow and its restore return a fresh moving enemy to its own speed, remembering it |
| WeaponSystem.ScytheBonusAsWritten | systems/WeaponSystem.js:184-192 | as written only the venom bonus can change, and nothing changes unless `isInAscension`, a flag nothing in the game sets, is true |
| WeaponSystem.ScytheBonus | systems/WeaponSystem.js:184-192 | reading the ascension flag the passives set, only the venom bonus changes, and it becomes 1.5 exactly in an ascension from the third on |
| WeaponSystem.ScytheHitDamage | systems/WeaponSystem.js:228 | a scythe hit deals five eighths of the flask's base damage, times the venom bonus when one is set |
| WeaponSystem.RotDamage | systems/WeaponSystem.js:282 | a rot tick deals five eighths of the flask's base damage |
| WeaponSystem.VenomBonusUnreachable | systems/WeaponSystem.js:184-192 | a gravedigger in its third ascension with no bonuses hits for 5 as written and 7.5 as intended |
| WeaponSystem.ScytheBonusApplies | systems/WeaponSystem.js:184-228 | with no venom bonus yet and a positive damage bonus, the corrected bonus never lowers a hit, and raises it exactly in an ascension from the third on |
| WeaponSystem.ScytheSlow | systems/WeaponSystem.js:292-293 | the scythe slows an enemy to 0.7 of its remembered speed but never below 30 |
| WeaponSystem.ScytheHit | systems/WeaponSystem.js:227-296 | inactive and dead enemies are skipped; any other enemy takes the scythe's hit damage and is slowed |
| WeaponSystem.ScytheRestore | systems/WeaponSystem.js:294-296 | 2000 ms after a hit an active enemy gets its remembered speed back and an inactive one keeps its speed |
| WeaponSystem.ScytheRoundTrip | systems/WeaponSystem.js:292-296 | a scythe hit on a fresh enemy and its restore return it to its own speed, remembering it; without the restore a fast enemy stays slower |
| WeaponSystem.BellPush | systems/WeaponSystem.js:321-337 | the bell skips inactive enemies and reaches exactly the active ones within 120, pushing them with 300 times the knockback bonus (or 1) and dealing 12 plus the push damage bonus (or 0) |
| WeaponSystem.UseWeapon | systems/WeaponSystem.js:25-45 | a cooling weapon or an unknown key does nothing; otherwise the named weapon fires and starts its own cooldown (the flask only with its texture), and every other weapon's flag is kept; the scythe applies its ascension bonus as written, so a wielder whose `isInAscension` is unset, as in the game, never changes |
| WeaponSystem.UseWeaponIntended | systems/WeaponSystem.js:25-45 | with the scythe reading `isInAscencion`, using a weapon gives the same cooldowns and throws as the program and differs only in the scythe's venom bonus |
| WeaponSystem.UseWeaponDropsVenom | systems/WeaponSystem.js:174-192 | for a gravedigger in its third ascension the program's `useWeapon` leaves the venom bonus unset, while the intended one sets it to 1.5 |
| WeaponSystem.CooldownGates | systems/WeaponSystem.js:25-50 | a weapon that just fired does nothing until its cooldown ends, after which it is usable again |
| WeaponSystem.ResetUnblocks | systems/WeaponSystem.js:52-54 | after a reset every weapon fires again and starts its cooldown |
| WeaponSystem.DebuffColorsDistinct | systems/WeaponSystem.js:9-16 | fire, poison and slow each get a colour of their own, none of them white, and every other type name gets white |
| WeaponSystem.DebuffColor | systems/WeaponSystem.js:9-16 | the debuff tint: orange for fire, green for poison, blue for slow and white for any other type |

## Left out

- Rendering, HUD text, bar widths, colours of particles, tweens, sounds, camera, input wiring and the scenes (`MainScene`, `MenuScene`, `main.js`): no rule logic. Only the fractions the bars show are modelled.
- The timer scheduler and the event bus: each callback body is its own transition, and the delays are not tracked except where they decide an order (the dash timers).
- Trigonometry and distances: spawn candidates and distances are inputs. Only the bounds checks and band decisions are verified.
- `Math.random`, `Phaser.Math.Between`/`FloatBetween` and `Shuffle`: their results are parameters. Shuffles are constrained to be permutations of their input.
- XPOrb, EnemyBullet and PlayerClass are not part of this model. They hold object lifecycles and static configuration.
- The current player calls `damageSystem.heal` and `addShield` (js/entities/Player/player.js:93-99). DamagePlayer.js defines neither, so only the call's argument is modelled.
- DamagePlayer reads `shield`, `armor`, `critChance`, `critDamage`, `doubleHit`, `lifesteal` and `knockback` directly on its stats object rather than through `get` (js/entities/Player/DamagePlayer.js:16,31,53-54,64,68,82). On the current player that object is the `StatsPlayer` instance (js/entities/Player/player.js:11-12), which keeps its stats in its own `stats` map, so all seven read as `undefined`. Upgrades bought through the store therefore never reach combat. The model takes those properties as given and does not compose DamagePlayer with the stat store.
- Coveiro.Phase: its 1 to 3 bound is stated for counts from 1 only. `ascensionCount` is a `nat`, because activation sets it to 0 and it only grows, so an ascension always computes its phase from a count of at least 1.
- `js/entities/enemy.js:171` calls `passiveSystem.onEnemyKill`, which no passive system defines. The call is left out.
- `openUpgradeMenu` calls `player.lockInput()` without checking that it exists, and no player shown defines it (js/systems/UpgradeSystem.js:316). The model ignores the call and its possible failure.
- The sentinel of the first game sets `pushDamageBonus`, but the bell reads `extraDamageOnPush`. Each is modelled against its own fields and the two are not composed.
- UpgradeSystem ignores the change events StatsPlayer emits. The upgrade model does not emit them.
- The alchemist's main explosion, its ground effects and the poison and slow timers on enemies are not modelled beyond the flags and charge they change.
- The zombie tanks' taunt and movement timers are not modelled: they only steer sprites.
- The first game's zombie `onDeath` runs again from its 7000 ms timer even after a lethal hit. The corrosion ticks it starts are not modelled.
- The gravedigger's `reset` hands `keyboard.off` the emitter that `keyboard.on` returned, so the SPACE callback stays registered. The model keeps one `listening` flag for the handler reference. Every stale callback checks `current` and the ascension guard, and only the first of several can start an ascension, so the flag gives the same ascensions.
- The ascension's temporary hit points are added to the player's `hp` property, which the current player does not define. Its health, `currentHP`, is not part of the gravedigger's player record and never receives them.
- The scythe's `if (!scene \|\| !player) return` guard and its 2000/3000 ms control time are not modelled: the model assumes a scene and a player, and the control time only steers the sprite.
- The bottle system's `activateAlquimista` falls back to `scene.player` when it has no player. The model assumes the player is present.
- `ClassNames.Normalize`: does not model the NFD decomposition that strips accents. An accented letter is dropped instead of being reduced to its base letter.
- `Coveiro.HudPercent`: requires a non-zero threshold. Activation sets it to 30 and it only grows.
- `ClassicPassives.BarPercent`: requires numeric kills and a non-zero threshold. Activation establishes both and every transition keeps them (`ClassicPassives.TransitionsKeepInitialised`).
- `SpawnDirector.Release`: requires the type to be in the ledger. The destroy hook is attached only after `spawnEnemy` has counted it.
- `Coveiro.AscensionEnd` and `ClassicPassives.AscensionExpiry`: require a pending callback. An end runs only after an ascension scheduled it.
- `LevelDirector.Update`: requires the invariant and a level that is missing or non-negative. The game's levels start at 1 and only grow.
- `LegacyPlayer.Climbing`: requires a threshold of at least one. `gainXP` repairs the threshold before the loop.
- `UpgradeSystem.ApplyToPlayer`: the regeneration upgrade's timer assumes the player has a scene.
- `LevelDirector.Rescale`, `SpawnDirector` and every other real-valued member: JavaScript's double rounding is not modelled. Arithmetic is exact.

## Findings

| source | as written | input that shows it | evidently intended | confidence | as-written member | corrected member |
|---|---|---|---|---|---|---|
| systems/WeaponSystem.js:184-192 | the scythe's ascension bonus tests `player.isInAscension`, but both passive systems set `isInAscencion`, so the venom bonus is never granted | a gravedigger in ascension (`isInAscencion` true) with `ascensionCount` 3 and no bonuses: a scythe hit deals 5 | the bonus applies during the ascension from the third on, and the hit deals 7.5 | not executed | WeaponSystem.ScytheBonusAsWritten, used by WeaponSystem.UseWeapon (with WeaponSystem.VenomBonusUnreachable and WeaponSystem.UseWeaponDropsVenom) | WeaponSystem.ScytheBonus, used by WeaponSystem.UseWeaponIntended (with WeaponSystem.ScytheBonusApplies) |
| js/systems/PassiveSystem/PassiveAlquimista.js:102-123 | `beginChargePhase` sets `isCharging`, saves the speed and multiplier, then calls `player.setCanAttack(false)` without `?.` (:111). The current player class (js/entities/Player/player.js) defines no `setCanAttack`, so the call throws before the slow, the damage reduction and the charge timer | the alchemist current on the current game's player, forty kills from an empty charge: the passive is left charging with a full bar and no timer, and every later kill is ignored until a class switch resets it | the charge phase runs: attacks off (or the call skipped, as `reset` does with `?.` at :49), the player slowed and shielded, and the phase over after 4 s | not executed; js/systems/ClassSystems.js is not part of this model and might add the method | Alquimista.BeginChargePhase on a player without `setCanAttack` (with Alquimista.StuckAtForty and Alquimista.StuckAfterForty) | Alquimista.BeginChargePhase on a player with `setCanAttack` (with Alquimista.KillsToCharge and Alquimista.TransitionsKeepValid) |
| Director/SpawnDirector.js:69-75 | the rescale writes `enemy.hp = enemy.maxHP`, but the first game's enemy keeps its health in `currentHP` (entities/enemy.js:8,47), so a rescaled enemy keeps its created health | an enemy of 150 hit points spawned at level 1: `maxHP` becomes 157 while `currentHP` stays 150 | the rescaled enemy starts at full health, with `currentHP` equal to the new maximum | not executed | LevelDirector.Rescale (with LevelDirector.RescaleLeavesHealth) | LevelDirector.RescaleIntended (with LevelDirector.RescaleIntendedFullHealth) |
