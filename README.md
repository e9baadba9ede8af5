# Seraph's Last Stand — the game rules in Dafny

Seraph's Last Stand is a browser shooter. A wizard fights waves of enemies, levels up on experience and picks upgrade cards. The game holds its state in a reducer over a single state record. This project models the rules layer of that reducer. The physics, trigonometry and drawing are not part of it.

- **Card engine** (`CardEngine`, `Pickups`): how an effect in mode add, multiply_base, multiply_total or set changes a player statistic, including the fallback for a missing value and the 0.1 floor on `playerSizeModifier`. Also the staff-unlock path, the per-card pick-up procedures and the final clamps (`currentHp` in `[0, maxHp]`, `attackSpeed >= 50`). Building a new player from a hat and the starting staff follows the same fold.
- **Fixed data** (`Catalogue`, `GameTypes`): the base statistics, hats, staffs, cards, ascensions and enemy types, and every tuning constant, with the same values as the game.
- **Reducer** (`Reducer`): `START_GAME`, `RESTART_GAME`, `MAIN_MENU`, `PAUSE_GAME`, `RESUME_GAME`, `SELECT_CARD` and `GAME_TICK`.
  - Stack counting and the one-shot ascension trigger.
  - A soundness invariant (`maxHp > 0`) that every dispatchable action preserves.
- **Tick** (`Tick`, `TickStages`, `Combat`, `Offers`): the discrete bookkeeping of one `GAME_TICK`, stage by stage:
  - invulnerability expiry and barrier recharge;
  - thunderbolts with cold and the Freezer insta-kill;
  - firing with rage and crits;
  - cold decay and bleed;
  - spawning under the enemy cap with level-scaled hp and damage;
  - player projectiles against enemies: durability, lifesteal, each kill scored once, fragmentation;
  - enemy projectiles and contact against the player: barrier charges, minimum 1 damage, the invulnerability window;
  - the Protector barrier break;
  - the level-up with its random card offer;
  - game over.

Outside inputs are parameters:
- `Date.now()` is the `now` argument.
- The values `Math.random()` returns are a stream `rng: nat -> Unit` with a cursor that each draw advances.
- `uuidv4()` is replaced by consecutive numeric ids.
- Every spatial test (overlap, bolt radius, leaving the field) is read from a `Geometry` record of predicates.

Numbers are Dafny `real`s. A card, hat, staff or player is an immutable value. Each state change builds the next value.

The tick's stages change state step by step, so they are methods with loops and loop invariants. Each stage has a specification function:
- the loops over enemies (`StrikeAll`, `RefreshAll`, `ContactAll`);
- the thunderbolt, firing and barrier-break stages (`Thundered`, `Fired`, `Broken`);
- one player projectile's pass over the enemies (`Pass`), one shot with its bookkeeping (`Shot`) and the whole player-projectile stage (`Shots`);
- the enemy-shot loop (`HitAll`, `HitDamages`, `Unconsumed`);
- the compositions of stages (`Attacked`, `Opening`, `Closing`, `Staged`).

Each such method's `ensures` ties it to that function, and separate lemmas state the function's properties. The card-offer draw (`DrawOffer`) and the collection of available cards (`AvailableCards`) draw at random or fold over the staffs, and they state their properties directly in their `ensures`.

## Model

| member | source | states |
|---|---|---|
| GameTypes.Put | App.tsx:79-92 | Writing stat `k` makes reading `k` give the written value. |
| GameTypes.PutOther | App.tsx:79-92 | Writing one stat key leaves every other key unchanged. |
| Numeric.Index | App.tsx:911 | `Math.floor(Math.random() * n)` is a valid index below `n`. |
| Numeric.Iterations | App.tsx:718 | A loop `for (i = 0; i < c; i++)` over a real bound runs `n` times, with `n - 1 < c <= n`. |
| Catalogue.FindEnemyType | App.tsx:708 | `ENEMY_TYPES[type]` gives the table entry with that id, or nothing when no entry has it. |
| Catalogue.CommonCardsArePoolCards | constants.ts:180-187 | Every common card is standard and Common, and keeps a positive maxHp positive. |
| Catalogue.UncommonCardsArePoolCards | constants.ts:189-198 | Every uncommon card is standard and Uncommon, and keeps a positive maxHp positive. |
| Catalogue.EpicCardsArePoolCards | constants.ts:200-206 | Every epic card is standard and Epic, and keeps a positive maxHp positive. |
| Catalogue.PoolCardsShape | constants.ts:255 | The card pool holds no Ascension-rarity card and no staff unlock. |
| Catalogue.PoolStackCaps | constants.ts:109-255 | Appraisal is capped at 2 stacks and Gush at 4; no other card of the level-up pool has a cap, common cards included. |
| Catalogue.UncommonBasesInPool | constants.ts:189-198 | Gush, Thunderbolt and Fragmentation are in the card pool. |
| Catalogue.EpicBasesInPool | constants.ts:200-206 | Wound, Barrier and Cold are in the card pool. |
| Catalogue.AscensionBases | constants.ts:208-253 | The base card of every ascension is one of Gush, Wound, Cold, Thunderbolt, Barrier or Fragmentation. |
| Catalogue.AscensionsBuildOnPool | constants.ts:256 | Every ascension's `baseCardId` names a card of `ALL_CARDS_POOL`. |
| Catalogue.AscensionsKeepMaxHpPositive | constants.ts:208-253 | No ascension effect can make a positive maxHp non-positive. |
| Catalogue.OutfitKeepsMaxHpPositive | constants.ts:9-83 | No hat or staff effect can make a positive maxHp non-positive. |
| Catalogue.BaseStatsShape | constants.ts:259-263 | The base statistics start at full health (50/50) with attackSpeed 525, above the 50 floor; 'playerSize' is absent. |
| CardEngine.Resolve | App.tsx:67-75 | Wherever the code as written yields a number, the intended fallback yields the same number; where it yields NaN, it yields the mode's identity, so the effect's own value goes through. |
| CardEngine.ResolveAsWritten | App.tsx:67-75 | As written, a missing current value falls back to the base value, which may itself be missing (NaN). |
| CardEngine.AsWrittenAbsentKeyGivesNaN | App.tsx:70-75 | As written, a key with neither a current nor a base value stays NaN for add and both multiply modes; the intended fallback is the mode's identity. |
| CardEngine.AbsentKeyTakesEffectValue | App.tsx:70-75 | With the intended fallback, an effect on a key with no value yields the effect's own value in every mode. |
| CardEngine.MultiplyModesAgree | App.tsx:83-88 | multiply_base and multiply_total both give `current * value`. |
| CardEngine.ApplyEffect | App.tsx:53-92 | playerSizeModifier takes the combined value floored at 0.1; any other key takes `add`/`multiply`/`set` of the current, base or identity value (the intended fallback, `Resolve`). |
| CardEngine.ApplyEffectFrame | App.tsx:79-92 | An effect changes no key other than its own. |
| CardEngine.EffectArithmetic | App.tsx:79-92 | On a record key, add gives `cur + v`, both multiply modes give `cur * v`, and set gives `v`. |
| CardEngine.ApplyEffectMaxHp | App.tsx:79-92 | An effect on another key leaves maxHp alone; a maxHp-preserving effect keeps it positive. |
| CardEngine.ApplyEffects | App.tsx:50-100 | Folding a card's effects keeps playerSizeModifier >= 0.1 and leaves maxHp alone unless an effect names it. |
| CardEngine.Clamp | App.tsx:110-112 | After the clamps `0 <= currentHp`, `currentHp <= maxHp` (when maxHp >= 0) and `attackSpeed >= 50`; values already in range are kept and nothing else changes. |
| CardEngine.ClampIdempotent | App.tsx:110-112 | Clamping twice is clamping once. |
| CardEngine.ApplySingleEffect | App.tsx:164-166 | Applying one effect as its own card changes only the statistics and leaves them clamped. |
| CardEngine.ApplyEachEffect | App.tsx:164-172 | Applying effects one card at a time changes only the statistics, keeps the clamps and keeps maxHp positive. |
| CardEngine.FindStaff | App.tsx:38 | `STAFFS.find` gives the staff with that id, or nothing when no staff has it. |
| CardEngine.ApplyCardBody | App.tsx:37-108 | The effect or unlock step and the pick-up procedure do not touch stacks, ascensions or level. |
| CardEngine.ApplyCardEffects | App.tsx:34-115 | The result is clamped. Stacks, ascensions, level and hat are untouched. A staff unlock naming a known staff sets `activeStaff` and adds its id to `unlockedStaffIds`; otherwise both stay. |
| CardEngine.StaffUnlockIgnoresCardEffects | App.tsx:37-49 | A staff-unlock card's own effect list has no influence on the result. |
| CardEngine.UnknownStaffOnlyClamps | App.tsx:37-39 | An unlock naming no known staff only applies the clamps. |
| CardEngine.ApplyCardKeepsMaxHpPositive | App.tsx:34-115 | A card whose effects keep maxHp positive keeps a positive maxHp positive. |
| CardEngine.InitializePlayer | App.tsx:118-178 | A new player: level 1, the given hat, the Wizard's Staff, no stacks or ascensions, only the wizard staff unlocked, every flag off, full health and jumps, and threshold 100. |
| CardEngine.WizardHatGivesBaseStats | constants.ts:10-15 | With the effect-free Wizard's Hat the new player carries exactly the base statistics. |
| CardEngine.HelmetStats | constants.ts:22-30 | The Helmet gives defense 0.1, movementSpeed 3.6 (4 × 0.9) and leaves maxHp at 50. |
| Pickups.RunPickup | constants.ts:110-176 | A pick-up procedure changes only the fields the procedures write. |
| Pickups.PickupFlags | constants.ts:110-176 | Renew refills health; Rage, Wound, Fragmentation, Thunderbolt, Barrier and Cold each switch on their own flag and no other. |
| Pickups.FragmentationPickup | constants.ts:130-134 | Fragmentation adds 2 to fragmentationCount and keeps the damage multiplier. |
| Pickups.BarrierPickup | constants.ts:160-165 | Barrier adds 1 hit. A cooldown already set is kept and an unset one becomes exactly 8000. The last activation is backdated by exactly one cooldown. |
| Pickups.ColdPickupKeepsCap | constants.ts:171-175 | Cold keeps the existing slow factor and slow cap (so a Freezer cap of 1.0 survives). |
| Pickups.ThunderboltPickup | constants.ts:140-145 | Thunderbolt keeps the bolt damage and a set interval (never 0), and stamps the last bolt time with now. |
| Pickups.FragmentationStacks | constants.ts:130-134 | n Fragmentation picks add 2n to fragmentationCount. |
| Pickups.BarrierStacks | constants.ts:160-165 | n Barrier picks add n hits. |
| Combat.Chill | App.tsx:688-692 | Cold raises the slow only while below the cap, never past `max(slow, cap)`, and stamps the time when it changes it. |
| Combat.DecayCold | App.tsx:507-510 | After 3000 ms without a hit the slow drops (never below 0) and the time is stamped; otherwise it stays. |
| Combat.InstaKill | App.tsx:693-698 | Freezer sets hp to 0 exactly when armed (alive, chance > 0, slowed to a cap of 1.0) and the draw is below the chance; a draw is used only when armed. |
| Combat.NoInstaKillBelowFullCap | App.tsx:694 | Without a slow cap of exactly 1.0 there is no insta-kill and no draw. |
| Combat.BleedStep | App.tsx:514-532 | A due bleed tick costs its dps (or the insta-kill takes hp to 0); the bleed keeps its dps, loses one interval, and is removed once it runs out. |
| Combat.BleedRunsOut | App.tsx:514-532 | After n due ticks the bleed has `duration - 1000n` left and is gone exactly when that is <= 0. |
| Combat.InvulnerabilityWindow | App.tsx:780-783 | The window after a hit is at least 500 ms, and longer exactly when the player holds a Shadow Cloak. |
| Combat.DamageTaken | App.tsx:777 | Damage taken is `max(1, d * (1 - defense))`. |
| Combat.TakeHit | App.tsx:769-786 | A charged barrier absorbs the hit and spends one charge; an invulnerable player takes nothing; otherwise hp drops by `DamageTaken` (at least 1) and the player is invulnerable until now plus the invulnerability window. |
| Combat.SecondHitIsHarmless | App.tsx:776-779 | Without a barrier, a second hit after a damaging one costs no health. |
| Combat.HitAll | App.tsx:764-794 | A run of hits never raises health, and touches only hp, barrier charges and invulnerability. |
| Combat.BarrierAbsorbs | App.tsx:770-774 | With enough charges, a run of hits leaves health alone and spends one charge each. |
| Combat.OneDamagingHit | App.tsx:776-786 | Without barrier or invulnerability only the first of a run of hits does damage. |
| Combat.RageMultiplier | App.tsx:447-451 | Rage scales damage by a factor in [1, 1.5], above 1 exactly when Rage is active and hp is below half of maxHp. |
| Combat.EndInvulnerability | App.tsx:372-374 | Invulnerability ends exactly when its time has passed and no barrier charge is up. |
| Combat.RechargeBarrier | App.tsx:377-386 | When due, a spent barrier gets one hit per Barrier stack, or one hit under Protector alone; otherwise nothing changes. |
| Combat.SpentBarrierRechargesAtOnce | App.tsx:378-382 | Because the pick-up backdates the last activation, a Barrier spent to 0 without Protector recharges on the next tick. |
| Combat.Burst | App.tsx:718-738 | A burst of n projectiles with consecutive ids, all of the same damage and durability, owned by the player. |
| Combat.BurstDamage | App.tsx:839-859 | A burst of n projectiles carries n × damage in total. |
| Combat.ShotCount | App.tsx:455 | A volley has at least one shot. |
| Combat.ShotDamage | App.tsx:443-452 | Without crit or rage a shot deals the staff-modified damage; with `critDamage >= 1` it never deals less. |
| Combat.Volley | App.tsx:461-491 | A volley has one projectile per shot and its damages add up to the shot's damage. |
| Combat.FragmentCount | App.tsx:716-718 | No fragments without Fragmentation or with a zero count; otherwise the trip count of the loop, the least whole number at least `fragmentationCount`. |
| Combat.Fragments | App.tsx:716-738 | A kill releases exactly `FragmentCount` projectiles with consecutive fresh ids, each the player's, of durability 1 and damage `damage × multiplier`; none without Fragmentation. |
| Combat.BreakBurst | App.tsx:832-859 | A barrier break fires exactly the loop's trip count, the least whole number at least `barrierBreakProjectileCount` (none when unset), of player projectiles with consecutive fresh ids, durability 1 and damage `damage × multiplier`. |
| Combat.AfterPass | App.tsx:750-753 | A projectile that hit survives only with durability > 1 and then loses exactly 1; one that missed is kept unchanged. |
| Combat.DurabilityCountsPasses | App.tsx:750-753 | A projectile of durability d survives n hits exactly while n < d, with d - n left. |
| Combat.KillReward | App.tsx:708-711 | A kill is worth the type's points (5 for an unknown type) and at least 5 experience. |
| Combat.MaxEnemies | App.tsx:626 | The enemy cap is 5 plus 1 per level above the first. |
| Combat.SpawnInterval | App.tsx:627-628 | The spawn interval lies in [2000, 4000). |
| Combat.SpawnEnemy | App.tsx:632-654 | A spawned enemy has the new id and its type, full hp, no slow or bleed, and hp and damage at least the floored base values. |
| Combat.ScaledAtLeastBase | App.tsx:633-634 | Level scaling never drops below the floored base value. |
| Combat.ScaledGrows | App.tsx:633-634 | Level-scaled hp and damage never shrink from one level to the next. |
| Combat.SpawnedAlive | App.tsx:633 | Every enemy type spawns with positive hp. |
| Combat.ExpThreshold | App.tsx:871 | The threshold `floor(100 × 1.2^(level-1))` is at least 100. |
| Combat.ThresholdGrows | App.tsx:871 | The threshold never shrinks from one level to the next. |
| Combat.LevelUp | App.tsx:868-872 | With `exp >= threshold`: one level up, the threshold paid from exp, the next threshold set, and health refilled; otherwise nothing changes. |
| Combat.OneLevelPerTick | App.tsx:868-872 | A level-up raises the level by at most 1 and keeps the threshold at least 100. |
| Offers.UnlockCard | App.tsx:885-893 | A staff's unlock card is a Special staff-unlock card with no effects naming that staff. |
| Offers.UnlockCardUnlocks | App.tsx:885-893 | The unlock card of a known staff unlocks exactly that staff. |
| Offers.UnderCapCards | App.tsx:878-881 | The available pool cards are exactly those below their stack cap. |
| Offers.EpicsOf | App.tsx:902 | The epic slot draws from exactly the Epic and Special available cards. |
| Offers.FindIndexById | App.tsx:906 | `findIndex` gives an index holding that id, or -1 when none does. |
| Offers.Remove | App.tsx:912 | `splice(i, 1)` removes exactly one entry and keeps the others. |
| Offers.AvailableCards | App.tsx:877-898 | Every available card may be offered, every uncapped pool card is available, and every staff the player may unlock has its unlock card available. |
| Offers.DrawEpic | App.tsx:902-908 | At most one Epic or Special card is drawn first and taken out of the rest; no available id is lost. |
| Offers.DrawOffer | App.tsx:910-920 | The offer draws from the available cards with distinct ids, at most the choice count rounded up (the epic drawn first may be the one card offered when the choice count is 0), short only when everything is offered, and never empty when a choice is possible. |
| Offers.LevelUpOffer | App.tsx:877-921 | A level-up offers cards the player may take, with distinct ids, at most `3 + appraisalStacks` rounded up (the epic drawn first may be the one card offered when that count is 0), and never an empty offer. |
| Offers.PoolHasUncappedCard | constants.ts:181 | The pool has a card without a stack cap. |
| Offers.CappedCardNotOfferable | App.tsx:878-881 | A card at its maxStacks is never offered. |
| Offers.EligibleUnlockKind | App.tsx:883-897 | A staff unlock enters the offer only as a Special staff-unlock card. |
| TickStages.Release | App.tsx:718-738 | Firing n projectiles appends exactly that burst. |
| TickStages.Strike | App.tsx:411-428 | A bolt costs a struck enemy the bolt damage (or the insta-kill sets hp to 0) and chills it up to the cap; a missed enemy is untouched. |
| TickStages.StrikeAll | App.tsx:411-429 | One bolt keeps the enemy list's length. |
| TickStages.StrikeAllEffect | App.tsx:411-429 | Each enemy in the list is struck or left alone by one bolt according to the geometry. |
| TickStages.Strikes | App.tsx:394-430 | The bolts keep the enemy list's length. |
| TickStages.StrikesEffect | App.tsx:394-430 | After all bolts each enemy keeps its identity and bleed, its slow stays within the cap, and its hp never rises. |
| TickStages.StrikeEach | App.tsx:411-429 | The bolt loop computes `StrikeAll`. |
| TickStages.Thundered | App.tsx:393-432 | The thunderbolt stage changes only the player's bolt time, keeps the number of enemies and only moves the cursor forward. |
| TickStages.Thunder | App.tsx:393-432 | The bolt loop computes `Thundered`: when due, the player stamps the bolt time and the enemies take `ThunderboltCount` bolts; otherwise nothing changes. |
| TickStages.Fired | App.tsx:436-495 | Firing only appends projectiles, one fresh id each, and draws at most once. |
| TickStages.Fire | App.tsx:436-495 | The firing loop computes `Fired`. When the attack delay has passed, a volley of the shot's damage is appended and the shot time is stamped; otherwise nothing changes. |
| TickStages.Refresh | App.tsx:506-532 | The per-enemy update only decays slow and ticks bleed; without bleed hp stays. |
| TickStages.RefreshAll | App.tsx:498-532 | The enemy update keeps the list's length. |
| TickStages.RefreshAllEffect | App.tsx:498-532 | Each enemy's slow never rises, and its hp stays when it does not bleed. |
| TickStages.OnFieldAndAlive | App.tsx:610 | The enemies kept are exactly those still on the field with hp > 0. |
| TickStages.OnField | App.tsx:618-622 | The projectiles kept are exactly those still within the margins. |
| TickStages.Spawn | App.tsx:625-658 | When due (below the cap, interval passed), one alive enemy of a drawn type is appended and the spawn time is stamped; otherwise nothing changes. |
| TickStages.Points | App.tsx:709 | The kills score at least 5 each. |
| TickStages.ExpGained | App.tsx:710-711 | The kills give at least 5 experience each. |
| TickStages.RewardsAppend | App.tsx:707-711 | Points and experience add up over consecutive kills. |
| TickStages.HitEnemy | App.tsx:677-698 | A hit costs the projectile's damage (or the insta-kill sets 0), applies bleed when armed, and chills within the cap. |
| TickStages.Lifesteal | App.tsx:703-705 | Lifesteal never raises hp above maxHp and does nothing without lifesteal. |
| TickStages.Impact | App.tsx:677-705 | The hit step computes `HitEnemy` and `Lifesteal`. |
| TickStages.Fall | App.tsx:716-739 | A kill appends exactly `Fragments` and advances the ids by `FragmentCount`. |
| TickStages.Pass | App.tsx:670-747 | A pass only moves the cursor forward and uses one fresh id per fragment released. |
| TickStages.PassSplits | App.tsx:672-748 | Every enemy ends the pass standing or killed: the counts add up and the ids are the same. |
| TickStages.PassKilled | App.tsx:674-713 | Every killed enemy is at hp <= 0 and is exactly what the hit (damage, bleed, cold, Freezer check) left of an enemy the projectile overlaps. |
| TickStages.PassSurvivors | App.tsx:672-746 | Every enemy the projectile misses stays exactly as it was; every other standing enemy is alive and is exactly what the hit left of an enemy the projectile overlaps. |
| TickStages.PassHealth | App.tsx:674-705 | The projectile hit something exactly when it overlaps an enemy; health never rises above the larger of its start and maxHp, and without lifesteal it does not change. |
| TickStages.PassFragments | App.tsx:707-739 | Each kill releases exactly `FragmentCount` fragments, all the player's, of durability 1 and fragment damage. |
| TickStages.ProjectilePass | App.tsx:670-748 | The enemy loop computes `Pass`. |
| TickStages.Shot | App.tsx:665-754 | After its pass a projectile flies on exactly by the durability rule, applied to "it overlaps some standing enemy". |
| TickStages.ShotAccounts | App.tsx:665-757 | A shot keeps the running account: every enemy standing or killed (by id), the killed dead, the standing old or alive, score and experience grown by exactly the new kills' rewards, health bounded. |
| TickStages.Shoot | App.tsx:665-754 | One projectile's pass with its bookkeeping computes `Shot`. |
| TickStages.Shots | App.tsx:665-755 | No more projectiles fly on than went in. |
| TickStages.ShotsAccount | App.tsx:661-758 | Over all projectiles the running account is kept, and every fragment released is the player's, of durability 1 and fragment damage. |
| TickStages.ShotsFlyOn | App.tsx:665-755 | Every enemy projectile flies on untouched and no other enemy projectile appears; every player projectile that flies on is an input player projectile after the durability rule. |
| TickStages.PlayerShots | App.tsx:661-758 | The stage computes `Shots`: the tally is the passes' and the projectiles are those flying on followed by the fragments. Enemies are split into survivors and kills; score and exp grow by exactly the kills' rewards, each kill counted once; hp stays under maxHp; enemy projectiles pass through untouched. |
| TickStages.KillsAreDistinct | App.tsx:707-748 | With distinct enemy ids, no enemy is both kept and killed and no kill is counted twice. |
| TickStages.HitDamages | App.tsx:764-794 | There is at most one hit per projectile. |
| TickStages.Unconsumed | App.tsx:764-794 | The projectiles kept are exactly the player's and the enemy shots that miss the player, and with the hits they account for every projectile. |
| TickStages.EnemyShots | App.tsx:761-795 | The enemy-shot loop applies `HitAll` to the shots that hit and keeps `Unconsumed`. |
| TickStages.ContactAll | App.tsx:798-827 | Contact never changes maxHp. |
| TickStages.DamagedStaysShielded | App.tsx:776-786 | After any damage the player is invulnerable and has no charged barrier. |
| TickStages.ContactIsHitAll | App.tsx:798-827 | Contact is `HitAll` over the touching enemies' rage-scaled damages. |
| TickStages.Contact | App.tsx:798-827 | The contact loop computes `ContactAll`, i.e. `HitAll` over the contact damages. |
| TickStages.Broken | App.tsx:829-862 | The break changes only the player's last activation time and only appends projectiles, one fresh id each. |
| TickStages.BreakBarrier | App.tsx:829-862 | The burst loop computes `Broken`. When the barrier had charges before this tick's hits, has none now, and `barrierBreakProjectileCount > 0`, the activation time is stamped and the break burst is appended; otherwise nothing changes. |
| Tick.Upkeep | App.tsx:372-390 | The upkeep keeps the build, level, health and experience. |
| Tick.Standing | App.tsx:498-611 | After the enemy update every enemy is alive and none is added. |
| Tick.Attacked | App.tsx:392-495 | Bolts then firing keep the build, level, health, experience and threshold, keep the enemy count, and only move the ids forward. |
| Tick.Attacks | App.tsx:392-495 | The attacks compute `Attacked` (`Thundered`, then `Fired`); they keep the build, level, health and experience, and the enemy count. |
| Tick.Opening | App.tsx:372-658 | The opening stages keep the player's build. |
| Tick.Offence | App.tsx:372-658 | The opening stages compute `Opening` (upkeep, `Attacked`, `Standing`, `Spawn`, `OnField`); up to spawning every enemy is alive and the count grows only up to the cap. |
| Tick.Defence | App.tsx:760-862 | The closing stages compute `Closing`: `HitAll` over the enemy shots that hit, then `HitAll` over the contacts with rage read after those hits, then `Broken` judged against the charges held before them. They keep the build, level and experience. |
| Tick.Stages | App.tsx:372-862 | The stages compute `Staged` (`Opening`, `Shots`, `Closing`), which fixes the new state, the kills and the cursor. Before the level-up: score and experience grow by exactly the kills' rewards, kills have hp <= 0, survivors are alive, and the enemy count stays within the cap. |
| Tick.Settle | App.tsx:866-922 | After the stages: the player is `LevelUp` of the staged player; time advances by 16 and nothing else but status, player and offer changes; GAME_OVER exactly when hp <= 0; CARD_SELECTION exactly on a level-up that leaves hp > 0; the offer is kept without a level-up, and on one it is offerable, distinct, non-empty and at most one card beyond `3 + appraisalStacks`. |
| Tick.Tick | App.tsx:305-926 | Outside PLAYING nothing changes. Otherwise the state is `Staged` followed by `LevelUp`; time advances by 16 and the build is kept; GAME_OVER exactly when hp <= 0. A level-up raises the level by one, pays the threshold, sets the next threshold to `ExpThreshold(level)`, refills hp and offers distinct, non-empty, offerable cards, at most one beyond `3 + appraisalStacks`; otherwise level and offer stay. |
| Reducer.Fresh | App.tsx:209-224 | A new run: PLAYING, no enemies, projectiles or offers, score and clocks at 0. |
| Reducer.Initial | App.tsx:959-973 | The mounted game is on the start screen with a player in the initial hat. |
| Reducer.Start | App.tsx:207-225 | START_GAME begins a run at level 1 in the chosen hat at full health with no stacks or ascensions. |
| Reducer.RestartHat | App.tsx:227 | Restart keeps the current hat, else the Wizard's Hat. |
| Reducer.Restart | App.tsx:226-245 | RESTART_GAME begins a run at level 1 in the same hat. |
| Reducer.RestartKeepsHat | App.tsx:226-245 | Restarting a started run gives the same fresh run. |
| Reducer.ToMenu | App.tsx:246-247 | MAIN_MENU only sets START_SCREEN. |
| Reducer.Pause | App.tsx:300-301 | PAUSE_GAME acts only from PLAYING and only sets PAUSED. |
| Reducer.Resume | App.tsx:302-303 | RESUME_GAME acts only from PAUSED: PLAYING, shot time now, spawn time 3000 ms back. |
| Reducer.PauseResume | App.tsx:300-303 | Pause then resume restores the state but for the two clocks. |
| Reducer.PauseTwice | App.tsx:300-303 | Pausing and resuming are idempotent. |
| Reducer.Count | App.tsx:258-260 | A pick adds exactly 1 to its own stack count (none for a staff unlock) and leaves every other count. |
| Reducer.Activate | App.tsx:267-268 | Activating an ascension adds its id and keeps stacks, level and hat. |
| Reducer.AscendAll | App.tsx:262-285 | The ascension pass keeps stacks, level and hat, and only adds ascensions. |
| Reducer.AscendAllActivates | App.tsx:262-268 | After the pass an ascension is active exactly when it was already active or its base card is the pick and has enough stacks. |
| Reducer.NothingDueIsIdentity | App.tsx:262-268 | When every due ascension is already active, the pass changes nothing. |
| Reducer.AscendOnce | App.tsx:262-268 | A second pass applies nothing again: an ascension fires once. |
| Reducer.AscendKeepsMaxHpPositive | App.tsx:262-268 | The ascensions keep a positive maxHp positive. |
| Reducer.Ascensions | App.tsx:262-285 | The ascension loop computes `AscendAll` over `ALL_ASCENSIONS`. |
| Reducer.Picked | App.tsx:254-285 | A pick keeps level and hat and only adds ascensions. |
| Reducer.PickedStacks | App.tsx:254-268 | Picking a card adds 1 to its stacks (none for a staff unlock) and leaves all other stacks. |
| Reducer.AscendKeepsStacks | App.tsx:262-268 | The ascension pass leaves every stack count. |
| Reducer.PickedKeepsMaxHpPositive | App.tsx:254-268 | Picking a maxHp-preserving card keeps maxHp positive. |
| Reducer.Select | App.tsx:249-299 | SELECT_CARD resumes PLAYING with no offer and changes only the player; the continue card leaves the player alone. |
| Reducer.SelectCard | App.tsx:249-299 | The selection with its ascension loop computes `Select`. |
| Reducer.HatKeepsMaxHpPositive | App.tsx:118-178 | Every hat yields a player with positive maxHp. |
| Reducer.InitialSound | App.tsx:959-973 | The mounted game satisfies the invariant. |
| Reducer.OfferableKeepsMaxHpPositive | App.tsx:877-898 | Every card a level-up may offer keeps maxHp positive. |
| Reducer.StartSound | App.tsx:207-225 | Starting in any hat gives a sound state. |
| Reducer.RestartSound | App.tsx:226-245 | Restarting keeps the state sound. |
| Reducer.SelectSound | App.tsx:249-299 | Selecting an offered card or continuing keeps the state sound. |
| Reducer.PlayTick | App.tsx:305-945 | A tick outside PLAYING changes nothing, otherwise keeps the build, ends in PLAYING, CARD_SELECTION or GAME_OVER (GAME_OVER exactly at hp <= 0), advances time by 16, and keeps the state sound. |
| Reducer.Apply | App.tsx:205-303 | Each non-tick action dispatches to its own case. |
| Reducer.ApplySound | App.tsx:205-303 | Every dispatchable non-tick action keeps the state sound. |
| Reducer.Reduce | App.tsx:205-949 | The reducer dispatches every action to its case, a tick only acts in PLAYING and sets GAME_OVER exactly at hp <= 0, and every dispatchable action keeps the state sound. |

## Left out

- Geometry and movement: aiming, walking, jumping, gravity and terrain landing (App.tsx:322-370); the enemy AI and patrol movement (App.tsx:535-609); shot spread and spawn offsets; distance and overlap tests. The spatial tests become the predicates of `Geometry`, and positions, sizes and angles are not modelled.
- The enemy shooters' own firing (it adds projectiles through the enemy-AI code). Enemy projectiles already on the field are modelled.
- Particles, their expiry filter (App.tsx:865), the card icons (App.tsx:287-296), keys, mouse, colours and visual types: cosmetic.
- `console.log` calls (App.tsx:93-98).
- The `App` component (timers, listeners, rendering) apart from the state it mounts the reducer with.
- Floating point: numbers are exact reals, so rounding, NaN (apart from the finding below) and Infinity are not modelled.
- Aliasing: the game copies the player shallowly, so `chosenCards`, `activeAscensions` and `unlockedStaffIds` are mutated in place and shared with the previous state. `GAME_TICK` goes further, in three places:
  - It takes `player` out of `{ ...state }` without copying it (App.tsx:309), so every write to `player` during the tick also changes the previous state's player: barrier charges, hp, experience, level, invulnerability, timers and position.
  - The thunderbolt loop lowers `hp` on the previous state's enemy objects (App.tsx:411-415).
  - The bleed tick writes into the `bleeding` record that the enemy copy shares with the previous state (App.tsx:518-520).
  The model builds new values, so a previous state is never changed and never sees a later pick or tick.
- `Math.random()`, `Date.now()` and `uuidv4()`. These are parameters: a stream of draws, the clock and consecutive ids. Which draws a stage consumes follows the game's branch structure. The thunderbolt target draws, the fragment angles, the spawn position draws (App.tsx:639, 640, 649) and the enemy-AI draws are not consumed, because their values only feed geometry. The model's cursor does not advance for them, so a later draw of the same tick reads a different position of the stream than the game does; each draw is still a fresh value in `[0, 1)`.
- Optional player fields are always set by `initializePlayer`, so `??` keeps the current value and `|| d` reads as "d when 0".
- The ranges documented on `critChance`, `defense` and `lifesteal` (0-1) are comments only. No code enforces them and cards can exceed them, so the model states no bound.
- Tick.Tick: requires `maxHp > 0` while PLAYING, because the rage formula divides by `maxHp * 0.5`. `Reducer.Sound` carries this invariant, and every dispatchable action is proved to keep it.
- Reducer.Reduce: requires the same `maxHp > 0` for a tick in PLAYING, for the same reason.
- Offers.DrawOffer: omits the fallback draw at App.tsx:918-920. Its condition (nothing offered, cards available, choices > 0) cannot hold after the loop, and the method's `ensures` show why.
- The effect key: types.ts:213 allows any key of the player statistics, including `level` and the boolean flags. `GameTypes.Stat` lists only the numeric statistics and `playerSize`. No card in the catalogue targets `level` or a flag.
- CardEngine.ApplyEffect: uses the intended fallback `Resolve`. For an effect on a key with no current or base value (`playerSize`), the model yields the effect's own value where the game leaves NaN; the finding below has both versions.

## Findings

| source | as written | input that shows it | evidently intended | confidence | as-written member | corrected member |
|---|---|---|---|---|---|---|
| App.tsx:70 | `typeof baseValue === 'number'` is always true because `baseValue` is `Number(...)`, so the 1/0 fallback at App.tsx:72-75 never runs and a key with no current or base value stays NaN | an effect `{ stat: 'playerSize', value: 2, mode: 'add' }` (allowed by the effect type, absent from the base statistics) | a missing value falls back to 1 for the multiply modes and 0 for add, so the effect yields its own value | not executed | CardEngine.AsWrittenAbsentKeyGivesNaN | CardEngine.AbsentKeyTakesEffectValue |
