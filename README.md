# Survival Valley: the economy, input and progression layer

Survival Valley is a 2D survival and base-defence game. Its per-frame engine tick
(`updateGame`, with `initGame`) lives in `services/engine`, which is not part of
this model. This project models the layer around that tick, from the game's
constants, its app shell and its heads-up display:

- **The data tables** (module `Constants`, file `constants.dfy`):
  - building costs and the base-upgrade cost;
  - the entity stat table and the day-cycle constants of both worlds;
  - the twelve crafting recipes.
  Each recipe effect is an `Effect` value. Its meaning is given twice: as a
  function on a `PlayerSnapshot` value, and as `ApplyEffect`, a method that
  assigns the fields of the `PlayerState` object in place, as the game does.
- **The heads-up display** (module `UIOverlay`, file `ui_overlay.dfy`):
  - building affordability and base-upgrade affordability;
  - the world-dependent build bar and the build-bar toggle;
  - the clamped health-bar width.
- **The app shell** (module `App`, file `app.dfy`). The class `Session` holds
  the app's mutable references: the live `GameState`, the joystick and keyboard
  vectors, the attack request, the last weather seen, the playing ambient
  loops, the selected building, the crafting-menu flag and the stored best
  score. Its methods are:
  - the keyboard handlers;
  - the per-frame `Loop`, which hands input to the engine tick (a function
    parameter), clears the attack request, sends the weather cues and saves
    the score;
  - `Restart`;
  - `HandleTap`, which places buildings;
  - `HandleCraft`.
  Each method is specified by pure functions. Lemmas prove the properties of
  those functions.
- **Shared types** (module `GameTypes`, file `types.dfy`): entity kinds, weather, entities,
  recipes, the player object and the game state.

Three behaviours of the game's code are modelled as written:
- Crafting charges a recipe's cost without checking that the player can pay.
  It does not clamp a resource at zero, and it does not check the tier or world
  tags (`Charged`, `HandleCraft`).
- A building recipe is charged twice: once when it is crafted and again when
  its building is placed (`BuildRecipeChargedTwice`).
- Whether the tier and world tags are enforced before crafting depends on the
  crafting menu, which is not part of this model. `Unlocked` reads the tier tag
  as an exact match and the world tag as a required world; every lemma about it
  also holds when the tier tag is read as a lower bound.

## Model

| member | source | states |
|---|---|---|
| Constants.DayCyclesWellFormed | constants.ts:6-12 | in both worlds 0 < night threshold < day length; world 2's cycle and night both come sooner |
| Constants.Cost | constants.ts:14-24 | exactly wall, turret, bot, spike, gold mine, torch, forcefield and plasma turret have a price; every price is non-zero; the two world-2 buildings cost gold |
| Constants.BaseLevel2Cost | constants.ts:26-28 | the level-2 base upgrade costs 200 wood, 100 stone and 150 gold |
| Constants.StatsOf | constants.ts:46-64 | every kind has a positive size; only projectiles lack health; only the two turrets have a range and a fire rate; only trees and rocks yield a resource; among buildable kinds only the bot moves |
| Constants.BuildableKindsHaveHealth | constants.ts:46-64 | every kind with a building cost has a positive health entry in the stat table |
| Constants.Healed | constants.ts:73-75 | after the potion hp ≤ maxHp, hp rose by at most the heal amount, it is either old hp + amount or maxHp, it never drops when hp ≤ maxHp held, and no other field changes |
| Constants.Armed | constants.ts:84-87 | a weapon step sets the tier to its own tier, adds exactly its bonus to damage, and changes nothing else |
| Constants.Sharpened | constants.ts:133 | the mining multiplier strictly increases; an unset (zero) multiplier becomes 1.2; a multiplier ≥ 1 ends ≥ 1.2; nothing else changes |
| Constants.Armoured | constants.ts:143-144 | maxHp rises by the amount, the gap maxHp − hp is preserved, hp ≤ maxHp is preserved, nothing else changes |
| Constants.Effected | constants.ts:66-146 | no recipe effect touches the resources; every effect preserves hp ≤ maxHp; only a weapon effect changes the tier, and sets it to its own tier |
| Constants.ApplyEffect | constants.ts:73-145 | the in-place assignments leave the player's snapshot equal to the effect function applied to the old snapshot |
| Constants.HealPotion | constants.ts:67-76 | heal_potion: an item costing 20 food that heals 30 |
| Constants.IronMace | constants.ts:77-88 | weapon_t1: needs tier 0, costs 50 wood and 50 stone, raises the tier to 1 and damage by 10 |
| Constants.GoldenHammer | constants.ts:89-100 | weapon_t2: needs tier 1, costs 100 wood, 100 stone and 50 gold, raises the tier to 2 and damage by 20 |
| Constants.DiamondSword | constants.ts:101-112 | weapon_t3: needs tier 2, costs 100 wood, 100 stone and 250 gold, raises the tier to 3 and damage by 30 |
| Constants.PlasmaRifle | constants.ts:113-125 | weapon_t4: needs tier 3 and world 2, costs 200 wood, 200 stone and 500 gold, raises the tier to 4 and damage by 50 |
| Constants.PickaxeUpgrade | constants.ts:126-135 | tool_pickaxe: costs 100 wood and 50 stone, sharpens the pickaxe |
| Constants.LeatherArmor | constants.ts:136-146 | armor_t1: costs 20 wood and 50 food, raises max health and health by 50 |
| Constants.SpikeTrap | constants.ts:147-154 | spike_trap: builds a spike at the spike's table cost |
| Constants.TorchRecipe | constants.ts:155-162 | torch: builds a torch at the torch's table cost |
| Constants.GoldMineRecipe | constants.ts:163-170 | gold_mine: builds a gold mine at the gold mine's table cost |
| Constants.ForcefieldRecipe | constants.ts:171-179 | forcefield: world 2 only, builds a forcefield at its table cost |
| Constants.PlasmaTurretRecipe | constants.ts:180-188 | plasma_turret: world 2 only, builds a plasma turret at its table cost |
| Constants.CraftingRecipes | constants.ts:66-188 | the twelve recipes in the table's order |
| Constants.RecipeTableShape | constants.ts:66-188 | the table holds twelve recipes with pairwise distinct ids; exactly the last five are building recipes; entries 1 to 4 are the weapon chain |
| Constants.RecipeWellFormed | constants.ts:66-188 | recipe i of the table is well formed: a building recipe has no effect, names a buildable kind and costs exactly that kind's table entry; any other recipe has an effect and builds nothing |
| Constants.RecipesWellFormed | constants.ts:147-188 | every recipe of the table is well formed in that sense |
| Constants.WorldTwoContentTagged | constants.ts:113-188 | exactly weapon_t4, forcefield and plasma_turret carry the world-2 tag, and no recipe is tagged for another world |
| Constants.WeaponTiersConsecutive | constants.ts:77-125 | each weapon recipe requires exactly the tier below the one it grants, and only the four weapon recipes carry a tier requirement |
| Constants.WeaponChainFromTierZero | constants.ts:77-125 | from tier 0 in world 2 the four weapons are each unlocked in turn, and crafting them ends at tier 4 with damage +110 and nothing else changed |
| Constants.TierGateExamples | types.ts:132-133 | weapon_t2 is locked at tier 0 and unlocked after weapon_t1; the tier-4 weapon is locked in world 1 |
| UIOverlay.CanAfford | UIOverlay.tsx:31-35 | false for a kind with no cost entry; otherwise true exactly when wood, stone and gold each cover the cost |
| UIOverlay.CanAffordMonotone | UIOverlay.tsx:34 | having at least as much of every resource keeps a building affordable |
| UIOverlay.CanAffordNeedsNoDebt | UIOverlay.tsx:34 | an affordable building implies wood, stone and gold are all non-negative |
| UIOverlay.CanAffordUpgrade | UIOverlay.tsx:37-40 | true exactly when wood ≥ 200, stone ≥ 100 and gold ≥ 150 |
| UIOverlay.BuildItems | UIOverlay.tsx:56-67 | five items (wall, spike, turret, mine, torch) outside world 2; in world 2 seven, ending with forcefield then plasma turret; every item has a cost entry |
| UIOverlay.WorldTwoBarExtendsWorldOne | UIOverlay.tsx:56-67 | the world-2 bar begins with the whole world-1 bar |
| UIOverlay.Clicked | UIOverlay.tsx:100-103 | clicking the selected item clears the selection; clicking any other item selects it |
| UIOverlay.HealthBarWidth | UIOverlay.tsx:93 | the width lies in [0, 100], equals hp inside that range, and is 0 below it and 100 above it |
| App.Pressed | App.tsx:97-101 | key-down keeps each axis in {-1, 0, 1}; w/s set a non-zero vertical axis and a/d a non-zero horizontal one, leaving the other axis; other keys change nothing |
| App.Released | App.tsx:105-111 | key-up only ever zeroes an axis; for each key the axis ends at zero exactly when it did not point the opposite way; the other axis is untouched |
| App.ReplayStaysUnit | App.tsx:95-111 | over any run of key events both axes stay in {-1, 0, 1} |
| App.PressThenRelease | App.tsx:97-110 | releasing the key just pressed zeroes that axis and keeps the other |
| App.OppositeKeySurvivesRelease | App.tsx:105-111 | holding w, pressing s and releasing w keeps moving down (a/d likewise) |
| App.ReleasingEveryKeyStops | App.tsx:105-111 | releasing all four direction keys brings the keyboard vector to (0, 0) |
| App.TickInput | App.tsx:34-41 | before the game starts input is zero and there is no attack; afterwards the keyboard vector replaces the joystick whenever it is non-zero, and the attack flag is passed through |
| App.StopCues | App.tsx:51-53 | leaving a weather stops the rain loop exactly when it is rainy (rain or storm) and the wind loop exactly when it is windy (fog, snow or storm); it never starts a loop |
| App.StartCues | App.tsx:55-57 | entering a weather starts the rain loop exactly when it is rainy (rain or storm) and the wind loop exactly when it is windy (fog, snow or storm); it never stops a loop |
| App.WeatherCues | App.tsx:49-60 | no cues while the weather is unchanged |
| App.StopCuesSilence | App.tsx:50-53 | the stop cues for the weather being left silence exactly the loops that weather plays |
| App.StartCuesFromSilence | App.tsx:55-57 | from silence the start cues play rain iff rain or storm, wind iff fog, snow or storm |
| App.CuesFollowWeather | App.tsx:49-60 | if the playing loops matched the previous weather, after the cues they match the current one |
| App.RestartSilences | App.tsx:131 | the restart's two stop cues leave the loops that clear weather calls for (none) |
| App.BestAfter | App.tsx:117-120 | the new best is at least the old best and the day, and is one of them |
| App.PlacementAllowed | App.tsx:141-142 | the tap's placement guard agrees with the build bar's affordability on the same resources |
| App.Deducted | App.tsx:157-159 | paying a price leaves food alone and never raises a resource; a solvent purse stays solvent exactly when the price is covered |
| App.AfterPlacement | App.tsx:140-162 | an unaffordable or cost-less kind leaves the purse as it was; placement never makes a solvent purse insolvent |
| App.PlacementsKeepSolvent | App.tsx:140-162 | after any run of building taps no resource is negative, none has grown, and food is unchanged |
| App.Due | App.tsx:170-173 | an absent cost component takes nothing, a present one takes its value |
| App.Charged | App.tsx:168-173 | crafting never raises a resource; a solvent purse stays solvent exactly when the recipe cost is covered |
| App.Charge | App.tsx:170-173 | the in-place subtractions leave the player as `Charged` says and change no other field |
| App.BuildRecipeChargedTwice | App.tsx:141-174 | for every building recipe, crafting then placing its building takes twice the building's table cost |
| App.Built | App.tsx:143-156 | the placed entity has the selected kind, stands at the tap, has hp = maxHp = the table's positive health, speed 0 and the table's damage or 0 |
| App.WithinReach | App.tsx:137 | a tap on the base itself is in reach |
| App.ReachIsADisc | App.tsx:137 | a tap in reach is less than 60 away along each axis; a tap within 42 along both axes is in reach |
| App.FindBase | App.tsx:136 | returns the index of the first base in the entity list, or none when there is no base |
| App.Session.constructor | App.tsx:14-29 | a new session is not started, has zero input vectors, no attack request, clear weather with silent loops, and nothing selected |
| App.Session.Start | App.tsx:122-125 | the game is started |
| App.Session.Steer | App.tsx:182 | the joystick vector becomes the reported one |
| App.Session.KeyDown | App.tsx:95-104 | ignored before the start and after game over; otherwise the keyboard vector is updated as `Pressed` says and the space bar requests an attack |
| App.Session.KeyUp | App.tsx:105-112 | the keyboard vector is updated as `Released` says, and the session invariant is kept |
| App.Session.Attack | App.tsx:211 | the attack button requests an attack and sends the shot cue |
| App.Session.SaveScore | App.tsx:117-120 | the stored best becomes the larger of itself and the day |
| App.Session.Loop | App.tsx:33-87 | the engine receives `TickInput`'s input; the game becomes the tick's result; the attack request is cleared; a step cue is sent when moving and alive, followed by the weather cues; afterwards the loops playing match the current weather; the best score is saved once the game is over |
| App.Session.Restart | App.tsx:127-132 | the game is replaced by the fresh one; the selection is cleared; both loops are stopped; the last weather seen becomes clear |
| App.Session.ToggleBuild | UIOverlay.tsx:100-103 | the selection becomes `Clicked` of the old selection |
| App.Session.HandleTap | App.tsx:134-166 | ignored before the start and after game over; near the first base it opens crafting and changes nothing else; with nothing selected it requests an attack; with a building selected and resources covering its cost it appends exactly that building, deducts exactly the cost and clears the selection; otherwise nothing changes |
| App.Session.HandleCraft | App.tsx:168-176 | every present non-zero cost component is subtracted unchecked; a building recipe then selects its building and closes the menu; any other recipe applies its effect to the player |

## Left out

- The engine tick and world creation (`updateGame`, `initGame` in `services/engine`) are not part of this model. The tick is a function parameter of `Session.Loop`, and the fresh game a parameter of `Session.Restart`. Movement, AI, combat, the day/night clock, weather timers, spawning and the respawn queue are not modelled. `RespawnTask` is only declared.
- `GameState` keeps only the entities, day count, game-over flag, weather and world. The phase, time of day, projectiles, particles, rivers, lightning and viewport belong to the engine.
- Audio is reduced to abstract `Cue` values. The playing loops are two booleans: a start cue sets one and a stop cue clears it. This assumes the audio service's start and stop are idempotent; that service is not part of this model. The random thunder roll is left out.
- Persistence: the stored best score is an integer field. Reading and parsing the stored string and writing it back are left out.
- React plumbing is left out: the interval timer, effects, event-listener registration, the UI state copy and its sync condition. React's `setSelectedBuild` and `setShowCrafting` are asynchronous; the model applies them at once, so two taps before a re-render would both see the old selection in the game but see the new one in the model. So are the markup and the menu, settings, leaderboard, toggle and badge components, and the colours.
- The crafting menu, the canvas and the joystick component are not part of this model. Any affordability, tier or world check before crafting lives in the crafting menu.
- Entity ids are a counter (`Session.nextId`) instead of random strings.
- Numbers: the mining multiplier and speeds are exact reals, so floating-point rounding and NaN are not modelled. Health and resources are unbounded integers. The tap distance `sqrt(dx² + dy²) < 60` is modelled as `dx² + dy² < 3600`, which is equivalent for real numbers.
- Keys arrive as the `Key` datatype. Lower-casing the browser's key string is not modelled.
- The empty `onBuyBot` and `onUpgradeBase` handlers and the debug weather toggle that forces rain are left out. So are the handlers that only open menus.
- Built: the entity copies neither the colour nor the other cosmetic fields of the stat row.
- PlacementAllowed: the agreement with `CanAfford` holds for the same resource values. The build bar reads the UI copy, which is refreshed when wood, food, gold or the world changes, when the game is over, or when the time of day is a multiple of 30 (App.tsx:64-70). Stone is not compared, so a change of stone alone can reach the build bar up to 29 ticks late.
- UIOverlay.CanAfford: every cost-table entry gives all three components, so the source's fallback of a missing component to 0 never applies and is not modelled.
- The build-bar icons are not modelled.
- Session.Loop: the engine tick `advance` is a total function of the old game object's identity, the input and the attack flag. It cannot read the heap, so the modelled tick can depend neither on the world's contents nor mutate the old game object; the real tick reads and updates the game state in place.
- Unlocked: the tier tag is read as an exact match. The recipe type's comment only calls it the tag for sequential upgrades, and the gate itself is applied by the crafting menu, which is not part of this model.
