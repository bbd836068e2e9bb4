# FireworksClicker economy, modelled in Dafny

FireworksClicker is an idle/clicker game. The player earns **sparks** by
tapping and from owned **buildings**. Buildings also yield **innovation
points**. Sparks buy more buildings, at a price that grows by a factor of
1.15 with each unit owned. Innovation points buy one-off **upgrades**: click
multipliers, production multipliers, and global or targeted cost reductions.
They also pay for advancing through a fixed chain of ten **levels**, which
unlock further catalog entries.

This project models the game-economy core:

- `Models.dfy`: the value types of `GameModels.swift`.
  - The resource and effect enumerations, with their raw-value encodings.
  - `Building`, with its cost curve and production formulas.
  - `Upgrade`.
- `Levels.dfy`: the level catalog of `LevelDefinition.swift`, and what makes it a chain.
  - Level ids run 1..N in order.
  - Unlock costs strictly increase.
- `Collections.dfy`: the three Swift sequence operations the engine is built from.
  - `firstIndex(where:)`.
  - `first(where:)`.
  - `filter`.
- `Economy.dfy`: the `GameManager` of `GameManager.swift`.
  - Its pure parts are functions over the upgrade and building lists:
    - the three multipliers;
    - the per-tick production rates;
    - the lookups by id and by level;
    - the visible ("available") catalog;
    - the starting catalog.
  - The manager itself is a `class`:
    - Its fields are the balances, the current level and the two lists.
    - Each operation is a method that updates them in place.
    - Each method's contract gives the new state in terms of the old one.
  - `Valid()` is the invariant every operation preserves:
    - balances are never negative;
    - the level is a catalog level;
    - production rates and effect values are never negative.
  - Methods do not require `Valid()`, because the source's fields are public and may be assigned freely. Each method instead promises that it keeps `Valid()` when it held before.
- `Snapshot.dfy`: the saveable `GameState` of `GameState.swift`. A saved building keeps only its id and owned count.
- `Scenarios.dfy`: client-side walks through the manager. Each one follows from the contracts alone:
  - a fresh game;
  - clicks and ticks;
  - exact-balance and insufficient purchases;
  - boosts and reductions;
  - levelling up, including the top level;
  - idempotent upgrade purchase.

Modelling conventions:

- Swift `Double` is modelled as `real`, and `pow(1.15, Double(count))` as a recursive power over the whole count.
- UUIDs are natural numbers supplied by the caller.
- Swift's `reduce` folds from the left. The model's products and sums recurse from the front instead. `MultipliersAreLeftFolds` and `RatesAreLeftFolds` prove the two agree.

Two details of the code that the model follows:

- A targeted cost reduction applies to the building whose **name** equals the upgrade's `targetBuildingName` (`GameManager.swift:68`), not to a building matched by id.
- The level catalog is `LevelDefinition.allLevels`, which the game manager holds as a constant (`GameManager.swift:12`). In the model the constant has the type `Catalog` (ids 1..N in order, unlock costs strictly increasing) and is set to `AllLevels()` when the game is created. The lookups are proved for any such catalog, not only for the ten shipped entries.

## Model

| member | source | states |
|---|---|---|
| Models.AllResourceTypes | FireworksClicker/FireworksClicker/Models/Game/GameModels.swift:3-6 | `allCases` has two distinct entries |
| Models.AllResourceTypesComplete | FireworksClicker/FireworksClicker/Models/Game/GameModels.swift:3-6 | every resource type appears in `allCases` |
| Models.ResourceFromRawValue | FireworksClicker/FireworksClicker/Models/Game/GameModels.swift:3-6 | decoding a raw value succeeds only on a case's own raw value, and fails exactly on strings that are no case's raw value |
| Models.ResourceRawValueRoundTrip | FireworksClicker/FireworksClicker/Models/Game/GameModels.swift:3-6 | decoding a resource type's raw value gives back that type |
| Models.EffectFromRawValue | FireworksClicker/FireworksClicker/Models/Game/GameModels.swift:38-42 | decoding an effect type succeeds only on a case's raw value, and fails exactly on every other string |
| Models.EffectRawValueRoundTrip | FireworksClicker/FireworksClicker/Models/Game/GameModels.swift:38-42 | decoding an effect type's raw value gives back that effect type |
| Models.Bought | FireworksClicker/FireworksClicker/ViewModels/GameManager.swift:141 | a purchase raises the owned count by one and changes no other field of the building |
| Models.CurrentCost | FireworksClicker/FireworksClicker/Models/Game/GameModels.swift:23-26 | definition: `baseCost * 1.15^count`; its properties are in CostAtZero, CostGrowsByFactor, CostNonDecreasing and CostPositive |
| Models.TotalSparksPerSecond | FireworksClicker/FireworksClicker/Models/Game/GameModels.swift:28-31 | definition: base sparks production times the count; its properties are in ProductionPerUnit |
| Models.TotalInnovationPerSecond | FireworksClicker/FireworksClicker/Models/Game/GameModels.swift:33-35 | definition: base innovation production times the count; its properties are in ProductionPerUnit |
| Models.CostAtZero | FireworksClicker/FireworksClicker/Models/Game/GameModels.swift:23-26 | with none owned, the next unit costs exactly the base cost |
| Models.CostGrowsByFactor | FireworksClicker/FireworksClicker/Models/Game/GameModels.swift:23-26 | each unit bought multiplies the next unit's price by 1.15 |
| Models.CostNonDecreasing | FireworksClicker/FireworksClicker/Models/Game/GameModels.swift:23-26 | for a non-negative base cost, the price never falls as the count grows |
| Models.CostPositive | FireworksClicker/FireworksClicker/Models/Game/GameModels.swift:23-26 | a positive base cost gives a positive price at every count |
| Models.ProductionPerUnit | FireworksClicker/FireworksClicker/Models/Game/GameModels.swift:28-35 | production is zero with none owned, and each unit adds exactly one base rate of sparks and of innovation points |
| Levels.AllLevels | FireworksClicker/FireworksClicker/Models/Game/LevelDefinition.swift:9-70 | definition: the ten catalog entries in order; its contents and shape are stated by AllLevelsWellFormed |
| Levels.AllLevelsWellFormed | FireworksClicker/FireworksClicker/Models/Game/LevelDefinition.swift:9-70 | the shipped catalog has ten levels, with ids 1..10 in order and strictly increasing unlock costs; level 1 is free, level 2 costs 10, and level 10 is "Universal Legend" |
| Levels.LevelIdsUnique | FireworksClicker/FireworksClicker/Models/Game/LevelDefinition.swift:9-70 | in a well-formed catalog, no two entries share an id |
| Levels.UnlockCostsIncreasing | FireworksClicker/FireworksClicker/Models/Game/LevelDefinition.swift:9-70 | any later level costs strictly more to unlock than any earlier one, not just the next one |
| Collections.FirstIndex | FireworksClicker/FireworksClicker/ViewModels/GameManager.swift:92 | the index found holds a matching element and no earlier element matches; the result is absent exactly when no element matches |
| Collections.First | FireworksClicker/FireworksClicker/ViewModels/GameManager.swift:25 | a result exists exactly when some element matches, and the result is the earliest match |
| Collections.Filter | FireworksClicker/FireworksClicker/ViewModels/GameManager.swift:40 | the result is never longer than the input; which elements it keeps, and in what order, is stated by FilterMembers, FilterConcat, FilterKeepsAll and FilterKeepsNone |
| Collections.FilterMembers | FireworksClicker/FireworksClicker/ViewModels/GameManager.swift:40 | the filter keeps exactly the elements that satisfy the predicate |
| Collections.FilterConcat | FireworksClicker/FireworksClicker/ViewModels/GameManager.swift:40 | filtering distributes over concatenation, so the kept elements stay in their original order |
| Collections.FilterKeepsAll | FireworksClicker/FireworksClicker/ViewModels/GameManager.swift:40 | the filter returns the whole list exactly when every element passes |
| Collections.FilterKeepsNone | FireworksClicker/FireworksClicker/ViewModels/GameManager.swift:40 | the filter returns nothing exactly when no element passes |
| Collections.FilterPrefix | FireworksClicker/FireworksClicker/ViewModels/GameManager.swift:40 | when the passing elements form a prefix, the filter returns that prefix |
| Economy.ReduceProduct | FireworksClicker/FireworksClicker/ViewModels/GameManager.swift:52 | definition: the left fold `reduce(acc) { $0 * $1.effectValue }`; related to the product by ReduceProductIsProduct |
| Economy.GlobalProductionMultiplier | FireworksClicker/FireworksClicker/ViewModels/GameManager.swift:49-53 | definition: the product of the effect values of purchased production multipliers; properties in MultipliersAreLeftFolds, MultipliersDefaultToOne, UnpurchasedUpgradeHasNoEffect, PurchaseScalesProduction and MultiplierOverPermutation |
| Economy.ClickValueMultiplier | FireworksClicker/FireworksClicker/ViewModels/GameManager.swift:55-59 | definition: the product of the effect values of purchased click multipliers; properties in MultipliersAreLeftFolds, MultipliersDefaultToOne, UnpurchasedUpgradeHasNoEffect and PurchaseScalesClicks |
| Economy.BuildingCostMultiplier | FireworksClicker/FireworksClicker/ViewModels/GameManager.swift:61-71 | definition: the product of the effect values of purchased cost reductions that are global or name the building; properties in MultipliersAreLeftFolds, TargetedReductionSparesOtherBuildings and PurchaseScalesCost |
| Economy.FinalCost | FireworksClicker/FireworksClicker/ViewModels/GameManager.swift:135-137 | definition: the current cost times the building cost multiplier; BuyBuilding debits exactly this |
| Economy.ReduceProductIsProduct | FireworksClicker/FireworksClicker/ViewModels/GameManager.swift:52 | the left fold `reduce(acc) { $0 * $1.effectValue }` equals `acc` times the product of the effect values |
| Economy.MultipliersAreLeftFolds | FireworksClicker/FireworksClicker/ViewModels/GameManager.swift:49-71 | each of the three multipliers is the filtered list left-folded from 1.0, as written in the source |
| Economy.MultiplierOverConcat | FireworksClicker/FireworksClicker/ViewModels/GameManager.swift:49-71 | the multiplier of a concatenation is the product of the two parts' multipliers |
| Economy.MultiplierOverCommutes | FireworksClicker/FireworksClicker/ViewModels/GameManager.swift:49-71 | swapping two blocks of the upgrade list changes no multiplier |
| Economy.MultiplierOverPermutation | FireworksClicker/FireworksClicker/ViewModels/GameManager.swift:49-71 | composition is order-independent: any two upgrade lists that are permutations of each other (equal as multisets) give the same multiplier |
| Economy.MultiplierOverSingle | FireworksClicker/FireworksClicker/ViewModels/GameManager.swift:49-71 | one upgrade contributes its effect value if it applies, and 1.0 otherwise |
| Economy.MultiplierOverIdentity | FireworksClicker/FireworksClicker/ViewModels/GameManager.swift:49-71 | with no applicable upgrade, the multiplier is exactly 1.0 |
| Economy.MultiplierOverReplace | FireworksClicker/FireworksClicker/ViewModels/GameManager.swift:49-71 | replacing a non-applying upgrade scales the multiplier by the replacement's contribution |
| Economy.MultiplierOverIgnores | FireworksClicker/FireworksClicker/ViewModels/GameManager.swift:49-71 | an upgrade that does not apply can be removed without changing the multiplier |
| Economy.MultiplierOverNonNegative | FireworksClicker/FireworksClicker/ViewModels/GameManager.swift:49-71 | with non-negative effect values, every multiplier is non-negative |
| Economy.MultipliersDefaultToOne | FireworksClicker/FireworksClicker/ViewModels/GameManager.swift:49-71 | for each kind: with no purchased upgrade of that kind (cost reductions that target another building do not count), the multiplier is 1.0 |
| Economy.UnpurchasedUpgradeHasNoEffect | FireworksClicker/FireworksClicker/ViewModels/GameManager.swift:49-71 | an unpurchased upgrade changes none of the three multipliers |
| Economy.TargetedReductionSparesOtherBuildings | FireworksClicker/FireworksClicker/ViewModels/GameManager.swift:61-71 | a cost reduction that targets another building's name does not change this building's cost multiplier |
| Economy.PurchaseScalesProduction | FireworksClicker/FireworksClicker/ViewModels/GameManager.swift:49-53 | buying an upgrade multiplies the production multiplier by its effect value if it is a production multiplier, and leaves it unchanged otherwise |
| Economy.PurchaseScalesClicks | FireworksClicker/FireworksClicker/ViewModels/GameManager.swift:55-59 | buying an upgrade multiplies the click multiplier by its effect value if it is a click multiplier, and leaves it unchanged otherwise |
| Economy.PurchaseScalesCost | FireworksClicker/FireworksClicker/ViewModels/GameManager.swift:61-71 | buying a global reduction, or one that targets this building, multiplies the cost multiplier by its effect value; any other purchase leaves it unchanged |
| Economy.ReduceSum | FireworksClicker/FireworksClicker/ViewModels/GameManager.swift:117-118 | definition: the left fold `reduce(acc) { $0 + f($1) }`; related to the sum by ReduceSumIsSum |
| Economy.SparksRate | FireworksClicker/FireworksClicker/ViewModels/GameManager.swift:117 | definition: the sum of every building's sparks production; properties in RatesAreLeftFolds, IdleBuildingsProduceNothing, RatesNonNegative and PurchaseRaisesRates |
| Economy.InnovationRate | FireworksClicker/FireworksClicker/ViewModels/GameManager.swift:118 | definition: the sum of every building's innovation production; properties in RatesAreLeftFolds, IdleBuildingsProduceNothing, RatesNonNegative and PurchaseRaisesRates |
| Economy.ReduceSumIsSum | FireworksClicker/FireworksClicker/ViewModels/GameManager.swift:117-118 | the left fold `reduce(acc) { $0 + f($1) }` equals `acc` plus the sum of `f` over the buildings |
| Economy.RatesAreLeftFolds | FireworksClicker/FireworksClicker/ViewModels/GameManager.swift:117-118 | the two per-tick rates are the source's left folds from 0 |
| Economy.SumOverConcat | FireworksClicker/FireworksClicker/ViewModels/GameManager.swift:117-118 | the rate over a concatenation is the sum of the parts' rates |
| Economy.SumOverReplace | FireworksClicker/FireworksClicker/ViewModels/GameManager.swift:117-118 | replacing one building changes the rate by exactly the difference of the two buildings' contributions |
| Economy.IdleBuildingsProduceNothing | FireworksClicker/FireworksClicker/ViewModels/GameManager.swift:115-124 | with no building owned, both rates are zero |
| Economy.RatesNonNegative | FireworksClicker/FireworksClicker/ViewModels/GameManager.swift:115-124 | with non-negative base production, both rates are non-negative |
| Economy.PurchaseRaisesRates | FireworksClicker/FireworksClicker/ViewModels/GameManager.swift:117-118 | one more unit of a building raises each rate by exactly that building's base production |
| Economy.BuildingIndex | FireworksClicker/FireworksClicker/ViewModels/GameManager.swift:133 | the result is the first building with the id, and it is absent exactly when no building has the id |
| Economy.UpgradeIndex | FireworksClicker/FireworksClicker/ViewModels/GameManager.swift:92 | the result is the first upgrade with the id, and it is absent exactly when no upgrade has the id |
| Economy.BuildingIndexByIdsOnly | FireworksClicker/FireworksClicker/ViewModels/GameManager.swift:133 | the lookup depends only on the ids, so a purchase does not move it |
| Economy.UpgradeIndexByIdsOnly | FireworksClicker/FireworksClicker/ViewModels/GameManager.swift:92 | the lookup depends only on the ids, so marking an upgrade purchased does not move it |
| Economy.FindLevel | FireworksClicker/FireworksClicker/ViewModels/GameManager.swift:25 | a found level is a catalog entry with the id, and the result is absent exactly when no entry has the id |
| Economy.CurrentLevelDefinition | FireworksClicker/FireworksClicker/ViewModels/GameManager.swift:24-26 | returns the entry for the current level when one exists, and the first entry otherwise |
| Economy.NextLevelDefinition | FireworksClicker/FireworksClicker/ViewModels/GameManager.swift:28-30 | definition: the catalog entry with id `currentLevel + 1`, if any; properties in NextLevelIsIndexed and TopLevelIsTerminal |
| Economy.CanLevelUp | FireworksClicker/FireworksClicker/ViewModels/GameManager.swift:32-37 | true only if a next level exists and its unlock cost is covered; false when no next level exists |
| Economy.LevelLookup | FireworksClicker/FireworksClicker/ViewModels/GameManager.swift:24-30 | in a well-formed catalog, id k is found exactly when 1 <= k <= N, at index k - 1 |
| Economy.CurrentLevelLookup | FireworksClicker/FireworksClicker/ViewModels/GameManager.swift:24-26 | in a well-formed catalog, the current definition is entry `currentLevel - 1`, with the first entry as the fallback |
| Economy.NextLevelIsIndexed | FireworksClicker/FireworksClicker/ViewModels/GameManager.swift:28-30 | in a well-formed catalog, the next level is entry `currentLevel` when that index exists, and absent otherwise |
| Economy.CanLevelUpExactly | FireworksClicker/FireworksClicker/ViewModels/GameManager.swift:32-37 | in a well-formed catalog, advancing is possible if and only if the level is below the top and the next unlock cost is covered |
| Economy.TopLevelIsTerminal | FireworksClicker/FireworksClicker/ViewModels/GameManager.swift:28-37 | level 10 has no next level, and no balance allows advancing from it |
| Economy.AvailableBuildings | FireworksClicker/FireworksClicker/ViewModels/GameManager.swift:39-41 | a building is available exactly when it is in the catalog and unlocks at or below the current level |
| Economy.AvailableUpgrades | FireworksClicker/FireworksClicker/ViewModels/GameManager.swift:43-45 | an upgrade is available exactly when it is in the catalog and unlocks at or below the current level |
| Economy.AvailablePreservesOrder | FireworksClicker/FireworksClicker/ViewModels/GameManager.swift:39-45 | the available lists keep the catalog order, because they distribute over concatenation |
| Economy.InitialBuildings | FireworksClicker/FireworksClicker/ViewModels/GameManager.swift:145-188 | the starting catalog has eleven buildings with the given ids, none owned; they unlock at levels 1, 1, 2, ..., 10, with positive prices and non-negative production |
| Economy.InitialUpgrades | FireworksClicker/FireworksClicker/ViewModels/GameManager.swift:190-301 | the starting catalog has nine upgrades with the given ids, none purchased; they unlock two per level from 1 to 4 and one at level 5, with positive costs and effect values |
| Economy.InitialBuildingsUnlockOnePerLevel | FireworksClicker/FireworksClicker/ViewModels/GameManager.swift:145-188 | at level L the visible buildings are exactly the first L + 1 of the catalog; all eleven are visible from level 10 on |
| Economy.InitialUpgradesUnlockTwoPerLevel | FireworksClicker/FireworksClicker/ViewModels/GameManager.swift:190-301 | at level L the visible upgrades are exactly the first 2L of the catalog; all nine are visible from level 5 on |
| Economy.GameManager.Valid | FireworksClicker/FireworksClicker/ViewModels/GameManager.swift:5-12 | the invariant every operation keeps: balances non-negative, the level one of the catalog's, production rates and effect values non-negative |
| Economy.GameManager.constructor | FireworksClicker/FireworksClicker/ViewModels/GameManager.swift:4-20 | a new game holds the shipped level catalog and starts with zero balances at level 1, with both starting catalogs unowned, and satisfies the invariant |
| Economy.GameManager.SetupBuildings | FireworksClicker/FireworksClicker/ViewModels/GameManager.swift:145-188 | replaces the building list with the starting catalog, changes nothing else, and keeps the invariant |
| Economy.GameManager.SetupUpgrades | FireworksClicker/FireworksClicker/ViewModels/GameManager.swift:190-301 | replaces the upgrade list with the starting catalog, changes nothing else, and keeps the invariant |
| Economy.GameManager.Click | FireworksClicker/FireworksClicker/ViewModels/GameManager.swift:126-130 | adds 1 times the click multiplier to sparks, changes nothing else, and keeps the invariant |
| Economy.GameManager.Tick | FireworksClicker/FireworksClicker/ViewModels/GameManager.swift:115-124 | adds each rate times the production multiplier to its balance, changes nothing else, and keeps the invariant |
| Economy.GameManager.BuyBuilding | FireworksClicker/FireworksClicker/ViewModels/GameManager.swift:132-143 | for a known id with funds to cover the final cost: debits that cost and raises that building's count by one. For an unknown id or too few sparks, nothing changes. Sparks never become negative, and the invariant is kept |
| Economy.GameManager.BuyUpgrade | FireworksClicker/FireworksClicker/ViewModels/GameManager.swift:91-105 | for a known, unpurchased, affordable upgrade: debits its cost and marks it purchased. Otherwise nothing changes. Points never become negative, and the invariant is kept |
| Economy.GameManager.LevelUp | FireworksClicker/FireworksClicker/ViewModels/GameManager.swift:75-87 | succeeds exactly when `CanLevelUp` holds, that is, when below the top level with the next unlock cost covered. On success it debits that cost and increments the level; on failure nothing changes. The invariant is kept |
| Snapshot.BuildingStates | FireworksClicker/FireworksClicker/Models/Game/GameState.swift:43 | the saved list has one entry per building, with the same id and count in the same position |
| Snapshot.From | FireworksClicker/FireworksClicker/Models/Game/GameState.swift:36-51 | the snapshot stores the balances, level, upgrades and save time as given, and each building's id and count in order |
| Snapshot.SnapshotKeepsOnlyIdsAndCounts | FireworksClicker/FireworksClicker/Models/Game/GameState.swift:12-17 | building lists that agree on ids and counts give equal snapshots, whatever their other fields |
| Snapshot.SnapshotAfterPurchase | FireworksClicker/FireworksClicker/Models/Game/GameState.swift:43 | after buying a unit of building i, the saved list differs only in entry i, whose count is one higher |
| Snapshot.BuildingStatesConcat | FireworksClicker/FireworksClicker/Models/Game/GameState.swift:43 | the saved list keeps catalog order, because it distributes over concatenation |
| Scenarios.NewGame | FireworksClicker/FireworksClicker/ViewModels/GameManager.swift:16-20 | a fresh manager holds the shipped level catalog and has zero balances, level 1 and the starting catalogs |
| Scenarios.BuyUpgradeTwice | FireworksClicker/FireworksClicker/ViewModels/GameManager.swift:91-105 | buying the same upgrade twice leaves the state exactly as the first purchase left it |

## Left out

- The one-second `Timer` (`startTimer`, `GameManager.swift:107-113`) and Combine's `@Published` change notifications are not modelled. `Tick` is a method that the caller invokes once per elapsed second.
- Persistence is not part of this model: `PersistenceService.swift`, the JSON `Codable` encoding, and restoring a `GameManager` from a `GameState`.
- `GameState.from` reads the wall clock through `Date()`. In `Snapshot.From`, the save time is a parameter instead.
- Audio, haptics, SwiftUI views, particle effects and design assets have no economic behaviour and are left out.
- IEEE-754 rounding is not modelled. `Double` arithmetic is exact `real` arithmetic. Because of this, the product and sum identities are exact in the model, but only approximate in the app:
  - the commutativity of multipliers;
  - the left-fold equalities;
  - rates rising by exactly one base production per unit.
- `Building.count` is a Swift `Int`, but the model uses `nat`. Assigning a negative count, and `Int` overflow at `count += 1`, are not modelled.
- `UUID()` generation is left out: the constructor takes the catalog ids as parameters. Ids are not assumed unique; every lookup takes the first match, as `firstIndex`/`first` do.
- Building names are compared code unit by code unit, as Dafny compares sequences (`ReducesCostOf`). Swift's `String ==` (`GameManager.swift:68`) compares by Unicode canonical equivalence, which is not modelled; the shipped names are plain ASCII, where the two agree.
- `Resource` (`GameModels.swift:8-11`) is plain data with no operations. It is modelled as a datatype and nothing more.
- `GameState.init` (`GameState.swift:19-33`) is the memberwise `GameState` datatype constructor. Its `Date()` default is replaced by an explicit argument.
- Economy.CurrentLevelDefinition: requires a non-empty catalog, because the source falls back to `levels[0]`, which traps on an empty list. The shipped catalog has ten entries.
- Economy.GameManager.constructor: takes exactly eleven building ids and nine upgrade ids. These stand for the UUIDs that `setupBuildings` and `setupUpgrades` draw for their fixed catalogs.
