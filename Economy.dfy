/**
 * The economy engine: the queries the game manager derives from its state
 * (multipliers, production rates, level lookups, the catalog visible at the
 * current level) and the `GameManager` class whose operations update it.
 */
module Economy {
  import opened Collections
  import opened Models
  import opened Levels

  // ---------------------------------------------------------------------------
  // Upgrade multipliers
  // ---------------------------------------------------------------------------

  /** The product of the effect values, 1.0 for none. */
  function ProductOfEffects(us: seq<Upgrade>): real
  {
    if |us| == 0 then 1.0 else us[0].effectValue * ProductOfEffects(us[1..])
  }

  /** `us.reduce(acc) { $0 * $1.effectValue }`, folding from the left as Swift does. */
  function ReduceProduct(acc: real, us: seq<Upgrade>): real
    decreases |us|
  {
    if |us| == 0 then acc else ReduceProduct(acc * us[0].effectValue, us[1..])
  }

  /** The left fold from 1.0 is the product: on exact reals the fold order does not matter. */
  lemma {:induction false} ReduceProductIsProduct(acc: real, us: seq<Upgrade>)
    ensures ReduceProduct(acc, us) == acc * ProductOfEffects(us)
    decreases |us|
  {
    if |us| > 0 {
      ReduceProductIsProduct(acc * us[0].effectValue, us[1..]);
      assert ReduceProduct(acc, us) == ReduceProduct(acc * us[0].effectValue, us[1..]);
      assert (acc * us[0].effectValue) * ProductOfEffects(us[1..])
          == acc * (us[0].effectValue * ProductOfEffects(us[1..]));
    }
  }

  /** `filter(p).reduce(1.0) { $0 * $1.effectValue }`. */
  function MultiplierOver(us: seq<Upgrade>, p: Upgrade -> bool): real
  {
    ProductOfEffects(Filter(us, p))
  }

  predicate BoostsProduction(u: Upgrade)
  {
    u.isPurchased && u.effectType == ProductionMultiplier
  }

  predicate BoostsClicks(u: Upgrade)
  {
    u.isPurchased && u.effectType == ClickMultiplier
  }

  /** A purchased cost reduction that is global or names `b`; matched by name, not id. */
  predicate ReducesCostOf(u: Upgrade, b: Building)
  {
    && u.isPurchased
    && u.effectType == CostReduction
    && (u.targetBuildingName.None? || u.targetBuildingName == Some(b.name))
  }

  function GlobalProductionMultiplier(upgrades: seq<Upgrade>): real
  {
    MultiplierOver(upgrades, BoostsProduction)
  }

  function ClickValueMultiplier(upgrades: seq<Upgrade>): real
  {
    MultiplierOver(upgrades, BoostsClicks)
  }

  function BuildingCostMultiplier(upgrades: seq<Upgrade>, b: Building): real
  {
    MultiplierOver(upgrades, u => ReducesCostOf(u, b))
  }

  /** Sparks paid for the next unit of `b`: its current cost scaled by the applicable reductions. */
  function FinalCost(b: Building, upgrades: seq<Upgrade>): real
  {
    CurrentCost(b) * BuildingCostMultiplier(upgrades, b)
  }

  /** Each multiplier is exactly the source's `filter(...).reduce(1.0) { $0 * $1.effectValue }`. */
  lemma {:induction false} MultipliersAreLeftFolds(upgrades: seq<Upgrade>, b: Building)
    ensures GlobalProductionMultiplier(upgrades) == ReduceProduct(1.0, Filter(upgrades, BoostsProduction))
    ensures ClickValueMultiplier(upgrades) == ReduceProduct(1.0, Filter(upgrades, BoostsClicks))
    ensures BuildingCostMultiplier(upgrades, b)
         == ReduceProduct(1.0, Filter(upgrades, u => ReducesCostOf(u, b)))
  {
    ReduceProductIsProduct(1.0, Filter(upgrades, BoostsProduction));
    ReduceProductIsProduct(1.0, Filter(upgrades, BoostsClicks));
    ReduceProductIsProduct(1.0, Filter(upgrades, u => ReducesCostOf(u, b)));
  }

  lemma {:induction false} ProductOfEffectsConcat(a: seq<Upgrade>, b: seq<Upgrade>)
    ensures ProductOfEffects(a + b) == ProductOfEffects(a) * ProductOfEffects(b)
  {
    if |a| == 0 {
      assert a + b == b;
    } else {
      assert (a + b)[1..] == a[1..] + b;
      ProductOfEffectsConcat(a[1..], b);
    }
  }

  /** A multiplier over a concatenation is the product of the multipliers over the parts. */
  lemma {:induction false} MultiplierOverConcat(a: seq<Upgrade>, b: seq<Upgrade>, p: Upgrade -> bool)
    ensures MultiplierOver(a + b, p) == MultiplierOver(a, p) * MultiplierOver(b, p)
  {
    FilterConcat(a, b, p);
    ProductOfEffectsConcat(Filter(a, p), Filter(b, p));
  }

  /** One upgrade contributes its effect value if it applies, and the identity 1.0 otherwise. */
  lemma {:induction false} MultiplierOverSingle(u: Upgrade, p: Upgrade -> bool)
    ensures MultiplierOver([u], p) == if p(u) then u.effectValue else 1.0
  {
    assert [u][1..] == [];
    assert Filter([u], p) == if p(u) then [u] else [];
    assert ProductOfEffects([u]) == u.effectValue * ProductOfEffects([]);
  }

  /** With no applicable upgrade a multiplier is exactly 1.0. */
  lemma {:induction false} MultiplierOverIdentity(us: seq<Upgrade>, p: Upgrade -> bool)
    requires forall i :: 0 <= i < |us| ==> !p(us[i])
    ensures MultiplierOver(us, p) == 1.0
  {
    FilterKeepsNone(us, p);
  }

  /** Swapping two blocks of the upgrade list changes no multiplier. */
  lemma {:induction false} MultiplierOverCommutes(a: seq<Upgrade>, b: seq<Upgrade>, p: Upgrade -> bool)
    ensures MultiplierOver(a + b, p) == MultiplierOver(b + a, p)
  {
    MultiplierOverConcat(a, b, p);
    MultiplierOverConcat(b, a, p);
  }

  /** Moving one upgrade from the front into the middle of the list changes no multiplier. */
  lemma {:induction false} MultiplierOverMoveFront(x: Upgrade, rest: seq<Upgrade>, pre: seq<Upgrade>, post: seq<Upgrade>, p: Upgrade -> bool)
    requires MultiplierOver(rest, p) == MultiplierOver(pre + post, p)
    ensures MultiplierOver([x] + rest, p) == MultiplierOver(pre + [x] + post, p)
  {
    MultiplierOverConcat([x], rest, p);
    MultiplierOverConcat(pre, post, p);
    MultiplierOverConcat(pre, [x], p);
    MultiplierOverConcat(pre + [x], post, p);
    ProductRearranges(
      MultiplierOver([x] + rest, p), MultiplierOver(pre + [x] + post, p),
      MultiplierOver([x], p), MultiplierOver(rest, p),
      MultiplierOver(pre, p), MultiplierOver(post, p), MultiplierOver(pre + [x], p));
  }

  /** Moving one factor `x` between two others keeps a product: `x * (y * z) == (y * x) * z`. */
  lemma ProductRearranges(front: real, middle: real, x: real, r: real, y: real, z: real, yx: real)
    requires front == x * r && r == y * z
    requires middle == yx * z && yx == y * x
    ensures front == middle
  {
  }

  /** Composition is order-independent: any reordering of the upgrade list gives the same multiplier. */
  lemma {:induction false} MultiplierOverPermutation(a: seq<Upgrade>, b: seq<Upgrade>, p: Upgrade -> bool)
    requires multiset(a) == multiset(b)
    ensures MultiplierOver(a, p) == MultiplierOver(b, p)
    decreases |a|
  {
    if |a| == 0 {
      assert |b| == |multiset(b)| == 0;
    } else {
      var x := a[0];
      assert x in multiset(b);
      var j :| 0 <= j < |b| && b[j] == x;
      var pre, post := b[..j], b[j + 1..];
      assert b == pre + [x] + post;
      assert a == [x] + a[1..];
      PermutationWithout(a, b, j);
      MultiplierOverPermutation(a[1..], pre + post, p);
      MultiplierOverMoveFront(x, a[1..], pre, post, p);
    }
  }

  /** Replacing the upgrade at `i`, which did not apply, multiplies in the effect of the new one. */
  lemma {:induction false} MultiplierOverReplace(us: seq<Upgrade>, i: nat, x: Upgrade, p: Upgrade -> bool)
    requires i < |us| && !p(us[i])
    ensures MultiplierOver(us[i := x], p) == MultiplierOver(us, p) * (if p(x) then x.effectValue else 1.0)
  {
    var pre, post := us[..i], us[i + 1..];
    assert us == pre + [us[i]] + post;
    assert us[i := x] == pre + [x] + post;
    MultiplierOverConcat(pre + [us[i]], post, p);
    MultiplierOverConcat(pre, [us[i]], p);
    MultiplierOverConcat(pre + [x], post, p);
    MultiplierOverConcat(pre, [x], p);
    MultiplierOverSingle(us[i], p);
    MultiplierOverSingle(x, p);
  }

  /** Inserting an upgrade that does not apply anywhere in the catalog changes nothing. */
  lemma {:induction false} MultiplierOverIgnores(a: seq<Upgrade>, u: Upgrade, b: seq<Upgrade>, p: Upgrade -> bool)
    requires !p(u)
    ensures MultiplierOver(a + [u] + b, p) == MultiplierOver(a + b, p)
  {
    MultiplierOverConcat(a + [u], b, p);
    MultiplierOverConcat(a, [u], p);
    MultiplierOverConcat(a, b, p);
    MultiplierOverSingle(u, p);
  }

  lemma {:induction false} ProductOfEffectsNonNegative(us: seq<Upgrade>)
    requires forall i :: 0 <= i < |us| ==> us[i].effectValue >= 0.0
    ensures ProductOfEffects(us) >= 0.0
  {
    if |us| > 0 {
      ProductOfEffectsNonNegative(us[1..]);
    }
  }

  /** Non-negative effect values give a non-negative multiplier. */
  lemma {:induction false} MultiplierOverNonNegative(us: seq<Upgrade>, p: Upgrade -> bool)
    requires forall i :: 0 <= i < |us| ==> us[i].effectValue >= 0.0
    ensures MultiplierOver(us, p) >= 0.0
  {
    var f := Filter(us, p);
    FilterMembers(us, p);
    forall i | 0 <= i < |f| ensures f[i].effectValue >= 0.0 {
      assert f[i] in f;
      var j :| 0 <= j < |us| && us[j] == f[i];
    }
    ProductOfEffectsNonNegative(f);
  }

  /** All three multipliers are 1.0 when no upgrade of their kind applies. */
  lemma {:induction false} MultipliersDefaultToOne(upgrades: seq<Upgrade>, b: Building)
    ensures (forall i :: 0 <= i < |upgrades| ==> !BoostsProduction(upgrades[i]))
              ==> GlobalProductionMultiplier(upgrades) == 1.0
    ensures (forall i :: 0 <= i < |upgrades| ==> !BoostsClicks(upgrades[i]))
              ==> ClickValueMultiplier(upgrades) == 1.0
    ensures (forall i :: 0 <= i < |upgrades| ==> !ReducesCostOf(upgrades[i], b))
              ==> BuildingCostMultiplier(upgrades, b) == 1.0
  {
    if forall i :: 0 <= i < |upgrades| ==> !BoostsProduction(upgrades[i]) {
      MultiplierOverIdentity(upgrades, BoostsProduction);
    }
    if forall i :: 0 <= i < |upgrades| ==> !BoostsClicks(upgrades[i]) {
      MultiplierOverIdentity(upgrades, BoostsClicks);
    }
    if forall i :: 0 <= i < |upgrades| ==> !ReducesCostOf(upgrades[i], b) {
      MultiplierOverIdentity(upgrades, u => ReducesCostOf(u, b));
    }
  }

  /** An unpurchased upgrade, wherever it sits in the catalog, affects no multiplier. */
  lemma {:induction false} UnpurchasedUpgradeHasNoEffect(a: seq<Upgrade>, u: Upgrade, rest: seq<Upgrade>, b: Building)
    requires !u.isPurchased
    ensures GlobalProductionMultiplier(a + [u] + rest) == GlobalProductionMultiplier(a + rest)
    ensures ClickValueMultiplier(a + [u] + rest) == ClickValueMultiplier(a + rest)
    ensures BuildingCostMultiplier(a + [u] + rest, b) == BuildingCostMultiplier(a + rest, b)
  {
    MultiplierOverIgnores(a, u, rest, BoostsProduction);
    MultiplierOverIgnores(a, u, rest, BoostsClicks);
    MultiplierOverIgnores(a, u, rest, v => ReducesCostOf(v, b));
  }

  /**
   * A cost reduction aimed at another building's name leaves this building's
   * multiplier exactly as it was without it.
   */
  lemma {:induction false} TargetedReductionSparesOtherBuildings(a: seq<Upgrade>, u: Upgrade, rest: seq<Upgrade>, b: Building)
    requires u.targetBuildingName.Some? && u.targetBuildingName.value != b.name
    ensures BuildingCostMultiplier(a + [u] + rest, b) == BuildingCostMultiplier(a + rest, b)
  {
    MultiplierOverIgnores(a, u, rest, v => ReducesCostOf(v, b));
  }

  /** Marking an unpurchased production upgrade as purchased multiplies in its effect value. */
  lemma {:induction false} PurchaseScalesProduction(upgrades: seq<Upgrade>, i: nat)
    requires i < |upgrades| && !upgrades[i].isPurchased
    ensures GlobalProductionMultiplier(upgrades[i := upgrades[i].(isPurchased := true)])
         == GlobalProductionMultiplier(upgrades)
            * (if upgrades[i].effectType == ProductionMultiplier then upgrades[i].effectValue else 1.0)
  {
    MultiplierOverReplace(upgrades, i, upgrades[i].(isPurchased := true), BoostsProduction);
  }

  /** Marking an unpurchased click upgrade as purchased multiplies in its effect value. */
  lemma {:induction false} PurchaseScalesClicks(upgrades: seq<Upgrade>, i: nat)
    requires i < |upgrades| && !upgrades[i].isPurchased
    ensures ClickValueMultiplier(upgrades[i := upgrades[i].(isPurchased := true)])
         == ClickValueMultiplier(upgrades)
            * (if upgrades[i].effectType == ClickMultiplier then upgrades[i].effectValue else 1.0)
  {
    MultiplierOverReplace(upgrades, i, upgrades[i].(isPurchased := true), BoostsClicks);
  }

  /**
   * Marking an unpurchased cost reduction as purchased multiplies in its
   * effect value for exactly the buildings it targets (all of them when global).
   */
  lemma {:induction false} PurchaseScalesCost(upgrades: seq<Upgrade>, i: nat, b: Building)
    requires i < |upgrades| && !upgrades[i].isPurchased
    ensures var u := upgrades[i];
      BuildingCostMultiplier(upgrades[i := u.(isPurchased := true)], b)
         == BuildingCostMultiplier(upgrades, b)
            * (if u.effectType == CostReduction && (u.targetBuildingName.None? || u.targetBuildingName == Some(b.name))
               then u.effectValue else 1.0)
  {
    MultiplierOverReplace(upgrades, i, upgrades[i].(isPurchased := true), v => ReducesCostOf(v, b));
  }

  // ---------------------------------------------------------------------------
  // Production rates
  // ---------------------------------------------------------------------------

  /** The sum of the per-building amounts, 0 for none. */
  function SumOver(bs: seq<Building>, f: Building -> real): real
  {
    if |bs| == 0 then 0.0 else f(bs[0]) + SumOver(bs[1..], f)
  }

  /** `bs.reduce(acc) { $0 + f($1) }`, folding from the left as Swift does. */
  function ReduceSum(acc: real, bs: seq<Building>, f: Building -> real): real
    decreases |bs|
  {
    if |bs| == 0 then acc else ReduceSum(acc + f(bs[0]), bs[1..], f)
  }

  /** The left fold from 0 is the sum: on exact reals the fold order does not matter. */
  lemma {:induction false} ReduceSumIsSum(acc: real, bs: seq<Building>, f: Building -> real)
    ensures ReduceSum(acc, bs, f) == acc + SumOver(bs, f)
    decreases |bs|
  {
    if |bs| > 0 {
      ReduceSumIsSum(acc + f(bs[0]), bs[1..], f);
    }
  }

  /** Sparks produced per tick by every building, before multipliers. */
  function SparksRate(buildings: seq<Building>): real
  {
    SumOver(buildings, TotalSparksPerSecond)
  }

  /** Innovation points produced per tick by every building, before multipliers. */
  function InnovationRate(buildings: seq<Building>): real
  {
    SumOver(buildings, TotalInnovationPerSecond)
  }

  /** Both rates are exactly the source's `buildings.reduce(0) { $0 + ... }`. */
  lemma {:induction false} RatesAreLeftFolds(buildings: seq<Building>)
    ensures SparksRate(buildings) == ReduceSum(0.0, buildings, TotalSparksPerSecond)
    ensures InnovationRate(buildings) == ReduceSum(0.0, buildings, TotalInnovationPerSecond)
  {
    ReduceSumIsSum(0.0, buildings, TotalSparksPerSecond);
    ReduceSumIsSum(0.0, buildings, TotalInnovationPerSecond);
  }

  lemma {:induction false} SumOverConcat(a: seq<Building>, b: seq<Building>, f: Building -> real)
    ensures SumOver(a + b, f) == SumOver(a, f) + SumOver(b, f)
  {
    if |a| == 0 {
      assert a + b == b;
    } else {
      assert (a + b)[1..] == a[1..] + b;
      SumOverConcat(a[1..], b, f);
    }
  }

  /** Replacing one building changes the sum by exactly the difference at that building. */
  lemma {:induction false} SumOverReplace(bs: seq<Building>, i: nat, x: Building, f: Building -> real)
    requires i < |bs|
    ensures SumOver(bs[i := x], f) == SumOver(bs, f) - f(bs[i]) + f(x)
  {
    var pre, post := bs[..i], bs[i + 1..];
    assert bs == pre + [bs[i]] + post;
    assert bs[i := x] == pre + [x] + post;
    SumOverConcat(pre + [bs[i]], post, f);
    SumOverConcat(pre, [bs[i]], f);
    SumOverConcat(pre + [x], post, f);
    SumOverConcat(pre, [x], f);
    assert [bs[i]][1..] == [] && [x][1..] == [];
  }

  lemma {:induction false} SumOverBounds(bs: seq<Building>, f: Building -> real)
    ensures (forall i :: 0 <= i < |bs| ==> f(bs[i]) >= 0.0) ==> SumOver(bs, f) >= 0.0
    ensures (forall i :: 0 <= i < |bs| ==> f(bs[i]) == 0.0) ==> SumOver(bs, f) == 0.0
  {
    if |bs| > 0 {
      SumOverBounds(bs[1..], f);
    }
  }

  /** With nothing owned no building produces anything. */
  lemma {:induction false} IdleBuildingsProduceNothing(buildings: seq<Building>)
    requires forall i :: 0 <= i < |buildings| ==> buildings[i].count == 0
    ensures SparksRate(buildings) == 0.0 && InnovationRate(buildings) == 0.0
  {
    SumOverBounds(buildings, TotalSparksPerSecond);
    SumOverBounds(buildings, TotalInnovationPerSecond);
  }

  /** Non-negative base production gives non-negative rates. */
  lemma {:induction false} RatesNonNegative(buildings: seq<Building>)
    requires forall i :: 0 <= i < |buildings| ==>
      buildings[i].baseSparksProduction >= 0.0 && buildings[i].baseInnovationProduction >= 0.0
    ensures SparksRate(buildings) >= 0.0 && InnovationRate(buildings) >= 0.0
  {
    SumOverBounds(buildings, TotalSparksPerSecond);
    SumOverBounds(buildings, TotalInnovationPerSecond);
  }

  /** One more unit of building `i` adds exactly its base production to each rate. */
  lemma {:induction false} PurchaseRaisesRates(buildings: seq<Building>, i: nat)
    requires i < |buildings|
    ensures SparksRate(buildings[i := Bought(buildings[i])])
              == SparksRate(buildings) + buildings[i].baseSparksProduction
    ensures InnovationRate(buildings[i := Bought(buildings[i])])
              == InnovationRate(buildings) + buildings[i].baseInnovationProduction
  {
    SumOverReplace(buildings, i, Bought(buildings[i]), TotalSparksPerSecond);
    SumOverReplace(buildings, i, Bought(buildings[i]), TotalInnovationPerSecond);
    ProductionPerUnit(buildings[i]);
  }

  // ---------------------------------------------------------------------------
  // Catalog lookups and the progression gate
  // ---------------------------------------------------------------------------

  /** `buildings.firstIndex(where: { $0.id == id })`. */
  function BuildingIndex(buildings: seq<Building>, id: Uuid): (r: Option<nat>)
    ensures r.Some? ==> r.value < |buildings| && buildings[r.value].id == id
    ensures r.Some? ==> forall j :: 0 <= j < r.value ==> buildings[j].id != id
    ensures r.None? <==> forall j :: 0 <= j < |buildings| ==> buildings[j].id != id
  {
    FirstIndex(buildings, (b: Building) => b.id == id)
  }

  /** `upgrades.firstIndex(where: { $0.id == id })`. */
  function UpgradeIndex(upgrades: seq<Upgrade>, id: Uuid): (r: Option<nat>)
    ensures r.Some? ==> r.value < |upgrades| && upgrades[r.value].id == id
    ensures r.Some? ==> forall j :: 0 <= j < r.value ==> upgrades[j].id != id
    ensures r.None? <==> forall j :: 0 <= j < |upgrades| ==> upgrades[j].id != id
  {
    FirstIndex(upgrades, (u: Upgrade) => u.id == id)
  }

  /** A lookup by id sees only the ids: lists with the same ids in the same places give the same index. */
  lemma {:induction false} BuildingIndexByIdsOnly(a: seq<Building>, b: seq<Building>, id: Uuid)
    requires |a| == |b| && forall i :: 0 <= i < |a| ==> a[i].id == b[i].id
    ensures BuildingIndex(a, id) == BuildingIndex(b, id)
  {
  }

  /** A lookup by id sees only the ids: lists with the same ids in the same places give the same index. */
  lemma {:induction false} UpgradeIndexByIdsOnly(a: seq<Upgrade>, b: seq<Upgrade>, id: Uuid)
    requires |a| == |b| && forall i :: 0 <= i < |a| ==> a[i].id == b[i].id
    ensures UpgradeIndex(a, id) == UpgradeIndex(b, id)
  {
  }

  /** `levels.first { $0.id == id }`. */
  function FindLevel(levels: seq<LevelDefinition>, id: int): (r: Option<LevelDefinition>)
    ensures r.Some? ==> r.value in levels && r.value.id == id
    ensures r.None? <==> forall j :: 0 <= j < |levels| ==> levels[j].id != id
  {
    First(levels, (l: LevelDefinition) => l.id == id)
  }

  /** The definition of the current level, or the first level when none matches. */
  function CurrentLevelDefinition(levels: seq<LevelDefinition>, currentLevel: int): (r: LevelDefinition)
    requires |levels| > 0
    ensures r in levels
    ensures (exists j :: 0 <= j < |levels| && levels[j].id == currentLevel) ==> r.id == currentLevel
    ensures (forall j :: 0 <= j < |levels| ==> levels[j].id != currentLevel) ==> r == levels[0]
  {
    match FindLevel(levels, currentLevel)
    case Some(l) => l
    case None => levels[0]
  }

  /** The level one above the current one, absent at the top of the catalog. */
  function NextLevelDefinition(levels: seq<LevelDefinition>, currentLevel: int): Option<LevelDefinition>
  {
    FindLevel(levels, currentLevel + 1)
  }

  /** A next level exists and its unlock cost is covered. */
  function CanLevelUp(levels: seq<LevelDefinition>, currentLevel: int, innovationPoints: real): (r: bool)
    ensures r ==> exists j :: 0 <= j < |levels| && levels[j].id == currentLevel + 1
                               && innovationPoints >= levels[j].unlockCost
    ensures (forall j :: 0 <= j < |levels| ==> levels[j].id != currentLevel + 1) ==> !r
  {
    match NextLevelDefinition(levels, currentLevel)
    case None => false
    case Some(next) => innovationPoints >= next.unlockCost
  }

  /** In a well-formed catalog, looking up id k finds exactly the entry at index k - 1. */
  lemma {:induction false} LevelLookup(levels: seq<LevelDefinition>, k: int)
    requires WellFormedCatalog(levels)
    ensures FindLevel(levels, k).Some? <==> 1 <= k <= |levels|
    ensures 1 <= k <= |levels| ==> FindLevel(levels, k) == Some(levels[k - 1])
  {
    if 1 <= k <= |levels| {
      assert levels[k - 1].id == k;
      var l := FindLevel(levels, k).value;
      var j :| 0 <= j < |levels| && levels[j] == l;
    }
  }

  /** The current level resolves to its own entry whenever it is a level of the catalog. */
  lemma {:induction false} CurrentLevelLookup(levels: seq<LevelDefinition>, currentLevel: int)
    requires WellFormedCatalog(levels)
    ensures CurrentLevelDefinition(levels, currentLevel)
              == if 1 <= currentLevel <= |levels| then levels[currentLevel - 1] else levels[0]
  {
    LevelLookup(levels, currentLevel);
  }

  /**
   * In a well-formed catalog, advancing is possible exactly when the current
   * level is below the last one and the next entry's unlock cost is covered.
   */
  lemma {:induction false} CanLevelUpExactly(levels: seq<LevelDefinition>, currentLevel: int, innovationPoints: real)
    requires WellFormedCatalog(levels)
    ensures CanLevelUp(levels, currentLevel, innovationPoints)
        <==> (0 <= currentLevel < |levels| && innovationPoints >= levels[currentLevel].unlockCost)
  {
    LevelLookup(levels, currentLevel + 1);
  }

  /** In a well-formed catalog the level after `currentLevel` is the entry at index `currentLevel`. */
  lemma {:induction false} NextLevelIsIndexed(levels: seq<LevelDefinition>, currentLevel: int)
    requires WellFormedCatalog(levels)
    ensures NextLevelDefinition(levels, currentLevel)
              == if 0 <= currentLevel < |levels| then Some(levels[currentLevel]) else None
  {
    LevelLookup(levels, currentLevel + 1);
  }

  /** Level 10 is terminal: no balance, however large, allows advancing from it. */
  lemma {:induction false} TopLevelIsTerminal(innovationPoints: real)
    ensures NextLevelDefinition(AllLevels(), 10).None?
    ensures !CanLevelUp(AllLevels(), 10, innovationPoints)
  {
    AllLevelsWellFormed();
    LevelLookup(AllLevels(), 11);
  }

  /** `buildings.filter { $0.unlockLevel <= currentLevel }`. */
  function AvailableBuildings(buildings: seq<Building>, currentLevel: int): (r: seq<Building>)
    ensures forall b :: b in r <==> b in buildings && b.unlockLevel <= currentLevel
  {
    FilterMembers(buildings, (b: Building) => b.unlockLevel <= currentLevel);
    Filter(buildings, (b: Building) => b.unlockLevel <= currentLevel)
  }

  /** `upgrades.filter { $0.unlockLevel <= currentLevel }`. */
  function AvailableUpgrades(upgrades: seq<Upgrade>, currentLevel: int): (r: seq<Upgrade>)
    ensures forall u :: u in r <==> u in upgrades && u.unlockLevel <= currentLevel
  {
    FilterMembers(upgrades, (u: Upgrade) => u.unlockLevel <= currentLevel);
    Filter(upgrades, (u: Upgrade) => u.unlockLevel <= currentLevel)
  }

  /** The visible catalog keeps catalog order: it distributes over concatenation. */
  lemma {:induction false} AvailablePreservesOrder(a: seq<Building>, b: seq<Building>, ua: seq<Upgrade>, ub: seq<Upgrade>, level: int)
    ensures AvailableBuildings(a + b, level) == AvailableBuildings(a, level) + AvailableBuildings(b, level)
    ensures AvailableUpgrades(ua + ub, level) == AvailableUpgrades(ua, level) + AvailableUpgrades(ub, level)
  {
    FilterConcat(a, b, (x: Building) => x.unlockLevel <= level);
    FilterConcat(ua, ub, (x: Upgrade) => x.unlockLevel <= level);
  }

  // ---------------------------------------------------------------------------
  // The starting catalog
  // ---------------------------------------------------------------------------

  /** `setupBuildings`: the eleven producers, one unlocking per level after the first two. */
  function InitialBuildings(ids: seq<Uuid>): (r: seq<Building>)
    requires |ids| == 11
    ensures |r| == 11
    ensures forall i :: 0 <= i < 11 ==>
      && r[i].id == ids[i] && r[i].count == 0
      && r[i].unlockLevel == (if i == 0 then 1 else i)
      && r[i].baseCost > 0.0
      && r[i].baseSparksProduction >= 0.0 && r[i].baseInnovationProduction >= 0.0
  {
    [ Building(ids[0], "Backyard Amateur", "Just you and a lighter.", 10.0, 1.0, 0.0, 1, 0),
      Building(ids[1], "Firecracker Bundle", "Cheap and loud.", 50.0, 2.0, 0.1, 1, 0),
      Building(ids[2], "Roman Candle Battery", "Permit required.", 100.0, 5.0, 0.5, 2, 0),
      Building(ids[3], "Mortar Tube", "Professional setup.", 500.0, 25.0, 2.0, 3, 0),
      Building(ids[4], "Aerial Shell Rack", "Standard fireworks show.", 2500.0, 100.0, 5.0, 4, 0),
      Building(ids[5], "Computerized Sequencer", "Perfect timing.", 10000.0, 500.0, 15.0, 5, 0),
      Building(ids[6], "Drone Swarm", "Sky painters.", 50000.0, 2500.0, 40.0, 6, 0),
      Building(ids[7], "High-Altitude Balloon", "Stratospheric booming.", 250000.0, 12000.0, 100.0, 7, 0),
      Building(ids[8], "Moon Base Launcher", "Low gravity, big boom.", 1000000.0, 60000.0, 250.0, 8, 0),
      Building(ids[9], "Orbital Cannon", "Space lasers... essentially.", 5000000.0, 300000.0, 700.0, 9, 0),
      Building(ids[10], "Reality Rift", "Breaking physics.", 25000000.0, 1000000.0, 2000.0, 10, 0) ]
  }

  /** `setupUpgrades`: nine upgrades, two per level for levels 1 to 4 and one at level 5. */
  function InitialUpgrades(ids: seq<Uuid>): (r: seq<Upgrade>)
    requires |ids| == 9
    ensures |r| == 9
    ensures forall i :: 0 <= i < 9 ==>
      && r[i].id == ids[i] && !r[i].isPurchased
      && r[i].unlockLevel == i / 2 + 1
      && r[i].cost > 0.0 && r[i].effectValue > 0.0
  {
    [ Upgrade(ids[0], "Click Power", "Doubles the value of each click",
              10.0, 1, false, ClickMultiplier, 2.0, None),
      Upgrade(ids[1], "Efficient Sparks", "Reduces building costs by 10%",
              50.0, 1, false, CostReduction, 0.9, None),
      Upgrade(ids[2], "Spark Surge", "Increases production by 25%",
              100.0, 2, false, ProductionMultiplier, 1.25, None),
      Upgrade(ids[3], "Firecracker Efficiency", "Reduces Firecracker Bundle cost by 10%",
              75.0, 2, false, CostReduction, 0.9, Some("Firecracker Bundle")),
      Upgrade(ids[4], "Super Click", "Triples the value of each click",
              200.0, 3, false, ClickMultiplier, 3.0, None),
      Upgrade(ids[5], "Production Boost", "Increases production by 50%",
              300.0, 3, false, ProductionMultiplier, 1.5, None),
      Upgrade(ids[6], "Advanced Efficiency", "Reduces all building costs by 15%",
              500.0, 4, false, CostReduction, 0.85, None),
      Upgrade(ids[7], "Mega Production", "Doubles all production",
              750.0, 4, false, ProductionMultiplier, 2.0, None),
      Upgrade(ids[8], "Ultimate Click", "Multiplies click value by 5",
              1000.0, 5, false, ClickMultiplier, 5.0, None) ]
  }

  /**
   * At level L (1..10) the starting catalog shows its first L + 1 buildings:
   * two at level 1 and one more per level after that.
   */
  lemma {:induction false} InitialBuildingsUnlockOnePerLevel(ids: seq<Uuid>, level: int)
    requires |ids| == 11
    ensures var k := if level < 1 then 0 else if level >= 10 then 11 else level + 1;
      AvailableBuildings(InitialBuildings(ids), level) == InitialBuildings(ids)[..k]
  {
    var k := if level < 1 then 0 else if level >= 10 then 11 else level + 1;
    FilterPrefix(InitialBuildings(ids), (b: Building) => b.unlockLevel <= level, k);
  }

  /** At level L the starting catalog shows its first 2L upgrades, all nine from level 5 on. */
  lemma {:induction false} InitialUpgradesUnlockTwoPerLevel(ids: seq<Uuid>, level: int)
    requires |ids| == 9
    ensures var k := if level < 1 then 0 else if level >= 5 then 9 else 2 * level;
      AvailableUpgrades(InitialUpgrades(ids), level) == InitialUpgrades(ids)[..k]
  {
    var k := if level < 1 then 0 else if level >= 5 then 9 else 2 * level;
    FilterPrefix(InitialUpgrades(ids), (u: Upgrade) => u.unlockLevel <= level, k);
  }

  // ---------------------------------------------------------------------------
  // The game manager
  // ---------------------------------------------------------------------------

  /** The player's mutable state and the operations that change it. */
  class GameManager {
    var sparks: real
    var innovationPoints: real
    var currentLevel: int
    var buildings: seq<Building>
    var upgrades: seq<Upgrade>
    /** `LevelDefinition.allLevels`, stored when the game is created. */
    const levels: Catalog

    /**
     * The state every operation preserves: balances never negative, the level
     * a level of the catalog, production and effect values never negative.
     */
    ghost predicate Valid()
      reads this
    {
      && sparks >= 0.0 && innovationPoints >= 0.0
      && 1 <= currentLevel <= |levels|
      && (forall i :: 0 <= i < |buildings| ==>
            buildings[i].baseSparksProduction >= 0.0 && buildings[i].baseInnovationProduction >= 0.0)
      && (forall i :: 0 <= i < |upgrades| ==> upgrades[i].effectValue >= 0.0)
    }

    /** A fresh game; the ids stand for the UUIDs drawn for the catalog entries. */
    constructor (buildingIds: seq<Uuid>, upgradeIds: seq<Uuid>)
      requires |buildingIds| == 11 && |upgradeIds| == 9
      ensures levels == AllLevels()
      ensures sparks == 0.0 && innovationPoints == 0.0 && currentLevel == 1
      ensures buildings == InitialBuildings(buildingIds) && upgrades == InitialUpgrades(upgradeIds)
      ensures |buildings| == 11 && forall i :: 0 <= i < |buildings| ==> buildings[i].count == 0
      ensures forall i :: 0 <= i < |upgrades| ==> !upgrades[i].isPurchased
      ensures Valid()
    {
      sparks := 0.0;
      innovationPoints := 0.0;
      currentLevel := 1;
      buildings := [];
      upgrades := [];
      AllLevelsWellFormed();
      levels := AllLevels();
      new;
      SetupBuildings(buildingIds);
      SetupUpgrades(upgradeIds);
    }

    method SetupBuildings(ids: seq<Uuid>)
      requires |ids| == 11
      modifies this
      ensures buildings == InitialBuildings(ids)
      ensures sparks == old(sparks) && innovationPoints == old(innovationPoints)
      ensures currentLevel == old(currentLevel) && upgrades == old(upgrades)
      ensures old(Valid()) ==> Valid()
    {
      buildings := InitialBuildings(ids);
    }

    method SetupUpgrades(ids: seq<Uuid>)
      requires |ids| == 9
      modifies this
      ensures upgrades == InitialUpgrades(ids)
      ensures sparks == old(sparks) && innovationPoints == old(innovationPoints)
      ensures currentLevel == old(currentLevel) && buildings == old(buildings)
      ensures old(Valid()) ==> Valid()
    {
      upgrades := InitialUpgrades(ids);
    }

    /** One tap: one spark, scaled by the click multiplier. */
    method Click()
      modifies this
      ensures sparks == old(sparks) + 1.0 * ClickValueMultiplier(old(upgrades))
      ensures innovationPoints == old(innovationPoints) && currentLevel == old(currentLevel)
      ensures buildings == old(buildings) && upgrades == old(upgrades)
      ensures old(Valid()) ==> Valid()
    {
      var baseClickValue := 1.0;
      if Valid() {
        MultiplierOverNonNegative(upgrades, BoostsClicks);
      }
      sparks := sparks + baseClickValue * ClickValueMultiplier(upgrades);
    }

    /** One unit of time: every building's production, scaled by the production multiplier. */
    method Tick()
      modifies this
      ensures sparks == old(sparks) + SparksRate(old(buildings)) * GlobalProductionMultiplier(old(upgrades))
      ensures innovationPoints
                == old(innovationPoints) + InnovationRate(old(buildings)) * GlobalProductionMultiplier(old(upgrades))
      ensures currentLevel == old(currentLevel)
      ensures buildings == old(buildings) && upgrades == old(upgrades)
      ensures old(Valid()) ==> Valid()
    {
      var baseSparksGen := SparksRate(buildings);
      var baseInnovationGen := InnovationRate(buildings);
      var multiplier := GlobalProductionMultiplier(upgrades);
      if Valid() {
        RatesNonNegative(buildings);
        MultiplierOverNonNegative(upgrades, BoostsProduction);
      }
      sparks := sparks + baseSparksGen * multiplier;
      innovationPoints := innovationPoints + baseInnovationGen * multiplier;
    }

    /**
     * Buys one unit of the first building with this id if its final cost is
     * covered; otherwise, or for an unknown id, nothing changes.
     */
    method BuyBuilding(buildingId: Uuid)
      modifies this
      ensures innovationPoints == old(innovationPoints) && currentLevel == old(currentLevel)
      ensures upgrades == old(upgrades)
      ensures match BuildingIndex(old(buildings), buildingId)
        case None => sparks == old(sparks) && buildings == old(buildings)
        case Some(i) =>
          var price := FinalCost(old(buildings)[i], old(upgrades));
          if old(sparks) >= price then
            && sparks == old(sparks) - price
            && buildings == old(buildings)[i := Bought(old(buildings)[i])]
          else
            sparks == old(sparks) && buildings == old(buildings)
      ensures sparks >= 0.0 || sparks == old(sparks)
      ensures old(Valid()) ==> Valid()
    {
      var index := BuildingIndex(buildings, buildingId);
      if index.None? {
        return;
      }
      var building := buildings[index.value];
      var baseCost := CurrentCost(building);
      var costMultiplier := BuildingCostMultiplier(upgrades, building);
      var finalCost := baseCost * costMultiplier;
      if sparks >= finalCost {
        sparks := sparks - finalCost;
        buildings := buildings[index.value := Bought(building)];
      }
    }

    /**
     * Buys the first upgrade with this id if it is not yet purchased and its
     * cost is covered; otherwise, or for an unknown id, nothing changes.
     */
    method BuyUpgrade(upgradeId: Uuid)
      modifies this
      ensures sparks == old(sparks) && currentLevel == old(currentLevel)
      ensures buildings == old(buildings)
      ensures match UpgradeIndex(old(upgrades), upgradeId)
        case None => innovationPoints == old(innovationPoints) && upgrades == old(upgrades)
        case Some(i) =>
          var u := old(upgrades)[i];
          if !u.isPurchased && old(innovationPoints) >= u.cost then
            && innovationPoints == old(innovationPoints) - u.cost
            && upgrades == old(upgrades)[i := u.(isPurchased := true)]
          else
            innovationPoints == old(innovationPoints) && upgrades == old(upgrades)
      ensures innovationPoints >= 0.0 || innovationPoints == old(innovationPoints)
      ensures old(Valid()) ==> Valid()
    {
      var index := UpgradeIndex(upgrades, upgradeId);
      if index.None? {
        return;
      }
      var upgrade := upgrades[index.value];
      if upgrade.isPurchased {
        return;
      }
      if innovationPoints < upgrade.cost {
        return;
      }
      innovationPoints := innovationPoints - upgrade.cost;
      upgrades := upgrades[index.value := upgrade.(isPurchased := true)];
    }

    /**
     * Advances one level, paying the next level's unlock cost, when a next
     * level exists and is affordable; reports whether it did.
     */
    method LevelUp() returns (ok: bool)
      modifies this
      ensures ok == CanLevelUp(levels, old(currentLevel), old(innovationPoints))
      ensures ok <==> (0 <= old(currentLevel) < |levels|
                       && old(innovationPoints) >= levels[old(currentLevel)].unlockCost)
      ensures ok ==> && currentLevel == old(currentLevel) + 1
                     && innovationPoints == old(innovationPoints) - levels[old(currentLevel)].unlockCost
                     && innovationPoints >= 0.0
      ensures !ok ==> currentLevel == old(currentLevel) && innovationPoints == old(innovationPoints)
      ensures sparks == old(sparks) && buildings == old(buildings) && upgrades == old(upgrades)
      ensures old(Valid()) ==> Valid()
    {
      var nextLevel := NextLevelDefinition(levels, currentLevel);
      NextLevelIsIndexed(levels, currentLevel);
      if nextLevel.None? {
        return false;
      }
      if innovationPoints < nextLevel.value.unlockCost {
        return false;
      }
      innovationPoints := innovationPoints - nextLevel.value.unlockCost;
      currentLevel := currentLevel + 1;
      return true;
    }
  }
}
