/**
 * Client-side walks through the game manager: each drives the class the way
 * a player (or a unit test assigning the public fields) does, and the
 * assertions follow from the operations' contracts alone.
 */
module Scenarios {
  import opened Collections
  import opened Models
  import opened Levels
  import opened Economy

  /** A catalog built with the ids 0..10 for buildings and 100..108 for upgrades. */
  method NewGame() returns (g: GameManager)
    ensures fresh(g)
    ensures g.levels == AllLevels()
    ensures g.sparks == 0.0 && g.innovationPoints == 0.0 && g.currentLevel == 1
    ensures g.buildings == InitialBuildings([0, 1, 2, 3, 4, 5, 6, 7, 8, 9, 10])
    ensures g.upgrades == InitialUpgrades([100, 101, 102, 103, 104, 105, 106, 107, 108])
    ensures g.Valid()
  {
    g := new GameManager([0, 1, 2, 3, 4, 5, 6, 7, 8, 9, 10], [100, 101, 102, 103, 104, 105, 106, 107, 108]);
  }

  /** Three clicks on a fresh game yield three sparks: no click upgrade is owned yet. */
  method ThreeClicksOnFreshGame()
  {
    var g := NewGame();
    MultipliersDefaultToOne(g.upgrades, g.buildings[0]);
    g.Click();
    g.Click();
    g.Click();
    assert g.sparks == 3.0;
  }

  /** Ticking a fresh game changes nothing: no building is owned. */
  method TickWithNothingOwned()
  {
    var g := NewGame();
    IdleBuildingsProduceNothing(g.buildings);
    g.Tick();
    assert g.sparks == 0.0 && g.innovationPoints == 0.0;
  }

  /** An exact balance buys the first building, leaving nothing; the next costs 1.15 times more. */
  method BuyFirstBuildingWithExactFunds()
  {
    var g := NewGame();
    g.sparks := 10.0;
    var first := g.buildings[0];
    MultipliersDefaultToOne(g.upgrades, first);
    CostAtZero(first);
    assert BuildingIndex(g.buildings, 0) == Some(0);
    g.BuyBuilding(0);
    assert g.sparks == 0.0 && g.buildings[0].count == 1;
    CostGrowsByFactor(first);
    assert CurrentCost(g.buildings[0]) == 11.5;
  }

  /** Five sparks do not buy a building priced at ten. */
  method BuyBuildingWithInsufficientFunds()
  {
    var g := NewGame();
    g.sparks := 5.0;
    MultipliersDefaultToOne(g.upgrades, g.buildings[0]);
    CostAtZero(g.buildings[0]);
    assert BuildingIndex(g.buildings, 0) == Some(0);
    g.BuyBuilding(0);
    assert g.sparks == 5.0 && g.buildings[0].count == 0;
  }

  /** An id absent from the catalog buys nothing. */
  method BuyBuildingWithUnknownId()
  {
    var g := NewGame();
    g.sparks := 1000.0;
    var before := g.buildings;
    assert forall j :: 0 <= j < |before| ==> before[j].id <= 10;
    assert BuildingIndex(before, 99) == None;
    g.BuyBuilding(99);
    assert g.sparks == 1000.0 && g.buildings == before;
  }

  /** One unit at 5 sparks and 0.5 points per tick, with a purchased 1.5x boost. */
  method TickWithProductionBoost()
  {
    var g := NewGame();
    g.sparks, g.innovationPoints := 0.0, 0.0;
    var b := Building(7, "Test Building", "Test", 100.0, 5.0, 0.5, 1, 1);
    var u := Upgrade(8, "Production Boost", "50% production increase", 50.0, 1, true,
                     ProductionMultiplier, 1.5, None);
    g.buildings, g.upgrades := [b], [u];
    assert SparksRate([b]) == 5.0 && InnovationRate([b]) == 0.5 by {
      assert [b][1..] == [];
      assert TotalSparksPerSecond(b) == 5.0 && TotalInnovationPerSecond(b) == 0.5;
      assert SumOver([b][1..], TotalSparksPerSecond) == 0.0;
      assert SumOver([b][1..], TotalInnovationPerSecond) == 0.0;
    }
    MultiplierOverSingle(u, BoostsProduction);
    assert GlobalProductionMultiplier([u]) == 1.5;
    g.Tick();
    assert g.sparks == 7.5 && g.innovationPoints == 0.75;
  }

  /** A purchased global 0.9 reduction makes a 100-spark building cost 90. */
  method BuyBuildingWithCostReduction()
  {
    var g := NewGame();
    g.sparks := 100.0;
    var b := Building(7, "Test Building", "Test", 100.0, 5.0, 0.5, 1, 0);
    var u := Upgrade(8, "Cost Reduction", "10% cheaper buildings", 50.0, 1, true,
                     CostReduction, 0.9, None);
    g.buildings, g.upgrades := [b], [u];
    MultiplierOverSingle(u, v => ReducesCostOf(v, b));
    CostAtZero(b);
    assert BuildingIndex([b], 7) == Some(0);
    g.BuyBuilding(7);
    assert g.sparks == 10.0 && g.buildings[0].count == 1;
  }

  /**
   * Buying an upgrade is idempotent, whatever the state and the id: the
   * second call leaves points and upgrades as the first call left them,
   * reported here as `ip` and `ups`.
   */
  method BuyUpgradeTwice(g: GameManager, id: Uuid) returns (ip: real, ups: seq<Upgrade>)
    modifies g
    ensures g.innovationPoints == ip && g.upgrades == ups
    ensures match UpgradeIndex(old(g.upgrades), id)
      case None => ip == old(g.innovationPoints) && ups == old(g.upgrades)
      case Some(i) =>
        var u := old(g.upgrades)[i];
        if !u.isPurchased && old(g.innovationPoints) >= u.cost then
          ip == old(g.innovationPoints) - u.cost && ups == old(g.upgrades)[i := u.(isPurchased := true)]
        else
          ip == old(g.innovationPoints) && ups == old(g.upgrades)
    ensures g.sparks == old(g.sparks) && g.currentLevel == old(g.currentLevel)
    ensures g.buildings == old(g.buildings)
  {
    g.BuyUpgrade(id);
    ip, ups := g.innovationPoints, g.upgrades;
    UpgradeIndexByIdsOnly(old(g.upgrades), ups, id);
    g.BuyUpgrade(id);
  }

  /** Ten points buy level 2 from level 1, leaving nothing. */
  method LevelUpWithSufficientPoints()
  {
    var g := NewGame();
    g.innovationPoints := 10.0;
    var ok := g.LevelUp();
    assert ok && g.currentLevel == 2 && g.innovationPoints == 0.0;
  }

  /** Five points do not buy level 2. */
  method LevelUpWithInsufficientPoints()
  {
    var g := NewGame();
    g.innovationPoints := 5.0;
    var ok := g.LevelUp();
    assert !ok && g.currentLevel == 1 && g.innovationPoints == 5.0;
  }

  /** Level 3 costs fifty points from level 2. */
  method LevelUpFromLevelTwo()
  {
    var g := NewGame();
    g.currentLevel, g.innovationPoints := 2, 50.0;
    var ok := g.LevelUp();
    assert ok && g.currentLevel == 3 && g.innovationPoints == 0.0;
  }

  /** Sixty points climb two levels: 10 for level 2, then 50 for level 3. */
  method LevelUpTwice()
  {
    var g := NewGame();
    g.innovationPoints := 60.0;
    var ok := g.LevelUp();
    assert ok && g.currentLevel == 2 && g.innovationPoints == 50.0;
    ok := g.LevelUp();
    assert ok && g.currentLevel == 3 && g.innovationPoints == 0.0;
  }

  /** Level 10 is the last: no balance advances past it. */
  method LevelUpAtTopLevel()
  {
    var g := NewGame();
    g.currentLevel, g.innovationPoints := 10, 999999999.0;
    var ok := g.LevelUp();
    assert !ok && g.currentLevel == 10 && g.innovationPoints == 999999999.0;
  }
}
