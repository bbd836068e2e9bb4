/**
 * The saveable snapshot of a game: balances, level, the upgrade list as is,
 * and each building reduced to its id and owned count, so that building
 * definitions may change between saves.
 */
module Snapshot {
  import opened Models

  /** The instant of a save; the wall-clock reading is supplied by the caller. */
  datatype Date = Date(secondsSinceReferenceDate: real)

  /** What a save keeps of a building: which one it is and how many are owned. */
  datatype BuildingState = BuildingState(id: Uuid, count: nat)

  /** The complete saved state; the datatype constructor is the memberwise initialiser. */
  datatype GameState = GameState(
    sparks: real,
    innovationPoints: real,
    currentLevel: int,
    buildings: seq<BuildingState>,
    upgrades: seq<Upgrade>,
    lastSaved: Date)

  /** `buildings.map { BuildingState(id: $0.id, count: $0.count) }`. */
  function BuildingStates(buildings: seq<Building>): (r: seq<BuildingState>)
    ensures |r| == |buildings|
    ensures forall i :: 0 <= i < |r| ==> r[i].id == buildings[i].id && r[i].count == buildings[i].count
  {
    if |buildings| == 0 then []
    else [BuildingState(buildings[0].id, buildings[0].count)] + BuildingStates(buildings[1..])
  }

  /**
   * `GameState.from`: the scalars and the upgrade list are stored as given,
   * and the i-th saved building records the id and count of the i-th building.
   */
  function From(
    sparks: real,
    innovationPoints: real,
    currentLevel: int,
    buildings: seq<Building>,
    upgrades: seq<Upgrade>,
    lastSaved: Date): (r: GameState)
    ensures r.sparks == sparks && r.innovationPoints == innovationPoints
    ensures r.currentLevel == currentLevel && r.lastSaved == lastSaved
    ensures r.upgrades == upgrades
    ensures |r.buildings| == |buildings|
    ensures forall i :: 0 <= i < |buildings| ==>
      r.buildings[i].id == buildings[i].id && r.buildings[i].count == buildings[i].count
  {
    GameState(sparks, innovationPoints, currentLevel, BuildingStates(buildings), upgrades, lastSaved)
  }

  /**
   * Only ids and counts are saved: two building lists that agree on them,
   * whatever their names, prices and rates, give the same snapshot.
   */
  lemma {:induction false} SnapshotKeepsOnlyIdsAndCounts(
    sparks: real, innovationPoints: real, currentLevel: int,
    a: seq<Building>, b: seq<Building>, upgrades: seq<Upgrade>, lastSaved: Date)
    requires |a| == |b|
    requires forall i :: 0 <= i < |a| ==> a[i].id == b[i].id && a[i].count == b[i].count
    ensures From(sparks, innovationPoints, currentLevel, a, upgrades, lastSaved)
         == From(sparks, innovationPoints, currentLevel, b, upgrades, lastSaved)
  {
    var sa, sb := BuildingStates(a), BuildingStates(b);
    assert |sa| == |sb|;
    forall i | 0 <= i < |sa| ensures sa[i] == sb[i] {
      assert sa[i].id == sb[i].id && sa[i].count == sb[i].count;
    }
    assert sa == sb;
  }

  /**
   * The saved building list follows a purchase: after one more unit of the
   * building at `i`, exactly entry `i` of the saved list has its count raised by one.
   */
  lemma {:induction false} SnapshotAfterPurchase(buildings: seq<Building>, i: nat)
    requires i < |buildings|
    ensures BuildingStates(buildings[i := Bought(buildings[i])])
         == BuildingStates(buildings)[i := BuildingState(buildings[i].id, buildings[i].count + 1)]
  {
    var after := BuildingStates(buildings[i := Bought(buildings[i])]);
    var expected := BuildingStates(buildings)[i := BuildingState(buildings[i].id, buildings[i].count + 1)];
    assert |after| == |expected|;
    forall k | 0 <= k < |after| ensures after[k] == expected[k] {
      if k == i {
        assert after[k].id == buildings[i].id && after[k].count == buildings[i].count + 1;
      } else {
        assert after[k].id == buildings[k].id && after[k].count == buildings[k].count;
      }
    }
    assert after == expected;
  }

  /** The projection distributes over concatenation: it keeps the catalog order. */
  lemma {:induction false} BuildingStatesConcat(a: seq<Building>, b: seq<Building>)
    ensures BuildingStates(a + b) == BuildingStates(a) + BuildingStates(b)
  {
    if |a| == 0 {
      assert a + b == b;
    } else {
      assert (a + b)[1..] == a[1..] + b;
      BuildingStatesConcat(a[1..], b);
    }
  }
}
