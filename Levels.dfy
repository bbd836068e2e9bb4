/**
 * The fixed catalog of progression levels and what makes it a finite chain:
 * ids 1..N in order, unlock costs strictly increasing.
 */
module Levels {

  /** One level; `unlockCost` is paid in innovation points to advance into it. */
  datatype LevelDefinition = LevelDefinition(
    id: int,
    name: string,
    unlockCost: real,
    description: string)

  // The ten entries of the catalog, in order.
  const BackyardBeginner := LevelDefinition(1, "Backyard Beginner", 0.0,
    "Starting out with simple backyard fireworks")
  const NeighborhoodEnthusiast := LevelDefinition(2, "Neighborhood Enthusiast", 10.0,
    "Your shows are the talk of the block")
  const LocalExpert := LevelDefinition(3, "Local Expert", 50.0,
    "The whole town knows your name")
  const CityPyrotechnician := LevelDefinition(4, "City Pyrotechnician", 200.0,
    "Lighting up the city skyline")
  const RegionalChampion := LevelDefinition(5, "Regional Champion", 1000.0,
    "Famous across multiple states")
  const NationalStar := LevelDefinition(6, "National Star", 5000.0,
    "Your shows attract audiences from across the nation")
  const ContinentalMaster := LevelDefinition(7, "Continental Master", 25000.0,
    "Continental tours and international acclaim")
  const WorldRenowned := LevelDefinition(8, "World Renowned", 100000.0,
    "The world's premier pyrotechnics expert")
  const CosmicPioneer := LevelDefinition(9, "Cosmic Pioneer", 500000.0,
    "Taking fireworks beyond Earth's atmosphere")
  const UniversalLegend := LevelDefinition(10, "Universal Legend", 2000000.0,
    "Bending reality itself with your displays")

  /** `LevelDefinition.allLevels`. */
  function AllLevels(): seq<LevelDefinition>
  {
    [ BackyardBeginner,
      NeighborhoodEnthusiast,
      LocalExpert,
      CityPyrotechnician,
      RegionalChampion,
      NationalStar,
      ContinentalMaster,
      WorldRenowned,
      CosmicPioneer,
      UniversalLegend ]
  }

  /**
   * A usable level catalog: non-empty, the entry at index i has id i + 1, and
   * each level costs strictly more to unlock than the one before it.
   */
  ghost predicate WellFormedCatalog(levels: seq<LevelDefinition>)
  {
    && |levels| > 0
    && (forall i :: 0 <= i < |levels| ==> levels[i].id == i + 1)
    && (forall i :: 0 < i < |levels| ==> levels[i - 1].unlockCost < levels[i].unlockCost)
  }

  /** A level catalog that satisfies `WellFormedCatalog`. */
  type Catalog = levels: seq<LevelDefinition> | WellFormedCatalog(levels)
    witness [LevelDefinition(1, "", 0.0, "")]

  /** The shipped catalog: ten levels, level 1 free, level 2 at 10 points, level 10 last. */
  lemma AllLevelsWellFormed()
    ensures WellFormedCatalog(AllLevels())
    ensures |AllLevels()| == 10
    ensures AllLevels()[0].unlockCost == 0.0 && AllLevels()[1].unlockCost == 10.0
    ensures AllLevels()[9].id == 10 && AllLevels()[9].name == "Universal Legend"
  {
  }

  /** In a well-formed catalog no two entries share an id. */
  lemma LevelIdsUnique(levels: seq<LevelDefinition>, i: nat, j: nat)
    requires WellFormedCatalog(levels)
    requires i < |levels| && j < |levels| && levels[i].id == levels[j].id
    ensures i == j
  {
  }

  /** Unlock costs are strictly increasing between any two entries, not only neighbours. */
  lemma {:induction false} UnlockCostsIncreasing(levels: seq<LevelDefinition>, i: nat, j: nat)
    requires WellFormedCatalog(levels)
    requires i < j < |levels|
    ensures levels[i].unlockCost < levels[j].unlockCost
  {
    if i + 1 < j {
      UnlockCostsIncreasing(levels, i, j - 1);
    }
  }
}
