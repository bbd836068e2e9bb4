/**
 * Value types of the game: resources, buildings and upgrades, with the
 * per-building cost and production formulas.
 */
module Models {
  import opened Collections

  /** Catalog entries are identified by UUIDs; any comparable token will do. */
  type Uuid = nat

  datatype ResourceType = Sparks | InnovationPoints

  /** A balance of one resource. */
  datatype Resource = Resource(kind: ResourceType, amount: real)

  /** `ResourceType.allCases`, in declaration order. */
  function AllResourceTypes(): (r: seq<ResourceType>)
    ensures |r| == 2 && r[0] != r[1]
  {
    [Sparks, InnovationPoints]
  }

  /** `allCases` lists every resource type: there are exactly two. */
  lemma AllResourceTypesComplete(t: ResourceType)
    ensures t in AllResourceTypes()
  {
    match t
    case Sparks => assert AllResourceTypes()[0] == t;
    case InnovationPoints => assert AllResourceTypes()[1] == t;
  }

  /** The string raw value with which a resource type is encoded. */
  function ResourceRawValue(t: ResourceType): string
  {
    match t
    case Sparks => "sparks"
    case InnovationPoints => "innovationPoints"
  }

  /** `ResourceType(rawValue:)`: fails on every string that is not a raw value. */
  function ResourceFromRawValue(s: string): (r: Option<ResourceType>)
    ensures r.Some? ==> ResourceRawValue(r.value) == s
    ensures r.None? <==> forall t :: ResourceRawValue(t) != s
  {
    if s == "sparks" then Some(Sparks)
    else if s == "innovationPoints" then Some(InnovationPoints)
    else None
  }

  lemma ResourceRawValueRoundTrip(t: ResourceType)
    ensures ResourceFromRawValue(ResourceRawValue(t)) == Some(t)
  {
  }

  datatype UpgradeEffectType = CostReduction | ProductionMultiplier | ClickMultiplier

  /** The string raw value with which an effect type is encoded. */
  function EffectRawValue(t: UpgradeEffectType): string
  {
    match t
    case CostReduction => "costReduction"
    case ProductionMultiplier => "productionMultiplier"
    case ClickMultiplier => "clickMultiplier"
  }

  /** `UpgradeEffectType(rawValue:)`: fails on every string that is not a raw value. */
  function EffectFromRawValue(s: string): (r: Option<UpgradeEffectType>)
    ensures r.Some? ==> EffectRawValue(r.value) == s
    ensures r.None? <==> forall t :: EffectRawValue(t) != s
  {
    if s == "costReduction" then Some(CostReduction)
    else if s == "productionMultiplier" then Some(ProductionMultiplier)
    else if s == "clickMultiplier" then Some(ClickMultiplier)
    else None
  }

  lemma EffectRawValueRoundTrip(t: UpgradeEffectType)
    ensures EffectFromRawValue(EffectRawValue(t)) == Some(t)
  {
  }

  /** A producer the player can own any number of; only `count` ever changes. */
  datatype Building = Building(
    id: Uuid,
    name: string,
    description: string,
    baseCost: real,
    baseSparksProduction: real,
    baseInnovationProduction: real,
    unlockLevel: int,
    count: nat)

  /** A one-time purchase; `targetBuildingName` is `None` for a global effect. */
  datatype Upgrade = Upgrade(
    id: Uuid,
    name: string,
    description: string,
    cost: real,
    unlockLevel: int,
    isPurchased: bool,
    effectType: UpgradeEffectType,
    effectValue: real,
    targetBuildingName: Option<string>)

  /** Growth base of the building cost curve. */
  const CostGrowth: real := 1.15

  /** `pow(r, n)` for a whole exponent. */
  function Pow(r: real, n: nat): real
  {
    if n == 0 then 1.0 else r * Pow(r, n - 1)
  }

  /** Price of the next unit before upgrades: `baseCost * 1.15^count`. */
  function CurrentCost(b: Building): real
  {
    b.baseCost * Pow(CostGrowth, b.count)
  }

  /** Sparks produced per tick by all owned units of `b`. */
  function TotalSparksPerSecond(b: Building): real
  {
    b.baseSparksProduction * (b.count as real)
  }

  /** Innovation points produced per tick by all owned units of `b`. */
  function TotalInnovationPerSecond(b: Building): real
  {
    b.baseInnovationProduction * (b.count as real)
  }

  /** The same building with one more unit owned. */
  function Bought(b: Building): (r: Building)
    ensures r.count == b.count + 1
    ensures r.(count := b.count) == b
  {
    b.(count := b.count + 1)
  }

  /** With nothing owned, the next unit costs exactly the base cost. */
  lemma CostAtZero(b: Building)
    requires b.count == 0
    ensures CurrentCost(b) == b.baseCost
  {
  }

  /** Every purchase multiplies the price of the next unit by 1.15. */
  lemma {:induction false} CostGrowsByFactor(b: Building)
    ensures CurrentCost(Bought(b)) == CurrentCost(b) * 1.15
  {
    calc {
      CurrentCost(Bought(b));
      b.baseCost * (CostGrowth * Pow(CostGrowth, b.count));
      b.baseCost * Pow(CostGrowth, b.count) * 1.15;
    }
  }

  lemma {:induction false} PowAtLeastOne(r: real, n: nat)
    requires r >= 1.0
    ensures Pow(r, n) >= 1.0
  {
    if n > 0 {
      PowAtLeastOne(r, n - 1);
      assert r * Pow(r, n - 1) >= Pow(r, n - 1);
    }
  }

  lemma {:induction false} PowMonotonic(r: real, m: nat, n: nat)
    requires r >= 1.0 && m <= n
    ensures Pow(r, m) <= Pow(r, n)
  {
    if m < n {
      PowMonotonic(r, m, n - 1);
      PowAtLeastOne(r, n - 1);
      assert r * Pow(r, n - 1) >= Pow(r, n - 1);
    }
  }

  /** For a non-negative base cost the price never falls as more units are owned. */
  lemma CostNonDecreasing(b: Building, more: nat)
    requires b.baseCost >= 0.0 && b.count <= more
    ensures CurrentCost(b) <= CurrentCost(b.(count := more))
  {
    PowMonotonic(CostGrowth, b.count, more);
    assert b.baseCost * Pow(CostGrowth, b.count) <= b.baseCost * Pow(CostGrowth, more);
  }

  /** A positive base cost gives a positive price at every count. */
  lemma CostPositive(b: Building)
    requires b.baseCost > 0.0
    ensures CurrentCost(b) > 0.0
  {
    PowAtLeastOne(CostGrowth, b.count);
  }

  /** Production is linear in the count: zero when none are owned, one base rate per unit. */
  lemma ProductionPerUnit(b: Building)
    ensures b.count == 0 ==> TotalSparksPerSecond(b) == 0.0 && TotalInnovationPerSecond(b) == 0.0
    ensures TotalSparksPerSecond(Bought(b)) == TotalSparksPerSecond(b) + b.baseSparksProduction
    ensures TotalInnovationPerSecond(Bought(b)) == TotalInnovationPerSecond(b) + b.baseInnovationProduction
  {
  }
}
