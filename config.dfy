/** Simulation configuration: the built-in defaults and the mapping from the raw,
    string-keyed configuration (as an unmarshaller produces it) to the typed one. */
module Configuration {
  import opened Wrappers
  import opened Entities

  /** One second as a duration; durations are integer nanoseconds. */
  const Second: int := 1_000_000_000

  datatype IntRange = IntRange(Min: int, Max: int)

  datatype NPCSeedConfig = NPCSeedConfig(
    NumberOfNPCs: IntRange,
    Offers: map<ResourceType, IntRange>,
    Credits: IntRange,
    MaxCargo: IntRange,
    ColonizationCooldownSeconds: int)

  datatype SeedConfig = SeedConfig(
    NumberOfPlanets: IntRange,
    Resources: map<ResourceType, IntRange>,
    BuildingChance: map<BuildingType, real>,
    BuildCosts: map<BuildingType, map<ResourceType, int>>,
    Production: IntRange,
    MPCConfig: NPCSeedConfig)

  datatype Config = Config(TickDuration: int, SeedConfig: SeedConfig)

  /** A range the production random source can draw from without failing. */
  predicate NonEmpty(r: IntRange) { r.Min < r.Max }

  const AllBuildingTypes: set<BuildingType> := {Mine, Farm, Refinery, City}

  /** The default configuration: a two-second tick and the default seed. */
  function DefaultConfig(): (c: Config)
    ensures c.TickDuration == 2 * Second
    ensures c.SeedConfig == DefaultSeedConfig()
  {
    Config(2 * Second, DefaultSeedConfig())
  }

  /** The default universe seed. Every range it holds is non-empty. */
  function DefaultSeedConfig(): (s: SeedConfig)
    ensures NonEmpty(s.NumberOfPlanets) && NonEmpty(s.Production)
    ensures s.Resources == DefaultResourceRanges()
    ensures s.BuildingChance == DefaultBuildingChance()
    ensures s.BuildCosts == DefaultBuildCost()
    ensures s.MPCConfig == DefaultNPCSeedConfig()
  {
    SeedConfig(
      IntRange(3, 15),
      DefaultResourceRanges(),
      DefaultBuildingChance(),
      DefaultBuildCost(),
      IntRange(3, 20),
      DefaultNPCSeedConfig())
  }

  /** Default initial stock ranges: one for every resource, each non-empty and positive. */
  function DefaultResourceRanges(): (m: map<ResourceType, IntRange>)
    ensures m.Keys == {Iron, Food, Fuel}
    ensures forall r :: r in m ==> 0 < m[r].Min < m[r].Max
  {
    map[Iron := IntRange(100, 5000), Food := IntRange(300, 3000), Fuel := IntRange(200, 2000)]
  }

  /** Default chance that seeding places each building type; all are probabilities. */
  function DefaultBuildingChance(): (m: map<BuildingType, real>)
    ensures m.Keys == AllBuildingTypes
    ensures forall b :: b in m ==> 0.0 < m[b] < 1.0
  {
    map[City := 0.2, Mine := 0.8, Farm := 0.7, Refinery := 0.5]
  }

  /** Default build costs: every building kind has a cost, every cost is positive,
      and only a City needs all three resources. */
  function DefaultBuildCost(): (m: map<BuildingType, map<ResourceType, int>>)
    ensures m.Keys == AllBuildingTypes
    ensures forall b, r :: b in m && r in m[b] ==> m[b][r] > 0
    ensures forall b :: b in m ==> (m[b].Keys == {Iron, Food, Fuel} <==> b == City)
  {
    map[
      City := map[Iron := 100, Food := 50, Fuel := 20],
      Mine := map[Iron := 50, Food := 20],
      Farm := map[Iron := 30, Food := 10],
      Refinery := map[Iron := 70, Fuel := 30]]
  }

  /** Default NPC seed: all ranges non-empty and positive, and a positive cooldown bound. */
  function DefaultNPCSeedConfig(): (n: NPCSeedConfig)
    ensures NonEmpty(n.NumberOfNPCs) && NonEmpty(n.Credits) && NonEmpty(n.MaxCargo)
    ensures n.NumberOfNPCs.Min > 0 && n.Credits.Min > 0 && n.MaxCargo.Min > 0
    ensures n.Offers.Keys == {Iron, Food, Fuel}
    ensures forall r :: r in n.Offers ==> 0 < n.Offers[r].Min < n.Offers[r].Max
    ensures n.ColonizationCooldownSeconds > 0
  {
    NPCSeedConfig(
      IntRange(3, 8),
      map[Iron := IntRange(5, 20), Food := IntRange(5, 15), Fuel := IntRange(10, 25)],
      IntRange(200, 50000),
      IntRange(50, 600),
      3600)
  }

  /** The concrete default values. */
  lemma DefaultValues()
    ensures DefaultSeedConfig().NumberOfPlanets == IntRange(3, 15)
    ensures DefaultSeedConfig().Production == IntRange(3, 20)
    ensures DefaultResourceRanges() == map[Iron := IntRange(100, 5000), Food := IntRange(300, 3000), Fuel := IntRange(200, 2000)]
    ensures DefaultNPCSeedConfig().NumberOfNPCs == IntRange(3, 8)
    ensures DefaultNPCSeedConfig().Credits == IntRange(200, 50000)
    ensures DefaultNPCSeedConfig().MaxCargo == IntRange(50, 600)
    ensures DefaultNPCSeedConfig().ColonizationCooldownSeconds == 3600
    ensures DefaultNPCSeedConfig().Offers[Iron] == IntRange(5, 20)
    ensures DefaultNPCSeedConfig().Offers[Food] == IntRange(5, 15)
    ensures DefaultNPCSeedConfig().Offers[Fuel] == IntRange(10, 25)
    ensures DefaultBuildingChance() == map[City := 0.2, Mine := 0.8, Farm := 0.7, Refinery := 0.5]
    ensures DefaultBuildCost()[City] == map[Iron := 100, Food := 50, Fuel := 20]
    ensures DefaultBuildCost()[Mine] == map[Iron := 50, Food := 20]
    ensures DefaultBuildCost()[Farm] == map[Iron := 30, Food := 10]
    ensures DefaultBuildCost()[Refinery] == map[Iron := 70, Fuel := 30]
  {
  }

  // ---------------------------------------------------------------------------
  // The raw configuration, keyed by names, as the unmarshaller fills it.

  datatype RawIntRange = RawIntRange(Min: int, Max: int)
  datatype ResourceConfig = ResourceConfig(Resource: string, Min: int, Max: int)
  datatype BuildingChanceConfig = BuildingChanceConfig(BuildingType: string, Chance: real)
  datatype ResourceAmount = ResourceAmount(Resource: string, Amount: int)
  datatype BuildCostConfig = BuildCostConfig(BuildingType: string, Resources: seq<ResourceAmount>)

  datatype RawNPCSeedConfig = RawNPCSeedConfig(
    NumberOfNPCs: RawIntRange,
    Offers: seq<ResourceConfig>,
    Credits: RawIntRange,
    MaxCargo: RawIntRange,
    ColonizationCooldownSeconds: int)

  datatype RawSeedConfig = RawSeedConfig(
    NumberOfPlanets: RawIntRange,
    Resources: seq<ResourceConfig>,
    BuildingChance: seq<BuildingChanceConfig>,
    BuildCosts: seq<BuildCostConfig>,
    Production: RawIntRange,
    NPC: RawNPCSeedConfig)

  datatype RawConfig = RawConfig(TickDuration: string, SeedConfig: RawSeedConfig)

  /** The map that inserting the entries of a list one after another builds:
      a later entry with the same key overwrites an earlier one. */
  function ToMap<T, K, V>(list: seq<T>, key: T -> K, val: T -> V): map<K, V>
  {
    if list == [] then map[]
    else ToMap(list[..|list| - 1], key, val)[key(list[|list| - 1]) := val(list[|list| - 1])]
  }

  /** The keys of the built map are exactly the keys of the entries. */
  lemma {:induction false} ToMapKeys<T, K, V>(list: seq<T>, key: T -> K, val: T -> V)
    ensures ToMap(list, key, val).Keys == set i | 0 <= i < |list| :: key(list[i])
  {
    if list != [] {
      var init := list[..|list| - 1];
      ToMapKeys(init, key, val);
      assert forall i :: 0 <= i < |init| ==> init[i] == list[i];
    }
  }

  /** An entry that no later entry shares a key with determines that key's value. */
  lemma {:induction false} ToMapLastWins<T, K, V>(list: seq<T>, key: T -> K, val: T -> V, i: nat)
    requires i < |list|
    requires forall j :: i < j < |list| ==> key(list[j]) != key(list[i])
    ensures key(list[i]) in ToMap(list, key, val)
    ensures ToMap(list, key, val)[key(list[i])] == val(list[i])
  {
    var last := |list| - 1;
    if i < last {
      var init := list[..last];
      forall j | i < j < |init| ensures key(init[j]) != key(init[i]) {
        assert init[j] == list[j] && init[i] == list[i];
      }
      ToMapLastWins(init, key, val, i);
      assert init[i] == list[i];
    }
  }

  /** Fills a fresh map from a list, entry by entry, as the loops of LoadFrom do. */
  method FillMap<T, K, V>(list: seq<T>, key: T -> K, val: T -> V) returns (m: map<K, V>)
    ensures m == ToMap(list, key, val)
  {
    m := map[];
    var i := 0;
    while i < |list|
      invariant 0 <= i <= |list|
      invariant m == ToMap(list[..i], key, val)
    {
      assert list[..i + 1][..i] == list[..i];
      m := m[key(list[i]) := val(list[i])];
      i := i + 1;
    }
    assert list[..i] == list;
  }

  function RangeOf(r: RawIntRange): IntRange { IntRange(r.Min, r.Max) }
  function ResourceKey(rc: ResourceConfig): ResourceType { ResourceTypeFromString(rc.Resource) }
  function ResourceRange(rc: ResourceConfig): IntRange { IntRange(rc.Min, rc.Max) }
  function ChanceKey(bc: BuildingChanceConfig): BuildingType { BuildingTypeFromString(bc.BuildingType) }
  function ChanceValue(bc: BuildingChanceConfig): real { bc.Chance }
  function AmountKey(ra: ResourceAmount): ResourceType { ResourceTypeFromString(ra.Resource) }
  function AmountValue(ra: ResourceAmount): int { ra.Amount }
  function CostKey(bc: BuildCostConfig): BuildingType { BuildingTypeFromString(bc.BuildingType) }
  function CostValue(bc: BuildCostConfig): map<ResourceType, int> { ToMap(bc.Resources, AmountKey, AmountValue) }

  /** Overwrites c from the raw configuration. An unmarshalling error leaves c as it
      was; otherwise the tick duration changes only when the duration string is
      non-empty and parses, and every part of the seed is replaced: integer ranges
      verbatim, each list turned into a freshly built map (unknown names keyed -1). */
  method LoadFrom(c: Config, unmarshalled: Result<RawConfig, string>, parseDuration: string -> Option<int>)
    returns (c': Config, err: Option<string>)
    ensures unmarshalled.Err? ==> c' == c && err == Some(unmarshalled.error)
    ensures unmarshalled.Ok? ==> err.None?
    ensures unmarshalled.Ok? ==>
      var raw := unmarshalled.value;
      var seed := raw.SeedConfig;
      && c'.TickDuration == (if raw.TickDuration != "" && parseDuration(raw.TickDuration).Some?
                             then parseDuration(raw.TickDuration).value else c.TickDuration)
      && c'.SeedConfig.NumberOfPlanets == RangeOf(seed.NumberOfPlanets)
      && c'.SeedConfig.Resources == ToMap(seed.Resources, ResourceKey, ResourceRange)
      && c'.SeedConfig.BuildingChance == ToMap(seed.BuildingChance, ChanceKey, ChanceValue)
      && c'.SeedConfig.BuildCosts == ToMap(seed.BuildCosts, CostKey, CostValue)
      && c'.SeedConfig.Production == RangeOf(seed.Production)
      && c'.SeedConfig.MPCConfig.NumberOfNPCs == RangeOf(seed.NPC.NumberOfNPCs)
      && c'.SeedConfig.MPCConfig.Offers == ToMap(seed.NPC.Offers, ResourceKey, ResourceRange)
      && c'.SeedConfig.MPCConfig.Credits == RangeOf(seed.NPC.Credits)
      && c'.SeedConfig.MPCConfig.MaxCargo == RangeOf(seed.NPC.MaxCargo)
      && c'.SeedConfig.MPCConfig.ColonizationCooldownSeconds == seed.NPC.ColonizationCooldownSeconds
  {
    if unmarshalled.Err? {
      return c, Some(unmarshalled.error);
    }
    var raw := unmarshalled.value;
    var tick := c.TickDuration;
    if raw.TickDuration != "" {
      var d := parseDuration(raw.TickDuration);
      if d.Some? {
        tick := d.value;
      }
    }
    var seed := raw.SeedConfig;
    var resources := FillMap(seed.Resources, ResourceKey, ResourceRange);
    var chances := FillMap(seed.BuildingChance, ChanceKey, ChanceValue);

    var costs: map<BuildingType, map<ResourceType, int>> := map[];
    var i := 0;
    while i < |seed.BuildCosts|
      invariant 0 <= i <= |seed.BuildCosts|
      invariant costs == ToMap(seed.BuildCosts[..i], CostKey, CostValue)
    {
      var bc := seed.BuildCosts[i];
      var resMap := FillMap(bc.Resources, AmountKey, AmountValue);
      assert seed.BuildCosts[..i + 1][..i] == seed.BuildCosts[..i];
      costs := costs[CostKey(bc) := resMap];
      i := i + 1;
    }
    assert seed.BuildCosts[..i] == seed.BuildCosts;

    var npc := seed.NPC;
    var offers := FillMap(npc.Offers, ResourceKey, ResourceRange);
    var npcConfig := NPCSeedConfig(RangeOf(npc.NumberOfNPCs), offers, RangeOf(npc.Credits),
                                   RangeOf(npc.MaxCargo), npc.ColonizationCooldownSeconds);
    c' := Config(tick, SeedConfig(RangeOf(seed.NumberOfPlanets), resources, chances, costs,
                                  RangeOf(seed.Production), npcConfig));
    err := None;
  }

  /** How a list of resource ranges is read: exactly the named resources become keys
      (unknown names as -1), and the last entry for a name wins. */
  lemma ResourceRangesFromList(list: seq<ResourceConfig>, i: nat)
    requires i < |list|
    requires forall j :: i < j < |list| ==> list[j].Resource != list[i].Resource
    requires ResourceKey(list[i]) as int != UnknownCode
    ensures ResourceKey(list[i]) in ToMap(list, ResourceKey, ResourceRange)
    ensures ToMap(list, ResourceKey, ResourceRange)[ResourceKey(list[i])] == IntRange(list[i].Min, list[i].Max)
  {
    var k := ResourceKey(list[i]);
    assert ResourceTypeString(k) == list[i].Resource;
    forall j | i < j < |list| ensures ResourceKey(list[j]) != k {
      var kj := ResourceKey(list[j]);
      assert kj as int == UnknownCode || ResourceTypeString(kj) == list[j].Resource;
    }
    ToMapLastWins(list, ResourceKey, ResourceRange, i);
  }
}
