/** Seeding a fresh universe: named planets of random types with random stock
    and a random selection of level-1 production buildings, and named NPCs with
    random offers, credits, cargo capacity and colonisation cooldown. */
module Seeding {
  import opened Wrappers
  import opened Entities
  import opened Configuration
  import opened Randomness

  const PlanetNames: seq<string> := ["Aurora", "Vega", "Nova", "Luna", "Terra", "Ceres", "Orion", "Eos"]
  const NPCNames: seq<string> := ["Trader Joe", "Merchant Mia", "Captain Rex", "Baroness Lila", "Drake"]

  /** The building kinds seeding considers, in the order it considers them; a
      City is never seeded. */
  const SeedBuildingTypes: seq<BuildingType> := [Mine, Farm, Refinery]

  /** Every seeded planet starts with these multipliers. */
  const BaseModifiers: map<ResourceType, real> := map[Iron := 1.0, Food := 1.0, Fuel := 1.0]

  /** A name with a letter suffix: the base name chosen by `i` round-robin, a
      dash, and the letter `i mod 26` places after 'A'. */
  function SuffixedName(names: seq<string>, i: nat): (s: string)
    requires |names| > 0
    ensures s == names[i % |names|] + "-" + [('A' as int + i % 26) as char]
    ensures |s| > 0 && s[|s| - 1] == ('A' as int + i % 26) as char
  {
    names[i % |names|] + "-" + [('A' as int + i % 26) as char]
  }

  /** The i-th planet's name, e.g. "Aurora-A", "Vega-B". */
  function GeneratePlanetName(i: nat): (s: string)
    ensures s == PlanetNames[i % 8] + "-" + [('A' as int + i % 26) as char]
  {
    SuffixedName(PlanetNames, i)
  }

  /** The i-th NPC's name, e.g. "Trader Joe-A", "Merchant Mia-B". */
  function GenerateNPCName(i: nat): (s: string)
    ensures s == NPCNames[i % 5] + "-" + [('A' as int + i % 26) as char]
  {
    SuffixedName(NPCNames, i)
  }

  /** Planet names repeat every 104 indices and NPC names every 130, the
      periods of the two base-name cycles combined with the 26 letters. */
  lemma NamesRepeat(i: nat)
    ensures GeneratePlanetName(i + 104) == GeneratePlanetName(i)
    ensures GenerateNPCName(i + 130) == GenerateNPCName(i)
  {
    var j := i + 104;
    assert j % 8 == i % 8 && j % 26 == i % 26;
    assert GeneratePlanetName(j) == GeneratePlanetName(i);
    var k := i + 130;
    assert k % 5 == i % 5 && k % 26 == i % 26;
    assert GenerateNPCName(k) == GenerateNPCName(i);
  }

  /** The first 26 indices all get different names because their letters differ. */
  lemma {:induction false} FirstNamesDistinct(names: seq<string>, i: nat, j: nat)
    requires |names| > 0 && i < j < 26
    ensures SuffixedName(names, i) != SuffixedName(names, j)
  {
    var a := SuffixedName(names, i);
    var b := SuffixedName(names, j);
    assert a[|a| - 1] != b[|b| - 1];
  }

  /** The names the repository's tests expect. */
  lemma NameScenarios()
    ensures GeneratePlanetName(0) == "Aurora-A" && GeneratePlanetName(1) == "Vega-B"
    ensures GeneratePlanetName(8) == "Aurora-I"
    ensures GenerateNPCName(0) == "Trader Joe-A" && GenerateNPCName(1) == "Merchant Mia-B"
  {
    assert ('A' as int + 0) as char == 'A';
    assert ('A' as int + 1) as char == 'B';
    assert ('A' as int + 8) as char == 'I';
  }

  // ---------------------------------------------------------------------------
  // Configuration look-ups with Go's zero values
  // ---------------------------------------------------------------------------

  /** A configured range, or the zero range when there is none. */
  function RangeFor(m: map<ResourceType, IntRange>, r: ResourceType): IntRange
  {
    if r in m then m[r] else IntRange(0, 0)
  }

  /** A configured chance, or 0.0 when there is none, so that the building is never placed. */
  function ChanceOf(sc: SeedConfig, b: BuildingType): real
  {
    if b in sc.BuildingChance then sc.BuildingChance[b] else 0.0
  }

  /** A configured build cost, or the empty cost when there is none. */
  function CostOf(sc: SeedConfig, b: BuildingType): map<ResourceType, int>
  {
    if b in sc.BuildCosts then sc.BuildCosts[b] else map[]
  }

  /** The resource a seeded building produces. */
  function Related(b: BuildingType): (r: ResourceType)
    ensures b == Mine ==> r == Iron
    ensures b == Farm ==> r == Food
    ensures b == Refinery ==> r == Fuel
  {
    if b == Farm then Food else if b == Refinery then Fuel else Iron
  }

  /** A Farm can only be placed on a Terra-like or an Icy planet. */
  predicate FarmAllowed(pt: PlanetType)
  {
    pt == TerraLike || pt == Icy
  }

  // ---------------------------------------------------------------------------
  // Resources
  // ---------------------------------------------------------------------------

  /** The map built by drawing, from position k on, one value for each of the
      first i resources from its configured range. */
  function Drawn(ranges: map<ResourceType, IntRange>, rand: Random, k: nat, i: nat): map<ResourceType, int>
    requires i <= |AllResources|
  {
    if i == 0 then map[]
    else Drawn(ranges, rand, k, i - 1)[AllResources[i - 1] := Pick(rand.of(k + i - 1), RangeFor(ranges, AllResources[i - 1]))]
  }

  /** One value per resource, drawn at positions k, k+1, k+2 in the order Iron, Food, Fuel. */
  function DrawnAll(ranges: map<ResourceType, IntRange>, rand: Random, k: nat): (m: map<ResourceType, int>)
    ensures m.Keys == {Iron, Food, Fuel}
    ensures forall r :: r in m && NonEmpty(RangeFor(ranges, r)) ==> RangeFor(ranges, r).Min <= m[r] < RangeFor(ranges, r).Max
  {
    map[Iron := Pick(rand.of(k), RangeFor(ranges, Iron)),
        Food := Pick(rand.of(k + 1), RangeFor(ranges, Food)),
        Fuel := Pick(rand.of(k + 2), RangeFor(ranges, Fuel))]
  }

  /** Draws one value per resource from the given ranges; both the starting stock
      and an NPC's offers are made this way. */
  method DrawPerResource(ranges: map<ResourceType, IntRange>, rand: Random) returns (m: map<ResourceType, int>)
    modifies rand
    ensures m == DrawnAll(ranges, rand, old(rand.calls))
    ensures rand.calls == old(rand.calls) + 3
  {
    m := map[];
    for i := 0 to |AllResources|
      invariant rand.calls == old(rand.calls) + i
      invariant m == Drawn(ranges, rand, old(rand.calls), i)
    {
      var r := AllResources[i];
      var range := RangeFor(ranges, r);
      var amount := rand.OfRange(range.Min, range.Max);
      m := m[r := amount];
    }
    ghost var k := old(rand.calls);
    assert Drawn(ranges, rand, k, 1) == map[Iron := Pick(rand.of(k), RangeFor(ranges, Iron))];
    assert Drawn(ranges, rand, k, 2) == Drawn(ranges, rand, k, 1)[Food := Pick(rand.of(k + 1), RangeFor(ranges, Food))];
    assert Drawn(ranges, rand, k, 3) == Drawn(ranges, rand, k, 2)[Fuel := Pick(rand.of(k + 2), RangeFor(ranges, Fuel))];
  }

  /** The starting stock of a planet. */
  method GenerateResources(sc: SeedConfig, rand: Random) returns (resources: map<ResourceType, int>)
    modifies rand
    ensures resources == DrawnAll(sc.Resources, rand, old(rand.calls))
    ensures rand.calls == old(rand.calls) + 3
  {
    resources := DrawPerResource(sc.Resources, rand);
  }

  // ---------------------------------------------------------------------------
  // Buildings
  // ---------------------------------------------------------------------------

  /** The buildings seeding places from the j-th considered kind on, as kind and
      production amount, and the draw position after them: an ineligible Farm
      takes no draw, every other kind takes a chance draw and, when placed, a
      production draw. */
  function BuildingDraws(pt: PlanetType, sc: SeedConfig, rand: Random, k: nat, j: nat): (r: (seq<(BuildingType, int)>, nat))
    requires j <= 3
    ensures k + |r.0| <= r.1 <= k + 2 * (3 - j)
    decreases 3 - j
  {
    if j == 3 then ([], k)
    else
      var b := SeedBuildingTypes[j];
      if b == Farm && !FarmAllowed(pt) then BuildingDraws(pt, sc, rand, k, j + 1)
      else if rand.seek(k) < ChanceOf(sc, b) then
        var rest := BuildingDraws(pt, sc, rand, k + 2, j + 1);
        ([(b, Pick(rand.of(k + 1), sc.Production))] + rest.0, rest.1)
      else BuildingDraws(pt, sc, rand, k + 1, j + 1)
  }

  /** The kinds seeding places are Mine, Farm and Refinery in that order, each
      at most once, a Farm only where farms are allowed, and production lies in
      the configured range whenever that range is non-empty. */
  lemma {:induction false} BuildingDrawsShape(pt: PlanetType, sc: SeedConfig, rand: Random, k: nat, j: nat)
    requires j <= 3
    ensures var plan := BuildingDraws(pt, sc, rand, k, j).0;
            |plan| <= 3 - j
            && (forall i :: 0 <= i < |plan| ==> j as BuildingType <= plan[i].0 <= Refinery)
            && (forall i, i' :: 0 <= i < i' < |plan| ==> plan[i].0 < plan[i'].0)
            && (forall i :: 0 <= i < |plan| && plan[i].0 == Farm ==> FarmAllowed(pt))
            && (forall i :: 0 <= i < |plan| && NonEmpty(sc.Production) ==>
                  sc.Production.Min <= plan[i].1 < sc.Production.Max)
    decreases 3 - j
  {
    if j < 3 {
      var b := SeedBuildingTypes[j];
      assert b == j as BuildingType;
      if b == Farm && !FarmAllowed(pt) {
        BuildingDrawsShape(pt, sc, rand, k, j + 1);
      } else if rand.seek(k) < ChanceOf(sc, b) {
        BuildingDrawsShape(pt, sc, rand, k + 2, j + 1);
      } else {
        BuildingDrawsShape(pt, sc, rand, k + 1, j + 1);
      }
    }
  }

  /** `b` is the level-1 building seeding makes for kind `entry.0` producing
      `entry.1` units of its resource. */
  ghost predicate Made(b: Building, entry: (BuildingType, int), sc: SeedConfig)
    reads b
  {
    b.Type == entry.0 && b.Level == 1
    && b.Production == map[Related(entry.0) := entry.1]
    && b.Modifiers == Some(map[Related(entry.0) := 1.0])
    && b.BuildCost == CostOf(sc, entry.0)
  }

  /** Considers the j-th kind: an ineligible Farm is skipped without a draw;
      otherwise the kind is placed, with a production draw, when its chance draw
      succeeds. The result is the first entry of `BuildingDraws` from j on. */
  method ConsiderBuilding(pt: PlanetType, sc: SeedConfig, rand: Random, j: nat) returns (building: Building?)
    requires j < 3
    modifies rand
    ensures var before := BuildingDraws(pt, sc, rand, old(rand.calls), j);
            var after := BuildingDraws(pt, sc, rand, rand.calls, j + 1);
            before.1 == after.1
            && if building == null then before.0 == after.0
               else fresh(building) && |before.0| > 0 && before.0 == [before.0[0]] + after.0 && Made(building, before.0[0], sc)
  {
    building := null;
    var b := SeedBuildingTypes[j];
    if b == Farm && !FarmAllowed(pt) {
      return;
    }
    var x := rand.Seek();
    if x < ChanceOf(sc, b) {
      var r := Related(b);
      var amount := rand.OfIntRange(sc.Production);
      building := new Building(b, 1, map[r := amount], Some(map[r := 1.0]), CostOf(sc, b));
    }
  }

  /** Places each considered kind, in order, when its chance draw succeeds. */
  method GenerateBuildings(pt: PlanetType, sc: SeedConfig, rand: Random) returns (buildings: seq<Building>)
    modifies rand
    ensures var plan := BuildingDraws(pt, sc, rand, old(rand.calls), 0);
            |buildings| == |plan.0| && rand.calls == plan.1
            && forall i :: 0 <= i < |buildings| ==> Made(buildings[i], plan.0[i], sc)
    ensures forall b :: b in buildings ==> fresh(b)
  {
    buildings := [];
    ghost var built: seq<(BuildingType, int)> := [];
    ghost var plan := BuildingDraws(pt, sc, rand, rand.calls, 0);
    ghost var rest := plan;
    for j := 0 to 3
      invariant rest == BuildingDraws(pt, sc, rand, rand.calls, j)
      invariant plan.0 == built + rest.0 && plan.1 == rest.1
      invariant |buildings| == |built|
      invariant forall i :: 0 <= i < |buildings| ==> Made(buildings[i], built[i], sc)
      invariant forall b :: b in buildings ==> fresh(b)
    {
      var building := ConsiderBuilding(pt, sc, rand, j);
      ghost var next := BuildingDraws(pt, sc, rand, rand.calls, j + 1);
      if building != null {
        buildings := buildings + [building];
        built := built + [rest.0[0]];
      }
      rest := next;
    }
  }

  // ---------------------------------------------------------------------------
  // Planets
  // ---------------------------------------------------------------------------

  /** What seeding promises about the planet at index i. */
  ghost predicate SeededPlanet(p: Planet, i: nat, sc: SeedConfig)
    reads p, p.Buildings
  {
    p.Name == GeneratePlanetName(i)
    && IsPlanetType(p.Type)
    && p.Resources.Keys == {Iron, Food, Fuel}
    && (forall r :: r in p.Resources && NonEmpty(RangeFor(sc.Resources, r)) ==>
          RangeFor(sc.Resources, r).Min <= p.Resources[r] < RangeFor(sc.Resources, r).Max)
    && p.Modifiers == Some(BaseModifiers)
    && p.Owner == null
    && (forall a, b :: 0 <= a < b < |p.Buildings| ==> p.Buildings[a].Type < p.Buildings[b].Type)
    && (forall b :: b in p.Buildings ==>
          Mine <= b.Type <= Refinery && (b.Type == Farm ==> FarmAllowed(p.Type))
          && b.Level == 1 && b.Production.Keys == {Related(b.Type)}
          && (NonEmpty(sc.Production) ==> sc.Production.Min <= b.Production[Related(b.Type)] < sc.Production.Max)
          && b.Modifiers == Some(map[Related(b.Type) := 1.0])
          && b.BuildCost == CostOf(sc, b.Type))
  }

  /** The planet at index i made from the draws at positions k up to e: its
      type is the first draw reduced over the four types, its stock the next
      three, and its buildings those the following draws place, which end at e. */
  ghost predicate DrawnPlanet(p: Planet, i: nat, sc: SeedConfig, rand: Random, k: nat, e: nat)
    reads p, p.Buildings
  {
    var plan := BuildingDraws(p.Type, sc, rand, k + 4, 0);
    p.Name == GeneratePlanetName(i)
    && p.Type == (rand.of(k) % 4) as PlanetType
    && p.Resources == DrawnAll(sc.Resources, rand, k + 1)
    && p.Modifiers == Some(BaseModifiers)
    && p.Owner == null
    && |p.Buildings| == |plan.0|
    && (forall j :: 0 <= j < |plan.0| ==> Made(p.Buildings[j], plan.0[j], sc))
    && e == plan.1
  }

  /** A planet made from its draws has every property seeding promises, and
      took at least four draws. */
  lemma DrawnPlanetIsSeeded(p: Planet, i: nat, sc: SeedConfig, rand: Random, k: nat, e: nat)
    requires DrawnPlanet(p, i, sc, rand, k, e)
    ensures SeededPlanet(p, i, sc)
    ensures k + 4 <= e
  {
    BuildingDrawsShape(p.Type, sc, rand, k + 4, 0);
  }

  /** Planet i of the list was made from the draws at positions `marks[i]` up
      to `marks[i + 1]`. */
  ghost predicate DrawnPlanets(planets: seq<Planet>, sc: SeedConfig, rand: Random, marks: seq<nat>)
    reads planets, set i, j | 0 <= i < |planets| && 0 <= j < |planets[i].Buildings| :: planets[i].Buildings[j]
  {
    |marks| == |planets| + 1
    && forall i :: 0 <= i < |planets| ==> DrawnPlanet(planets[i], i, sc, rand, marks[i], marks[i + 1])
  }

  /** Appending a planet made from the draws that follow keeps the list made
      from consecutive stretches of draws. */
  lemma DrawnPlanetsAppend(planets: seq<Planet>, p: Planet, sc: SeedConfig, rand: Random, marks: seq<nat>, e: nat)
    requires DrawnPlanets(planets, sc, rand, marks)
    requires DrawnPlanet(p, |planets|, sc, rand, marks[|planets|], e)
    ensures DrawnPlanets(planets + [p], sc, rand, marks + [e])
  {
    var ps, ms := planets + [p], marks + [e];
    forall i | 0 <= i < |ps|
      ensures DrawnPlanet(ps[i], i, sc, rand, ms[i], ms[i + 1])
    {
      if i < |planets| {
        assert ps[i] == planets[i] && ms[i] == marks[i] && ms[i + 1] == marks[i + 1];
      }
    }
  }

  /** Planets made from consecutive stretches of draws each have every property
      seeding promises. */
  lemma DrawnPlanetsAreSeeded(planets: seq<Planet>, sc: SeedConfig, rand: Random, marks: seq<nat>)
    requires DrawnPlanets(planets, sc, rand, marks)
    ensures forall i :: 0 <= i < |planets| ==> SeededPlanet(planets[i], i, sc)
  {
    forall i | 0 <= i < |planets|
      ensures SeededPlanet(planets[i], i, sc)
    {
      DrawnPlanetIsSeeded(planets[i], i, sc, rand, marks[i], marks[i + 1]);
    }
  }

  /** Makes one planet: a random type, then its stock, then its buildings. */
  method GeneratePlanet(i: nat, sc: SeedConfig, rand: Random) returns (p: Planet)
    modifies rand
    ensures fresh(p) && DrawnPlanet(p, i, sc, rand, old(rand.calls), rand.calls)
    ensures SeededPlanet(p, i, sc)
    ensures forall b :: b in p.Buildings ==> fresh(b)
    ensures old(rand.calls) + 4 <= rand.calls
  {
    var code := rand.Of(4);
    var pt := code as PlanetType;
    var resources := GenerateResources(sc, rand);
    var buildings := GenerateBuildings(pt, sc, rand);
    p := new Planet(GeneratePlanetName(i), pt, resources, Some(BaseModifiers), buildings, null);
    DrawnPlanetIsSeeded(p, i, sc, rand, old(rand.calls), rand.calls);
  }

  /** Makes the next planet from the current draw position and appends it,
      marking where its draws end. */
  method AppendPlanet(planets: seq<Planet>, ghost marks: seq<nat>, sc: SeedConfig, rand: Random) returns (planets': seq<Planet>, ghost marks': seq<nat>)
    requires DrawnPlanets(planets, sc, rand, marks) && rand.calls == marks[|planets|]
    modifies rand
    ensures DrawnPlanets(planets', sc, rand, marks') && rand.calls == marks'[|planets'|]
    ensures |planets'| == |planets| + 1 && planets' == planets + [planets'[|planets|]] && fresh(planets'[|planets|])
    ensures marks' == marks + [rand.calls]
  {
    var p := GeneratePlanet(|planets|, sc, rand);
    DrawnPlanetsAppend(planets, p, sc, rand, marks, rand.calls);
    planets', marks' := planets + [p], marks + [rand.calls];
  }

  /** Seeds the planets: a drawn count, then that many planets, planet i taking
      the draws from `marks[i]` up to `marks[i + 1]`; a count of zero or less
      gives none. */
  method GeneratePlanets(sc: SeedConfig, rand: Random) returns (planets: seq<Planet>, ghost marks: seq<nat>)
    modifies rand
    ensures var n := Pick(rand.of(old(rand.calls)), sc.NumberOfPlanets);
            |planets| == if n > 0 then n else 0
    ensures |marks| == |planets| + 1 && marks[0] == old(rand.calls) + 1 && rand.calls == marks[|planets|]
    ensures forall i :: 0 <= i < |planets| ==> DrawnPlanet(planets[i], i, sc, rand, marks[i], marks[i + 1])
    ensures forall i :: 0 <= i < |planets| ==> SeededPlanet(planets[i], i, sc)
    ensures forall p :: p in planets ==> fresh(p)
    ensures forall i, j :: 0 <= i < j < |planets| ==> planets[i] != planets[j]
    ensures old(rand.calls) + 1 + 4 * |planets| <= rand.calls
  {
    var count := rand.OfIntRange(sc.NumberOfPlanets);
    planets, marks := [], [rand.calls];
    var i := 0;
    while i < count
      invariant i == |planets| && i <= (if count > 0 then count else 0)
      invariant DrawnPlanets(planets, sc, rand, marks)
      invariant marks[0] == old(rand.calls) + 1 && rand.calls == marks[i]
      invariant forall p :: p in planets ==> fresh(p)
      invariant forall j, j' :: 0 <= j < j' < i ==> planets[j] != planets[j']
      invariant old(rand.calls) + 1 + 4 * i <= rand.calls
    {
      planets, marks := AppendPlanet(planets, marks, sc, rand);
      i := i + 1;
    }
    DrawnPlanetsAreSeeded(planets, sc, rand, marks);
  }

  // ---------------------------------------------------------------------------
  // NPCs
  // ---------------------------------------------------------------------------

  /** What seeding promises about the NPC at index i, which took the six draws
      from position k on: three offers, credits, cargo capacity and cooldown. */
  ghost predicate SeededNPC(n: NPC, i: nat, sc: SeedConfig, rand: Random, k: nat, now: int)
    reads n
  {
    var c := sc.MPCConfig;
    n.Name == GenerateNPCName(i)
    && n.Offer == DrawnAll(c.Offers, rand, k)
    && n.Credits == Pick(rand.of(k + 3), c.Credits)
    && n.Cargo == map[Iron := 0, Food := 0, Fuel := 0]
    && n.MaxCargo == Pick(rand.of(k + 4), c.MaxCargo)
    && c.ColonizationCooldownSeconds > 0
    && n.ColonizationCooldown == now + rand.of(k + 5) % c.ColonizationCooldownSeconds
  }

  /** Makes the NPC at index i; its cooldown ends a random number of seconds
      after `now`, below the configured bound. */
  method GenerateNPC(i: nat, sc: SeedConfig, rand: Random, now: int) returns (n: NPC)
    requires sc.MPCConfig.ColonizationCooldownSeconds > 0
    modifies rand
    ensures fresh(n) && SeededNPC(n, i, sc, rand, old(rand.calls), now)
    ensures rand.calls == old(rand.calls) + 6
  {
    var offer := DrawPerResource(sc.MPCConfig.Offers, rand);
    var cargo := map[Iron := 0, Food := 0, Fuel := 0];
    var credits := rand.OfIntRange(sc.MPCConfig.Credits);
    var maxCargo := rand.OfIntRange(sc.MPCConfig.MaxCargo);
    var delay := rand.Of(sc.MPCConfig.ColonizationCooldownSeconds);
    n := new NPC(GenerateNPCName(i), offer, credits, cargo, maxCargo, now + delay);
  }

  /** Seeds the NPCs: a drawn count, then that many NPCs, six draws each. The
      cooldown draw needs a positive bound whenever some NPC is made. */
  method GenerateNPCs(sc: SeedConfig, rand: Random, now: int) returns (npcs: seq<NPC>)
    requires Pick(rand.of(rand.calls), sc.MPCConfig.NumberOfNPCs) > 0 ==> sc.MPCConfig.ColonizationCooldownSeconds > 0
    modifies rand
    ensures var n := Pick(rand.of(old(rand.calls)), sc.MPCConfig.NumberOfNPCs);
            |npcs| == if n > 0 then n else 0
    ensures forall i :: 0 <= i < |npcs| ==> SeededNPC(npcs[i], i, sc, rand, old(rand.calls) + 1 + 6 * i, now)
    ensures forall n :: n in npcs ==> fresh(n)
    ensures rand.calls == old(rand.calls) + 1 + 6 * |npcs|
  {
    var count := rand.OfIntRange(sc.MPCConfig.NumberOfNPCs);
    npcs := [];
    var i := 0;
    while i < count
      invariant i == |npcs| && i <= (if count > 0 then count else 0)
      invariant rand.calls == old(rand.calls) + 1 + 6 * i
      invariant forall j :: 0 <= j < i ==> SeededNPC(npcs[j], j, sc, rand, old(rand.calls) + 1 + 6 * j, now)
      invariant forall n :: n in npcs ==> fresh(n)
    {
      var n := GenerateNPC(i, sc, rand, now);
      npcs := npcs + [n];
      i := i + 1;
    }
  }

  /** Every seeded NPC offers all three resources and starts with an empty hold,
      and with the default configuration its values lie in the default ranges. */
  lemma {:induction false} SeededNPCDefaults(n: NPC, i: nat, sc: SeedConfig, rand: Random, k: nat, now: int)
    requires sc.MPCConfig == DefaultNPCSeedConfig()
    requires SeededNPC(n, i, sc, rand, k, now)
    ensures n.Offer.Keys == {Iron, Food, Fuel} && n.Cargo.Keys == n.Offer.Keys
    ensures forall r :: r in n.Cargo ==> n.Cargo[r] == 0
    ensures 200 <= n.Credits < 50000 && 50 <= n.MaxCargo < 600
    ensures forall r :: r in n.Offer ==> 5 <= n.Offer[r] < 25
    ensures now <= n.ColonizationCooldown < now + 3600
  {
    var c := DefaultNPCSeedConfig();
    assert RangeFor(c.Offers, Iron) == IntRange(5, 20);
    assert RangeFor(c.Offers, Food) == IntRange(5, 15);
    assert RangeFor(c.Offers, Fuel) == IntRange(10, 25);
    var o := n.Offer;
    assert o.Keys == {Iron, Food, Fuel};
    forall r | r in o
      ensures 5 <= o[r] < 25
    {
      assert r == Iron || r == Food || r == Fuel;
    }
  }

  /** Whether some raw draw would make the NPC count positive. */
  predicate MayMakeNPCs(sc: SeedConfig)
  {
    var r := sc.MPCConfig.NumberOfNPCs;
    if r.Min < r.Max then r.Max > 1 else r.Min > 0
  }

  /** Seeds a whole universe: first the planets, then the NPCs, whose draws
      start at position `npcStart`. */
  method SeedUniverse(sc: SeedConfig, rand: Random, now: int) returns (planets: seq<Planet>, npcs: seq<NPC>, ghost marks: seq<nat>, ghost npcStart: nat)
    requires MayMakeNPCs(sc) ==> sc.MPCConfig.ColonizationCooldownSeconds > 0
    modifies rand
    ensures var n := Pick(rand.of(old(rand.calls)), sc.NumberOfPlanets);
            |planets| == if n > 0 then n else 0
    ensures |marks| == |planets| + 1 && marks[0] == old(rand.calls) + 1 && npcStart == marks[|planets|]
    ensures forall i :: 0 <= i < |planets| ==> DrawnPlanet(planets[i], i, sc, rand, marks[i], marks[i + 1])
    ensures forall i :: 0 <= i < |planets| ==> SeededPlanet(planets[i], i, sc)
    ensures forall p :: p in planets ==> fresh(p)
    ensures forall i, j :: 0 <= i < j < |planets| ==> planets[i] != planets[j]
    ensures old(rand.calls) < npcStart
    ensures var n := Pick(rand.of(npcStart), sc.MPCConfig.NumberOfNPCs);
            |npcs| == if n > 0 then n else 0
    ensures forall i :: 0 <= i < |npcs| ==> SeededNPC(npcs[i], i, sc, rand, npcStart + 1 + 6 * i, now)
    ensures forall n :: n in npcs ==> fresh(n)
    ensures rand.calls == npcStart + 1 + 6 * |npcs|
  {
    planets, marks := GeneratePlanets(sc, rand);
    npcStart := rand.calls;
    npcs := GenerateNPCs(sc, rand, now);
  }
}
