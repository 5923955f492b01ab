/** Resource production: every building adds its per-resource output, scaled by its
    level and by the planet's and its own multipliers, to its planet's stock. */
module Production {
  import opened Wrappers
  import opened Entities

  /** The planet-type multiplier for a resource; unknown planet types produce at 1.0. */
  function BaseProductionModifier(pt: PlanetType, res: ResourceType): (m: real)
    ensures 0.0 <= m <= 1.5
    ensures m == 0.0 <==> pt == GasGiant && res == Food
    ensures !IsPlanetType(pt) ==> m == 1.0
  {
    if pt == TerraLike then 1.0
    else if pt == Desert then (if res == Food then 0.5 else 1.2)
    else if pt == GasGiant then (if res == Food then 0.0 else 1.5)
    else if pt == Icy then (if res == Food then 0.7 else 1.0)
    else 1.0
  }

  /** The whole table. */
  lemma BaseProductionModifierTable(res: ResourceType)
    requires res != Food
    ensures BaseProductionModifier(TerraLike, res) == 1.0 && BaseProductionModifier(TerraLike, Food) == 1.0
    ensures BaseProductionModifier(Desert, res) == 1.2 && BaseProductionModifier(Desert, Food) == 0.5
    ensures BaseProductionModifier(GasGiant, res) == 1.5 && BaseProductionModifier(GasGiant, Food) == 0.0
    ensures BaseProductionModifier(Icy, res) == 1.0 && BaseProductionModifier(Icy, Food) == 0.7
    ensures BaseProductionModifier(999 as PlanetType, res) == 1.0
  {
  }

  /** Conversion of a float to an int: truncation toward zero. */
  function Trunc(x: real): (n: int)
    ensures x >= 0.0 ==> n as real <= x < n as real + 1.0
    ensures x < 0.0 ==> n as real - 1.0 < x <= n as real
  {
    if x >= 0.0 then x.Floor else -((-x).Floor)
  }

  /** The planet's factor for a resource: its own multiplier times the type
      multiplier, where a product of zero counts as 1.0. */
  function PlanetFactor(p: Planet, r: ResourceType): (f: real)
    reads p`Modifiers
    ensures f != 0.0
    ensures ModOf(p.Modifiers, r) == 0.0 || (p.Type == GasGiant && r == Food) ==> f == 1.0
  {
    Norm(ModOf(p.Modifiers, r) * BaseProductionModifier(p.Type, r))
  }

  /** A building's own factor for a resource, a zero or absent multiplier counting as 1.0. */
  function BuildingFactor(b: Building, r: ResourceType): (f: real)
    reads b`Modifiers
    ensures f != 0.0
    ensures ModOf(b.Modifiers, r) == 0.0 ==> f == 1.0
    ensures ModOf(b.Modifiers, r) != 0.0 ==> f == ModOf(b.Modifiers, r)
  {
    Norm(ModOf(b.Modifiers, r))
  }

  /** What one building adds to one resource of its planet in one pass. */
  function BuildingOutput(p: Planet, b: Building, r: ResourceType): (n: int)
    reads p`Modifiers, b`Production, b`Level, b`Modifiers
    ensures r !in b.Production ==> n == 0
  {
    if r in b.Production
    then Trunc((b.Production[r] * b.Level) as real * (PlanetFactor(p, r) * BuildingFactor(b, r)))
    else 0
  }

  /** What a list of buildings adds to one resource. */
  function BuildingsOutput(p: Planet, bs: seq<Building>, r: ResourceType): int
    reads p`Modifiers, bs`Production, bs`Level, bs`Modifiers
  {
    if bs == [] then 0
    else BuildingsOutput(p, bs[..|bs| - 1], r) + BuildingOutput(p, bs[|bs| - 1], r)
  }

  /** The resources that some building in the list produces. */
  function ProductionKeys(bs: seq<Building>): set<ResourceType>
    reads bs`Production
  {
    if bs == [] then {} else ProductionKeys(bs[..|bs| - 1]) + bs[|bs| - 1].Production.Keys
  }

  /** `after` is `before` with the output of the buildings `bs` added: every
      resource one of them produces is keyed (even when nothing is produced),
      it gains their output, and nothing else changes. */
  ghost predicate Added(before: map<ResourceType, int>, after: map<ResourceType, int>, p: Planet, bs: seq<Building>)
    reads p`Modifiers, bs`Production, bs`Level, bs`Modifiers
  {
    && after.Keys == before.Keys + ProductionKeys(bs)
    && forall r :: r in after ==> after[r] == Get(before, r) + BuildingsOutput(p, bs, r)
  }

  /** Adds one building's output to a stock, resource by resource, in the
      unspecified order of the production map. `start` and `prefix` say which
      buildings have already been added to the stock. */
  method AddBuildingOutput(stock: map<ResourceType, int>, p: Planet, b: Building,
                           ghost start: map<ResourceType, int>, ghost prefix: seq<Building>)
    returns (after: map<ResourceType, int>)
    requires Added(start, stock, p, prefix)
    ensures Added(start, after, p, prefix + [b])
  {
    after := stock;
    var todo := b.Production.Keys;
    ghost var done: set<ResourceType> := {};
    while todo != {}
      invariant todo + done == b.Production.Keys && todo !! done
      invariant after.Keys == stock.Keys + done
      invariant forall r :: r in after ==>
        after[r] == Get(stock, r) + (if r in done then BuildingOutput(p, b, r) else 0)
      decreases todo
    {
      HasElement(todo);
      var r :| r in todo;
      var produced := BuildingOutput(p, b, r);
      after := after[r := Get(after, r) + produced];
      todo := todo - {r};
      done := done + {r};
    }
    assert [b][..0] == [];
    AddedStep(start, stock, after, p, prefix, b);
  }

  /** Adding a prefix's output and then one more building's is adding the longer prefix's. */
  lemma AddedStep(before: map<ResourceType, int>, mid: map<ResourceType, int>, after: map<ResourceType, int>,
                  p: Planet, bs: seq<Building>, b: Building)
    requires Added(before, mid, p, bs)
    requires Added(mid, after, p, [b])
    ensures Added(before, after, p, bs + [b])
  {
    assert (bs + [b])[..|bs|] == bs;
    assert [b][..0] == [];
    assert ProductionKeys(bs + [b]) == ProductionKeys(bs) + b.Production.Keys;
    assert ProductionKeys([b]) == b.Production.Keys;
    forall r | r in after
      ensures after[r] == Get(before, r) + BuildingsOutput(p, bs + [b], r)
    {
      assert BuildingsOutput(p, [b], r) == BuildingOutput(p, b, r);
      assert BuildingsOutput(p, bs + [b], r) == BuildingsOutput(p, bs, r) + BuildingOutput(p, b, r);
      if r !in mid {
        OutputOutsideKeys(p, bs, r);
      }
    }
  }

  /** What one production pass over the planet's buildings adds: an entry for
      every resource some building produces, even when it adds nothing. */
  ghost function PassOutput(p: Planet): (g: map<ResourceType, int>)
    reads p`Modifiers, p`Buildings, p.Buildings`Production, p.Buildings`Level, p.Buildings`Modifiers
  {
    map r | r in ProductionKeys(p.Buildings) :: BuildingsOutput(p, p.Buildings, r)
  }

  /** A stock with gains added; every gained resource becomes keyed. */
  function Apply(stock: map<ResourceType, int>, gain: map<ResourceType, int>): (after: map<ResourceType, int>)
    ensures after.Keys == stock.Keys + gain.Keys
  {
    map r | r in stock.Keys + gain.Keys :: Get(stock, r) + Get(gain, r)
  }

  /** The same gains applied `n` times in a row. */
  function Passes(stock: map<ResourceType, int>, gain: map<ResourceType, int>, n: nat): map<ResourceType, int>
  {
    if n == 0 then stock else Apply(Passes(stock, gain, n - 1), gain)
  }

  /** The stock a planet has after one production pass over its buildings, in
      list order. The pass accumulates into a copy of the stock, which the caller
      stores; nothing reads the stock in between, so this is the same as updating
      it entry by entry. */
  method PlanetPass(p: Planet, ghost gain: map<ResourceType, int>) returns (stock: map<ResourceType, int>)
    requires gain == PassOutput(p)
    ensures stock == Apply(p.Resources, gain)
  {
    stock := p.Resources;
    var i := 0;
    while i < |p.Buildings|
      invariant 0 <= i <= |p.Buildings|
      invariant Added(p.Resources, stock, p, p.Buildings[..i])
    {
      var b := p.Buildings[i];
      stock := AddBuildingOutput(stock, p, b, p.Resources, p.Buildings[..i]);
      assert p.Buildings[..i + 1] == p.Buildings[..i] + [b];
      i := i + 1;
    }
    assert p.Buildings[..i] == p.Buildings;
    ghost var g := gain;
    forall r | r in stock
      ensures stock[r] == Apply(p.Resources, g)[r]
    {
      if r !in ProductionKeys(p.Buildings) {
        OutputOutsideKeys(p, p.Buildings, r);
      }
    }
  }

  /** Every planet's stock is the old stock after one production pass per
      listing of the planet, each pass adding the old output. */
  twostate predicate Produced(planets: seq<Planet>)
    reads planets`Resources
  {
    forall p :: p in planets ==> p.Resources == Passes(old(p.Resources), old(PassOutput(p)), Occurrences(planets, |planets|, p))
  }

  /** Runs one production pass on every planet in the list. A planet listed more
      than once produces once per occurrence. */
  method ProduceResources(planets: seq<Planet>)
    modifies planets`Resources
    ensures Produced(planets)
  {
    var i := 0;
    while i < |planets|
      invariant 0 <= i <= |planets|
      invariant forall p {:trigger Occurrences(planets, i, p)} :: p in planets ==>
        p.Resources == Passes(old(p.Resources), old(PassOutput(p)), Occurrences(planets, i, p))
    {
      var q := planets[i];
      ghost var gain := old(PassOutput(q));
      assert gain == PassOutput(q);
      q.Resources := PlanetPass(q, gain);
      i := i + 1;
    }
  }

  /** After `n` passes every gained resource is keyed and has gained `n` times its
      gain, and nothing else changes. */
  lemma {:induction false} PassesAdd(stock: map<ResourceType, int>, gain: map<ResourceType, int>, n: nat)
    ensures Passes(stock, gain, n).Keys == stock.Keys + (if n == 0 then {} else gain.Keys)
    ensures forall r :: r in Passes(stock, gain, n) ==> Passes(stock, gain, n)[r] == Get(stock, r) + n * Get(gain, r)
  {
    if n > 0 {
      PassesAdd(stock, gain, n - 1);
      var mid := Passes(stock, gain, n - 1);
      forall r | r in Passes(stock, gain, n)
        ensures Passes(stock, gain, n)[r] == Get(stock, r) + n * Get(gain, r)
      {
        assert Passes(stock, gain, n)[r] == Get(mid, r) + Get(gain, r);
        assert Get(mid, r) == Get(stock, r) + (n - 1) * Get(gain, r);
      }
    }
  }

  /** Buildings add nothing to a resource none of them produces. */
  lemma {:induction false} OutputOutsideKeys(p: Planet, bs: seq<Building>, r: ResourceType)
    requires r !in ProductionKeys(bs)
    ensures BuildingsOutput(p, bs, r) == 0
  {
    if bs != [] {
      OutputOutsideKeys(p, bs[..|bs| - 1], r);
    }
  }

  /** Only resources some building produces change; every other resource keeps
      its key (or absence) and its amount, however many passes run. */
  lemma OnlyProducedResourcesChange(stock: map<ResourceType, int>, p: Planet, n: nat, r: ResourceType)
    requires r !in ProductionKeys(p.Buildings)
    ensures var after := Passes(stock, PassOutput(p), n);
      (r in after <==> r in stock) && Get(after, r) == Get(stock, r)
  {
    PassesAdd(stock, PassOutput(p), n);
  }

  /** A planet without buildings, or whose buildings produce nothing, keeps its stock. */
  lemma NothingProducedKeepsStock(stock: map<ResourceType, int>, p: Planet, n: nat)
    requires ProductionKeys(p.Buildings) == {}
    ensures Passes(stock, PassOutput(p), n) == stock
  {
    assert PassOutput(p) == map[];
    PassesAdd(stock, map[], n);
  }

  /** Every building's output is added, and every produced resource is keyed,
      once per pass. */
  lemma PassAddsEveryBuilding(stock: map<ResourceType, int>, p: Planet, n: nat, r: ResourceType)
    requires n > 0 && r in ProductionKeys(p.Buildings)
    ensures var after := Passes(stock, PassOutput(p), n);
      r in after && after[r] == Get(stock, r) + n * BuildingsOutput(p, p.Buildings, r)
  {
    PassesAdd(stock, PassOutput(p), n);
  }

  /** Non-negative multipliers give non-negative factors. */
  lemma FactorsNonNegative(p: Planet, b: Building, r: ResourceType)
    requires ModOf(p.Modifiers, r) >= 0.0 && ModOf(b.Modifiers, r) >= 0.0
    ensures PlanetFactor(p, r) > 0.0 && BuildingFactor(b, r) > 0.0
  {
    var m := ModOf(p.Modifiers, r);
    var t := BaseProductionModifier(p.Type, r);
    assert t >= 0.0;
    assert m * t >= 0.0;
  }

  /** With non-negative bases, levels and multipliers every building adds a
      non-negative amount. */
  lemma {:induction false} OutputNonNegative(p: Planet, bs: seq<Building>, r: ResourceType)
    requires ModOf(p.Modifiers, r) >= 0.0
    requires forall b :: b in bs ==> b.Level >= 0 && ModOf(b.Modifiers, r) >= 0.0
    requires forall b :: b in bs && r in b.Production ==> b.Production[r] >= 0
    ensures BuildingsOutput(p, bs, r) >= 0
  {
    if bs != [] {
      var b := bs[|bs| - 1];
      OutputNonNegative(p, bs[..|bs| - 1], r);
      if r in b.Production {
        FactorsNonNegative(p, b, r);
        var pf := PlanetFactor(p, r);
        var bf := BuildingFactor(b, r);
        var base := (b.Production[r] * b.Level) as real;
        assert base >= 0.0 by {
          assert b.Production[r] >= 0 && b.Level >= 0;
        }
        assert pf * bf >= 0.0;
        assert base * (pf * bf) >= 0.0;
      }
    }
  }

  /** With non-negative bases, levels and multipliers no stock decreases. */
  lemma ProductionNeverDecreases(stock: map<ResourceType, int>, p: Planet, n: nat)
    requires forall r :: ModOf(p.Modifiers, r) >= 0.0
    requires forall b :: b in p.Buildings ==> b.Level >= 0 && forall r :: ModOf(b.Modifiers, r) >= 0.0
    requires forall b, r :: b in p.Buildings && r in b.Production ==> b.Production[r] >= 0
    ensures var after := Passes(stock, PassOutput(p), n);
      forall r :: r in stock ==> r in after && after[r] >= stock[r]
  {
    var g := PassOutput(p);
    PassesAdd(stock, g, n);
    forall r | r in stock ensures Get(g, r) >= 0 {
      OutputNonNegative(p, p.Buildings, r);
    }
    forall r | r in stock ensures n * Get(g, r) >= 0 {
    }
  }

  /** The zero-normalisation quirk: when the planet's own multiplier for a resource
      is zero or absent, the planet factor is 1.0, so the planet-type multiplier is
      dropped as well; and GasGiant food is always produced at factor 1.0. */
  lemma ZeroPlanetModifierDropsTypeModifier(p: Planet, r: ResourceType)
    ensures ModOf(p.Modifiers, r) == 0.0 ==> PlanetFactor(p, r) == 1.0
    ensures p.Type == GasGiant && r == Food ==> PlanetFactor(p, r) == 1.0
    ensures ModOf(p.Modifiers, r) != 0.0 && !(p.Type == GasGiant && r == Food) ==>
      PlanetFactor(p, r) == ModOf(p.Modifiers, r) * BaseProductionModifier(p.Type, r)
  {
  }

  /** A zero or absent building multiplier counts as 1.0: the building then
      produces exactly what it would with no multiplier of its own. */
  lemma ZeroBuildingModifierCountsAsOne(p: Planet, b: Building, r: ResourceType)
    requires r in b.Production && ModOf(b.Modifiers, r) == 0.0
    ensures BuildingFactor(b, r) == 1.0
    ensures BuildingOutput(p, b, r) == Trunc((b.Production[r] * b.Level) as real * PlanetFactor(p, r))
  {
  }

  /** A Mine producing 2 Iron at level 1 with building multiplier 1.5, on a
      Terra-like planet with Iron multiplier 2.0 and an empty stock: 6 Iron. */
  lemma BuildingAndPlanetModifiersScenario(p: Planet, mine: Building)
    requires p.Type == TerraLike && p.Modifiers == Some(map[Iron := 2.0]) && p.Buildings == [mine]
    requires mine.Production == map[Iron := 2] && mine.Modifiers == Some(map[Iron := 1.5]) && mine.Level == 1
    ensures Apply(map[], PassOutput(p)) == map[Iron := 6]
  {
    assert [mine][..0] == [];
    assert ProductionKeys(p.Buildings) == {Iron};
    assert BuildingOutput(p, mine, Iron) == 6;
    assert BuildingsOutput(p, p.Buildings, Iron) == 6;
  }

  /** A Desert planet whose Iron multiplier is 0.0, with a Mine producing 10 Iron:
      the pass adds 10, not 12, because the Desert factor 1.2 is dropped. */
  lemma ZeroModifierDesertScenario(p: Planet, mine: Building)
    requires p.Type == Desert && p.Modifiers == Some(map[Iron := 0.0]) && p.Buildings == [mine]
    requires mine.Production == map[Iron := 10] && mine.Modifiers == None && mine.Level == 1
    ensures Apply(map[], PassOutput(p)) == map[Iron := 10]
  {
    assert [mine][..0] == [];
    assert ProductionKeys(p.Buildings) == {Iron};
    assert BuildingOutput(p, mine, Iron) == 10;
    assert BuildingsOutput(p, p.Buildings, Iron) == 10;
  }
}
