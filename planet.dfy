/** Construction on a planet: a building may be placed when the planet type allows
    its kind and the planet's stock covers every entry of its build cost; building
    deducts the cost and appends the building. */
module Planets {
  import opened Entities

  /** The planet-type restrictions: a Farm needs a Terra-like or Icy planet, a Mine
      any planet but a Gas Giant; every other kind, known or not, is unrestricted. */
  function TypeAllows(pt: PlanetType, bt: BuildingType): (ok: bool)
    ensures ok <==> (bt == Farm ==> pt == TerraLike || pt == Icy) && (bt == Mine ==> pt != GasGiant)
  {
    if bt == Farm then pt == TerraLike || pt == Icy
    else if bt == Mine then pt != GasGiant
    else true
  }

  /** The stock covers every entry of the cost; an absent stock entry counts as 0. */
  predicate Affordable(stock: map<ResourceType, int>, cost: map<ResourceType, int>)
  {
    forall r :: r in cost ==> Get(stock, r) >= cost[r]
  }

  /** `after` is `before` with the cost subtracted entry by entry: every costed
      resource becomes keyed, and nothing else changes. */
  ghost predicate Deducted(before: map<ResourceType, int>, after: map<ResourceType, int>, cost: map<ResourceType, int>)
  {
    && after.Keys == before.Keys + cost.Keys
    && forall r :: r in after ==> after[r] == Get(before, r) - Get(cost, r)
  }

  /** Checks the stock against each cost entry, in the cost map's order, stopping
      at the first shortfall. */
  method CoversCost(stock: map<ResourceType, int>, cost: map<ResourceType, int>) returns (ok: bool)
    ensures ok <==> Affordable(stock, cost)
  {
    var todo := cost.Keys;
    while todo != {}
      invariant todo <= cost.Keys
      invariant forall r :: r in cost && r !in todo ==> Get(stock, r) >= cost[r]
      decreases todo
    {
      HasElement(todo);
      var r :| r in todo;
      if Get(stock, r) < cost[r] {
        return false;
      }
      todo := todo - {r};
    }
    return true;
  }

  /** Whether the building can be placed on the planet. Reads the planet only. */
  method CanBuild(p: Planet, b: Building) returns (ok: bool)
    ensures ok <==> TypeAllows(p.Type, b.Type) && Affordable(p.Resources, b.BuildCost)
  {
    if !TypeAllows(p.Type, b.Type) {
      return false;
    }
    ok := CoversCost(p.Resources, b.BuildCost);
  }

  /** Subtracts each cost entry from the planet's stock, in place. */
  method DeductCost(p: Planet, cost: map<ResourceType, int>)
    modifies p`Resources
    ensures Deducted(old(p.Resources), p.Resources, cost)
  {
    var todo := cost.Keys;
    ghost var done: set<ResourceType> := {};
    while todo != {}
      invariant todo + done == cost.Keys && todo !! done
      invariant p.Resources.Keys == old(p.Resources).Keys + done
      invariant forall r :: r in p.Resources ==>
        p.Resources[r] == Get(old(p.Resources), r) - (if r in done then cost[r] else 0)
      decreases todo
    {
      HasElement(todo);
      var r :| r in todo;
      p.Resources := p.Resources[r := Get(p.Resources, r) - cost[r]];
      todo := todo - {r};
      done := done + {r};
    }
  }

  /** Places the building when allowed: deducts its cost and appends it to the
      planet's buildings. On refusal nothing changes. */
  method Build(p: Planet, b: Building) returns (ok: bool)
    modifies p`Resources, p`Buildings
    ensures ok <==> TypeAllows(p.Type, b.Type) && Affordable(old(p.Resources), b.BuildCost)
    ensures ok ==> Deducted(old(p.Resources), p.Resources, b.BuildCost) && p.Buildings == old(p.Buildings) + [b]
    ensures !ok ==> p.Resources == old(p.Resources) && p.Buildings == old(p.Buildings)
  {
    ok := CanBuild(p, b);
    if !ok {
      return;
    }
    DeductCost(p, b.BuildCost);
    p.Buildings := p.Buildings + [b];
  }

  /** An affordable deduction leaves every costed resource non-negative, and every
      resource outside the cost keeps its key (or absence) and its amount. */
  lemma AffordableDeductionStaysNonNegative(before: map<ResourceType, int>, after: map<ResourceType, int>,
                                            cost: map<ResourceType, int>)
    requires Affordable(before, cost) && Deducted(before, after, cost)
    ensures forall r :: r in cost ==> r in after && after[r] >= 0
    ensures forall r :: r !in cost ==> (r in after <==> r in before) && Get(after, r) == Get(before, r)
  {
  }

  /** A shortfall in any single entry makes the cost unaffordable. */
  lemma ShortfallIsUnaffordable(stock: map<ResourceType, int>, cost: map<ResourceType, int>, r: ResourceType)
    requires r in cost && Get(stock, r) < cost[r]
    ensures !Affordable(stock, cost)
  {
  }

  /** A Terra-like planet with 100 Iron builds a Mine costing 10 Iron and keeps 90;
      with the same stock, a cost of 200 Iron and 5 Food is unaffordable. */
  lemma BuildScenario(after: map<ResourceType, int>)
    requires Deducted(map[Iron := 100, Food := 50, Fuel := 30], after, map[Iron := 10])
    ensures TypeAllows(TerraLike, Mine) && Affordable(map[Iron := 100, Food := 50, Fuel := 30], map[Iron := 10])
    ensures after == map[Iron := 90, Food := 50, Fuel := 30]
    ensures !Affordable(map[Iron := 100, Food := 50, Fuel := 30], map[Iron := 200, Food := 5])
  {
    ShortfallIsUnaffordable(map[Iron := 100, Food := 50, Fuel := 30], map[Iron := 200, Food := 5], Iron);
  }
}
