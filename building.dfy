/** Upgrading a building: the upgrade costs the build cost scaled by the next level,
    is all-or-nothing, and raises the level by one. */
module Buildings {
  import opened Entities
  import opened Planets

  /** The cost of upgrading from `level`: each build-cost entry times `level + 1`. */
  function UpgradeCost(buildCost: map<ResourceType, int>, level: int): map<ResourceType, int>
  {
    map r | r in buildCost :: buildCost[r] * (level + 1)
  }

  /** Fills the upgrade-cost map entry by entry. */
  method ComputeUpgradeCost(buildCost: map<ResourceType, int>, level: int) returns (cost: map<ResourceType, int>)
    ensures cost.Keys == buildCost.Keys
    ensures forall r :: r in cost ==> cost[r] == buildCost[r] * (level + 1)
    ensures cost == UpgradeCost(buildCost, level)
  {
    cost := map[];
    var todo := buildCost.Keys;
    while todo != {}
      invariant todo <= buildCost.Keys
      invariant cost.Keys == buildCost.Keys - todo
      invariant forall r :: r in cost ==> cost[r] == buildCost[r] * (level + 1)
      decreases todo
    {
      HasElement(todo);
      var r :| r in todo;
      cost := cost[r := buildCost[r] * (level + 1)];
      todo := todo - {r};
    }
  }

  /** Upgrades `b` on planet `p` when the planet can pay the whole upgrade cost:
      deducts it and raises the level by one. On refusal nothing changes. */
  method Upgrade(b: Building, p: Planet) returns (ok: bool)
    modifies p`Resources, b`Level
    ensures ok <==> Affordable(old(p.Resources), UpgradeCost(b.BuildCost, old(b.Level)))
    ensures ok ==> Deducted(old(p.Resources), p.Resources, UpgradeCost(b.BuildCost, old(b.Level)))
    ensures ok ==> b.Level == old(b.Level) + 1
    ensures !ok ==> p.Resources == old(p.Resources) && b.Level == old(b.Level)
  {
    var cost := ComputeUpgradeCost(b.BuildCost, b.Level);
    ok := CoversCost(p.Resources, cost);
    if !ok {
      return;
    }
    DeductCost(p, cost);
    b.Level := b.Level + 1;
  }

  /** After an upgrade every costed resource is non-negative and every resource
      outside the build cost is untouched. */
  lemma UpgradeKeepsStockNonNegative(before: map<ResourceType, int>, after: map<ResourceType, int>,
                                     buildCost: map<ResourceType, int>, level: int)
    requires Affordable(before, UpgradeCost(buildCost, level))
    requires Deducted(before, after, UpgradeCost(buildCost, level))
    ensures forall r :: r in buildCost ==> r in after && after[r] >= 0
    ensures forall r :: r !in buildCost ==> (r in after <==> r in before) && Get(after, r) == Get(before, r)
  {
    AffordableDeductionStaysNonNegative(before, after, UpgradeCost(buildCost, level));
  }

  /** A level-1 building with build cost 10 Iron and 5 Food on a planet holding
      100 Iron and 50 Food: both upgrades succeed, the first costs twice and the
      second three times the build cost, leaving 50 Iron and 25 Food. */
  lemma TwoUpgradesScenario(mid: map<ResourceType, int>, after: map<ResourceType, int>)
    requires Deducted(map[Iron := 100, Food := 50], mid, UpgradeCost(map[Iron := 10, Food := 5], 1))
    requires Deducted(mid, after, UpgradeCost(map[Iron := 10, Food := 5], 2))
    ensures UpgradeCost(map[Iron := 10, Food := 5], 1) == map[Iron := 20, Food := 10]
    ensures UpgradeCost(map[Iron := 10, Food := 5], 2) == map[Iron := 30, Food := 15]
    ensures Affordable(map[Iron := 100, Food := 50], UpgradeCost(map[Iron := 10, Food := 5], 1))
    ensures Affordable(mid, UpgradeCost(map[Iron := 10, Food := 5], 2))
    ensures after == map[Iron := 50, Food := 25]
  {
    var bc := map[Iron := 10, Food := 5];
    assert UpgradeCost(bc, 1) == map[Iron := 20, Food := 10];
    assert UpgradeCost(bc, 2) == map[Iron := 30, Food := 15];
    assert mid == map[Iron := 80, Food := 40];
  }

  /** With 5 Iron against an upgrade needing 20, the upgrade is refused. */
  lemma InsufficientUpgradeScenario()
    ensures !Affordable(map[Iron := 5, Food := 50], UpgradeCost(map[Iron := 10, Food := 5], 1))
  {
    ShortfallIsUnaffordable(map[Iron := 5, Food := 50], UpgradeCost(map[Iron := 10, Food := 5], 1), Iron);
  }
}
