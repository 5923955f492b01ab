/** Random events. Each tick an event may strike one random planet; it multiplies
    the resource multipliers of the planet, or of one of its buildings, by a boost
    for five ticks, and when it expires the boost is divided back out. */
module Events {
  import opened Wrappers
  import opened Entities
  import opened Randomness

  /** The per-tick event chance before the planet-type factor. */
  const BaseEventChance: real := 0.05
  /** The lifetime of a new event, in ticks. */
  const EventDuration: int := 5

  /** Every name an event can carry. */
  const EventNames: set<string> := {
    "Mine Collapse", "Iron Boom", "Drought", "Bountiful Harvest", "Fuel Boost", "Economic Boom",
    "Heatwave", "Resource Windfall", "Storm Surge", "Ice Storm", "Normal Fluctuation", "Generic Event"
  }

  /** A boost that changes nothing. */
  const NeutralBoost: map<ResourceType, real> := map[Iron := 1.0, Food := 1.0, Fuel := 1.0]

  // ---------------------------------------------------------------------------
  // Trigger chance

  /** The trigger chance on a planet: the base chance scaled by a factor of the
      planet type; an unknown type keeps the base chance. */
  function EventChance(pt: PlanetType): (c: real)
    ensures 0.04 <= c <= 0.075
    ensures !IsPlanetType(pt) ==> c == BaseEventChance
    ensures pt == Desert <==> c == 0.075
  {
    BaseEventChance *
      (if pt == TerraLike then 1.0
       else if pt == Desert then 1.5
       else if pt == GasGiant then 0.8
       else if pt == Icy then 1.2
       else 1.0)
  }

  /** One Seek draw, compared strictly against the chance. */
  method ShouldTriggerEvent(rand: Random, chance: real) returns (result: bool)
    modifies rand
    ensures result <==> rand.seek(old(rand.calls)) < chance
    ensures rand.calls == old(rand.calls) + 1
    ensures rand.Fractional() && chance <= 0.0 ==> !result
    ensures rand.Fractional() && chance >= 1.0 ==> result
  {
    var x := rand.Seek();
    result := x < chance;
  }

  // ---------------------------------------------------------------------------
  // Name table

  /** The name of an event on a building of kind `bt` on a planet of type `pt`,
      given the Seek value a draw would return. */
  function BuildingEventName(bt: BuildingType, pt: PlanetType, draw: real): (name: string)
    ensures name in EventNames
    ensures name == "Generic Event" <==> !IsBuildingType(bt)
    ensures name == "Drought" ==> pt == Desert
  {
    if bt == Mine then (if draw < 0.7 then "Mine Collapse" else "Iron Boom")
    else if bt == Farm then (if pt == Desert && draw < 0.5 then "Drought" else "Bountiful Harvest")
    else if bt == Refinery then "Fuel Boost"
    else if bt == City then "Economic Boom"
    else "Generic Event"
  }

  /** How many Seek draws the building name takes: one for a Mine and for a Farm
      on a Desert, none otherwise; without a draw the name does not depend on it. */
  function BuildingNameDraws(bt: BuildingType, pt: PlanetType): (n: nat)
    ensures n <= 1
    ensures n == 0 ==> forall d :: BuildingEventName(bt, pt, d) == BuildingEventName(bt, pt, 0.0)
  {
    if bt == Mine || (bt == Farm && pt == Desert) then 1 else 0
  }

  /** The name of a planet-wide event on a planet of type `pt`. */
  function PlanetEventName(pt: PlanetType, draw: real): (name: string)
    ensures name in EventNames
    ensures name == "Generic Event" <==> !IsPlanetType(pt)
    ensures name == "Heatwave" || name == "Resource Windfall" <==> pt == Desert
  {
    if pt == Desert then (if draw < 0.6 then "Heatwave" else "Resource Windfall")
    else if pt == GasGiant then "Storm Surge"
    else if pt == Icy then "Ice Storm"
    else if pt == TerraLike then "Normal Fluctuation"
    else "Generic Event"
  }

  /** How many Seek draws the planet name takes: one on a Desert only. */
  function PlanetNameDraws(pt: PlanetType): (n: nat)
    ensures n <= 1
    ensures n == 0 ==> forall d :: PlanetEventName(pt, d) == PlanetEventName(pt, 0.0)
  {
    if pt == Desert then 1 else 0
  }

  /** The name chosen from draw `k` on, and the position of the next draw. A
      building event on a planet with buildings draws its own building first. */
  function DrawnName(p: Planet, target: EventTarget, rand: Random, k: nat): (r: (string, nat))
    reads p`Buildings
    ensures r.0 in EventNames
    ensures k <= r.1 <= k + 2
  {
    if target == BuildingTarget && |p.Buildings| > 0 then
      var bt := p.Buildings[rand.of(k) % |p.Buildings|].Type;
      (BuildingEventName(bt, p.Type, rand.seek(k + 1)), k + 1 + BuildingNameDraws(bt, p.Type))
    else
      (PlanetEventName(p.Type, rand.seek(k)), k + PlanetNameDraws(p.Type))
  }

  /** Picks the event's name, taking only the draws the table needs. */
  method ChooseEventName(p: Planet, target: EventTarget, rand: Random) returns (name: string)
    modifies rand
    ensures (name, rand.calls) == DrawnName(p, target, rand, old(rand.calls))
  {
    if target == BuildingTarget && |p.Buildings| > 0 {
      var i := rand.Of(|p.Buildings|);
      var b := p.Buildings[i];
      var x := 0.0;
      if BuildingNameDraws(b.Type, p.Type) == 1 {
        x := rand.Seek();
      }
      name := BuildingEventName(b.Type, p.Type, x);
    } else {
      var x := 0.0;
      if PlanetNameDraws(p.Type) == 1 {
        x := rand.Seek();
      }
      name := PlanetEventName(p.Type, x);
    }
  }

  // ---------------------------------------------------------------------------
  // Boost table

  /** The resources an event on a building of kind `bt` can change. */
  function AffectedResources(bt: BuildingType): set<ResourceType>
  {
    if bt == Mine then {Iron}
    else if bt == Farm then {Food}
    else if bt == Refinery then {Fuel}
    else if bt == City then {Iron, Food}
    else {}
  }

  /** The boost of an event on a building of kind `bt` on a planet of type `pt`. */
  function BuildingBoost(bt: BuildingType, pt: PlanetType, draw: real): (boost: map<ResourceType, real>)
    ensures boost.Keys == {Iron, Food, Fuel}
    ensures forall r :: r in boost ==> boost[r] > 0.0
    ensures forall r :: r in boost && r !in AffectedResources(bt) ==> boost[r] == 1.0
    ensures !IsBuildingType(bt) ==> boost == NeutralBoost
  {
    if bt == Mine then NeutralBoost[Iron := if draw < 0.7 then 1.5 else 0.5]
    else if bt == Farm then NeutralBoost[Food := if pt == Desert && draw < 0.5 then 0.5 else 1.4]
    else if bt == Refinery then NeutralBoost[Fuel := if draw < 0.6 then 1.6 else 0.8]
    else if bt == City then NeutralBoost[Iron := 1.1][Food := 1.1]
    else NeutralBoost
  }

  /** How many Seek draws a building boost takes: one for a Mine, a Refinery and
      a Farm on a Desert; without a draw the boost does not depend on it. */
  function BuildingBoostDraws(bt: BuildingType, pt: PlanetType): (n: nat)
    ensures n <= 1
    ensures n == 0 ==> forall d :: BuildingBoost(bt, pt, d) == BuildingBoost(bt, pt, 0.0)
  {
    if bt == Mine || bt == Refinery || (bt == Farm && pt == Desert) then 1 else 0
  }

  /** The boost of a planet-wide event before the random variation. Only a Gas
      Giant's Food boost is zero. */
  function PlanetBoost(pt: PlanetType): (boost: map<ResourceType, real>)
    ensures boost.Keys == {Iron, Food, Fuel}
    ensures forall r :: r in boost ==> boost[r] >= 0.0
    ensures forall r :: r in boost ==> (boost[r] == 0.0 <==> pt == GasGiant && r == Food)
    ensures pt == TerraLike || !IsPlanetType(pt) ==> boost == NeutralBoost
  {
    if pt == Desert then map[Iron := 1.2, Food := 0.5, Fuel := 1.0]
    else if pt == GasGiant then map[Iron := 1.3, Food := 0.0, Fuel := 1.5]
    else if pt == Icy then map[Iron := 1.0, Food := 0.7, Fuel := 1.0]
    else NeutralBoost
  }

  /** The base boosts per planet type: deserts lose Food, Gas Giants lose all
      Food and gain Iron and Fuel, Icy planets lose some Food. */
  lemma PlanetBoostTable()
    ensures PlanetBoost(Desert) == map[Food := 0.5, Iron := 1.2, Fuel := 1.0]
    ensures PlanetBoost(GasGiant) == map[Food := 0.0, Iron := 1.3, Fuel := 1.5]
    ensures PlanetBoost(Icy) == map[Food := 0.7, Iron := 1.0, Fuel := 1.0]
    ensures PlanetBoost(TerraLike) == map[Food := 1.0, Iron := 1.0, Fuel := 1.0]
  {
  }

  /** The random variation factor for one draw: within five percent of 1. */
  function Jitter(draw: real): (f: real)
    ensures 0.0 <= draw < 1.0 ==> 0.95 <= f < 1.05
    ensures draw == 0.5 ==> f == 1.0
  {
    1.0 + (draw - 0.5) * 0.1
  }

  /** A boost with each of Iron, Food and Fuel scaled by its own variation draw. */
  function Jittered(boost: map<ResourceType, real>, dIron: real, dFood: real, dFuel: real): (j: map<ResourceType, real>)
    requires boost.Keys == {Iron, Food, Fuel}
    ensures j.Keys == boost.Keys
    ensures j[Iron] == boost[Iron] * Jitter(dIron) && j[Food] == boost[Food] * Jitter(dFood)
    ensures j[Fuel] == boost[Fuel] * Jitter(dFuel)
  {
    boost[Iron := boost[Iron] * Jitter(dIron)][Food := boost[Food] * Jitter(dFood)][Fuel := boost[Fuel] * Jitter(dFuel)]
  }

  /** The boost chosen from draw `k` on, and the position of the next draw. A
      building event uses the building table; a planet-wide event uses the planet
      table and, when its first draw is below 0.1, three variation draws. */
  function DrawnBoost(p: Planet, target: EventTarget, b: Building?, rand: Random, k: nat): (r: (map<ResourceType, real>, nat))
    ensures r.0.Keys == {Iron, Food, Fuel}
    ensures k <= r.1 <= k + 4
  {
    if target == BuildingTarget && b != null then
      (BuildingBoost(b.Type, p.Type, rand.seek(k)), k + BuildingBoostDraws(b.Type, p.Type))
    else if rand.seek(k) < 0.1 then
      (Jittered(PlanetBoost(p.Type), rand.seek(k + 1), rand.seek(k + 2), rand.seek(k + 3)), k + 4)
    else
      (PlanetBoost(p.Type), k + 1)
  }

  /** Picks the event's boost, taking only the draws the tables need. */
  method ChooseEventBoost(p: Planet, target: EventTarget, b: Building?, rand: Random) returns (boost: map<ResourceType, real>)
    modifies rand
    ensures (boost, rand.calls) == DrawnBoost(p, target, b, rand, old(rand.calls))
  {
    if target == BuildingTarget && b != null {
      var x := 0.0;
      if BuildingBoostDraws(b.Type, p.Type) == 1 {
        x := rand.Seek();
      }
      boost := BuildingBoost(b.Type, p.Type, x);
    } else {
      boost := PlanetBoost(p.Type);
      var x := rand.Seek();
      if x < 0.1 {
        var dIron := rand.Seek();
        var dFood := rand.Seek();
        var dFuel := rand.Seek();
        boost := Jittered(boost, dIron, dFood, dFuel);
      }
    }
  }

  // ---------------------------------------------------------------------------
  // Applying and reverting a boost

  /** The multipliers after a boost is applied: a nil map becomes a map, every
      boosted resource's multiplier (unset or zero counting as 1.0) is multiplied
      by its boost, and the other entries are kept. */
  function Boosted(mods: Option<map<ResourceType, real>>, boost: map<ResourceType, real>): map<ResourceType, real>
  {
    map r | r in ModKeys(mods) + boost.Keys :: if r in boost then Norm(ModOf(mods, r)) * boost[r] else ModOf(mods, r)
  }

  /** One multiplier after a boost `x` is reverted: an unset or zero multiplier is
      reset to 1.0, any other is divided by the boost, and a zero quotient is reset
      to 1.0. A zero boost leaves a non-zero multiplier as it is. */
  function RevertValue(m: real, x: real): (v: real)
    ensures v != 0.0
    ensures m == 0.0 ==> v == 1.0
    ensures m != 0.0 && x != 0.0 ==> v * x == m
    ensures m != 0.0 && x == 0.0 ==> v == m
  {
    if m == 0.0 then 1.0
    else if x == 0.0 then m
    else if m / x == 0.0 then 1.0
    else m / x
  }

  /** The multipliers after a boost is reverted: a nil map stays nil; every boosted
      resource is reverted and the other entries are kept. */
  function Reverted(mods: Option<map<ResourceType, real>>, boost: map<ResourceType, real>): Option<map<ResourceType, real>>
  {
    if mods.None? then None
    else Some(map r | r in mods.value.Keys + boost.Keys :: if r in boost then RevertValue(ModOf(mods, r), boost[r]) else mods.value[r])
  }

  /** Applies a boost entry by entry, in the boost map's order. */
  method ApplyBoost(mods: Option<map<ResourceType, real>>, boost: map<ResourceType, real>) returns (after: map<ResourceType, real>)
    ensures after == Boosted(mods, boost)
  {
    after := if mods.Some? then mods.value else map[];
    var todo := boost.Keys;
    while todo != {}
      invariant todo <= boost.Keys
      invariant after.Keys == ModKeys(mods) + (boost.Keys - todo)
      invariant forall r :: r in after ==> after[r] == (if r in boost && r !in todo then Norm(ModOf(mods, r)) * boost[r] else ModOf(mods, r))
      decreases todo
    {
      HasElement(todo);
      var r :| r in todo;
      var m := if r in after then after[r] else 0.0;
      if m == 0.0 {
        m := 1.0;
      }
      after := after[r := m * boost[r]];
      todo := todo - {r};
    }
    assert after.Keys == Boosted(mods, boost).Keys;
    assert forall r :: r in after ==> after[r] == Boosted(mods, boost)[r];
  }

  /** Reverts a boost entry by entry; a nil map is skipped. */
  method RevertBoost(mods: Option<map<ResourceType, real>>, boost: map<ResourceType, real>) returns (after: Option<map<ResourceType, real>>)
    ensures after == Reverted(mods, boost)
  {
    if mods.None? {
      return None;
    }
    var m := mods.value;
    var todo := boost.Keys;
    while todo != {}
      invariant todo <= boost.Keys
      invariant m.Keys == mods.value.Keys + (boost.Keys - todo)
      invariant forall r :: r in m ==> m[r] == (if r in boost && r !in todo then RevertValue(ModOf(mods, r), boost[r]) else mods.value[r])
      decreases todo
    {
      HasElement(todo);
      var r :| r in todo;
      var v := if r in m then m[r] else 0.0;
      if v == 0.0 {
        m := m[r := 1.0];
      } else if boost[r] != 0.0 {
        m := m[r := v / boost[r]];
        if m[r] == 0.0 {
          m := m[r := 1.0];
        }
      }
      todo := todo - {r};
    }
    assert m.Keys == Reverted(mods, boost).value.Keys;
    assert forall r :: r in m ==> m[r] == Reverted(mods, boost).value[r];
    assert m == Reverted(mods, boost).value;
    after := Some(m);
  }

  /** Reverting a boost undoes applying it when no boost entry is zero: every
      multiplier comes back, except that an unset or zero boosted one comes back
      as 1.0. */
  lemma {:induction false} RevertUndoesBoost(mods: Option<map<ResourceType, real>>, boost: map<ResourceType, real>)
    requires forall r :: r in boost ==> boost[r] != 0.0
    ensures Reverted(Some(Boosted(mods, boost)), boost).Some?
    ensures var back := Reverted(Some(Boosted(mods, boost)), boost).value;
      && back.Keys == ModKeys(mods) + boost.Keys
      && forall r :: r in back ==> back[r] == (if r in boost then Norm(ModOf(mods, r)) else ModOf(mods, r))
  {
    var back := Reverted(Some(Boosted(mods, boost)), boost).value;
    assert back.Keys == ModKeys(mods) + boost.Keys;
    forall r | r in back
      ensures back[r] == (if r in boost then Norm(ModOf(mods, r)) else ModOf(mods, r))
    {
      RevertBoostedEntry(mods, boost, r);
    }
  }

  /** One entry of `RevertUndoesBoost`. */
  lemma RevertBoostedEntry(mods: Option<map<ResourceType, real>>, boost: map<ResourceType, real>, r: ResourceType)
    requires r in boost ==> boost[r] != 0.0
    requires r in ModKeys(mods) + boost.Keys
    ensures Reverted(Some(Boosted(mods, boost)), boost).value[r] == (if r in boost then Norm(ModOf(mods, r)) else ModOf(mods, r))
  {
    var up := Some(Boosted(mods, boost));
    var back := Reverted(up, boost).value;
    assert r in up.value;
    if r in boost {
      var n, x := Norm(ModOf(mods, r)), boost[r];
      assert ModOf(up, r) == n * x;
      assert back[r] == RevertValue(n * x, x);
      RevertScaled(n, x);
    } else {
      assert back[r] == up.value[r];
    }
  }

  /** Dividing a scaled non-zero multiplier by its non-zero boost gives it back. */
  lemma RevertScaled(n: real, x: real)
    requires n != 0.0 && x != 0.0
    ensures RevertValue(n * x, x) == n
  {
    assert n * x != 0.0;
    assert (n * x) / x == n;
  }

  /** A zero boost entry forgets the multiplier: after applying and reverting it
      the multiplier is 1.0 whatever it was before. */
  lemma ZeroBoostResetsMultiplier(mods: Option<map<ResourceType, real>>, boost: map<ResourceType, real>, r: ResourceType)
    requires r in boost && boost[r] == 0.0
    ensures Reverted(Some(Boosted(mods, boost)), boost).value[r] == 1.0
  {
    assert Boosted(mods, boost)[r] == 0.0;
  }

  /** Applying any boost to a nil multiplier map creates one keyed by the boost. */
  lemma BoostCreatesMap(boost: map<ResourceType, real>)
    ensures Boosted(None, boost).Keys == boost.Keys
    ensures forall r :: r in boost ==> Boosted(None, boost)[r] == boost[r]
  {
  }

  // ---------------------------------------------------------------------------
  // Triggering

  /** Every building on the listed planets. */
  function BuildingsOf(planets: seq<Planet>): set<Building>
    reads planets`Buildings
  {
    set p, b | p in planets && b in p.Buildings :: b
  }

  /** The planet an event boosts as a whole, if any. */
  function PlanetOf(e: Event): set<Planet>
  {
    if e.Target == PlanetTarget && e.TargetPlanet != null then {e.TargetPlanet} else {}
  }

  /** The building an event boosts, if any. */
  function BuildingOf(e: Event): set<Building>
  {
    if e.Target == BuildingTarget && e.TargetBuilding != null then {e.TargetBuilding} else {}
  }

  /** The target drawn for an event on planet p from position k on: with
      buildings, one Seek draw below 0.5 picks a building by one integer draw;
      otherwise the planet itself is the target. Returns the target, the building
      (null for a planet-wide event) and the next draw position. */
  function DrawnTarget(p: Planet, rand: Random, k: nat): (r: (EventTarget, Building?, nat))
    reads p`Buildings
    ensures r.0 == BuildingTarget <==> r.1 != null
    ensures r.1 != null ==> r.1 in p.Buildings
    ensures r.0 == BuildingTarget <==> |p.Buildings| > 0 && rand.seek(k) < 0.5
    ensures |p.Buildings| == 0 ==> r.2 == k
    ensures |p.Buildings| > 0 ==> r.2 == k + (if r.0 == BuildingTarget then 2 else 1)
  {
    if |p.Buildings| > 0 && rand.seek(k) < 0.5 then (BuildingTarget, p.Buildings[rand.of(k + 1) % |p.Buildings|], k + 2)
    else (PlanetTarget, null, k + (if |p.Buildings| > 0 then 1 else 0))
  }

  /** Draws the target of a new event on planet p. */
  method ChooseTarget(p: Planet, rand: Random) returns (target: EventTarget, building: Building?)
    modifies rand
    ensures (target, building, rand.calls) == DrawnTarget(p, rand, old(rand.calls))
    ensures building != null ==> building == p.Buildings[rand.of(old(rand.calls) + 1) % |p.Buildings|]
  {
    target := PlanetTarget;
    building := null;
    if |p.Buildings| > 0 {
      var x := rand.Seek();
      if x < 0.5 {
        target := BuildingTarget;
        var bi := rand.Of(|p.Buildings|);
        building := p.Buildings[bi];
      }
    }
  }

  /** Applies a new event's boost to its target at once. */
  method Activate(e: Event)
    modifies PlanetOf(e)`Modifiers, BuildingOf(e)`Modifiers
    ensures forall q :: q in PlanetOf(e) ==> q.Modifiers == Some(Boosted(old(q.Modifiers), e.ResourceBoost))
    ensures forall b :: b in BuildingOf(e) ==> b.Modifiers == Some(Boosted(old(b.Modifiers), e.ResourceBoost))
  {
    if e.Target == PlanetTarget && e.TargetPlanet != null {
      var q := e.TargetPlanet;
      var after := ApplyBoost(q.Modifiers, e.ResourceBoost);
      q.Modifiers := Some(after);
    } else if e.Target == BuildingTarget && e.TargetBuilding != null {
      var b := e.TargetBuilding;
      var after := ApplyBoost(b.Modifiers, e.ResourceBoost);
      b.Modifiers := Some(after);
    }
  }

  /** What a triggered event is made of. */
  datatype Plan = Plan(planet: Planet, target: EventTarget, building: Building?,
                       name: string, boost: map<ResourceType, real>, next: nat)

  /** The event drawn from position k on: an integer draw picks the planet, the
      next Seek draw is the trigger test, and the target, name and boost draws
      follow in that order; `next` is the position after the last draw. */
  function DrawnEvent(planets: seq<Planet>, rand: Random, k: nat): (plan: Plan)
    requires |planets| > 0
    reads planets`Buildings
    ensures plan.planet in planets
    ensures plan.target == BuildingTarget <==> plan.building != null
    ensures plan.building != null ==> plan.building in plan.planet.Buildings
    ensures plan.name in EventNames
    ensures plan.boost.Keys == {Iron, Food, Fuel}
    ensures k + 2 <= plan.next <= k + 10
  {
    var p := planets[rand.of(k) % |planets|];
    var t := DrawnTarget(p, rand, k + 2);
    var n := DrawnName(p, t.0, rand, t.2);
    var b := DrawnBoost(p, t.0, t.1, rand, n.1);
    Plan(p, t.0, t.1, n.0, b.0, b.1)
  }

  /** The event carries the plan's description and a fresh countdown. */
  predicate Carries(e: Event, plan: Plan)
    reads e`RemainingTicks
  {
    && e.Target == plan.target && e.TargetPlanet == plan.planet && e.TargetBuilding == plan.building
    && e.Name == plan.name && e.ResourceBoost == plan.boost
    && e.Duration == EventDuration && e.RemainingTicks == EventDuration
  }

  /** Whether the draws from position k on trigger an event: the planet chosen
      by the first draw has a chance above the second. */
  predicate Triggers(planets: seq<Planet>, rand: Random, k: nat)
    requires |planets| > 0
  {
    rand.seek(k + 1) < EventChance(planets[rand.of(k) % |planets|].Type)
  }

  /** The drawing half of a trigger attempt: picks the planet, makes the trigger
      test and, on success, draws and creates the event (null otherwise). */
  method DrawEvent(planets: seq<Planet>, rand: Random) returns (e: Event?)
    requires |planets| > 0
    modifies rand
    ensures e != null <==> Triggers(planets, rand, old(rand.calls))
    ensures e == null ==> rand.calls == old(rand.calls) + 2
    ensures e != null ==> fresh(e) && Carries(e, DrawnEvent(planets, rand, old(rand.calls)))
    ensures e != null ==> rand.calls == DrawnEvent(planets, rand, old(rand.calls)).next
  {
    ghost var plan := DrawnEvent(planets, rand, rand.calls);
    var idx := rand.Of(|planets|);
    var p := planets[idx];
    var trigger := ShouldTriggerEvent(rand, EventChance(p.Type));
    if !trigger {
      return null;
    }
    var target, building := ChooseTarget(p, rand);
    var name := ChooseEventName(p, target, rand);
    var boost := ChooseEventBoost(p, target, building, rand);
    e := new Event(name, target, p, building, boost, EventDuration, EventDuration);
  }

  /** Picks a random planet and, when a Seek draw falls below its chance, creates
      a five-tick event on the planet or, half of the time when it has buildings,
      on one of them; applies the boost at once and appends the event. */
  method MaybeTriggerEvent(planets: seq<Planet>, activeEvents: seq<Event>, rand: Random) returns (events: seq<Event>)
    modifies rand, planets`Modifiers, BuildingsOf(planets)`Modifiers
    ensures |planets| == 0 ==> events == activeEvents && rand.calls == old(rand.calls)
    ensures events == activeEvents || (|events| == |activeEvents| + 1 && events[..|activeEvents|] == activeEvents)
    ensures |planets| > 0 ==> (|events| > |activeEvents| <==> Triggers(planets, rand, old(rand.calls)))
    ensures |planets| > 0 && |events| == |activeEvents| ==> rand.calls == old(rand.calls) + 2
    ensures |events| > |activeEvents| ==>
      && fresh(events[|activeEvents|])
      && Carries(events[|activeEvents|], old(DrawnEvent(planets, rand, rand.calls)))
      && rand.calls == old(DrawnEvent(planets, rand, rand.calls)).next
    ensures forall q :: q in planets ==>
      q.Modifiers == (if |events| > |activeEvents| && q in PlanetOf(events[|activeEvents|])
                      then Some(Boosted(old(q.Modifiers), events[|activeEvents|].ResourceBoost))
                      else old(q.Modifiers))
    ensures forall b :: b in BuildingsOf(planets) ==>
      b.Modifiers == (if |events| > |activeEvents| && b in BuildingOf(events[|activeEvents|])
                      then Some(Boosted(old(b.Modifiers), events[|activeEvents|].ResourceBoost))
                      else old(b.Modifiers))
  {
    events := activeEvents;
    if |planets| == 0 {
      return;
    }
    var e := DrawEvent(planets, rand);
    if e == null {
      return;
    }
    assert forall q :: q in PlanetOf(e) ==> q in planets;
    assert BuildingOf(e) <= BuildingsOf(planets);
    Activate(e);
    events := activeEvents + [e];
  }

  // ---------------------------------------------------------------------------
  // Countdown and expiry

  /** The countdown of every listed event. */
  function TicksOf(es: seq<Event>): (ticks: seq<int>)
    reads es
    ensures |ticks| == |es|
    ensures forall j :: 0 <= j < |es| ==> ticks[j] == es[j].RemainingTicks
  {
    if es == [] then [] else TicksOf(es[..|es| - 1]) + [es[|es| - 1].RemainingTicks]
  }

  /** How many times an event is listed among the first n listings: the count
      `Occurrences` gives, for a list of events. */
  function Listings(es: seq<Event>, n: nat, e: Event): nat
    requires n <= |es|
  {
    if n == 0 then 0 else Listings(es, n - 1, e) + (if es[n - 1] == e then 1 else 0)
  }

  /** Counting listings is counting occurrences. */
  lemma {:induction false} ListingsAreOccurrences(es: seq<Event>, n: nat, e: Event)
    requires n <= |es|
    ensures Listings(es, n, e) == Occurrences(es, n, e)
    decreases n
  {
    if n > 0 {
      ListingsAreOccurrences(es, n - 1, e);
    }
  }

  /** Whether the j-th listing is still running after its own decrement, given the
      countdowns before the pass: an event listed more than once is decremented
      once per listing, so its j-th listing sees its countdown lowered by the
      number of its listings up to j. */
  predicate StillRunning(es: seq<Event>, ticks: seq<int>, j: nat)
    requires j < |es| == |ticks|
  {
    ticks[j] - Listings(es, j + 1, es[j]) > 0
  }

  /** The listings among the first n still running, in list order. */
  function Survivors(es: seq<Event>, ticks: seq<int>, n: nat): (kept: seq<Event>)
    requires n <= |es| == |ticks|
    ensures |kept| <= n
    ensures forall e :: e in kept ==> e in es[..n]
  {
    if n == 0 then []
    else Survivors(es, ticks, n - 1) + (if StillRunning(es, ticks, n - 1) then [es[n - 1]] else [])
  }

  /** The boosts reverted from planet q by the first n listings, in list order. */
  function PlanetReverts(es: seq<Event>, ticks: seq<int>, n: nat, q: Planet): seq<map<ResourceType, real>>
    requires n <= |es| == |ticks|
  {
    if n == 0 then []
    else
      PlanetReverts(es, ticks, n - 1, q) +
      (if !StillRunning(es, ticks, n - 1) && es[n - 1].Target == PlanetTarget && es[n - 1].TargetPlanet == q
       then [es[n - 1].ResourceBoost] else [])
  }

  /** The boosts reverted from building b by the first n listings, in list order. */
  function BuildingReverts(es: seq<Event>, ticks: seq<int>, n: nat, b: Building): seq<map<ResourceType, real>>
    requires n <= |es| == |ticks|
  {
    if n == 0 then []
    else
      BuildingReverts(es, ticks, n - 1, b) +
      (if !StillRunning(es, ticks, n - 1) && es[n - 1].Target == BuildingTarget && es[n - 1].TargetBuilding == b
       then [es[n - 1].ResourceBoost] else [])
  }

  /** The multipliers after each of the boosts is reverted in turn. */
  function RevertAll(mods: Option<map<ResourceType, real>>, boosts: seq<map<ResourceType, real>>): Option<map<ResourceType, real>>
  {
    if boosts == [] then mods
    else Reverted(RevertAll(mods, boosts[..|boosts| - 1]), boosts[|boosts| - 1])
  }

  /** The planets events of the list target as a whole. */
  function PlanetsTargeted(es: seq<Event>): set<Planet>
  {
    set e | e in es && e.Target == PlanetTarget && e.TargetPlanet != null :: e.TargetPlanet
  }

  /** The buildings events of the list target. */
  function BuildingsTargeted(es: seq<Event>): set<Building>
  {
    set e | e in es && e.Target == BuildingTarget && e.TargetBuilding != null :: e.TargetBuilding
  }

  /** Reverts an expired event's boost from its target. */
  method Expire(e: Event)
    modifies PlanetOf(e)`Modifiers, BuildingOf(e)`Modifiers
    ensures forall q :: q in PlanetOf(e) ==> q.Modifiers == Reverted(old(q.Modifiers), e.ResourceBoost)
    ensures forall b :: b in BuildingOf(e) ==> b.Modifiers == Reverted(old(b.Modifiers), e.ResourceBoost)
  {
    if e.Target == PlanetTarget && e.TargetPlanet != null {
      var q := e.TargetPlanet;
      q.Modifiers := RevertBoost(q.Modifiers, e.ResourceBoost);
    } else if e.Target == BuildingTarget && e.TargetBuilding != null {
      var b := e.TargetBuilding;
      b.Modifiers := RevertBoost(b.Modifiers, e.ResourceBoost);
    }
  }

  /** Counts every listed event down by one tick, keeps those still running in
      order, and reverts the boost of each one that expires from its target. */
  method UpdateEvents(activeEvents: seq<Event>) returns (remaining: seq<Event>)
    modifies activeEvents`RemainingTicks, PlanetsTargeted(activeEvents)`Modifiers, BuildingsTargeted(activeEvents)`Modifiers
    ensures forall e :: e in activeEvents ==> e.RemainingTicks == old(e.RemainingTicks) - Listings(activeEvents, |activeEvents|, e)
    ensures remaining == Survivors(activeEvents, old(TicksOf(activeEvents)), |activeEvents|)
    ensures forall q :: q in PlanetsTargeted(activeEvents) ==>
      q.Modifiers == RevertAll(old(q.Modifiers), PlanetReverts(activeEvents, old(TicksOf(activeEvents)), |activeEvents|, q))
    ensures forall b :: b in BuildingsTargeted(activeEvents) ==>
      b.Modifiers == RevertAll(old(b.Modifiers), BuildingReverts(activeEvents, old(TicksOf(activeEvents)), |activeEvents|, b))
  {
    ghost var ticks := TicksOf(activeEvents);
    ghost var planets := PlanetsTargeted(activeEvents);
    ghost var buildings := BuildingsTargeted(activeEvents);
    remaining := [];
    var i := 0;
    while i < |activeEvents|
      modifies activeEvents`RemainingTicks, planets`Modifiers, buildings`Modifiers
      invariant 0 <= i <= |activeEvents|
      invariant forall e {:trigger Listings(activeEvents, i, e)} :: e in activeEvents ==>
        e.RemainingTicks == old(e.RemainingTicks) - Listings(activeEvents, i, e)
      invariant remaining == Survivors(activeEvents, ticks, i)
      invariant forall q {:trigger PlanetReverts(activeEvents, ticks, i, q)} :: q in planets ==>
        q.Modifiers == RevertAll(old(q.Modifiers), PlanetReverts(activeEvents, ticks, i, q))
      invariant forall b {:trigger BuildingReverts(activeEvents, ticks, i, b)} :: b in buildings ==>
        b.Modifiers == RevertAll(old(b.Modifiers), BuildingReverts(activeEvents, ticks, i, b))
    {
      var e := activeEvents[i];
      assert e in activeEvents && PlanetOf(e) <= planets && BuildingOf(e) <= buildings;
      assert ticks[i] == old(e.RemainingTicks);
      assert e.RemainingTicks == old(e.RemainingTicks) - Listings(activeEvents, i, e);
      e.RemainingTicks := e.RemainingTicks - 1;
      assert e.RemainingTicks > 0 <==> StillRunning(activeEvents, ticks, i);
      label Step:
      if e.RemainingTicks > 0 {
        remaining := remaining + [e];
      } else {
        Expire(e);
      }
      assert remaining == Survivors(activeEvents, ticks, i + 1);
      forall q | q in planets
        ensures q.Modifiers == RevertAll(old(q.Modifiers), PlanetReverts(activeEvents, ticks, i + 1, q))
      {
        if !StillRunning(activeEvents, ticks, i) && e.Target == PlanetTarget && e.TargetPlanet == q {
          assert PlanetReverts(activeEvents, ticks, i + 1, q) == PlanetReverts(activeEvents, ticks, i, q) + [e.ResourceBoost];
          RevertAllSnoc(old(q.Modifiers), PlanetReverts(activeEvents, ticks, i, q), e.ResourceBoost);
        } else {
          assert q.Modifiers == old@Step(q.Modifiers);
          assert PlanetReverts(activeEvents, ticks, i + 1, q) == PlanetReverts(activeEvents, ticks, i, q);
        }
      }
      forall b | b in buildings
        ensures b.Modifiers == RevertAll(old(b.Modifiers), BuildingReverts(activeEvents, ticks, i + 1, b))
      {
        if !StillRunning(activeEvents, ticks, i) && e.Target == BuildingTarget && e.TargetBuilding == b {
          assert BuildingReverts(activeEvents, ticks, i + 1, b) == BuildingReverts(activeEvents, ticks, i, b) + [e.ResourceBoost];
          RevertAllSnoc(old(b.Modifiers), BuildingReverts(activeEvents, ticks, i, b), e.ResourceBoost);
        } else {
          assert b.Modifiers == old@Step(b.Modifiers);
          assert BuildingReverts(activeEvents, ticks, i + 1, b) == BuildingReverts(activeEvents, ticks, i, b);
        }
      }
      i := i + 1;
    }
  }

  /** Reverting one more boost extends the fold by one step. */
  lemma RevertAllSnoc(mods: Option<map<ResourceType, real>>, boosts: seq<map<ResourceType, real>>, b: map<ResourceType, real>)
    ensures RevertAll(mods, boosts + [b]) == Reverted(RevertAll(mods, boosts), b)
  {
    assert (boosts + [b])[..|boosts|] == boosts;
  }

  /** No event is listed twice. */
  predicate Distinct(es: seq<Event>)
  {
    forall i, j :: 0 <= i < j < |es| ==> es[i] != es[j]
  }

  /** An event absent from the first n listings is counted zero times there. */
  lemma {:induction false} UnlistedCountsZero(es: seq<Event>, n: nat, x: Event)
    requires n <= |es|
    requires forall k :: 0 <= k < n ==> es[k] != x
    ensures Listings(es, n, x) == 0
  {
    if n > 0 {
      UnlistedCountsZero(es, n - 1, x);
    }
  }

  /** In a list without repeats, each listed event is counted exactly once. */
  lemma {:induction false} ListedOnce(es: seq<Event>, n: nat, j: nat)
    requires Distinct(es) && j < n <= |es|
    ensures Listings(es, n, es[j]) == 1
  {
    if n == j + 1 {
      UnlistedCountsZero(es, j, es[j]);
    } else {
      ListedOnce(es, n - 1, j);
    }
  }

  /** Without repeats, one pass lowers every countdown by exactly one. */
  lemma DistinctCountsDownOnce(es: seq<Event>, e: Event)
    requires Distinct(es) && e in es
    ensures Listings(es, |es|, e) == 1
  {
    var j :| 0 <= j < |es| && es[j] == e;
    ListedOnce(es, |es|, j);
  }

  /** Without repeats, the survivors of a pass are exactly the listings whose
      countdown was above one (so is still positive after the decrement), and
      they have no repeats either. */
  lemma {:induction false} DistinctSurvivors(es: seq<Event>, ticks: seq<int>, n: nat)
    requires Distinct(es) && n <= |es| == |ticks|
    ensures Distinct(Survivors(es, ticks, n))
    ensures forall j :: 0 <= j < n ==> (es[j] in Survivors(es, ticks, n) <==> ticks[j] > 1)
  {
    if n > 0 {
      DistinctSurvivors(es, ticks, n - 1);
      ListedOnce(es, n, n - 1);
      var prev := Survivors(es, ticks, n - 1);
      assert es[n - 1] !in prev;
      forall j | 0 <= j < n - 1
        ensures es[j] in Survivors(es, ticks, n) <==> es[j] in prev
      {
      }
    }
  }

  /** Appending an event adds exactly its own target to the targeted sets. */
  lemma TargetedAppend(es: seq<Event>, e: Event)
    ensures PlanetsTargeted(es + [e]) == PlanetsTargeted(es) + PlanetOf(e)
    ensures BuildingsTargeted(es + [e]) == BuildingsTargeted(es) + BuildingOf(e)
  {
    assert forall x :: x in es + [e] <==> x in es || x == e;
  }

  /** A sub-list targets no more than the list. */
  lemma TargetedSubset(es: seq<Event>, fs: seq<Event>)
    requires forall e :: e in es ==> e in fs
    ensures PlanetsTargeted(es) <= PlanetsTargeted(fs)
    ensures BuildingsTargeted(es) <= BuildingsTargeted(fs)
  {
  }

  // ---------------------------------------------------------------------------
  // Table facts and scenarios

  /** The chance table: 5% on a Terra-like planet, 7.5% on a Desert, 4% on a
      Gas Giant, 6% on an Icy planet. */
  lemma EventChanceTable()
    ensures EventChance(TerraLike) == 0.05 && EventChance(Desert) == 0.075
    ensures EventChance(GasGiant) == 0.04 && EventChance(Icy) == 0.06
  {
  }

  /** The fixed names: a Refinery event is a "Fuel Boost", a City event an
      "Economic Boom"; planet-wide events on Gas Giant, Icy and Terra-like planets
      are "Storm Surge", "Ice Storm" and "Normal Fluctuation" whatever the draw. */
  lemma EventNameTable(pt: PlanetType, d: real)
    ensures BuildingEventName(Refinery, pt, d) == "Fuel Boost"
    ensures BuildingEventName(City, pt, d) == "Economic Boom"
    ensures PlanetEventName(GasGiant, d) == "Storm Surge"
    ensures PlanetEventName(Icy, d) == "Ice Storm"
    ensures PlanetEventName(TerraLike, d) == "Normal Fluctuation"
  {
  }

  /** The building boost table: a Mine event boosts Iron to 1.5 or 0.5, a Farm
      event Food to 1.4 (or 0.5 on a low Desert draw), a Refinery event Fuel to
      1.6 or 0.8, a City event Iron and Food to 1.1. */
  lemma BuildingBoostTable(pt: PlanetType, d: real)
    ensures BuildingBoost(Mine, pt, d)[Iron] == (if d < 0.7 then 1.5 else 0.5)
    ensures BuildingBoost(Farm, pt, d)[Food] == (if pt == Desert && d < 0.5 then 0.5 else 1.4)
    ensures BuildingBoost(Refinery, pt, d)[Fuel] == (if d < 0.6 then 1.6 else 0.8)
    ensures BuildingBoost(City, pt, d) == map[Iron := 1.1, Food := 1.1, Fuel := 1.0]
  {
  }

  /** A Mine on a Terra-like planet with Iron multiplier 1.0 and a low draw: the
      boost is Iron 1.5 and the applied multiplier is 1.5; reverting it when the
      event expires brings the multiplier back to 1.0. */
  lemma MineEventScenario()
    ensures BuildingBoost(Mine, TerraLike, 0.01) == map[Iron := 1.5, Food := 1.0, Fuel := 1.0]
    ensures Boosted(Some(map[Iron := 1.0]), BuildingBoost(Mine, TerraLike, 0.01))[Iron] == 1.5
    ensures Reverted(Some(map[Iron := 1.5]), map[Iron := 1.5]) == Some(map[Iron := 1.0])
  {
    assert RevertValue(1.5, 1.5) == 1.0;
    var back := Reverted(Some(map[Iron := 1.5]), map[Iron := 1.5]).value;
    assert back.Keys == {Iron};
    assert back == map[Iron := 1.0];
  }

  /** Expiry on a nil multiplier map keeps it nil; on a zero multiplier it resets
      the multiplier to 1.0. */
  lemma ExpiryScenarios()
    ensures Reverted(None, map[Iron := 1.5]) == None
    ensures Reverted(Some(map[Iron := 0.0]), map[Iron := 1.5]) == Some(map[Iron := 1.0])
  {
    var back := Reverted(Some(map[Iron := 0.0]), map[Iron := 1.5]).value;
    assert back.Keys == {Iron};
    assert back == map[Iron := 1.0];
  }
}
