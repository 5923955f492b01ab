# utte-universe core, modelled in Dafny

This project models the world logic of utte-universe, a small space-trading simulation. A game holds:
- planets, each with a stock of Iron, Food and Fuel, per-resource modifiers, buildings and maybe an owner;
- non-player traders (NPCs) with offers, credits, cargo and a colonisation cooldown;
- a list of active events that boost a planet's or a building's production for a few ticks.

A tick of the game loop runs three world passes and then the NPCs:
- production;
- maybe a new event;
- the countdown of all events, reverting the boost of each event that expires;
- each NPC's colonisation or trade.

The model also covers three further parts:
- seeding, which builds a random universe from a configuration;
- the configuration defaults and the mapping from the raw configuration;
- the universe-state stream's command loop, with its protocol converters, and the frontend's parsing of command names.

The random source is an oracle, class `Randomness.Random`.
- It holds two fixed functions from the draw index to a fraction (`seek`) and to an integer (`of`), plus a counter of draws made.
- Every contract states which draw decided what.
- A scenario lemma can pick its own draws, as the repository's tests do with their deterministic mock.

Layout, one module per source file:
- `Wrappers`: Option and Result.
- `Entities`: the enums and their names, and the classes.
- `Configuration`: defaults and `LoadFrom`.
- `Planets` and `Buildings`: building and upgrading.
- `Production`.
- `Events`.
- `NPCs`.
- `Seeding`.
- `Stream`: the state stream and the converters.
- `Frontend`: command parsing.
- `Simulation`: the game and its tick.

Planets, buildings, NPCs and events are classes, so sharing is visible. An event holds references to its planet and building and changes their modifiers in place.

Go maps iterate in no fixed order. Loops over a map pick the next key nondeterministically (`:|`). Where the outcome depends on the order, the order taken is returned as a ghost result and the contract is stated over it. `ExecuteTrade`'s credit deductions are such a case.

## Model

| member | source | states |
|---|---|---|
| Entities.PlanetTypeString | core/entities.go:18-32 | a planet type's name is "Unknown" exactly for codes outside the four kinds |
| Entities.BuildingTypeString | core/entities.go:43-57 | a building type's name is "Unknown" exactly for codes outside the four kinds |
| Entities.BuildingTypeFromString | core/entities.go:59-73 | parsing yields a known building type or the code -1; a known result names the string it came from |
| Entities.ResourceTypeString | core/entities.go:93-105 | a resource's name is "Unknown" exactly for codes outside Iron, Food, Fuel |
| Entities.ResourceTypeFromString | core/entities.go:107-119 | parsing yields a known resource or the code -1; a known result names the string it came from |
| Entities.BuildingTypeRoundTrip | core/entities.go:43-73 | parsing the name of each of the four building types gives that type back |
| Entities.ResourceTypeRoundTrip | core/entities.go:93-119 | parsing the name of Iron, Food or Fuel gives that resource back |
| Entities.FromStringKnownIffName | core/entities.go:59-73 | a string parses to a known type if and only if it is the name of one, for both building types and resources |
| Entities.UnknownNameParsesToUnknownCode | core/entities.go:69-70 | the string "Unknown" parses to -1 for building types and for resources alike |
| Entities.PlanetTypeNamesDistinct | core/entities.go:18-31 | the four planet type names are pairwise distinct |
| Entities.Norm | core/production.go:9-14 | the zero-normalisation of a multiplier: never 0, 0 becomes 1.0, and a non-zero multiplier is unchanged |
| Entities.Building.constructor | core/entities.go:75-82 | a building with exactly the given kind, level, production, modifiers and cost |
| Entities.NPC.constructor | core/entities.go:131-139 | an NPC with exactly the given name, offer, credits, cargo, capacity and cooldown |
| Entities.Planet.constructor | core/entities.go:121-129 | a planet with exactly the given name, type, stock, modifiers, buildings and owner |
| Entities.Event.constructor | core/entities.go:157-166 | an event with exactly the given name, target, boost, duration and countdown |
| Configuration.DefaultConfig | core/config.go:31-36 | the default tick lasts two seconds and the seed configuration is the default one |
| Configuration.DefaultSeedConfig | core/config.go:88-101 | the default seed ranges for planets and production are non-empty; resources, chances, costs and NPC settings are the default tables |
| Configuration.DefaultResourceRanges | core/config.go:91-95 | the default stock ranges have exactly the keys Iron, Food and Fuel |
| Configuration.DefaultBuildingChance | core/config.go:103-110 | there is a default chance for each of the four building kinds, strictly between 0 and 1 |
| Configuration.DefaultBuildCost | core/config.go:112-132 | there is a default cost for each building kind; every amount is positive; only the City costs all three resources |
| Configuration.DefaultNPCSeedConfig | core/config.go:134-146 | the NPC count, credits and capacity ranges are non-empty with positive minimums; there are offers for all three resources |
| Configuration.DefaultValues | core/config.go:88-146 | every default is the table's value: planets 3..15, production 3..20, NPCs 3..8, credits 200..50000, cargo 50..600, cooldown 3600 s, the offer ranges, the chances and the costs |
| Configuration.ToMapKeys | core/config.go:172-176 | a map filled from a list has exactly the keys of the list's entries |
| Configuration.ToMapLastWins | core/config.go:172-176 | the value of a key is the last entry's value for that key, so a later duplicate overwrites an earlier one |
| Configuration.FillMap | core/config.go:172-176 | the loop that fills a fresh map from a list builds the map that the list defines |
| Configuration.LoadFrom | core/config.go:148-216 | a failed unmarshal returns its error and leaves the configuration as it was; otherwise it succeeds, replaces the tick only with a non-empty string that parses, copies every integer range verbatim, and builds each map afresh from its list, with unknown names keyed -1 |
| Configuration.ResourceRangesFromList | core/config.go:172-176 | a resource listed once, under a known name, gets exactly the range given in the list |
| Planets.TypeAllows | core/planet.go:5-20 | a Farm needs a Terra-like or Icy planet and a Mine any planet but a Gas Giant; the other kinds fit everywhere |
| Planets.CoversCost | core/planet.go:22-29 | the cost check succeeds exactly when every costed resource is stocked at least at its cost, an absent stock counting as 0, and it changes nothing |
| Planets.CanBuild | core/planet.go:3-30 | building is possible exactly when the planet type allows the kind and the stock covers the cost; the planet is not changed |
| Planets.DeductCost | core/planet.go:36-39 | every costed resource is lowered by its cost once; the other resources are untouched |
| Planets.Build | core/planet.go:32-43 | it succeeds exactly when CanBuild would; success deducts each cost once and appends the building at the end; failure changes neither the stock nor the building list |
| Planets.AffordableDeductionStaysNonNegative | core/planet.go:23-39 | after an affordable deduction every costed resource is at least 0 and every other resource is as it was |
| Planets.ShortfallIsUnaffordable | core/planet.go:23-27 | a single costed resource stocked below its cost makes the building unaffordable |
| Planets.BuildScenario | core/planet_test.go:92-111 | a Mine costing 10 Iron on a Terra-like planet with 100 Iron leaves 90 Iron; a cost of 200 Iron is refused |
| Buildings.ComputeUpgradeCost | core/building.go:8-11 | the upgrade cost has the keys of the build cost and is the build cost times (level + 1) for each resource |
| Buildings.Upgrade | core/building.go:7-27 | it succeeds exactly when the stock covers the upgrade cost; success deducts each cost once and raises the level by exactly 1; failure changes neither the level nor the stock |
| Buildings.UpgradeKeepsStockNonNegative | core/building.go:13-22 | after a successful upgrade every resource named in the build cost is at least 0 and all others are untouched |
| Buildings.TwoUpgradesScenario | core/building_test.go:52-60 | from level 1, two upgrades cost twice and then three times the build cost |
| Buildings.InsufficientUpgradeScenario | core/building_test.go:44-50 | a stock of 5 Iron cannot pay an upgrade needing 20 |
| Randomness.Random.constructor | core/ports.go:3-8 | a random source with the given draw functions and no draws made |
| Randomness.Random.Seek | core/ports.go:4 | returns the fraction of the current draw and advances the draw counter by one |
| Randomness.Random.Of | core/random.go:11-13 | for n > 0, returns a draw in [0, n) and advances the counter by one |
| Randomness.Random.OfRange | core/test_utils.go:19-24 | returns a draw in [min, max) for a non-empty range, and min for an empty one; advances the counter by one |
| Randomness.Random.OfIntRange | core/test_utils.go:26-31 | as OfRange, for a range value |
| Randomness.Pick | core/test_utils.go:26-31 | the value a range draw yields: inside a non-empty range, its minimum for an empty one, and min + raw for a raw draw that fits |
| Production.BaseProductionModifier | core/production.go:28-49 | the type modifier lies in [0, 1.5]; it is 0 only for Food on a Gas Giant; an unknown type gives 1.0 |
| Production.BaseProductionModifierTable | core/production.go:28-49 | the full table: Terra-like 1.0; Desert Food 0.5, others 1.2; Gas Giant Food 0.0, others 1.5; Icy Food 0.7, others 1.0; unknown 1.0 |
| Production.Trunc | core/production.go:16 | Go's conversion of a float to int, truncating toward zero for both signs |
| Production.BuildingOutput | core/production.go:6-16 | a building yields nothing of a resource it does not list in its production |
| Production.AddBuildingOutput | core/production.go:6-17 | adding one building's output extends the accumulated per-resource gain by that building |
| Production.AddedStep | core/production.go:5-17 | adding the buildings of a list one after another adds the output of the whole list |
| Production.Apply | core/production.go:17 | adding a gain keeps every stocked resource and adds the gained ones |
| Production.PlanetPass | core/production.go:5-18 | one planet's pass adds the output of all its buildings to its stock |
| Production.ProduceResources | core/production.go:3-26 | each planet's stock gains its buildings' output once per listing of that planet in the list |
| Production.PassesAdd | core/production.go:3-26 | n passes add n times the output to each resource and keep every stocked resource |
| Production.OutputOutsideKeys | core/production.go:6-17 | resources that no building produces gain nothing |
| Production.OnlyProducedResourcesChange | core/production.go:6-17 | only resources listed in some building's production change |
| Production.NothingProducedKeepsStock | core/production_test.go:176-193 | a planet without producing buildings keeps its stock unchanged |
| Production.PassAddsEveryBuilding | core/production.go:6-17 | a produced resource gains exactly n times the sum over the buildings |
| Production.OutputNonNegative | core/production.go:7-16 | with non-negative bases, levels and modifiers every building's output is at least 0 |
| Production.ProductionNeverDecreases | core/production.go:3-26 | with non-negative bases, levels and modifiers no stock ever decreases |
| Production.ZeroPlanetModifierDropsTypeModifier | core/production.go:7-11 | the planet factor is 1.0 when the planet modifier is zero or absent, or for Food on a Gas Giant; otherwise it is the planet modifier times the type modifier |
| Production.PlanetFactor | core/production.go:7-11 | the planet factor is never 0, and it is 1.0 when the planet modifier is zero or absent or for Food on a Gas Giant |
| Production.BuildingFactor | core/production.go:8-14 | the building factor is never 0; a zero or absent building modifier counts as 1.0, any other is used as it is |
| Production.ZeroBuildingModifierCountsAsOne | core/production.go:8-16 | with a zero or absent building modifier the output is the base times the level times the planet factor alone, truncated |
| Production.BuildingAndPlanetModifiersScenario | core/production_test.go:120-136 | a level-1 Mine producing 2 Iron, with a building modifier of 1.5 on a Terra-like planet whose Iron modifier is 2.0, yields 6 Iron |
| Production.ZeroModifierDesertScenario | core/production_test.go:138-156 | a zero Iron modifier on a Desert planet drops the 1.2 type modifier, so a Mine with base 10 yields 10 |
| Events.EventChance | core/events.go:22-33 | the chance lies in [0.04, 0.075]; it is the base chance 0.05 for an unknown type and 0.075 exactly on a Desert |
| Events.ShouldTriggerEvent | core/events.go:5-9 | an event triggers exactly when the drawn fraction is below the chance; a chance of 0 or less never triggers and a chance of 1 or more always does |
| Events.BuildingEventName | core/events.go:140-157 | a building event's name is one of the known names; "Generic Event" exactly for an unknown kind; "Drought" only on a Desert |
| Events.BuildingNameDraws | core/events.go:140-157 | choosing a building event's name takes at most one draw, and none when the name does not depend on it |
| Events.PlanetEventName | core/events.go:158-173 | a planet event's name is a known name; "Generic Event" exactly for an unknown type; the two Desert names exactly on a Desert |
| Events.PlanetNameDraws | core/events.go:158-173 | choosing a planet event's name takes at most one draw, and none when the name does not depend on it |
| Events.DrawnName | core/events.go:138-174 | the chosen name is always one of the known names and takes at most two draws |
| Events.ChooseEventName | core/events.go:138-174 | the name chosen, and the draws it takes, are those of the name table |
| Events.BuildingBoost | core/events.go:184-224 | a building event's boost has exactly the keys Iron, Food and Fuel |
| Events.BuildingBoostDraws | core/events.go:184-224 | a building boost takes at most one draw, and none when it does not depend on it |
| Events.PlanetBoost | core/events.go:226-249 | a planet event's base boost has exactly the keys Iron, Food and Fuel, none negative, zero only for a Gas Giant's Food, and neutral for a Terra-like or unknown type |
| Events.PlanetBoostTable | core/events.go:227-244 | Desert 0.5 Food, 1.2 Iron, 1.0 Fuel; Gas Giant 0.0, 1.3, 1.5; Icy 0.7, 1.0, 1.0; Terra-like 1.0 each |
| Events.Jitter | core/events.go:252-256 | the jitter factor lies in [0.95, 1.05) for a fraction draw and is 1.0 at the draw 0.5 |
| Events.DrawnBoost | core/events.go:176-259 | every boost has exactly the keys Iron, Food and Fuel |
| Events.ChooseEventBoost | core/events.go:176-259 | the boost chosen, and the draws it takes, are those of the boost table, with jitter only for planet events |
| Events.ApplyBoost | core/events.go:63-85 | applying a boost creates a missing modifier map; it sets an absent or zero entry to 1.0 and then multiplies it by the boost |
| Events.RevertBoost | core/events.go:103-133 | reverting leaves a missing map missing; it resets a zero entry to 1.0 without dividing, otherwise divides by the boost and turns a zero result into 1.0 |
| Events.RevertUndoesBoost | core/events.go:63-133 | with non-zero boosts, reverting an applied boost restores every modifier, a zero or absent one coming back as 1.0, and leaves exactly the keys of the modifiers and the boost |
| Events.RevertBoostedEntry | core/events.go:63-133 | the same, for a single resource |
| Events.RevertScaled | core/events.go:112-115 | dividing a scaled non-zero modifier by its non-zero factor gives the modifier back |
| Events.RevertValue | core/events.go:107-115 | a reverted multiplier is never 0: a zero or unset one becomes 1.0, any other is divided by a non-zero boost (the result times the boost is the old multiplier), and a zero boost leaves it as it is |
| Events.ZeroBoostResetsMultiplier | core/events.go:108-115 | a zero boost leaves the reverted modifier at 1.0 |
| Events.BoostCreatesMap | core/events.go:64-73 | a boost applied to a missing map creates a map that holds exactly the boost |
| Events.DrawnTarget | core/events.go:37-47 | an event targets a building exactly when the planet has buildings and the draw is below 0.5; that building is one of the planet's |
| Events.ChooseTarget | core/events.go:37-47 | the target chosen, and the building drawn by index among the planet's buildings, are those of the target rule |
| Events.Activate | core/events.go:62-85 | a new event boosts the modifiers of its planet or its building, and nothing else |
| Events.DrawnEvent | core/events.go:18-60 | the event planned is on one of the planets; it targets a building exactly when it names one, and that building is on its planet; its name is a known one and its boost covers all three resources |
| Events.DrawEvent | core/events.go:18-60 | an event is made exactly when the chance draw succeeds, and then it carries the planned planet, target, name and boost with Duration and RemainingTicks 5; otherwise two draws are spent |
| Events.MaybeTriggerEvent | core/events.go:11-92 | with no planets the list and the draws are unchanged; otherwise the result is the input list, or it plus exactly one new event at the end, exactly when the chance draw succeeds; only the new event's target is boosted |
| Events.TicksOf | core/events.go:96-97 | the countdowns of a list of events, in order |
| Events.Survivors | core/events.go:95-101 | the events kept are from the input list, and there are at most as many |
| Events.Expire | core/events.go:103-133 | an expiring event reverts the modifiers of its planet or its building, and nothing else |
| Events.ListingsAreOccurrences | core/events.go:94-136 | the number of listings of an event among the first n is its number of occurrences there |
| Events.UpdateEvents | core/events.go:94-136 | every countdown is lowered once per listing; the result is exactly the events still above 0, in their original order; each target's modifiers have the boosts of the expired events reverted in list order |
| Events.RevertAllSnoc | core/events.go:96-134 | reverting a list of boosts and then one more is reverting the longer list |
| Events.UnlistedCountsZero | core/events.go:96-97 | an event not in the list is not counted down |
| Events.ListedOnce | core/events.go:96-97 | in a list without repeats each event occurs exactly once |
| Events.DistinctCountsDownOnce | core/events.go:96-97 | in a list without repeats each event is counted down exactly once |
| Events.DistinctSurvivors | core/events.go:95-101 | the kept events have no repeats, and an event is kept exactly when its countdown was above 1 |
| Events.TargetedAppend | core/events.go:87 | appending an event adds exactly its own planet and building to the targets of a list |
| Events.TargetedSubset | core/events.go:95-101 | a list drawn from another targets no planet or building the other does not |
| Events.EventChanceTable | core/events.go:23-33 | the chances are 0.05 for Terra-like, 0.075 for Desert, 0.04 for Gas Giant and 0.06 for Icy |
| Events.EventNameTable | core/events.go:153-170 | fixed names: "Fuel Boost" for a Refinery, "Economic Boom" for a City, "Storm Surge" for a Gas Giant, "Ice Storm" for an Icy planet, "Normal Fluctuation" for a Terra-like one |
| Events.BuildingBoostTable | core/events.go:186-221 | Mine Iron 1.5 or 0.5; Farm Food 1.4, or 0.5 on a Desert draw; Refinery Fuel 1.6 or 0.8; City 1.1, 1.1, 1.0 |
| Events.MineEventScenario | core/events_test.go:49-84 | a Mine boom boosts Iron from 1.0 to 1.5, and reverting 1.5 by 1.5 gives 1.0 |
| Events.ExpiryScenarios | core/events_test.go:195-228 | expiry leaves a missing modifier map missing and resets a zero modifier to 1.0 |
| NPCs.Min | core/npc.go:173-178 | the smaller of two integers |
| NPCs.SumOverRemove | core/npc.go:30-33 | a cargo sum splits off any one of its entries |
| NPCs.SumCargo | core/npc.go:30-33 | the loop computes the total cargo |
| NPCs.Bought | core/npc.go:28-60 | a purchase changes nothing when the cargo is full, the planet holds 5 units or fewer, or the credits are short; otherwise 1 to 5 units, below the stock, move from the planet to the cargo at the offer price, and the credits stay at 0 or more |
| NPCs.Sold | core/npc.go:62-79 | a sale changes nothing without cargo of the resource; otherwise min(draw + 1, cargo) units move to the planet at the offer price plus 2, and the cargo stays at 0 or more |
| NPCs.BuySellSpread | core/npc.go:44-77 | buying and then selling the same amount restores stock and cargo and gains 2 credits per unit |
| NPCs.TryBuy | core/npc.go:28-60 | the purchase updates the planet's stock, the cargo and the credits as `Bought` says, taking one draw only when it gets past the cargo and stock checks |
| NPCs.TrySell | core/npc.go:62-79 | the sale updates the planet's stock, the cargo and the credits as `Sold` says, taking one draw only when there is cargo to sell |
| NPCs.UpdateTrade | core/npc.go:7-26 | with no planets nothing changes; otherwise it draws a planet and a resource and buys or sells by a coin draw, and no other planet changes |
| NPCs.Unowned | core/npc.go:87-92 | the candidates are exactly the unowned planets of the list |
| NPCs.CandidatesIffSomeUnowned | core/npc.go:87-94 | there are colonisation candidates exactly when some planet of the list has no owner |
| NPCs.IsPlanetColonized | core/npc.go:109-111 | a planet is colonised exactly when it has an owner |
| NPCs.ColonizedPlanetLeavesCandidates | core/npc.go:87-113 | a planet an NPC has just colonised counts as colonised and is no longer a colonisation candidate in any planet list |
| NPCs.Candidates | core/npc.go:87-92 | the loop collects the unowned planets in list order |
| NPCs.ColonizePlanet | core/npc.go:112-136 | the planet becomes the NPC's and gains exactly one building at the end, a City if the draw is below 0.7 and otherwise a Mine; its earlier buildings are kept |
| NPCs.Transfer | core/npc.go:139-144 | a bulk trade moves min(stock, offer) units of a resource, or none when that is not positive; never more than the stock or the offer |
| NPCs.ChargedExtend | core/npc.go:152-169 | trades past the first n do not affect the credits after n |
| NPCs.WithdrawStep | core/npc.go:145-158 | one more leg lowers the planet's stock of that resource by the units moved |
| NPCs.LoadStep | core/npc.go:146-159 | one more leg raises the cargo of that resource by the units moved |
| NPCs.ChargedBounds | core/npc.go:160-168 | the credits never rise, never fall below the initial credits minus the units moved, and never go negative |
| NPCs.ChargedWhenCovered | core/npc.go:160-168 | when the credits cover every unit, exactly one credit per unit moved is paid |
| NPCs.VisitsStep | core/npc.go:139-152 | each offered resource is visited exactly once |
| NPCs.TradeResource | core/npc.go:140-168 | one leg moves Transfer units from the planet to the cargo, paying one credit per unit only when charged and the credits cover it |
| NPCs.TradeNext | core/npc.go:139-168 | one more leg extends the trade done so far |
| NPCs.ExecuteTrade | core/npc.go:137-170 | every offered resource is visited once and min(stock, offer) units are moved; credits are unchanged on an owned planet, and otherwise each leg is paid only when the credits cover it, goods moving either way |
| NPCs.BulkTradeStock | core/npc.go:139-169 | after a bulk trade no stock grows, non-negative stock stays non-negative, and each positive stock offered at a positive amount loses exactly min(stock, offer) |
| NPCs.ExecuteTradeScenario | core/npc_test.go:188-194 | a planet with 10 Iron and an offer of 5 leaves 5 on the planet and 5 in the cargo, costing 5 of 100 credits externally |
| NPCs.MaybeColonize | core/npc.go:87-100 | colonising happens exactly when there are unowned planets and the draw is below 0.05; then only the drawn unowned planet gets an owner and a building, and the cooldown becomes now + 600 + draw mod 3600; otherwise nothing changes |
| NPCs.MaybeTrade | core/npc.go:102-106 | a trade happens exactly when there are planets and the draw is below 0.3; then only the drawn planet and the NPC change, as ExecuteTrade says; otherwise nothing changes |
| NPCs.RunNPCLogic | core/npc.go:81-107 | before the cooldown nothing changes and no draw is taken; otherwise it colonises (odds 0.05, an unowned planet existing) or, failing that, trades (odds 0.3, a planet existing), never both; a colonisation resets the cooldown into [now + 600, now + 4200) and takes one formerly unowned planet; a trade is a `Traded` step with one planet; what is not done leaves its state unchanged |
| Seeding.SuffixedName | core/seed.go:19-27 | a generated name is the list's name at i mod its length, a dash and the letter 'A' + i mod 26 |
| Seeding.GeneratePlanetName | core/seed.go:19-22 | the i-th planet name is one of Aurora, Vega, Nova, Luna, Terra, Ceres, Orion, Eos at i mod 8, a dash and 'A' + i mod 26 |
| Seeding.GenerateNPCName | core/seed.go:24-27 | the i-th NPC name is one of Trader Joe, Merchant Mia, Captain Rex, Baroness Lila, Drake at i mod 5, a dash and 'A' + i mod 26 |
| Seeding.NamesRepeat | core/seed.go:19-27 | planet names repeat every 104 indices and NPC names every 130 |
| Seeding.FirstNamesDistinct | core/seed.go:19-27 | the first 26 names of a list are pairwise distinct |
| Seeding.NameScenarios | core/seed_test.go:102-123 | 0 gives "Aurora-A" and 1 "Vega-B"; 8 gives "Aurora-I"; NPCs 0 and 1 are "Trader Joe-A" and "Merchant Mia-B" |
| Seeding.Related | core/seed.go:11 | a Mine produces Iron, a Farm Food and a Refinery Fuel |
| Seeding.DrawnAll | core/seed.go:72-79 | the drawn resources have exactly the keys Iron, Food and Fuel |
| Seeding.DrawPerResource | core/seed.go:72-79 | one range draw per resource, in the order Iron, Food, Fuel |
| Seeding.GenerateResources | core/seed.go:72-79 | a planet's stock draws one value per resource from its configured range |
| Seeding.BuildingDraws | core/seed.go:47-70 | the plan for seeding buildings takes at least one draw per building placed and at most two per kind considered |
| Seeding.BuildingDrawsShape | core/seed.go:47-70 | at most one building per kind, strictly in the order Mine, Farm, Refinery, never a City, a Farm only on a Terra-like or Icy planet, and each production inside the configured range |
| Seeding.ConsiderBuilding | core/seed.go:50-67 | an ineligible Farm is skipped without a draw; otherwise the kind is placed when its chance draw succeeds, as a level-1 building of its related resource with the configured cost |
| Seeding.GenerateBuildings | core/seed.go:47-70 | the buildings are exactly the plan's, each new, level 1, producing only its related resource, with modifier 1.0 and the configured cost |
| Seeding.DrawnPlanetIsSeeded | core/seed.go:35-43 | a planet made from its draws has a known type, all three resources in range, buildings strictly in kind order with a Farm only where allowed, and took at least four draws |
| Seeding.DrawnPlanetsAppend | core/seed.go:33-43 | appending the planet made from the draws that follow keeps every planet of the list tied to its own stretch of draws |
| Seeding.DrawnPlanetsAreSeeded | core/seed.go:33-43 | every planet of a list made from consecutive stretches of draws has every seeded property |
| Seeding.GeneratePlanet | core/seed.go:35-43 | a new unowned planet with the generated name, the base modifiers, the type `of(k) mod 4` from its first draw k, the stock from the next three draws, and exactly the buildings the following draws place, with the draw counter left where they end; also every seeded property |
| Seeding.AppendPlanet | core/seed.go:33-42 | the list grows by one new planet made from the draws at the current position, and the marks grow by the position where its draws end |
| Seeding.GeneratePlanets | core/seed.go:29-45 | as many new, distinct planets as the drawn count, none for a count of 0 or less; planet i is made from the draws between `marks[i]` and `marks[i + 1]`, the first starting right after the count draw and the draw counter ending at the last mark |
| Seeding.GenerateNPC | core/seed.go:86-107 | a new NPC with the generated name, drawn offers, credits and capacity, empty cargo of all three resources, and a cooldown a draw of seconds after now |
| Seeding.GenerateNPCs | core/seed.go:81-109 | as many new NPCs as the drawn count, none for a count of 0 or less, each taking six draws in turn |
| Seeding.SeededNPCDefaults | core/seed.go:87-107 | under the default configuration a seeded NPC offers all three resources at 5 to 24, has zero cargo of each, credits 200 to 49999, capacity 50 to 599, and a cooldown within the next hour |
| Seeding.SeedUniverse | core/seed.go:15-17 | the planets are generated first, each from its own stretch of draws, and then the NPCs from the position where the planets' draws end, from the same random source |
| Stream.Apply | core/grpc_server.go:56-70 | SUBSCRIBE subscribes and unpauses, PAUSE pauses, RESUME unpauses, UNSUBSCRIBE unsubscribes and keeps the pause, and any other value changes nothing |
| Stream.FirstLive | core/grpc_server.go:72 | finds the first command after which the stream is subscribed and not paused, and none before it |
| Stream.Drained | core/grpc_server.go:77-86 | a full slot gives its list and an empty one the empty list |
| Stream.FirstLiveStable | core/grpc_server.go:72 | later commands do not move the first live point |
| Stream.StreamUniverseState | core/grpc_server.go:38-116 | the loop delivers, ends and leaves the slots as `Outcome` says: one message at the first live point with a pending planet update, carrying the drained slots; a receive error ends the stream |
| Stream.AtMostOneMessage | core/grpc_server.go:72-113 | at most one message is sent; one is sent exactly when a planet update is pending, sending works and some command makes the stream live |
| Stream.StreamEnding | core/grpc_server.go:49-110 | the stream ends with a send error exactly when a send was attempted and failed; with no commands nothing is sent and the receive error is returned |
| Stream.NoSubscribeNoLive | core/grpc_server.go:56-72 | without SUBSCRIBE the stream never becomes live |
| Stream.SubscribePauseResumeUnsubscribeScenario | core/grpc_server_test.go:280-329 | SUBSCRIBE, PAUSE, RESUME, UNSUBSCRIBE send the three slot values once, at SUBSCRIBE, and the flags follow the commands |
| Stream.Int32 | core/grpc_server.go:179-181 | Go's narrowing to int32: the value modulo 2^32, read as signed, and unchanged when it fits |
| Stream.NPCToProto | core/grpc_server.go:163-184 | the wire NPC keeps the name, narrows credits and capacity to int32, and renders a zero cooldown as the empty string |
| Stream.PlanetToProto | core/grpc_server.go:118-161 | the wire planet keeps the name, the type's name and the buildings in order; the owner is converted only when there is one |
| Stream.EventToProto | core/grpc_server.go:186-207 | a missing target planet or building becomes the empty string |
| Stream.TargetBuildingNameEmptyIffAbsent | core/grpc_server.go:195-197 | the target building's wire name is empty exactly when the event has no target building |
| Frontend.CommandTypeFromString | ui-backend/server.go:105-118 | the four upper-case names map to their commands and every other string, lower case included, to SUBSCRIBE; the function is total and the result is always one of the four |
| Frontend.UnknownCommandResubscribes | ui-backend/server.go:115-116 | an unrecognised name acts on the stream as SUBSCRIBE does: it subscribes and clears a pause |
| Frontend.LowerCaseScenario | ui-backend/server.go:105-118 | "pause" and "unsubscribe" parse as SUBSCRIBE |
| Simulation.Game.constructor | core/game.go:19-28 | the game keeps the given planets and NPCs, starts with no active events, and is valid when every owner is one of its NPCs |
| Simulation.Game.TriggerPhase | core/game.go:44 | the active list gains at most one new event, appended, with 5 ticks left, exactly when the trigger draw succeeds |
| Simulation.Game.CountdownPhase | core/game.go:45 | every event is counted down once and kept exactly when it had more than one tick left |
| Simulation.Game.WorldPhase | core/game.go:43-45 | production, trigger and countdown in that order: each planet's stock ends as its production passes applied to the old stock, once per occurrence in the planet list; the trigger fires exactly when the draws say so; an event triggered in the tick ends it with 4 ticks left |
| Simulation.Game.Turn | core/game.go:47 | the NPC colonises exactly when its cooldown has passed, some planet of the universe is unowned and the first draw is below 0.05; it trades exactly when its cooldown has passed, it did not colonise, there is a planet and the next draw is below 0.3; so never both, and while the cooldown runs nothing is done and no draw is taken; a colonisation takes one formerly unowned planet (owner and one new settlement) and restarts the cooldown into [now + 600, now + 4200); a trade is a `Traded` step with one planet; what is not done leaves owners, buildings, cooldown, stock, cargo and credits unchanged; with a planet, an NPC off cooldown always takes a draw |
| Simulation.Game.RunNPCs | core/game.go:46-48 | runs one turn per list entry: with at least one planet, if some NPC's cooldown has passed at least one draw is taken; when every NPC is on cooldown nothing changes and no draw is taken; no owner is cleared or replaced, every owner stays one of the game's NPCs, buildings are only appended, and each cooldown is kept or restarted into [now + 600, now + 4200) |
| Simulation.Game.Tick | core/game.go:41-50 | the world passes and then the NPC turns; after a tick no active event has 0 ticks or fewer, there are no repeats, every old event was counted down exactly once, a new one has 4 ticks left, owners are only ever set to the game's NPCs, buildings are only added, and the planet and NPC lists are unchanged |

## Left out

- The game loop's ticker, context cancellation and mutex (core/game.go:30-39, 55-57): these are concurrency and scheduling. Only the tick body is modelled.
- Logging: every `Log` call is a no-op and is not modelled.
- Transport:
  - `StartGRPCServer` and listening;
  - the stream's `Context().Done()` branch;
  - the WebSocket bridge of the frontend.
  These are network I/O and goroutines.
- `GetPlanets` and `GetNPCs` (core/grpc_server.go:18-36): they only map the converters over the game's lists.
- The converters' resource, modifier, production and cost maps are not modelled. Only their names, owners, targets, levels, credits and cooldowns are: the nil-handling and the narrowing.
- IEEE-754 arithmetic: multipliers are exact reals. Float64 rounding in production and in applying and reverting boosts, and float32 narrowing on the wire, are not modelled.
- Go's int is unbounded in the model. Int32 narrowing on the wire is modelled (`Stream.Int32`).
- The 10% jitter is modelled on reals. Its draws are the oracle's, so no distribution is claimed.
- A boost of exactly 0 occurs only as the Gas Giant planet event's Food entry. Reverting it from a non-zero modifier makes Go divide by 0 and store +Inf; the model keeps the modifier as it is (`Events.RevertValue`). The modifier can be non-zero there by two routes. First, two such events overlap on the same planet: the one that expires first finds the 0 and resets it to 1.0 (core/events.go:108-110), so the later revert divides 1.0 by 0 in Go while the model keeps 1.0. Second, in Go only, the shared `baseModifiers` map (core/seed.go:40) lets an event on another planet boost the entry in between; the model gives each planet its own map, so this route does not arise in it. Applying a zero boost and reverting it straight away gives 1.0 in both (`Events.ZeroBoostResetsMultiplier`).
- Time is an integer number of seconds, passed as `now`. The zero time is 0. RFC 3339 formatting is a `format` parameter.
- The stream's three channel slots are inputs (`Stream.Slots`). The game struct as shown has no such fields (core/game.go:9-17), and nothing in the core fills them.
- The random source:
  - `BuiltInRand` panics on `Intn(n)` with n ≤ 0. This is a precondition of `Randomness.Random.Of`.
  - The range draws return the minimum for an empty range, as the repository's deterministic mock does. `BuiltInRand` would panic there instead.
  - The mock's `Of` returns its value unreduced; the model reduces it modulo n.
- Go maps are shared by reference. Seeding gives every planet the same `baseModifiers` map (core/seed.go:40), so a boost applied to one planet shows through all of them. The model gives each planet its own value map, so this sharing is not reproduced. The same holds for the seeded buildings' BuildCost maps (core/seed.go:65).
- Writing into a nil map panics in Go. This is not modelled: every map the core writes to is a stock or cargo map that seeding creates.
- Planet.Type, Building.Type and the descriptive fields of Event are `const`: the core never reassigns them.
- `UpdateTrade` is modelled on its own; the tick, like the source's, never calls it.
- `Seeding.SeedUniverse`: its precondition, a positive cooldown bound whenever the NPC count range could yield an NPC, is stronger than the source's, which panics only when a cooldown draw actually happens with a bound of 0 or less.
- `Seeding.GenerateNPCs`: it requires a positive cooldown bound when the drawn count is positive, because `BuiltInRand` panics on it.
- `Simulation.Game.Tick`: does not restate the resulting stock, cargo, credits and modifiers. Those are stated by the members it calls, `Production.ProduceResources`, `Events.MaybeTriggerEvent`, `Events.UpdateEvents` and `NPCs.RunNPCLogic`.
- `Simulation.Game.Valid`: does not say that targeted buildings are part of the universe, only that targeted planets are.
- `Simulation.Game.RunNPCs`: does not state each NPC's own colonisation or trade, only what holds across all turns. An NPC may occur in the list more than once, and each turn sees the planets as the earlier turns left them, so the per-turn outcome, including when each NPC colonises or trades, is stated by `Simulation.Game.Turn` and `NPCs.RunNPCLogic` instead. What `Simulation.Game.RunNPCs` does state across turns is that at least one draw is taken when some NPC is off cooldown and there is a planet, and that nothing changes when every NPC is on cooldown.
- `Simulation.Game.TriggerPhase`: does not restate the modifier changes, which `Events.MaybeTriggerEvent` states.
- `Simulation.Game.CountdownPhase`: does not restate the modifier changes, which `Events.UpdateEvents` states.
- `Randomness.Random.Seek`: does not promise a fraction in [0, 1). `Randomness.Random.Fractional` states that, and the lemmas that need it take it as a premise.
