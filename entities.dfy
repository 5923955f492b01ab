/** The entities of the universe: planet, building and resource kinds with their
    printable names, and the four mutable entities Planet, Building, NPC and Event.
    The kinds are integer codes, as in the Go code, so that a code outside the
    declared range can be represented (it prints as "Unknown"). */
module Entities {
  import opened Wrappers

  newtype PlanetType = int
  const TerraLike: PlanetType := 0
  const Desert: PlanetType := 1
  const GasGiant: PlanetType := 2
  const Icy: PlanetType := 3

  newtype BuildingType = int
  const Mine: BuildingType := 0
  const Farm: BuildingType := 1
  const Refinery: BuildingType := 2
  const City: BuildingType := 3

  newtype ResourceType = int
  const Iron: ResourceType := 0
  const Food: ResourceType := 1
  const Fuel: ResourceType := 2

  /** The code that the parsers return for a name they do not know. */
  const UnknownCode: int := -1

  /** The three resources in declaration order; seeding visits them in this order. */
  const AllResources: seq<ResourceType> := [Iron, Food, Fuel]

  predicate IsPlanetType(pt: PlanetType) { TerraLike <= pt <= Icy }
  predicate IsBuildingType(b: BuildingType) { Mine <= b <= City }
  predicate IsResourceType(r: ResourceType) { Iron <= r <= Fuel }

  /** Printable name of a planet type; every code outside the four kinds is "Unknown". */
  function PlanetTypeString(pt: PlanetType): (s: string)
    ensures s == "Unknown" <==> !IsPlanetType(pt)
  {
    if pt == TerraLike then "Terra-like"
    else if pt == Desert then "Desert"
    else if pt == GasGiant then "Gas Giant"
    else if pt == Icy then "Icy"
    else "Unknown"
  }

  /** Printable name of a building type; every code outside the four kinds is "Unknown". */
  function BuildingTypeString(b: BuildingType): (s: string)
    ensures s == "Unknown" <==> !IsBuildingType(b)
  {
    if b == Mine then "Mine"
    else if b == Farm then "Farm"
    else if b == Refinery then "Refinery"
    else if b == City then "City"
    else "Unknown"
  }

  /** Parses a building name; anything but the four exact names gives the unknown code -1. */
  function BuildingTypeFromString(s: string): (b: BuildingType)
    ensures b as int == UnknownCode || IsBuildingType(b)
    ensures IsBuildingType(b) ==> BuildingTypeString(b) == s
  {
    if s == "Mine" then Mine
    else if s == "Farm" then Farm
    else if s == "Refinery" then Refinery
    else if s == "City" then City
    else UnknownCode as BuildingType
  }

  /** Printable name of a resource; every code outside the three kinds is "Unknown". */
  function ResourceTypeString(r: ResourceType): (s: string)
    ensures s == "Unknown" <==> !IsResourceType(r)
  {
    if r == Iron then "Iron"
    else if r == Food then "Food"
    else if r == Fuel then "Fuel"
    else "Unknown"
  }

  /** Parses a resource name; anything but the three exact names gives the unknown code -1. */
  function ResourceTypeFromString(s: string): (r: ResourceType)
    ensures r as int == UnknownCode || IsResourceType(r)
    ensures IsResourceType(r) ==> ResourceTypeString(r) == s
  {
    if s == "Iron" then Iron
    else if s == "Food" then Food
    else if s == "Fuel" then Fuel
    else UnknownCode as ResourceType
  }

  lemma BuildingTypeRoundTrip(b: BuildingType)
    requires IsBuildingType(b)
    ensures BuildingTypeFromString(BuildingTypeString(b)) == b
  {
  }

  lemma ResourceTypeRoundTrip(r: ResourceType)
    requires IsResourceType(r)
    ensures ResourceTypeFromString(ResourceTypeString(r)) == r
  {
  }

  /** A string parses to a known kind exactly when it is that kind's printed name. */
  lemma FromStringKnownIffName(s: string)
    ensures IsBuildingType(BuildingTypeFromString(s)) <==> exists b :: IsBuildingType(b) && BuildingTypeString(b) == s
    ensures IsResourceType(ResourceTypeFromString(s)) <==> exists r :: IsResourceType(r) && ResourceTypeString(r) == s
  {
    if exists b :: IsBuildingType(b) && BuildingTypeString(b) == s {
      var b :| IsBuildingType(b) && BuildingTypeString(b) == s;
      BuildingTypeRoundTrip(b);
    }
    if exists r :: IsResourceType(r) && ResourceTypeString(r) == s {
      var r :| IsResourceType(r) && ResourceTypeString(r) == s;
      ResourceTypeRoundTrip(r);
    }
  }

  /** "Unknown" itself is no kind's name, so it parses to -1. */
  lemma UnknownNameParsesToUnknownCode()
    ensures BuildingTypeFromString("Unknown") as int == UnknownCode
    ensures ResourceTypeFromString("Unknown") as int == UnknownCode
  {
  }

  /** The four planet-type names are pairwise distinct. */
  lemma PlanetTypeNamesDistinct(a: PlanetType, b: PlanetType)
    requires IsPlanetType(a) && IsPlanetType(b) && a != b
    ensures PlanetTypeString(a) != PlanetTypeString(b)
  {
  }

  /** Whether an event boosts a whole planet or one building. */
  datatype EventTarget = PlanetTarget | BuildingTarget

  /** A non-empty set of resources has an element to visit next. */
  lemma HasElement(s: set<ResourceType>)
    requires s != {}
    ensures exists r :: r in s
  {
    if forall r :: r !in s {
      assert false;
    }
  }

  /** How often an element occurs among the first n elements of a list. */
  function Occurrences<T(==)>(s: seq<T>, n: nat, x: T): nat
    requires n <= |s|
  {
    if n == 0 then 0 else Occurrences(s, n - 1, x) + (if s[n - 1] == x then 1 else 0)
  }

  /** Reading an int map the way Go does: an absent key reads as 0. */
  function Get(m: map<ResourceType, int>, r: ResourceType): int
  {
    if r in m then m[r] else 0
  }

  /** Reading a possibly nil multiplier map: a nil map or an absent key reads as 0.0. */
  function ModOf(mods: Option<map<ResourceType, real>>, r: ResourceType): real
  {
    if mods.Some? && r in mods.value then mods.value[r] else 0.0
  }

  /** The keys of a possibly nil multiplier map. */
  function ModKeys(mods: Option<map<ResourceType, real>>): set<ResourceType>
  {
    if mods.Some? then mods.value.Keys else {}
  }

  /** A multiplier of exactly zero means "unset" and counts as 1.0. */
  function Norm(x: real): (r: real)
    ensures r != 0.0
    ensures x != 0.0 ==> r == x
    ensures x == 0.0 ==> r == 1.0
  {
    if x == 0.0 then 1.0 else x
  }

  /** A building's kind is fixed when it is created; the other fields change. */
  class Building {
    const Type: BuildingType
    var Level: int
    var Production: map<ResourceType, int>
    var Modifiers: Option<map<ResourceType, real>>
    var BuildCost: map<ResourceType, int>

    constructor (t: BuildingType, level: int, production: map<ResourceType, int>,
                 modifiers: Option<map<ResourceType, real>>, buildCost: map<ResourceType, int>)
      ensures Type == t && Level == level && Production == production
      ensures Modifiers == modifiers && BuildCost == buildCost
    {
      Type := t;
      Level := level;
      Production := production;
      Modifiers := modifiers;
      BuildCost := buildCost;
    }
  }

  class NPC {
    var Name: string
    var Offer: map<ResourceType, int>
    var Credits: int
    var Cargo: map<ResourceType, int>
    var MaxCargo: int
    /** Earliest time (in seconds) of the next colonisation; 0 is the unset time. */
    var ColonizationCooldown: int

    constructor (name: string, offer: map<ResourceType, int>, credits: int,
                 cargo: map<ResourceType, int>, maxCargo: int, cooldown: int)
      ensures Name == name && Offer == offer && Credits == credits
      ensures Cargo == cargo && MaxCargo == maxCargo && ColonizationCooldown == cooldown
    {
      Name := name;
      Offer := offer;
      Credits := credits;
      Cargo := cargo;
      MaxCargo := maxCargo;
      ColonizationCooldown := cooldown;
    }
  }

  /** A planet's type is fixed when it is created; the other fields change. */
  class Planet {
    var Name: string
    const Type: PlanetType
    var Resources: map<ResourceType, int>
    var Modifiers: Option<map<ResourceType, real>>
    var Buildings: seq<Building>
    /** The colonising NPC, if any; a reference, not ownership. */
    var Owner: NPC?

    constructor (name: string, t: PlanetType, resources: map<ResourceType, int>,
                 modifiers: Option<map<ResourceType, real>>, buildings: seq<Building>, owner: NPC?)
      ensures Name == name && Type == t && Resources == resources
      ensures Modifiers == modifiers && Buildings == buildings && Owner == owner
    {
      Name := name;
      Type := t;
      Resources := resources;
      Modifiers := modifiers;
      Buildings := buildings;
      Owner := owner;
    }
  }

  /** An event's description is fixed when it is created; only its countdown
      changes afterwards. */
  class Event {
    const Name: string
    const Target: EventTarget
    const TargetPlanet: Planet?
    const TargetBuilding: Building?
    const ResourceBoost: map<ResourceType, real>
    const Duration: int
    var RemainingTicks: int

    constructor (name: string, target: EventTarget, planet: Planet?, building: Building?,
                 boost: map<ResourceType, real>, duration: int, remaining: int)
      ensures Name == name && Target == target && TargetPlanet == planet
      ensures TargetBuilding == building && ResourceBoost == boost
      ensures Duration == duration && RemainingTicks == remaining
    {
      Name := name;
      Target := target;
      TargetPlanet := planet;
      TargetBuilding := building;
      ResourceBoost := boost;
      Duration := duration;
      RemainingTicks := remaining;
    }
  }
}
