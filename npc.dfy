/** The NPC agents: the buy and sell legs of a random trade, colonisation of an
    unowned planet behind a cooldown, and bulk trades that move goods from a
    planet into an NPC's cargo. */
module NPCs {
  import opened Wrappers
  import opened Entities
  import opened Randomness

  /** The smaller of two integers. */
  function Min(a: int, b: int): (m: int)
    ensures m <= a && m <= b
    ensures m == a || m == b
  {
    if a < b then a else b
  }

  // ---------------------------------------------------------------------------
  // Cargo totals
  // ---------------------------------------------------------------------------

  /** The sum of a map's values over some of its keys, independent of the order
      in which the keys are visited. */
  ghost function SumOver(m: map<ResourceType, int>, keys: set<ResourceType>): int
    requires keys <= m.Keys
    decreases keys
  {
    if keys == {} then 0
    else
      HasElement(keys);
      var r :| r in keys;
      m[r] + SumOver(m, keys - {r})
  }

  /** Any key can be taken out of the sum first. */
  lemma {:induction false} SumOverRemove(m: map<ResourceType, int>, keys: set<ResourceType>, x: ResourceType)
    requires keys <= m.Keys && x in keys
    ensures SumOver(m, keys) == m[x] + SumOver(m, keys - {x})
    decreases keys
  {
    var r :| r in keys && SumOver(m, keys) == m[r] + SumOver(m, keys - {r});
    if r != x {
      SumOverRemove(m, keys - {r}, x);
      SumOverRemove(m, keys - {x}, r);
      assert keys - {r} - {x} == keys - {x} - {r};
    }
  }

  /** The total number of units in a cargo hold. */
  ghost function CargoTotal(cargo: map<ResourceType, int>): int
  {
    SumOver(cargo, cargo.Keys)
  }

  /** Sums the cargo hold one resource at a time, in whatever order the map yields. */
  method SumCargo(cargo: map<ResourceType, int>) returns (total: int)
    ensures total == CargoTotal(cargo)
  {
    total := 0;
    var todo := cargo.Keys;
    while todo != {}
      invariant todo <= cargo.Keys
      invariant total + SumOver(cargo, todo) == CargoTotal(cargo)
      decreases todo
    {
      HasElement(todo);
      var r :| r in todo;
      SumOverRemove(cargo, todo, r);
      total := total + cargo[r];
      todo := todo - {r};
    }
  }

  // ---------------------------------------------------------------------------
  // Buying and selling
  // ---------------------------------------------------------------------------

  /** What a trade leg touches: the planet's stock, the NPC's cargo and its credits. */
  datatype Ledger = Ledger(stock: map<ResourceType, int>, cargo: map<ResourceType, int>, credits: int)

  /** A buy draws an amount only when the hold has room and the planet holds more than 5 units. */
  ghost predicate BuyDraws(l: Ledger, maxCargo: int, r: ResourceType)
  {
    CargoTotal(l.cargo) < maxCargo && Get(l.stock, r) > 5
  }

  /** The ledger after trying to buy resource `r`, with `raw` the integer draw for the amount. */
  ghost function Bought(l: Ledger, offer: map<ResourceType, int>, maxCargo: int, r: ResourceType, raw: int): (after: Ledger)
    ensures (CargoTotal(l.cargo) >= maxCargo || Get(l.stock, r) <= 5
             || l.credits < Get(offer, r) * (raw % 5 + 1)) ==> after == l
    ensures BuyDraws(l, maxCargo, r) && l.credits >= Get(offer, r) * (raw % 5 + 1) ==>
              var a := raw % 5 + 1;
              1 <= a <= 5 && a < Get(l.stock, r)
              && after.stock == l.stock[r := Get(l.stock, r) - a]
              && after.cargo == l.cargo[r := Get(l.cargo, r) + a]
              && after.credits == l.credits - Get(offer, r) * a
              && after.credits >= 0
  {
    if CargoTotal(l.cargo) >= maxCargo then l
    else if Get(l.stock, r) <= 5 then l
    else
      var amount := Min(raw % 5 + 1, Get(l.stock, r));
      var price := Get(offer, r) * amount;
      if l.credits < price then l
      else Ledger(l.stock[r := Get(l.stock, r) - amount], l.cargo[r := Get(l.cargo, r) + amount], l.credits - price)
  }

  /** The ledger after trying to sell resource `r`, with `raw` the integer draw for the amount. */
  ghost function Sold(l: Ledger, offer: map<ResourceType, int>, r: ResourceType, raw: int): (after: Ledger)
    ensures Get(l.cargo, r) <= 0 ==> after == l
    ensures Get(l.cargo, r) > 0 ==>
              var a := Min(raw % 5 + 1, Get(l.cargo, r));
              1 <= a <= 5 && a <= Get(l.cargo, r)
              && after.cargo == l.cargo[r := Get(l.cargo, r) - a]
              && Get(after.cargo, r) >= 0
              && after.stock == l.stock[r := Get(l.stock, r) + a]
              && after.credits == l.credits + (Get(offer, r) + 2) * a
  {
    if Get(l.cargo, r) <= 0 then l
    else
      var amount := Min(raw % 5 + 1, Get(l.cargo, r));
      Ledger(l.stock[r := Get(l.stock, r) + amount], l.cargo[r := Get(l.cargo, r) - amount],
             l.credits + (Get(offer, r) + 2) * amount)
  }

  /** Buying some units and selling them straight back on the same draw restores
      the planet's stock and the cargo, and leaves the NPC 2 credits per unit richer:
      the sell price is the offer plus 2. */
  lemma {:induction false} BuySellSpread(l: Ledger, offer: map<ResourceType, int>, maxCargo: int, r: ResourceType, raw: int)
    requires BuyDraws(l, maxCargo, r) && l.credits >= Get(offer, r) * (raw % 5 + 1)
    requires Get(l.cargo, r) >= 0
    ensures var back := Sold(Bought(l, offer, maxCargo, r, raw), offer, r, raw);
            back.stock == l.stock
            && (forall x :: Get(back.cargo, x) == Get(l.cargo, x))
            && back.credits == l.credits + 2 * (raw % 5 + 1)
  {
    var a := raw % 5 + 1;
    var mid := Bought(l, offer, maxCargo, r, raw);
    assert Get(mid.cargo, r) == Get(l.cargo, r) + a;
    var back := Sold(mid, offer, r, raw);
    assert Min(a, Get(mid.cargo, r)) == a;
    assert back.stock == l.stock[r := Get(l.stock, r)];
    assert back.credits == mid.credits + (Get(offer, r) + 2) * a;
  }

  /** The ledger as it stands on planet `p` and NPC `n`. */
  function LedgerOf(n: NPC, p: Planet): Ledger
    reads n`Cargo, n`Credits, p`Resources
  {
    Ledger(p.Resources, n.Cargo, n.Credits)
  }

  /** Tries to buy resource `r` from `p`: refused when the hold is full, the planet
      holds 5 units or fewer, or the NPC cannot pay the offer price per unit. */
  method TryBuy(n: NPC, p: Planet, r: ResourceType, rand: Random)
    modifies p`Resources, n`Cargo, n`Credits, rand
    ensures LedgerOf(n, p) == Bought(old(LedgerOf(n, p)), n.Offer, n.MaxCargo, r, rand.of(old(rand.calls)))
    ensures rand.calls == old(rand.calls) + (if BuyDraws(old(LedgerOf(n, p)), n.MaxCargo, r) then 1 else 0)
  {
    var currentCargo := SumCargo(n.Cargo);
    if currentCargo >= n.MaxCargo {
      return;
    }
    if Get(p.Resources, r) <= 5 {
      return;
    }
    var draw := rand.Of(5);
    var amount := Min(draw + 1, Get(p.Resources, r));
    var price := Get(n.Offer, r) * amount;
    if n.Credits < price {
      return;
    }
    p.Resources := p.Resources[r := Get(p.Resources, r) - amount];
    n.Cargo := n.Cargo[r := Get(n.Cargo, r) + amount];
    n.Credits := n.Credits - price;
  }

  /** Tries to sell resource `r` to `p`: refused when the hold has none of it;
      otherwise sells up to five units at the offer price plus 2. */
  method TrySell(n: NPC, p: Planet, r: ResourceType, rand: Random)
    modifies p`Resources, n`Cargo, n`Credits, rand
    ensures LedgerOf(n, p) == Sold(old(LedgerOf(n, p)), n.Offer, r, rand.of(old(rand.calls)))
    ensures rand.calls == old(rand.calls) + (if Get(old(n.Cargo), r) > 0 then 1 else 0)
  {
    if Get(n.Cargo, r) <= 0 {
      return;
    }
    var draw := rand.Of(5);
    var amount := Min(draw + 1, Get(n.Cargo, r));
    var price := (Get(n.Offer, r) + 2) * amount;
    p.Resources := p.Resources[r := Get(p.Resources, r) + amount];
    n.Cargo := n.Cargo[r := Get(n.Cargo, r) - amount];
    n.Credits := n.Credits + price;
  }

  /** One random trade leg: a random planet, a random resource code below the
      number of offered resources, then a buy or a sell with even odds. With no
      planets nothing happens and nothing is drawn. */
  method UpdateTrade(n: NPC, planets: seq<Planet>, rand: Random)
    requires |planets| > 0 ==> |n.Offer| > 0
    modifies planets`Resources, n`Cargo, n`Credits, rand
    ensures |planets| == 0 ==> rand.calls == old(rand.calls) && n.Cargo == old(n.Cargo) && n.Credits == old(n.Credits)
    ensures |planets| > 0 ==>
              var k := old(rand.calls);
              var p := planets[rand.of(k) % |planets|];
              var r := (rand.of(k + 1) % |n.Offer|) as ResourceType;
              (forall q :: q in planets && q != p ==> q.Resources == old(q.Resources))
              && (rand.seek(k + 2) < 0.5 ==>
                    LedgerOf(n, p) == Bought(old(LedgerOf(n, p)), n.Offer, n.MaxCargo, r, rand.of(k + 3))
                    && rand.calls == k + 3 + (if BuyDraws(old(LedgerOf(n, p)), n.MaxCargo, r) then 1 else 0))
              && (rand.seek(k + 2) >= 0.5 ==>
                    LedgerOf(n, p) == Sold(old(LedgerOf(n, p)), n.Offer, r, rand.of(k + 3))
                    && rand.calls == k + 3 + (if Get(old(n.Cargo), r) > 0 then 1 else 0))
  {
    if |planets| == 0 {
      return;
    }
    var i := rand.Of(|planets|);
    var p := planets[i];
    var code := rand.Of(|n.Offer|);
    var r := code as ResourceType;
    var x := rand.Seek();
    if x < 0.5 {
      TryBuy(n, p, r, rand);
    } else {
      TrySell(n, p, r, rand);
    }
  }

  // ---------------------------------------------------------------------------
  // Colonisation
  // ---------------------------------------------------------------------------

  /** A planet is colonised once some NPC owns it. */
  function IsPlanetColonized(p: Planet): (c: bool)
    reads p`Owner
    ensures c <==> p.Owner != null
  {
    p.Owner != null
  }

  /** A planet an NPC has colonised counts as colonised, so it is no longer a
      candidate for anyone's colonisation. */
  lemma ColonizedPlanetLeavesCandidates(npc: NPC, p: Planet, before: seq<Building>, city: bool, planets: seq<Planet>)
    requires Colonized(npc, p, before, city)
    ensures IsPlanetColonized(p)
    ensures p !in Unowned(planets, |planets|)
  {
  }

  /** The unowned planets among the first n, in list order. */
  function Unowned(planets: seq<Planet>, n: nat): (c: seq<Planet>)
    requires n <= |planets|
    reads planets`Owner
    ensures |c| <= n
    ensures forall q :: q in c ==> q in planets && !IsPlanetColonized(q)
    ensures forall i :: 0 <= i < n && !IsPlanetColonized(planets[i]) ==> planets[i] in c
  {
    if n == 0 then []
    else Unowned(planets, n - 1) + (if IsPlanetColonized(planets[n - 1]) then [] else [planets[n - 1]])
  }

  /** Some planet of the list has no owner yet. */
  ghost predicate SomeUnowned(planets: seq<Planet>)
    reads planets`Owner
  {
    exists p :: p in planets && p.Owner == null
  }

  /** There are colonisation candidates exactly when some planet is unowned. */
  lemma {:induction false} CandidatesIffSomeUnowned(planets: seq<Planet>)
    ensures |Unowned(planets, |planets|)| > 0 <==> SomeUnowned(planets)
  {
    var c := Unowned(planets, |planets|);
    if |c| > 0 {
      assert c[0] in c;
    }
    if SomeUnowned(planets) {
      var p :| p in planets && p.Owner == null;
      var i :| 0 <= i < |planets| && planets[i] == p;
      assert planets[i] in c;
    }
  }

  /** Collects the colonisation candidates with an append loop. */
  method Candidates(planets: seq<Planet>) returns (c: seq<Planet>)
    ensures c == Unowned(planets, |planets|)
  {
    c := [];
    for i := 0 to |planets|
      invariant c == Unowned(planets, i)
    {
      if !IsPlanetColonized(planets[i]) {
        c := c + [planets[i]];
      }
    }
  }

  const CityProduction: map<ResourceType, int> := map[Food := 2, Iron := 2, Fuel := 1]
  const CityModifiers: map<ResourceType, real> := map[Food := 1.0, Iron := 1.0, Fuel := 1.0]
  const CityBuildCost: map<ResourceType, int> := map[Food := 10, Iron := 10, Fuel := 5]
  const MineProduction: map<ResourceType, int> := map[Iron := 3]
  const MineModifiers: map<ResourceType, real> := map[Iron := 1.0]
  const MineBuildCost: map<ResourceType, int> := map[Food := 5, Iron := 15]

  /** The level-1 building a colony starts with: a City or a Mine. */
  ghost predicate Settlement(b: Building, city: bool)
    reads b
  {
    b.Level == 1
    && (if city then b.Type == City && b.Production == CityProduction
                     && b.Modifiers == Some(CityModifiers) && b.BuildCost == CityBuildCost
        else b.Type == Mine && b.Production == MineProduction
             && b.Modifiers == Some(MineModifiers) && b.BuildCost == MineBuildCost)
  }

  /** `p` belongs to `npc` and has exactly one building more than `before`, a
      settlement, appended after the ones it had. */
  ghost predicate Colonized(npc: NPC, p: Planet, before: seq<Building>, city: bool)
    reads p`Owner, p`Buildings, p.Buildings
  {
    p.Owner == npc
    && |p.Buildings| == |before| + 1
    && p.Buildings[..|before|] == before
    && Settlement(p.Buildings[|before|], city)
  }

  /** Takes `p` for `npc` and founds a City with probability 0.7, otherwise a Mine. */
  method ColonizePlanet(npc: NPC, p: Planet, rand: Random)
    modifies p`Owner, p`Buildings, rand
    ensures Colonized(npc, p, old(p.Buildings), rand.seek(old(rand.calls)) < 0.7)
    ensures fresh(p.Buildings[|old(p.Buildings)|])
    ensures rand.calls == old(rand.calls) + 1
  {
    p.Owner := npc;
    var x := rand.Seek();
    var b;
    if x < 0.7 {
      b := new Building(City, 1, CityProduction, Some(CityModifiers), CityBuildCost);
    } else {
      b := new Building(Mine, 1, MineProduction, Some(MineModifiers), MineBuildCost);
    }
    p.Buildings := p.Buildings + [b];
  }

  // ---------------------------------------------------------------------------
  // Bulk trades
  // ---------------------------------------------------------------------------

  /** The units of `r` a bulk trade moves: the smaller of stock and offer, or none
      when that is not positive or `r` is not offered. */
  function Transfer(stock: map<ResourceType, int>, offer: map<ResourceType, int>, r: ResourceType): (t: int)
    ensures t >= 0
    ensures t > 0 ==> t <= Get(stock, r) && r in offer && t <= offer[r] && (t == Get(stock, r) || t == offer[r])
    ensures t == 0 <==> r !in offer || Get(stock, r) <= 0 || offer[r] <= 0
  {
    if r in offer && Min(Get(stock, r), offer[r]) > 0 then Min(Get(stock, r), offer[r]) else 0
  }

  /** The planet's stock after the resources in `done` were taken from it. */
  ghost predicate Withdrawn(before: map<ResourceType, int>, after: map<ResourceType, int>,
                            offer: map<ResourceType, int>, done: set<ResourceType>)
  {
    after.Keys == before.Keys
    && forall r :: r in after ==> after[r] == before[r] - (if r in done then Transfer(before, offer, r) else 0)
  }

  /** The cargo after the resources in `done` were loaded from a planet holding `stock`. */
  ghost predicate Loaded(before: map<ResourceType, int>, after: map<ResourceType, int>, stock: map<ResourceType, int>,
                         offer: map<ResourceType, int>, done: set<ResourceType>)
  {
    after.Keys == before.Keys + (set r | r in done && Transfer(stock, offer, r) > 0)
    && forall r :: r in after ==> after[r] == Get(before, r) + (if r in done then Transfer(stock, offer, r) else 0)
  }

  /** `order` lists each key exactly once. */
  ghost predicate Visits(order: seq<ResourceType>, keys: set<ResourceType>)
  {
    (forall i :: 0 <= i < |order| ==> order[i] in keys)
    && (forall r :: r in keys ==> r in order)
    && (forall i, j :: 0 <= i < j < |order| ==> order[i] != order[j])
  }

  /** The units moved by the first n trades in `order`. */
  function Bill(stock: map<ResourceType, int>, offer: map<ResourceType, int>, order: seq<ResourceType>, n: nat): int
    requires n <= |order|
  {
    if n == 0 then 0 else Bill(stock, offer, order, n - 1) + Transfer(stock, offer, order[n - 1])
  }

  /** Credits after the first n trades in `order`, at one credit per unit: each
      trade is paid only when the credits cover it at that point. */
  function Charged(credits: int, stock: map<ResourceType, int>, offer: map<ResourceType, int>,
                   order: seq<ResourceType>, n: nat): int
    requires n <= |order|
  {
    if n == 0 then credits
    else
      Pay(Charged(credits, stock, offer, order, n - 1), Transfer(stock, offer, order[n - 1]))
  }

  /** Paying for a trade of t units at one credit per unit, when the credits cover it. */
  function Pay(credits: int, t: int): int
  {
    if t > 0 && credits >= t then credits - t else credits
  }

  /** Appending to the visiting order leaves the charges of its prefix alone. */
  lemma {:induction false} ChargedExtend(credits: int, stock: map<ResourceType, int>, offer: map<ResourceType, int>,
                                         order: seq<ResourceType>, r: ResourceType, n: nat)
    requires n <= |order|
    ensures Charged(credits, stock, offer, order + [r], n) == Charged(credits, stock, offer, order, n)
  {
    if n > 0 {
      ChargedExtend(credits, stock, offer, order, r, n - 1);
      assert (order + [r])[n - 1] == order[n - 1];
    }
  }

  /** The stock after taking t units of r: nothing is taken unless t is positive. */
  function Withdraw(stock: map<ResourceType, int>, r: ResourceType, t: int): map<ResourceType, int>
  {
    if t > 0 then stock[r := Get(stock, r) - t] else stock
  }

  /** The cargo after loading t units of r: nothing is loaded unless t is positive. */
  function Load(cargo: map<ResourceType, int>, r: ResourceType, t: int): map<ResourceType, int>
  {
    if t > 0 then cargo[r := Get(cargo, r) + t] else cargo
  }

  /** Trading one more resource extends the withdrawal to it. */
  lemma {:induction false} WithdrawStep(stock: map<ResourceType, int>, cur: map<ResourceType, int>,
                                        offer: map<ResourceType, int>, done: set<ResourceType>, r: ResourceType)
    requires Withdrawn(stock, cur, offer, done) && r !in done
    ensures Withdrawn(stock, Withdraw(cur, r, Transfer(stock, offer, r)), offer, done + {r})
  {
    var t := Transfer(stock, offer, r);
    var after := Withdraw(cur, r, t);
    if t > 0 {
      assert r in stock;
      assert after.Keys == stock.Keys;
    }
    forall x | x in after
      ensures after[x] == stock[x] - (if x in done + {r} then Transfer(stock, offer, x) else 0)
    {
      if x != r {
        assert after[x] == cur[x];
      }
    }
  }

  /** Trading one more resource extends the loading to it. */
  lemma {:induction false} LoadStep(stock: map<ResourceType, int>, cargo: map<ResourceType, int>, cur: map<ResourceType, int>,
                                    offer: map<ResourceType, int>, done: set<ResourceType>, r: ResourceType)
    requires Loaded(cargo, cur, stock, offer, done) && r !in done
    ensures Loaded(cargo, Load(cur, r, Transfer(stock, offer, r)), stock, offer, done + {r})
  {
    var t := Transfer(stock, offer, r);
    var after := Load(cur, r, t);
    assert Get(cur, r) == Get(cargo, r);
    assert after.Keys == cargo.Keys + (set x | x in done + {r} && Transfer(stock, offer, x) > 0);
    forall x | x in after
      ensures after[x] == Get(cargo, x) + (if x in done + {r} then Transfer(stock, offer, x) else 0)
    {
      if x != r {
        assert after[x] == cur[x];
      }
    }
  }

  /** Charging never raises credits, never takes more than the bill, and never
      takes non-negative credits below zero. */
  lemma {:induction false} ChargedBounds(credits: int, stock: map<ResourceType, int>, offer: map<ResourceType, int>,
                                         order: seq<ResourceType>, n: nat)
    requires n <= |order|
    ensures Charged(credits, stock, offer, order, n) <= credits
    ensures Charged(credits, stock, offer, order, n) >= credits - Bill(stock, offer, order, n)
    ensures credits >= 0 ==> Charged(credits, stock, offer, order, n) >= 0
  {
    if n > 0 {
      ChargedBounds(credits, stock, offer, order, n - 1);
    }
  }

  /** When the credits cover the whole bill, every trade is paid, whatever the order. */
  lemma {:induction false} ChargedWhenCovered(credits: int, stock: map<ResourceType, int>, offer: map<ResourceType, int>,
                                              order: seq<ResourceType>, n: nat)
    requires n <= |order|
    requires credits >= Bill(stock, offer, order, n)
    ensures Charged(credits, stock, offer, order, n) == credits - Bill(stock, offer, order, n)
  {
    if n > 0 {
      ChargedWhenCovered(credits, stock, offer, order, n - 1);
    }
  }

  /** Visiting one more key extends a visiting order. */
  lemma VisitsStep(order: seq<ResourceType>, done: set<ResourceType>, r: ResourceType)
    requires Visits(order, done) && r !in done
    ensures Visits(order + [r], done + {r})
  {
    assert (order + [r])[|order|] == r;
  }

  /** The effect of a bulk trade of `npc` with `p`, from stock, cargo and credits
      before it and the order in which the offered resources were visited. */
  ghost predicate Traded(npc: NPC, p: Planet, stock: map<ResourceType, int>, cargo: map<ResourceType, int>,
                         credits: int, order: seq<ResourceType>)
    reads npc`Offer, npc`Cargo, npc`Credits, p`Resources, p`Owner
  {
    Visits(order, npc.Offer.Keys)
    && Withdrawn(stock, p.Resources, npc.Offer, npc.Offer.Keys)
    && Loaded(cargo, npc.Cargo, stock, npc.Offer, npc.Offer.Keys)
    && npc.Credits == (if p.Owner == npc then credits else Charged(credits, stock, npc.Offer, order, |order|))
  }

  /** One leg of a bulk trade: moves the smaller of stock and offer of `r` from
      `p` into the cargo, paying one credit per unit when `charge` is set and the
      credits cover it. */
  method TradeResource(npc: NPC, p: Planet, r: ResourceType, charge: bool)
    requires r in npc.Offer
    modifies p`Resources, npc`Cargo, npc`Credits
    ensures p.Resources == Withdraw(old(p.Resources), r, Transfer(old(p.Resources), npc.Offer, r))
    ensures npc.Cargo == Load(old(npc.Cargo), r, Transfer(old(p.Resources), npc.Offer, r))
    ensures npc.Credits == if charge then Pay(old(npc.Credits), Transfer(old(p.Resources), npc.Offer, r)) else old(npc.Credits)
  {
    var t := Min(Get(p.Resources, r), npc.Offer[r]);
    if t <= 0 {
      return;
    }
    p.Resources := p.Resources[r := p.Resources[r] - t];
    npc.Cargo := npc.Cargo[r := Get(npc.Cargo, r) + t];
    if charge && npc.Credits >= t {
      npc.Credits := npc.Credits - t;
    }
  }

  /** Where a bulk trade stands after the resources in `done` were traded, in the
      order `order`, from stock, cargo and credits before it. */
  ghost predicate Progress(npc: NPC, p: Planet, stock: map<ResourceType, int>, cargo: map<ResourceType, int>,
                           credits: int, owned: bool, order: seq<ResourceType>, done: set<ResourceType>)
    reads npc`Offer, npc`Cargo, npc`Credits, p`Resources
  {
    Visits(order, done)
    && Withdrawn(stock, p.Resources, npc.Offer, done)
    && Loaded(cargo, npc.Cargo, stock, npc.Offer, done)
    && npc.Credits == (if owned then credits else Charged(credits, stock, npc.Offer, order, |order|))
  }

  /** Trades one more offered resource and records it in the visiting order. */
  method TradeNext(npc: NPC, p: Planet, r: ResourceType, owned: bool, ghost stock: map<ResourceType, int>,
                   ghost cargo: map<ResourceType, int>, ghost credits: int,
                   ghost order: seq<ResourceType>, ghost done: set<ResourceType>)
    requires r in npc.Offer && r !in done
    requires Progress(npc, p, stock, cargo, credits, owned, order, done)
    modifies p`Resources, npc`Cargo, npc`Credits
    ensures Progress(npc, p, stock, cargo, credits, owned, order + [r], done + {r})
  {
    assert Get(p.Resources, r) == Get(stock, r);
    WithdrawStep(stock, p.Resources, npc.Offer, done, r);
    LoadStep(stock, cargo, npc.Cargo, npc.Offer, done, r);
    ChargedExtend(credits, stock, npc.Offer, order, r, |order|);
    VisitsStep(order, done, r);
    TradeResource(npc, p, r, !owned);
  }

  /** Moves the smaller of stock and offer of every offered resource from `p` into
      the cargo. On its own planet the NPC pays nothing; elsewhere it pays one credit
      per unit, but only for the trades its credits cover at that point, and the
      goods move either way. */
  method ExecuteTrade(npc: NPC, p: Planet) returns (ghost order: seq<ResourceType>)
    modifies p`Resources, npc`Cargo, npc`Credits
    ensures Traded(npc, p, old(p.Resources), old(npc.Cargo), old(npc.Credits), order)
  {
    ghost var stock := p.Resources;
    ghost var cargo := npc.Cargo;
    ghost var credits := npc.Credits;
    ghost var done: set<ResourceType> := {};
    order := [];
    var todo := npc.Offer.Keys;
    var owned := p.Owner == npc;
    while todo != {}
      invariant todo <= npc.Offer.Keys && done == npc.Offer.Keys - todo
      invariant Progress(npc, p, stock, cargo, credits, owned, order, done)
      decreases todo
    {
      HasElement(todo);
      var r :| r in todo;
      TradeNext(npc, p, r, owned, stock, cargo, credits, order, done);
      order := order + [r];
      done := done + {r};
      todo := todo - {r};
    }
  }

  /** After a bulk trade no stock of the planet has grown, none that was
      non-negative has gone negative, and each offered resource lost the smaller
      of its stock and the offer whenever both were positive. */
  lemma BulkTradeStock(stock: map<ResourceType, int>, after: map<ResourceType, int>, offer: map<ResourceType, int>)
    requires Withdrawn(stock, after, offer, offer.Keys)
    ensures after.Keys == stock.Keys
    ensures forall r :: r in after ==> after[r] <= stock[r] && (stock[r] >= 0 ==> after[r] >= 0)
    ensures forall r :: r in after && r in offer && stock[r] > 0 && offer[r] > 0 ==>
              after[r] == stock[r] - Min(stock[r], offer[r])
  {
  }

  /** The two trades of the repository's test: 100 credits, 10 Iron on the planet.
      Elsewhere, offering 5 Iron moves 5 Iron and costs 5 credits; on its own
      planet, offering 10 Iron moves all 10 for free. */
  lemma ExecuteTradeScenario(stock: map<ResourceType, int>, cargo: map<ResourceType, int>)
    ensures Withdrawn(map[Iron := 10], stock, map[Iron := 5], {Iron}) ==> stock == map[Iron := 5]
    ensures Loaded(map[Iron := 0], cargo, map[Iron := 10], map[Iron := 5], {Iron}) ==> cargo == map[Iron := 5]
    ensures Charged(100, map[Iron := 10], map[Iron := 5], [Iron], 1) == 95
    ensures Withdrawn(map[Iron := 10], stock, map[Iron := 10], {Iron}) ==> stock == map[Iron := 0]
    ensures Loaded(map[Iron := 0], cargo, map[Iron := 10], map[Iron := 10], {Iron}) ==> cargo == map[Iron := 10]
  {
    assert Transfer(map[Iron := 10], map[Iron := 5], Iron) == 5;
    assert Transfer(map[Iron := 10], map[Iron := 10], Iron) == 10;
  }

  // ---------------------------------------------------------------------------
  // One NPC turn
  // ---------------------------------------------------------------------------

  /** The colonisation half of a turn: collects the unowned planets; when there
      are some, a draw below 0.05
      colonises a random candidate and restarts the cooldown for 600 to 4199
      seconds after `now`. */
  method MaybeColonize(npc: NPC, planets: seq<Planet>, rand: Random, now: int)
    returns (colonized: bool)
    modifies npc`ColonizationCooldown, planets`Owner, planets`Buildings, rand
    ensures var k := old(rand.calls);
            var candidates := old(Unowned(planets, |planets|));
            colonized <==> |candidates| > 0 && rand.seek(k) < 0.05
    ensures var k := old(rand.calls);
            var candidates := old(Unowned(planets, |planets|));
            colonized ==>
              var q := candidates[rand.of(k + 1) % |candidates|];
              q in planets && old(q.Owner) == null
              && Colonized(npc, q, old(q.Buildings), rand.seek(k + 2) < 0.7)
              && fresh(q.Buildings[|old(q.Buildings)|])
              && npc.ColonizationCooldown == now + rand.of(k + 3) % 3600 + 600
              && rand.calls == k + 4
              && (forall q' :: q' in planets && q' != q ==> q'.Owner == old(q'.Owner) && q'.Buildings == old(q'.Buildings))
    ensures !colonized ==>
              var candidates := old(Unowned(planets, |planets|));
              rand.calls == old(rand.calls) + (if |candidates| > 0 then 1 else 0)
              && npc.ColonizationCooldown == old(npc.ColonizationCooldown)
              && (forall q :: q in planets ==> q.Owner == old(q.Owner) && q.Buildings == old(q.Buildings))
  {
    colonized := false;
    var candidates := Candidates(planets);
    if |candidates| == 0 {
      return;
    }
    var x := rand.Seek();
    if x >= 0.05 {
      return;
    }
    colonized := true;
    var i := rand.Of(|candidates|);
    var planet := candidates[i];
    assert planet in planets;
    ColonizePlanet(npc, planet, rand);
    var delay := rand.Of(3600);
    npc.ColonizationCooldown := now + delay + 600;
  }

  /** The trading half of a turn: a draw below 0.3 makes a bulk trade with a
      random planet. */
  method MaybeTrade(npc: NPC, planets: seq<Planet>, rand: Random)
    returns (ghost traded: bool, ghost order: seq<ResourceType>)
    modifies npc`Cargo, npc`Credits, planets`Resources, rand
    ensures traded <==> |planets| > 0 && rand.seek(old(rand.calls)) < 0.3
    ensures var k := old(rand.calls);
            traded ==>
              var p := planets[rand.of(k + 1) % |planets|];
              rand.calls == k + 2
              && Traded(npc, p, old(p.Resources), old(npc.Cargo), old(npc.Credits), order)
              && forall q :: q in planets && q != p ==> q.Resources == old(q.Resources)
    ensures var k := old(rand.calls);
            !traded ==>
              rand.calls == k + (if |planets| > 0 then 1 else 0)
              && npc.Cargo == old(npc.Cargo) && npc.Credits == old(npc.Credits)
              && forall q :: q in planets ==> q.Resources == old(q.Resources)
  {
    traded, order := false, [];
    if |planets| == 0 {
      return;
    }
    var y := rand.Seek();
    if y < 0.3 {
      traded := true;
      var i := rand.Of(|planets|);
      var p := planets[i];
      order := ExecuteTrade(npc, p);
    }
  }

  /** One turn of an NPC at time `now` (in seconds). While the colonisation
      cooldown runs nothing happens. Otherwise, when some planet is unowned, a
      draw below 0.05 colonises a random unowned planet and restarts the cooldown
      for 600 to 4199 seconds, ending the turn. Failing that, a draw below 0.3
      makes a bulk trade with a random planet. */
  method RunNPCLogic(npc: NPC, planets: seq<Planet>, rand: Random, now: int)
    returns (ghost colonized: bool, ghost traded: bool, ghost order: seq<ResourceType>)
    modifies npc`ColonizationCooldown, npc`Cargo, npc`Credits, planets`Owner, planets`Buildings, planets`Resources, rand
    ensures var k := old(rand.calls);
            var cands := old(Unowned(planets, |planets|));
            colonized <==> now >= old(npc.ColonizationCooldown) && |cands| > 0 && rand.seek(k) < 0.05
    ensures var k := old(rand.calls);
            var cands := old(Unowned(planets, |planets|));
            var j := k + (if |cands| > 0 then 1 else 0);
            traded <==> now >= old(npc.ColonizationCooldown) && !colonized && |planets| > 0 && rand.seek(j) < 0.3
    ensures now < old(npc.ColonizationCooldown) ==> rand.calls == old(rand.calls)
    ensures !colonized ==>
              npc.ColonizationCooldown == old(npc.ColonizationCooldown)
              && forall q :: q in planets ==> q.Owner == old(q.Owner) && q.Buildings == old(q.Buildings)
    ensures !traded ==>
              npc.Cargo == old(npc.Cargo) && npc.Credits == old(npc.Credits)
              && forall q :: q in planets ==> q.Resources == old(q.Resources)
    ensures colonized ==>
              var k := old(rand.calls);
              var cands := old(Unowned(planets, |planets|));
              var q := cands[rand.of(k + 1) % |cands|];
              q in planets && old(q.Owner) == null
              && Colonized(npc, q, old(q.Buildings), rand.seek(k + 2) < 0.7)
              && fresh(q.Buildings[|old(q.Buildings)|])
              && npc.ColonizationCooldown == now + rand.of(k + 3) % 3600 + 600
              && now + 600 <= npc.ColonizationCooldown < now + 4200
              && rand.calls == k + 4
              && (forall q' :: q' in planets && q' != q ==> q'.Owner == old(q'.Owner) && q'.Buildings == old(q'.Buildings))
    ensures now >= old(npc.ColonizationCooldown) && !colonized ==>
              var k := old(rand.calls);
              var cands := old(Unowned(planets, |planets|));
              var j := k + (if |cands| > 0 then 1 else 0);
              rand.calls == j + (if traded then 2 else if |planets| > 0 then 1 else 0)
    ensures traded ==>
              var k := old(rand.calls);
              var cands := old(Unowned(planets, |planets|));
              var j := k + (if |cands| > 0 then 1 else 0);
              var p := planets[rand.of(j + 1) % |planets|];
              Traded(npc, p, old(p.Resources), old(npc.Cargo), old(npc.Credits), order)
              && forall q :: q in planets && q != p ==> q.Resources == old(q.Resources)
    ensures colonized ==>
              exists q :: q in planets && old(q.Owner) == null
                && Colonized(npc, q, old(q.Buildings), rand.seek(old(rand.calls) + 2) < 0.7)
                && (forall q' :: q' in planets && q' != q ==> q'.Owner == old(q'.Owner) && q'.Buildings == old(q'.Buildings))
    ensures traded ==>
              exists p :: p in planets && Traded(npc, p, old(p.Resources), old(npc.Cargo), old(npc.Credits), order)
                && (forall q :: q in planets && q != p ==> q.Resources == old(q.Resources))
  {
    colonized, traded, order := false, false, [];
    if now < npc.ColonizationCooldown {
      return;
    }
    var done := MaybeColonize(npc, planets, rand, now);
    colonized := done;
    if done {
      return;
    }
    traded, order := MaybeTrade(npc, planets, rand);
  }
}
