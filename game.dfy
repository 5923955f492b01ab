/** The game service: the universe it simulates and one tick of its loop. */
module Simulation {
  import opened Wrappers
  import opened Entities
  import opened Configuration
  import opened Randomness
  import opened Production
  import opened Events
  import opened NPCs

  class Game {
    const config: Config
    const random: Random
    var Planets: seq<Planet>
    var NPCs: seq<NPC>
    var ActiveEvents: seq<Event>

    /** Every event of the list that targets a whole planet targets one of the universe. */
    ghost predicate InUniverse(es: seq<Event>)
      reads this
    {
      forall q :: q in PlanetsTargeted(es) ==> q in Planets
    }

    /** Every countdown of the list lies in (0, bound]. */
    ghost predicate Running(es: seq<Event>, bound: int)
      reads es`RemainingTicks
    {
      forall e :: e in es ==> 0 < e.RemainingTicks <= bound
    }

    /** The events list has no repeats, every listed event has been counted
        down at least once and is still running, and every event's target is
        part of the universe. */
    ghost predicate EventsValid()
      reads this, ActiveEvents
    {
      Distinct(ActiveEvents) && Running(ActiveEvents, EventDuration - 1) && InUniverse(ActiveEvents)
    }

    /** Every owned planet is owned by one of the game's NPCs. */
    ghost predicate OwnersValid()
      reads this, Planets`Owner
    {
      forall p :: p in Planets ==> p.Owner == null || p.Owner in NPCs
    }

    ghost predicate Valid()
      reads this, Planets, ActiveEvents
    {
      EventsValid() && OwnersValid()
    }

    /** A game over the given universe with no active events; it is valid as soon
        as every owned planet belongs to one of the NPCs, as seeded planets do. */
    constructor (config: Config, random: Random, planets: seq<Planet>, npcs: seq<NPC>)
      ensures this.config == config && this.random == random
      ensures Planets == planets && NPCs == npcs && ActiveEvents == []
      ensures (forall p :: p in planets ==> p.Owner == null || p.Owner in npcs) ==> Valid()
    {
      this.config := config;
      this.random := random;
      Planets := planets;
      NPCs := npcs;
      ActiveEvents := [];
    }

    /** The events a countdown pass is about to run over: no repeats, every
        countdown positive and at most the full duration, every target part of
        the universe. */
    ghost predicate Pending(events: seq<Event>)
      reads this, events
    {
      Distinct(events) && Running(events, EventDuration) && InUniverse(events)
    }

    /** Maybe triggers a new event, appended to the active ones. */
    method TriggerPhase() returns (events: seq<Event>, ghost triggered: Event?)
      requires EventsValid()
      modifies random, Planets`Modifiers, BuildingsOf(Planets)`Modifiers
      ensures Pending(events)
      ensures triggered == null ==> events == ActiveEvents
      ensures triggered != null ==>
                events == ActiveEvents + [triggered] && fresh(triggered) && triggered.RemainingTicks == EventDuration
      ensures BuildingsTargeted(events) <= BuildingsTargeted(ActiveEvents) + BuildingsOf(Planets)
      ensures |Planets| > 0 ==> (triggered != null <==> Triggers(Planets, random, old(random.calls)))
    {
      ghost var plan := if |Planets| > 0 then Some(DrawnEvent(Planets, random, random.calls)) else None;
      events := MaybeTriggerEvent(Planets, ActiveEvents, random);
      triggered := null;
      if |events| > |ActiveEvents| {
        triggered := events[|ActiveEvents|];
        assert events == ActiveEvents + [triggered];
        TargetedAppend(ActiveEvents, triggered);
        assert Carries(triggered, plan.value);
        assert PlanetOf(triggered) <= {plan.value.planet};
        assert BuildingOf(triggered) <= BuildingsOf(Planets);
        assert Distinct(events);
        assert Running(events, EventDuration);
      }
    }

    /** Counts every pending event down once and keeps those still running. */
    method CountdownPhase(events: seq<Event>)
      requires Pending(events)
      modifies this`ActiveEvents, Planets`Modifiers, BuildingsTargeted(events)`Modifiers, events`RemainingTicks
      ensures EventsValid()
      ensures forall e :: e in events ==>
                e.RemainingTicks == old(e.RemainingTicks) - 1 && (e in ActiveEvents <==> old(e.RemainingTicks) > 1)
      ensures forall e :: e in ActiveEvents ==> e in events
    {
      ghost var ticks := TicksOf(events);
      ActiveEvents := UpdateEvents(events);
      DistinctSurvivors(events, ticks, |events|);
      TargetedSubset(ActiveEvents, events);
      forall e | e in events
        ensures e.RemainingTicks == old(e.RemainingTicks) - 1 && (e in ActiveEvents <==> old(e.RemainingTicks) > 1)
      {
        DistinctCountsDownOnce(events, e);
        var j :| 0 <= j < |events| && events[j] == e;
        assert ticks[j] == old(e.RemainingTicks);
      }
      assert Running(ActiveEvents, EventDuration - 1);
    }

    /** The world part of a tick: production on every planet, then maybe a new
        event, then the countdown of every event, dropping the expired ones. An
        event triggered in this tick is left with four ticks to run. */
    method WorldPhase() returns (ghost triggered: Event?)
      requires EventsValid()
      modifies this`ActiveEvents, random, Planets`Resources, Planets`Modifiers, BuildingsOf(Planets)`Modifiers
      modifies BuildingsTargeted(ActiveEvents)`Modifiers, ActiveEvents`RemainingTicks
      ensures EventsValid()
      ensures forall e :: e in old(ActiveEvents) ==>
                e.RemainingTicks == old(e.RemainingTicks) - 1 && (e in ActiveEvents <==> old(e.RemainingTicks) > 1)
      ensures triggered != null ==>
                fresh(triggered) && triggered in ActiveEvents && triggered.RemainingTicks == EventDuration - 1
      ensures forall e :: e in ActiveEvents ==> e in old(ActiveEvents) || e == triggered
      ensures |Planets| > 0 ==> (triggered != null <==> Triggers(Planets, random, old(random.calls)))
      ensures Produced(Planets)
    {
      ProduceResources(Planets);
      assert EventsValid();
      var events;
      events, triggered := TriggerPhase();
      assert Produced(Planets);
      CountdownPhase(events);
    }

    /** Every planet keeps its buildings as a prefix, and an owner once set
        stays; newly set owners are among the given NPCs. */
    static twostate predicate Settled(planets: seq<Planet>, npcs: seq<NPC>)
      reads planets`Owner, planets`Buildings
    {
      forall p :: p in planets ==>
        && (old(p.Owner) != null ==> p.Owner == old(p.Owner))
        && (p.Owner == old(p.Owner) || p.Owner in npcs)
        && old(p.Buildings) <= p.Buildings
    }

    /** One NPC's turn. While its cooldown runs nothing happens. Otherwise it
        colonises one unowned planet of the universe, restarting its cooldown,
        when there is one and the first draw is below 0.05, and failing that
        trades with one planet when the next draw is below 0.3; whatever it does
        not do leaves its part of the state as it was. In universe terms: no
        owner is cleared or replaced, a newly set owner is this NPC, and
        buildings are only added. */
    method Turn(npc: NPC, now: int) returns (ghost colonized: bool, ghost traded: bool, ghost order: seq<ResourceType>)
      modifies random, Planets`Owner, Planets`Buildings, Planets`Resources
      modifies npc`ColonizationCooldown, npc`Cargo, npc`Credits
      ensures colonized <==>
                (now >= old(npc.ColonizationCooldown) && old(SomeUnowned(Planets))
                 && random.seek(old(random.calls)) < 0.05)
      ensures traded <==>
                (now >= old(npc.ColonizationCooldown) && !colonized && |Planets| > 0
                 && random.seek(old(random.calls) + (if old(SomeUnowned(Planets)) then 1 else 0)) < 0.3)
      ensures now < old(npc.ColonizationCooldown) ==> !colonized && !traded && random.calls == old(random.calls)
      ensures old(random.calls) <= random.calls
      ensures now >= old(npc.ColonizationCooldown) && |Planets| > 0 ==> old(random.calls) < random.calls
      ensures colonized || traded ==> old(random.calls) < random.calls
      ensures colonized ==> now >= old(npc.ColonizationCooldown) && !traded
      ensures traded ==> now >= old(npc.ColonizationCooldown) && !colonized
      ensures !colonized ==>
                npc.ColonizationCooldown == old(npc.ColonizationCooldown)
                && forall q :: q in Planets ==> q.Owner == old(q.Owner) && q.Buildings == old(q.Buildings)
      ensures !traded ==>
                npc.Cargo == old(npc.Cargo) && npc.Credits == old(npc.Credits)
                && forall q :: q in Planets ==> q.Resources == old(q.Resources)
      ensures colonized ==>
                && now + 600 <= npc.ColonizationCooldown < now + 4200
                && exists q :: q in Planets && old(q.Owner) == null
                     && Colonized(npc, q, old(q.Buildings), random.seek(old(random.calls) + 2) < 0.7)
                     && (forall q' :: q' in Planets && q' != q ==> q'.Owner == old(q'.Owner) && q'.Buildings == old(q'.Buildings))
      ensures traded ==>
                exists p :: p in Planets && Traded(npc, p, old(p.Resources), old(npc.Cargo), old(npc.Credits), order)
                  && (forall q :: q in Planets && q != p ==> q.Resources == old(q.Resources))
      ensures Settled(Planets, [npc])
      ensures npc.ColonizationCooldown == old(npc.ColonizationCooldown) || now + 600 <= npc.ColonizationCooldown < now + 4200
    {
      CandidatesIffSomeUnowned(Planets);
      colonized, traded, order := RunNPCLogic(npc, Planets, random, now);
    }

    /** No planet's owner, buildings or stock and no NPC's cooldown, cargo or
        credits differ from the old state. */
    static twostate predicate Untouched(planets: seq<Planet>, npcs: seq<NPC>)
      reads planets`Owner, planets`Buildings, planets`Resources
      reads npcs`ColonizationCooldown, npcs`Cargo, npcs`Credits
    {
      && (forall q :: q in planets ==>
            q.Owner == old(q.Owner) && q.Buildings == old(q.Buildings) && q.Resources == old(q.Resources))
      && (forall n :: n in npcs ==>
            n.ColonizationCooldown == old(n.ColonizationCooldown) && n.Cargo == old(n.Cargo) && n.Credits == old(n.Credits))
    }

    /** Runs every NPC's turn, in list order, against the same planets. With
        at least one planet, an NPC whose cooldown has passed always takes a
        draw; when every NPC is still on cooldown nothing changes. */
    method RunNPCs(now: int)
      requires OwnersValid()
      modifies random, Planets`Owner, Planets`Buildings, Planets`Resources
      modifies NPCs`ColonizationCooldown, NPCs`Cargo, NPCs`Credits
      ensures Settled(Planets, NPCs)
      ensures OwnersValid()
      ensures forall n :: n in NPCs ==>
                n.ColonizationCooldown == old(n.ColonizationCooldown) || now + 600 <= n.ColonizationCooldown < now + 4200
      ensures |Planets| > 0 && (exists n :: n in NPCs && now >= old(n.ColonizationCooldown)) ==>
                old(random.calls) < random.calls
      ensures (forall n :: n in NPCs ==> now < old(n.ColonizationCooldown)) ==>
                random.calls == old(random.calls) && Untouched(Planets, NPCs)
    {
      for i := 0 to |NPCs|
        invariant Settled(Planets, NPCs)
        invariant OwnersValid()
        invariant forall n :: n in NPCs ==>
                    n.ColonizationCooldown == old(n.ColonizationCooldown) || now + 600 <= n.ColonizationCooldown < now + 4200
        invariant old(random.calls) <= random.calls
        invariant random.calls == old(random.calls) ==>
                    && Untouched(Planets, NPCs)
                    && (|Planets| == 0 || forall j :: 0 <= j < i ==> now < old(NPCs[j].ColonizationCooldown))
        invariant (forall n :: n in NPCs ==> now < old(n.ColonizationCooldown)) ==> random.calls == old(random.calls)
      {
        assert random.calls == old(random.calls) ==> NPCs[i].ColonizationCooldown == old(NPCs[i].ColonizationCooldown);
        ghost var colonized, traded, order := Turn(NPCs[i], now);
      }
    }

    /** One tick of the game loop: production on every planet, maybe a new
        event, the countdown of all events, then every NPC's turn. The game
        stays valid; every event (including one triggered in this tick) is
        counted down exactly once; owners are never cleared or replaced,
        buildings are only ever added, and the planet and NPC lists stay as
        they are. */
    method Tick(now: int) returns (ghost triggered: Event?)
      requires Valid()
      modifies this`ActiveEvents, random, ActiveEvents`RemainingTicks
      modifies Planets`Resources, Planets`Modifiers, Planets`Owner, Planets`Buildings
      modifies BuildingsOf(Planets)`Modifiers, BuildingsTargeted(ActiveEvents)`Modifiers
      modifies NPCs`ColonizationCooldown, NPCs`Cargo, NPCs`Credits
      ensures EventsValid()
      ensures OwnersValid()
      ensures forall e :: e in old(ActiveEvents) ==>
                e.RemainingTicks == old(e.RemainingTicks) - 1 && (e in ActiveEvents <==> old(e.RemainingTicks) > 1)
      ensures triggered != null ==>
                fresh(triggered) && triggered in ActiveEvents && triggered.RemainingTicks == EventDuration - 1
      ensures forall e :: e in ActiveEvents ==> e in old(ActiveEvents) || e == triggered
      ensures Settled(Planets, NPCs)
      ensures Planets == old(Planets) && NPCs == old(NPCs)
    {
      triggered := WorldPhase();
      RunNPCs(now);
    }
  }
}
