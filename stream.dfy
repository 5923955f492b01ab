/** The universe-state stream: a client sends commands that subscribe, pause,
    resume or unsubscribe; while subscribed and not paused, a pending planet
    update is sent together with the pending NPC and event updates. The three
    pending updates are single-value slots that are filled before the stream
    starts. Also the conversion of entities into wire messages, as far as absent
    references and unset times are concerned. */
module Stream {
  import opened Wrappers
  import opened Entities

  /** A client command; `Unrecognized` stands for any other wire value. */
  datatype CommandType = Subscribe | Pause | Resume | Unsubscribe | Unrecognized(code: int)

  /** The stream's two flags. */
  datatype Flags = Flags(subscribed: bool, paused: bool)

  /** The flags a stream starts with. */
  const Initial: Flags := Flags(false, false)

  /** The flags after one command. SUBSCRIBE subscribes and unpauses, PAUSE pauses,
      RESUME unpauses, UNSUBSCRIBE unsubscribes without touching the pause flag,
      and any other command changes nothing. */
  function Apply(f: Flags, c: CommandType): (g: Flags)
    ensures g.subscribed <==> c == Subscribe || (f.subscribed && c != Unsubscribe)
    ensures g.paused <==> c == Pause || (f.paused && c != Subscribe && c != Resume)
  {
    match c
    case Subscribe => Flags(true, false)
    case Pause => f.(paused := true)
    case Resume => f.(paused := false)
    case Unsubscribe => f.(subscribed := false)
    case Unrecognized(_) => f
  }

  /** Updates flow only while subscribed and not paused. */
  predicate Live(f: Flags)
  {
    f.subscribed && !f.paused
  }

  /** The flags after the first n commands. */
  function FlagsAfter(cmds: seq<CommandType>, n: nat): Flags
    requires n <= |cmds|
  {
    if n == 0 then Initial else Apply(FlagsAfter(cmds, n - 1), cmds[n - 1])
  }

  /** Whether the stream is live right after command j. */
  predicate LiveAfter(cmds: seq<CommandType>, j: nat)
    requires j < |cmds|
  {
    Live(FlagsAfter(cmds, j + 1))
  }

  /** The first of the first n commands after which the stream is live, if any. */
  function FirstLive(cmds: seq<CommandType>, n: nat): (i: Option<nat>)
    requires n <= |cmds|
    ensures i.Some? ==> i.value < n && LiveAfter(cmds, i.value)
    ensures i.Some? ==> forall j :: 0 <= j < i.value ==> !LiveAfter(cmds, j)
    ensures i.None? ==> forall j :: 0 <= j < n ==> !LiveAfter(cmds, j)
  {
    if n == 0 then None
    else
      var before := FirstLive(cmds, n - 1);
      if before.Some? then before
      else if LiveAfter(cmds, n - 1) then Some(n - 1)
      else None
  }

  /** The pending updates: a planet list, an NPC list and an event list, each
      either waiting in its slot or absent. */
  datatype Slots = Slots(planets: Option<seq<Planet>>, npcs: Option<seq<NPC>>, events: Option<seq<Event>>)

  const Empty: Slots := Slots(None, None, None)

  /** One message: the planet, NPC and event lists it carries. */
  datatype UniverseState = UniverseState(planets: seq<Planet>, npcs: seq<NPC>, events: seq<Event>)

  /** Why a stream ended: receiving or sending failed with that error. */
  datatype StreamError = RecvError(msg: string) | SendError(msg: string)

  /** The contents of a slot, or the empty list when it holds nothing. */
  function Drained<T>(slot: Option<seq<T>>): (s: seq<T>)
    ensures slot.Some? ==> s == slot.value
    ensures slot.None? ==> s == []
  {
    if slot.Some? then slot.value else []
  }

  /** Once some command has made the stream live, later commands do not change
      which one was first. */
  lemma {:induction false} FirstLiveStable(cmds: seq<CommandType>, m: nat, n: nat)
    requires m <= n <= |cmds|
    requires FirstLive(cmds, m).Some?
    ensures FirstLive(cmds, n) == FirstLive(cmds, m)
    decreases n - m
  {
    if m < n {
      FirstLiveStable(cmds, m + 1, n);
    }
  }

  /** What serving a stream delivers, how it ends and what it leaves in the slots:
      the first command after which the stream is live takes the pending updates
      and sends them, provided a planet update is pending. */
  function Outcome(commands: seq<CommandType>, recvErr: string, slots: Slots, sendErr: Option<string>)
    : (seq<UniverseState>, StreamError, Slots)
  {
    if slots.planets.Some? && FirstLive(commands, |commands|).Some? then
      if sendErr.Some? then ([], SendError(sendErr.value), Empty)
      else ([UniverseState(slots.planets.value, Drained(slots.npcs), Drained(slots.events))], RecvError(recvErr), Empty)
    else ([], RecvError(recvErr), slots)
  }

  /** Serves one stream. The client's commands arrive in order; once they are
      used up, receiving fails with `recvErr`. Sending fails with `sendErr` when
      that is given. Returns the messages delivered, the error that ended the
      stream and the slots as they are left. */
  method StreamUniverseState(commands: seq<CommandType>, recvErr: string, slots: Slots, sendErr: Option<string>)
    returns (sent: seq<UniverseState>, err: StreamError, left: Slots)
    ensures (sent, err, left) == Outcome(commands, recvErr, slots, sendErr)
  {
    var flags := Initial;
    sent, left := [], slots;
    var i := 0;
    while i < |commands|
      invariant 0 <= i <= |commands|
      invariant flags == FlagsAfter(commands, i)
      invariant slots.planets.Some? && FirstLive(commands, i).Some? ==>
                  left == Empty && sendErr.None?
                  && sent == [UniverseState(slots.planets.value, Drained(slots.npcs), Drained(slots.events))]
      invariant !(slots.planets.Some? && FirstLive(commands, i).Some?) ==> left == slots && sent == []
    {
      flags := Apply(flags, commands[i]);
      if Live(flags) && left.planets.Some? {
        assert FirstLive(commands, i + 1) == Some(i);
        FirstLiveStable(commands, i + 1, |commands|);
        var msg := UniverseState(left.planets.value, Drained(left.npcs), Drained(left.events));
        left := Empty;
        if sendErr.Some? {
          err := SendError(sendErr.value);
          return;
        }
        sent := sent + [msg];
      } else if slots.planets.Some? && FirstLive(commands, i).Some? {
        FirstLiveStable(commands, i, i + 1);
      }
      i := i + 1;
    }
    err := RecvError(recvErr);
  }

  /** At most one update is ever delivered, because sending empties the planet
      slot and nothing refills it; one is delivered exactly when a planet update
      is pending, sending works and some command makes the stream live. */
  lemma {:induction false} AtMostOneMessage(commands: seq<CommandType>, recvErr: string, slots: Slots, sendErr: Option<string>)
    ensures |Outcome(commands, recvErr, slots, sendErr).0| <= 1
    ensures |Outcome(commands, recvErr, slots, sendErr).0| == 1 <==>
              slots.planets.Some? && sendErr.None? && exists j :: 0 <= j < |commands| && LiveAfter(commands, j)
  {
    if exists j :: 0 <= j < |commands| && LiveAfter(commands, j) {
      var j :| 0 <= j < |commands| && LiveAfter(commands, j);
      assert FirstLive(commands, |commands|).Some?;
    }
  }

  /** The stream ends with a send error exactly when a send was attempted and
      failed; otherwise it ends when receiving fails, and with no commands at all
      nothing is sent. */
  lemma StreamEnding(commands: seq<CommandType>, recvErr: string, slots: Slots, sendErr: Option<string>)
    ensures Outcome(commands, recvErr, slots, sendErr).1.SendError? <==>
              sendErr.Some? && slots.planets.Some? && FirstLive(commands, |commands|).Some?
    ensures commands == [] ==> Outcome(commands, recvErr, slots, sendErr) == ([], RecvError(recvErr), slots)
  {
  }

  /** A client that never subscribed receives nothing, whatever it sends otherwise. */
  lemma {:induction false} NoSubscribeNoLive(cmds: seq<CommandType>, n: nat)
    requires n <= |cmds|
    requires forall j :: 0 <= j < n ==> cmds[j] != Subscribe
    ensures !FlagsAfter(cmds, n).subscribed
    ensures FirstLive(cmds, n).None?
  {
    if n > 0 {
      NoSubscribeNoLive(cmds, n - 1);
    }
  }

  /** SUBSCRIBE, PAUSE, RESUME, UNSUBSCRIBE with one value in each slot: the first
      command already makes the stream live, so the one message carries the three
      values, leaves the slots empty, and the stream ends with the receive error. */
  lemma SubscribePauseResumeUnsubscribeScenario(planets: seq<Planet>, npcs: seq<NPC>, events: seq<Event>, recvErr: string)
    ensures var cmds := [Subscribe, Pause, Resume, Unsubscribe];
            Outcome(cmds, recvErr, Slots(Some(planets), Some(npcs), Some(events)), None)
              == ([UniverseState(planets, npcs, events)], RecvError(recvErr), Empty)
            && FlagsAfter(cmds, 2) == Flags(true, true)
            && FlagsAfter(cmds, 3) == Flags(true, false)
            && FlagsAfter(cmds, 4) == Flags(false, false)
  {
    var cmds := [Subscribe, Pause, Resume, Unsubscribe];
    assert FlagsAfter(cmds, 1) == Flags(true, false);
    assert FirstLive(cmds, 1) == Some(0);
    FirstLiveStable(cmds, 1, 4);
  }

  // ---------------------------------------------------------------------------
  // Wire messages
  // ---------------------------------------------------------------------------

  /** Go's conversion of an int to int32: the value modulo 2^32, read as signed. */
  function Int32(x: int): (r: int)
    ensures -0x8000_0000 <= r < 0x8000_0000
    ensures (r - x) % 0x1_0000_0000 == 0
    ensures -0x8000_0000 <= x < 0x8000_0000 ==> r == x
  {
    (x + 0x8000_0000) % 0x1_0000_0000 - 0x8000_0000
  }

  datatype NPCProto = NPCProto(name: string, credits: int, maxCargo: int, colonizationCooldown: string)
  datatype BuildingProto = BuildingProto(typeName: string, level: int)
  datatype PlanetProto = PlanetProto(name: string, typeName: string, buildings: seq<BuildingProto>, owner: Option<NPCProto>)
  datatype EventProto = EventProto(name: string, target: int, targetPlanet: string, targetBuilding: string,
                                   duration: int, remainingTicks: int)

  /** The wire form of an NPC; `format` renders a set time. An unset cooldown
      (time 0) becomes the empty string. */
  function NPCToProto(n: NPC, format: int -> string): (m: NPCProto)
    reads n`Name, n`Credits, n`MaxCargo, n`ColonizationCooldown
    ensures m.name == n.Name
    ensures m.credits == Int32(n.Credits) && m.maxCargo == Int32(n.MaxCargo)
    ensures n.ColonizationCooldown == 0 ==> m.colonizationCooldown == ""
    ensures n.ColonizationCooldown != 0 ==> m.colonizationCooldown == format(n.ColonizationCooldown)
  {
    NPCProto(n.Name, Int32(n.Credits), Int32(n.MaxCargo),
             if n.ColonizationCooldown == 0 then "" else format(n.ColonizationCooldown))
  }

  /** The wire form of a planet: its buildings in order, and its owner only when
      it has one. */
  method PlanetToProto(p: Planet, format: int -> string) returns (m: PlanetProto)
    ensures m.name == p.Name && m.typeName == PlanetTypeString(p.Type)
    ensures |m.buildings| == |p.Buildings|
    ensures forall i :: 0 <= i < |p.Buildings| ==>
              m.buildings[i] == BuildingProto(BuildingTypeString(p.Buildings[i].Type), Int32(p.Buildings[i].Level))
    ensures p.Owner == null <==> m.owner.None?
    ensures p.Owner != null ==> m.owner == Some(NPCToProto(p.Owner, format))
  {
    var buildings: seq<BuildingProto> := [];
    for i := 0 to |p.Buildings|
      invariant |buildings| == i
      invariant forall j :: 0 <= j < i ==>
                  buildings[j] == BuildingProto(BuildingTypeString(p.Buildings[j].Type), Int32(p.Buildings[j].Level))
    {
      var b := p.Buildings[i];
      buildings := buildings + [BuildingProto(BuildingTypeString(b.Type), Int32(b.Level))];
    }
    var owner: Option<NPCProto> := None;
    if p.Owner != null {
      owner := Some(NPCToProto(p.Owner, format));
    }
    m := PlanetProto(p.Name, PlanetTypeString(p.Type), buildings, owner);
  }

  /** The wire code of an event target. */
  function TargetCode(t: EventTarget): int
  {
    match t
    case PlanetTarget => 0
    case BuildingTarget => 1
  }

  /** The wire form of an event: an absent target planet or building becomes
      the empty string. */
  function EventToProto(e: Event): (m: EventProto)
    reads e`RemainingTicks, if e.TargetPlanet != null then {e.TargetPlanet} else {}
    ensures m.name == e.Name && m.target == TargetCode(e.Target)
    ensures e.TargetPlanet == null ==> m.targetPlanet == ""
    ensures e.TargetPlanet != null ==> m.targetPlanet == e.TargetPlanet.Name
    ensures e.TargetBuilding == null ==> m.targetBuilding == ""
    ensures e.TargetBuilding != null ==> m.targetBuilding == BuildingTypeString(e.TargetBuilding.Type)
    ensures m.duration == Int32(e.Duration) && m.remainingTicks == Int32(e.RemainingTicks)
  {
    EventProto(e.Name, TargetCode(e.Target),
               if e.TargetPlanet != null then e.TargetPlanet.Name else "",
               if e.TargetBuilding != null then BuildingTypeString(e.TargetBuilding.Type) else "",
               Int32(e.Duration), Int32(e.RemainingTicks))
  }

  /** A targeted event names its building by a known kind, so its building name is
      never empty; only an absent building gives the empty name. */
  lemma TargetBuildingNameEmptyIffAbsent(e: Event)
    ensures EventToProto(e).targetBuilding == "" <==> e.TargetBuilding == null
  {
    if e.TargetBuilding != null {
      var t := e.TargetBuilding.Type;
      assert BuildingTypeString(t) != "";
    }
  }
}
