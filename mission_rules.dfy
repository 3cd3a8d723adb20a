/** The mission rules of mission_completed and mission_failed
    (bgstally/activity.py lines 238-373): influence credited from the faction
    effects, and Thargoid-war missions counted per station. */
module MissionRules {
  import opened Ledger
  import opened Journal

  //
  // Influence
  //

  /** Trends that count the reported influence in the faction's favour. */
  predicate IsGoodTrend(trend: string) {
    trend == "UpGood" || trend == "DownGood"
  }

  /** Influence credited to one faction: the mission giver's own points for the
      giver, the secondary points for every other faction. */
  function CreditInfluence(f: Faction, good: bool, amount: int, isGiver: bool): (g: Faction)
    ensures isGiver ==> g == f.(missionPoints := g.missionPoints)
    ensures !isGiver ==> g == f.(missionPointsSecondary := g.missionPointsSecondary)
    ensures g.missionPoints + g.missionPointsSecondary
         == f.missionPoints + f.missionPointsSecondary + (if good then amount else -amount)
  {
    var delta := if good then amount else -amount;
    if isGiver then f.(missionPoints := f.missionPoints + delta)
    else f.(missionPointsSecondary := f.missionPointsSecondary + delta)
  }

  /** A faction effect carrying an influence report: only its first entry is
      read; the influence is credited in the system with that entry's address
      if the faction is tracked there. */
  function ExplicitEffect(m: Systems, giver: string, e: FactionEffect): (r: Systems)
    requires e.influence != []
    ensures r.Keys == m.Keys
    ensures forall k | k in m && k != e.influence[0].systemAddress :: r[k] == m[k]
  {
    var entry := e.influence[0];
    var k := entry.systemAddress;
    if k in m && e.faction in m[k].factions then
      var f := m[k].factions[e.faction];
      var g := CreditInfluence(f, IsGoodTrend(entry.trend), |entry.influence|, e.faction == giver);
      m[k := m[k].(factions := m[k].factions[e.faction := g])]
    else m
  }

  /** The implicit +1 of a faction effect without an influence report.  The
      source's condition `A or B and C` groups as `A or (B and C)`, so only the
      war case asks for the effect faction to be the mission giver. */
  predicate ImplicitlyCredited(state: string, template: string, effectFaction: string, giver: string) {
    (state in StatesElection && template in MissionsElection)
    || ((state in StatesWar && template in MissionsWar) && effectFaction == giver)
  }

  /** One system's part of the implicit credit. */
  function ImplicitSystem(s: SystemEntry, template: string, giver: string, effectFaction: string): (r: SystemEntry)
    ensures r == s.(factions := r.factions) && r.factions.Keys == s.factions.Keys
    ensures forall n | n in s.factions && n != effectFaction :: r.factions[n] == s.factions[n]
  {
    if effectFaction in s.factions && ImplicitlyCredited(s.factions[effectFaction].state, template, effectFaction, giver) then
      var f := s.factions[effectFaction];
      s.(factions := s.factions[effectFaction := f.(missionPoints := f.missionPoints + 1)])
    else s
  }

  /** Every system named as the mission's system credits the effect faction. */
  function ImplicitEffect(m: Systems, mission: Mission, template: string, giver: string, effectFaction: string): (r: Systems)
    ensures r.Keys == m.Keys
    ensures forall k | k in m :: r[k] == if m[k].name == mission.system then ImplicitSystem(m[k], template, giver, effectFaction) else m[k]
  {
    map k | k in m :: if m[k].name == mission.system then ImplicitSystem(m[k], template, giver, effectFaction) else m[k]
  }

  /** One faction effect of a completed mission; without an influence report
      and without the mission in the log nothing is credited. */
  function EffectStep(m: Systems, ev: MissionCompletedEvent, mission: Option<Mission>, e: FactionEffect): Systems {
    if e.influence != [] then ExplicitEffect(m, ev.faction, e)
    else if mission.Some? then ImplicitEffect(m, mission.value, ev.name, ev.faction, e.faction)
    else m
  }

  /** The faction-effect loop, applied to the effects in order. */
  function ApplyEffects(m: Systems, ev: MissionCompletedEvent, mission: Option<Mission>, es: seq<FactionEffect>): Systems
    decreases |es|
  {
    if es == [] then m
    else EffectStep(ApplyEffects(m, ev, mission, es[..|es| - 1]), ev, mission, es[|es| - 1])
  }

  /** `m2` differs from `m1` at most in mission points: the same systems, the
      same factions, and every other counter equal. */
  ghost predicate OnlyMissionPoints(m1: Systems, m2: Systems) {
    && m2.Keys == m1.Keys
    && (forall k | k in m1 :: m2[k] == m1[k].(factions := m2[k].factions))
    && (forall k | k in m1 :: m2[k].factions.Keys == m1[k].factions.Keys)
    && (forall k, n | k in m1 && n in m1[k].factions ::
          m2[k].factions[n] == m1[k].factions[n].(missionPoints := m2[k].factions[n].missionPoints,
                                                  missionPointsSecondary := m2[k].factions[n].missionPointsSecondary))
  }

  lemma OnlyMissionPointsTrans(m1: Systems, m2: Systems, m3: Systems)
    requires OnlyMissionPoints(m1, m2) && OnlyMissionPoints(m2, m3)
    ensures OnlyMissionPoints(m1, m3)
  {
    forall k, n | k in m1 && n in m1[k].factions
      ensures m3[k].factions[n] == m1[k].factions[n].(missionPoints := m3[k].factions[n].missionPoints,
                                                      missionPointsSecondary := m3[k].factions[n].missionPointsSecondary)
    {
      assert n in m2[k].factions;
    }
  }

  lemma ExplicitOnlyMissionPoints(m: Systems, giver: string, e: FactionEffect)
    requires e.influence != []
    ensures OnlyMissionPoints(m, ExplicitEffect(m, giver, e))
  {
  }

  lemma ImplicitOnlyMissionPoints(m: Systems, mission: Mission, template: string, giver: string, effectFaction: string)
    ensures OnlyMissionPoints(m, ImplicitEffect(m, mission, template, giver, effectFaction))
  {
    var r := ImplicitEffect(m, mission, template, giver, effectFaction);
    forall k, n | k in m && n in m[k].factions
      ensures r[k].factions[n] == m[k].factions[n].(missionPoints := r[k].factions[n].missionPoints,
                                                    missionPointsSecondary := r[k].factions[n].missionPointsSecondary)
    {
      if m[k].name == mission.system && n == effectFaction {
        var s := m[k];
        if ImplicitlyCredited(s.factions[n].state, template, effectFaction, giver) {
          assert r[k].factions[n] == s.factions[n].(missionPoints := s.factions[n].missionPoints + 1);
        }
      }
    }
  }

  lemma StepOnlyMissionPoints(m: Systems, ev: MissionCompletedEvent, mission: Option<Mission>, e: FactionEffect)
    ensures OnlyMissionPoints(m, EffectStep(m, ev, mission, e))
  {
    if e.influence != [] {
      ExplicitOnlyMissionPoints(m, ev.faction, e);
    } else if mission.Some? {
      ImplicitOnlyMissionPoints(m, mission.value, ev.name, ev.faction, e.faction);
    }
  }

  /** Influence from faction effects changes mission points and nothing else. */
  lemma {:induction false} EffectsOnlyMissionPoints(m: Systems, ev: MissionCompletedEvent, mission: Option<Mission>, es: seq<FactionEffect>)
    ensures OnlyMissionPoints(m, ApplyEffects(m, ev, mission, es))
    decreases |es|
  {
    if es != [] {
      var prev := ApplyEffects(m, ev, mission, es[..|es| - 1]);
      EffectsOnlyMissionPoints(m, ev, mission, es[..|es| - 1]);
      StepOnlyMissionPoints(prev, ev, mission, es[|es| - 1]);
      OnlyMissionPointsTrans(m, prev, EffectStep(prev, ev, mission, es[|es| - 1]));
    }
  }

  /** An explicit effect moves the giver's own points or, for any other
      faction, the secondary points, by the length of the '+'/'-' string: up
      for UpGood and DownGood, down for any other trend. */
  lemma ExplicitCredit(m: Systems, giver: string, e: FactionEffect)
    requires e.influence != []
    requires e.influence[0].systemAddress in m && e.faction in m[e.influence[0].systemAddress].factions
    ensures var k := e.influence[0].systemAddress;
            var f := m[k].factions[e.faction];
            var g := ExplicitEffect(m, giver, e)[k].factions[e.faction];
            var delta := if IsGoodTrend(e.influence[0].trend) then |e.influence[0].influence| else -|e.influence[0].influence|;
            && (e.faction == giver ==> g == f.(missionPoints := f.missionPoints + delta))
            && (e.faction != giver ==> g == f.(missionPointsSecondary := f.missionPointsSecondary + delta))
  {
  }

  /** The implicit +1: exactly when ImplicitlyCredited holds, and never to the
      secondary points.  An Election faction is credited for an election
      template whether or not it gave the mission; a War or CivilWar faction
      only when it did. */
  lemma ImplicitCredit(m: Systems, mission: Mission, template: string, giver: string, effectFaction: string, k: string)
    requires k in m && m[k].name == mission.system && effectFaction in m[k].factions
    ensures var f := m[k].factions[effectFaction];
            var g := ImplicitEffect(m, mission, template, giver, effectFaction)[k].factions[effectFaction];
            && g.missionPointsSecondary == f.missionPointsSecondary
            && g.missionPoints == f.missionPoints + (if ImplicitlyCredited(f.state, template, effectFaction, giver) then 1 else 0)
  {
  }

  /** The grouping of the implicit-credit condition, on two concrete cases: an
      election-state faction that did not give an election mission is credited,
      a war-state faction that did not give a war mission is not. */
  lemma ImplicitPrecedence(giver: string, other: string)
    requires giver != other
    ensures ImplicitlyCredited("Election", "Mission_Courier_Elections_name", other, giver)
    ensures !ImplicitlyCredited("War", "Mission_Massacre_Conflict_War_name", other, giver)
    ensures ImplicitlyCredited("War", "Mission_Massacre_Conflict_War_name", giver, giver)
  {
  }

  //
  // Thargoid war
  //

  /** Where a Thargoid-war mission is counted at its station. */
  datatype TwSlot = Passengers(level: Level) | EscapePods(level: Level) | Cargo | Massacre(cls: TwClass)

  /** The evacuation level a template belongs to, if any. */
  function EvacLevel(template: string): Option<Level> {
    if template in MissionsTwEvacLow then Some(Low)
    else if template in MissionsTwEvacMed then Some(Med)
    else if template in MissionsTwEvacHigh then Some(High)
    else None
  }

  /** The Thargoid class a massacre mission's target type names, if any. */
  function MassacreClass(targetType: Option<string>): Option<TwClass> {
    if targetType == Some("$MissionUtil_FactionTag_Scout;") then Some(Scout)
    else if targetType == Some("$MissionUtil_FactionTag_Cyclops;") then Some(Cyclops)
    else if targetType == Some("$MissionUtil_FactionTag_Basilisk;") then Some(Basilisk)
    else if targetType == Some("$MissionUtil_FactionTag_Medusa;") then Some(Medusa)
    else if targetType == Some("$MissionUtil_FactionTag_Hydra;") then Some(Hydra)
    else if targetType == Some("$MissionUtil_FactionTag_Orthrus;") then Some(Orthrus)
    else None
  }

  /** A count the mission log may lack reads as -1, the source's default. */
  function CountOf(c: Option<int>): int {
    c.GetOr(-1)
  }

  /** The target quantity a mission is counted with: the first of the
      passenger, commodity and kill counts it carries. */
  function MissionQuantity(mission: Mission): int {
    if CountOf(mission.passengerCount) > -1 then CountOf(mission.passengerCount)
    else if CountOf(mission.commodityCount) > -1 then CountOf(mission.commodityCount)
    else CountOf(mission.killCount)
  }

  /** The tally a completed Thargoid-war mission goes to: passengers by
      evacuation level when it carried passengers; else, when it carried a
      commodity, escape pods by level for occupied cryo pods and the cargo
      tally otherwise; else, when it had kills, the massacre tally of the
      target's class.  None when nothing matches. */
  function TwTarget(template: string, mission: Mission, commodity: Option<string>, targetType: Option<string>): (s: Option<TwSlot>)
    ensures s.Some? ==> MissionQuantity(mission) > -1
    ensures s.Some? && s.value.Passengers? ==> template in MissionsTwEvacLow + MissionsTwEvacMed + MissionsTwEvacHigh
    ensures s.Some? && s.value.EscapePods? ==> commodity == Some("$OccupiedCryoPod_Name;")
    ensures s == Some(Cargo) ==> commodity != Some("$OccupiedCryoPod_Name;")
  {
    if CountOf(mission.passengerCount) > -1 then
      match EvacLevel(template)
      case Some(l) => Some(Passengers(l))
      case None => None
    else if CountOf(mission.commodityCount) > -1 then
      if commodity == Some("$OccupiedCryoPod_Name;") then
        match EvacLevel(template)
        case Some(l) => Some(EscapePods(l))
        case None => None
      else Some(Cargo)
    else if CountOf(mission.killCount) > -1 then
      match MassacreClass(targetType)
      case Some(c) => Some(Massacre(c))
      case None => None
    else None
  }

  function SlotAt(st: TwStation, s: TwSlot): CountSum {
    match s
    case Passengers(l) => st.passengers.At(l)
    case EscapePods(l) => st.escapePods.At(l)
    case Cargo => st.cargo
    case Massacre(c) => st.massacre.At(c)
  }

  function Bump(c: CountSum, quantity: int): CountSum {
    CountSum(c.count + 1, c.sum + quantity)
  }

  /** One mission counted at a station: the slot's count rises by one and its
      sum by the mission's quantity; every other slot is unchanged. */
  function CountAtStation(st: TwStation, s: TwSlot, quantity: int): (r: TwStation)
    ensures r.name == st.name && r.enabled == st.enabled
    ensures SlotAt(r, s) == Bump(SlotAt(st, s), quantity)
    ensures forall t: TwSlot | t != s :: SlotAt(r, t) == SlotAt(st, t)
    ensures StationCount(r) == StationCount(st) + 1
    ensures StationSum(r) == StationSum(st) + quantity
  {
    match s
    case Passengers(l) => st.(passengers := st.passengers.With(l, Bump(st.passengers.At(l), quantity)))
    case EscapePods(l) => st.(escapePods := st.escapePods.With(l, Bump(st.escapePods.At(l), quantity)))
    case Cargo => st.(cargo := Bump(st.cargo, quantity))
    case Massacre(c) => st.(massacre := st.massacre.With(c, Bump(st.massacre.At(c), quantity)))
  }

  /** The giver faction's station entry after a Thargoid-war mission: created
      fresh if missing (even when no tally matches), then counted. */
  function TwFaction(f: Faction, station: string, slot: Option<TwSlot>, quantity: int): (g: Faction)
    ensures g == f.(twStations := g.twStations)
    ensures g.twStations.Keys == f.twStations.Keys + {station}
    ensures forall n | n in f.twStations && n != station :: g.twStations[n] == f.twStations[n]
    ensures var before := if station in f.twStations then f.twStations[station] else NewTwStation(station);
            StationCount(g.twStations[station]) == StationCount(before) + (if slot.Some? then 1 else 0)
            && StationSum(g.twStations[station]) == StationSum(before) + (if slot.Some? then quantity else 0)
  {
    var st := if station in f.twStations then f.twStations[station] else NewTwStation(station);
    var st' := match slot case Some(s) => CountAtStation(st, s, quantity) case None => st;
    f.(twStations := f.twStations[station := st'])
  }

  /** The Thargoid-war pass of mission_completed: only for a Thargoid-war
      template whose mission the log knows with a non-empty station; every
      system named as the mission's system where the mission giver is tracked
      counts the mission. */
  function TwPass(m: Systems, ev: MissionCompletedEvent, mission: Option<Mission>): (r: Systems)
    ensures r.Keys == m.Keys
    ensures forall k | k in m :: r[k] == m[k].(factions := r[k].factions) && r[k].factions.Keys == m[k].factions.Keys
    ensures ev.name !in MissionsTw || mission.None? || mission.value.station.GetOr("") == "" ==> r == m
    ensures ev.name in MissionsTw && mission.Some? && mission.value.station.GetOr("") != "" ==>
              forall k | k in m ::
                if m[k].name == mission.value.system && ev.faction in m[k].factions then
                  r[k].factions == m[k].factions[ev.faction := TwFaction(m[k].factions[ev.faction], mission.value.station.GetOr(""),
                                                     TwTarget(ev.name, mission.value, ev.commodity, ev.targetType), MissionQuantity(mission.value))]
                else r[k] == m[k]
  {
    if ev.name in MissionsTw && mission.Some? && mission.value.station.GetOr("") != "" then
      var ms := mission.value;
      var station := ms.station.GetOr("");
      var slot := TwTarget(ev.name, ms, ev.commodity, ev.targetType);
      map k | k in m ::
        if m[k].name == ms.system && ev.faction in m[k].factions then
          m[k].(factions := m[k].factions[ev.faction := TwFaction(m[k].factions[ev.faction], station, slot, MissionQuantity(ms))])
        else m[k]
    else m
  }

  /** The effect of mission_completed on the ledger, before the flags are recomputed. */
  function CompletedSystems(m: Systems, ev: MissionCompletedEvent, mission: Option<Mission>): Systems {
    TwPass(ApplyEffects(m, ev, mission, ev.factionEffects), ev, mission)
  }

  /** mission_completed's loop over the faction effects, each applied in turn. */
  method CreditEffects(m: Systems, ev: MissionCompletedEvent, mission: Option<Mission>) returns (r: Systems)
    ensures r == ApplyEffects(m, ev, mission, ev.factionEffects)
  {
    var es := ev.factionEffects;
    r := m;
    var i := 0;
    while i < |es|
      invariant 0 <= i <= |es|
      invariant r == ApplyEffects(m, ev, mission, es[..i])
    {
      r := EffectStep(r, ev, mission, es[i]);
      assert es[..i + 1][..i] == es[..i];
      i := i + 1;
    }
    assert es[..|es|] == es;
  }

  /** The faction effects keep the ledger's systems. */
  lemma EffectsKeys(m: Systems, ev: MissionCompletedEvent, mission: Option<Mission>)
    ensures ApplyEffects(m, ev, mission, ev.factionEffects).Keys == m.Keys
  {
    EffectsOnlyMissionPoints(m, ev, mission, ev.factionEffects);
  }

  /** The ledger update of mission_completed: the faction effects credited
      in order, the Thargoid-war pass, then every flag recomputed. */
  method CompleteMission(o: seq<string>, m: Systems, ev: MissionCompletedEvent, mission: Option<Mission>) returns (r: Systems)
    requires KeyOrder(o, m)
    ensures KeyOrder(o, r)
    ensures r == RecalcFlags(CompletedSystems(m, ev, mission))
  {
    var c := CreditEffects(m, ev, mission);
    EffectsKeys(m, ev, mission);
    c := TwPass(c, ev, mission);
    KeyOrderSameKeys(o, m, c);
    r := RecalculateAll(o, c);
    KeyOrderSameKeys(o, c, r);
  }

  //
  // Failed missions
  //

  /** The first system in iteration order named `name`. */
  function FirstNamed(o: seq<string>, m: Systems, name: string): (r: Option<string>)
    requires forall i | 0 <= i < |o| :: o[i] in m
    ensures r.Some? ==> r.value in m && m[r.value].name == name
    ensures r.Some? ==> exists i | 0 <= i < |o| :: o[i] == r.value && forall j | 0 <= j < i :: m[o[j]].name != name
    ensures r.None? ==> forall i | 0 <= i < |o| :: m[o[i]].name != name
    decreases |o|
  {
    if o == [] then None
    else if m[o[0]].name == name then Some(o[0])
    else
      var r := FirstNamed(o[1..], m, name);
      if r.Some? then
        ghost var i :| 0 <= i < |o[1..]| && o[1..][i] == r.value && forall j | 0 <= j < i :: m[o[1..][j]].name != name;
        assert o[i + 1] == r.value;
        r
      else r
  }

  /** The search loop of mission_failed: the first system, in iteration order, named `name`. */
  method FindNamed(o: seq<string>, m: Systems, name: string) returns (r: Option<string>)
    requires forall i | 0 <= i < |o| :: o[i] in m
    ensures r == FirstNamed(o, m, name)
  {
    var i := 0;
    while i < |o| && m[o[i]].name != name
      invariant 0 <= i <= |o|
      invariant FirstNamed(o[i..], m, name) == FirstNamed(o, m, name)
    {
      assert o[i..][1..] == o[i + 1..];
      i := i + 1;
    }
    if i < |o| {
      assert o[i..][0] == o[i];
      r := Some(o[i]);
    } else {
      r := None;
    }
  }

  /** The system a failed mission counts against: the first, in iteration
      order, carrying the mission's system name. */
  function FailedAt(o: seq<string>, m: Systems, ms: Mission): Option<string>
    requires KeyOrder(o, m)
  {
    KeyOrderFacts(o, m);
    FirstNamed(o, m, ms.system)
  }

  /** The effect of mission_failed on the ledger: a failed mission counts
      against its giver in that system. */
  function FailedSystems(o: seq<string>, m: Systems, ms: Mission): Systems
    requires KeyOrder(o, m)
  {
    var k := FailedAt(o, m, ms);
    if k.None? then m else RecalcFlags(CreditAt(m, k, Some(ms.faction), Counter.MissionFailed, 1))
  }

  /** The ledger update of mission_failed: whether the mission's system was
      found, and the systems afterwards. */
  method FailMission(o: seq<string>, m: Systems, ms: Mission) returns (found: bool, r: Systems)
    requires KeyOrder(o, m)
    ensures KeyOrder(o, r)
    ensures found == FailedAt(o, m, ms).Some?
    ensures r == FailedSystems(o, m, ms)
  {
    KeyOrderFacts(o, m);
    var k := FindNamed(o, m, ms.system);
    found := k.Some?;
    r := m;
    if found {
      var c := CreditAt(m, k, Some(ms.faction), Counter.MissionFailed, 1);
      KeyOrderSameKeys(o, m, c);
      r := RecalculateAll(o, c);
      KeyOrderSameKeys(o, c, r);
    }
  }

  /** A failed mission whose system is tracked adds one failure to its giver
      there, if the giver is tracked, and touches no other system; an untracked
      system leaves the ledger alone. */
  lemma FailedCounts(o: seq<string>, m: Systems, ms: Mission)
    requires KeyOrder(o, m)
    ensures FailedSystems(o, m, ms).Keys == m.Keys
    ensures (forall k | k in m :: m[k].name != ms.system) ==> FailedSystems(o, m, ms) == m
    ensures forall k | k in m && FailedAt(o, m, ms) != Some(k) ::
              FailedSystems(o, m, ms)[k].factions == m[k].factions
    ensures forall k | FailedAt(o, m, ms) == Some(k) && ms.faction in m[k].factions ::
              && ms.faction in FailedSystems(o, m, ms)[k].factions
              && FailedSystems(o, m, ms)[k].factions[ms.faction].missionFailed == m[k].factions[ms.faction].missionFailed + 1
  {
    KeyOrderFacts(o, m);
    var k := FailedAt(o, m, ms);
    if k.None? {
      return;
    }
    var c := CreditAt(m, k, Some(ms.faction), Counter.MissionFailed, 1);
    CreditAtOnly(m, k, Some(ms.faction), Counter.MissionFailed, 1);
    assert FailedSystems(o, m, ms) == RecalcFlags(c);
    forall j | j in m ensures RecalcFlags(c)[j].factions == c[j].factions {
      assert RecalcFlags(c)[j] == WithFlag(c[j]);
    }
  }
}
