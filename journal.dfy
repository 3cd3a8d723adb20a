/** The game journal events the ledger handles, reduced to the fields the
    handlers read, and the fixed tables of bgstally/activity.py lines 13-73.
    System addresses are carried as their decimal strings, the form the ledger
    uses as keys; journal timestamps as integer seconds. */
module Journal {
  import opened Ledger

  const StatesWar: set<string> := {"War", "CivilWar"}
  const StatesElection: set<string> := {"Election"}

  /** Missions counted as +1 influence in an election even when the journal reports none. */
  const MissionsElection: set<string> := {
    "Mission_AltruismCredits_name",
    "Mission_Collect_name", "Mission_Collect_Industrial_name",
    "Mission_Courier_name", "Mission_Courier_Boom_name", "Mission_Courier_Democracy_name",
    "Mission_Courier_Elections_name", "Mission_Courier_Expansion_name",
    "Mission_Delivery_name", "Mission_Delivery_Agriculture_name", "Mission_Delivery_Boom_name",
    "Mission_Delivery_Confederacy_name", "Mission_Delivery_Democracy_name",
    "Mission_Mining_name", "Mission_Mining_Boom_name", "Mission_Mining_Expansion_name",
    "Mission_OnFoot_Collect_MB_name",
    "Mission_OnFoot_Salvage_MB_name", "Mission_OnFoot_Salvage_BS_MB_name",
    "Mission_PassengerBulk_name", "Mission_PassengerBulk_AIDWORKER_ARRIVING_name",
    "Mission_PassengerBulk_BUSINESS_ARRIVING_name", "Mission_PassengerBulk_POLITICIAN_ARRIVING_name",
    "Mission_PassengerBulk_SECURITY_ARRIVING_name",
    "Mission_PassengerVIP_name", "Mission_PassengerVIP_CEO_BOOM_name",
    "Mission_PassengerVIP_CEO_EXPANSION_name", "Mission_PassengerVIP_Explorer_EXPANSION_name",
    "Mission_PassengerVIP_Tourist_ELECTION_name", "Mission_PassengerVIP_Tourist_BOOM_name",
    "Mission_Rescue_Elections_name",
    "Mission_Salvage_name", "Mission_Salvage_Planet_name", "MISSION_Salvage_Refinery_name",
    "MISSION_Scan_name",
    "Mission_Sightseeing_name", "Mission_Sightseeing_Celebrity_ELECTION_name",
    "Mission_Sightseeing_Tourist_BOOM_name",
    "Chain_HelpFinishTheOrder_name"
  }

  /** Missions counted as +1 influence in a war even when the journal reports none. */
  const MissionsWar: set<string> := {
    "Mission_Assassinate_Legal_CivilWar_name", "Mission_Assassinate_Legal_War_name",
    "Mission_Massacre_Conflict_CivilWar_name", "Mission_Massacre_Conflict_War_name",
    "Mission_OnFoot_Assassination_Covert_MB_name",
    "Mission_OnFoot_Onslaught_Offline_MB_name"
  }

  const MissionsTwCollect: set<string> := {
    "Mission_TW_Collect_Alert_name", "Mission_TW_CollectWing_Alert_name",
    "Mission_TW_Collect_Repairing_name", "Mission_TW_CollectWing_Repairing_name",
    "Mission_TW_Collect_Recovery_name", "Mission_TW_CollectWing_Recovery_name",
    "Mission_TW_Collect_UnderAttack_name", "Mission_TW_CollectWing_UnderAttack_name"
  }

  const MissionsTwEvacLow: set<string> := {
    "Mission_TW_Rescue_Alert_name", "Mission_TW_PassengerEvacuation_Alert_name"
  }

  const MissionsTwEvacMed: set<string> := {
    "Mission_TW_Rescue_UnderAttack_name", "Mission_TW_PassengerEvacuation_UnderAttack_name"
  }

  const MissionsTwEvacHigh: set<string> := {
    "Mission_TW_Rescue_Burning_name", "Mission_TW_PassengerEvacuation_Burning_name"
  }

  const MissionsTwMassacre: set<string> := {
    "Mission_TW_Massacre_Scout_Singular_name", "Mission_TW_Massacre_Scout_Plural_name",
    "Mission_TW_Massacre_Cyclops_Singular_name", "Mission_TW_Massacre_Cyclops_Plural_name",
    "Mission_TW_Massacre_Basilisk_Singular_name", "Mission_TW_Massacre_Basilisk_Plural_name",
    "Mission_TW_Massacre_Medusa_Singular_name", "Mission_TW_Massacre_Medusa_Plural_name",
    "Mission_TW_Massacre_Hydra_Singular_name", "Mission_TW_Massacre_Hydra_Plural_name",
    "Mission_TW_Massacre_Orthrus_Singular_name", "Mission_TW_Massacre_Orthrus_Plural_name"
  }

  /** Every template that counts towards the Thargoid war. */
  const MissionsTw: set<string> :=
    MissionsTwCollect + MissionsTwEvacLow + MissionsTwEvacMed + MissionsTwEvacHigh + MissionsTwMassacre

  /** Combat-bond rewards at or above this are not a Low ground conflict zone. */
  const GroundLowCbMax := 5000
  /** Combat-bond rewards at or above this are a High ground conflict zone. */
  const GroundMedCbMax := 38000

  const PilotsFederation := "Pilots' Federation Local Branch"
  const ThargoidFaction := "$faction_Thargoid;"

  /** TW_CBS: the Thargoid class a combat-bond reward identifies, if any. */
  function TwBondClass(reward: int): Option<TwClass> {
    if reward == 65000 || reward == 75000 then Some(Scout)
    else if reward == 6500000 then Some(Cyclops)
    else if reward == 20000000 then Some(Basilisk)
    else if reward == 25000000 then Some(Orthrus)
    else if reward == 34000000 then Some(Medusa)
    else if reward == 50000000 then Some(Hydra)
    else None
  }

  //
  // Events
  //

  datatype JournalFaction = JournalFaction(name: string, factionState: string)

  datatype Conflict = Conflict(status: string, warType: string, faction1: string, faction2: string)

  /** FSDJump / Location / CarrierJump.  `factions` is None when the event carries
      no 'Factions' key; a missing 'Conflicts' key reads as no conflicts. */
  datatype SystemEvent = SystemEvent(
    starSystem: string,
    systemAddress: string,
    factions: Option<seq<JournalFaction>>,
    conflicts: seq<Conflict>,
    thargoidWar: Option<string>)

  /** One 'Influence' item of a faction effect; `influence` is the '+'/'-' string. */
  datatype InfluenceEntry = InfluenceEntry(systemAddress: string, trend: string, influence: string)

  datatype FactionEffect = FactionEffect(faction: string, influence: seq<InfluenceEntry>)

  /** MissionCompleted: `faction` is the mission giver, `name` the mission template. */
  datatype MissionCompletedEvent = MissionCompletedEvent(
    missionId: int,
    faction: string,
    name: string,
    factionEffects: seq<FactionEffect>,
    commodity: Option<string>,
    targetType: Option<string>)

  /** A mission as the mission log recorded it when accepted. */
  datatype Mission = Mission(
    missionId: int,
    system: string,
    faction: string,
    station: Option<string>,
    passengerCount: Option<int>,
    commodityCount: Option<int>,
    killCount: Option<int>)

  datatype MarketBuyEvent = MarketBuyEvent(marketId: int, commodityType: string, count: int, totalCost: int)

  /** MarketSell; `commodityType` is "" when the event has no 'Type'. */
  datatype MarketSellEvent = MarketSellEvent(
    marketId: int,
    commodityType: string,
    count: int,
    avgPricePaid: int,
    totalSale: int,
    blackMarket: bool)

  /** What the market data reports for the event's market and commodity:
      whether the market is available, and the brackets the commodity carries. */
  datatype Market = Market(available: bool, stockBracket: Option<Bracket>, demandBracket: Option<Bracket>)

  datatype CrimeEvent = CrimeEvent(crimeType: string, victim: Option<string>, faction: string)

  /** FactionKillBond. */
  datatype BondEvent = BondEvent(
    timestamp: int,
    reward: int,
    awardingFaction: string,
    victimFaction: Option<string>)

  datatype BioSale = BioSale(value: int, bonus: int)

  datatype Voucher = Voucher(faction: string, amount: int)

  //
  // Cargo names
  //

  /** Python's str.lower() on the ASCII letters. */
  function Lower(s: string): (r: string)
    ensures |r| == |s|
    ensures forall i | 0 <= i < |s| :: r[i] == LowerChar(s[i])
  {
    if s == [] then [] else [LowerChar(s[0])] + Lower(s[1..])
  }

  function LowerChar(c: char): char {
    if 'A' <= c <= 'Z' then (c as int - 'A' as int + 'a' as int) as char else c
  }

  /** Python's `sub in s`. */
  predicate Contains(s: string, sub: string)
    decreases |s|
  {
    (|sub| <= |s| && s[..|sub|] == sub) || (s != [] && Contains(s[1..], sub))
  }

  /** The search-and-rescue kind a collected cargo counts as (collect_cargo). */
  function CollectKey(cargoType: string): Option<SandRKey> {
    var t := Lower(cargoType);
    if t == "damagedescapepod" then Some(EscapePod)
    else if t == "occupiedcryopod" then Some(OccupiedPod)
    else if t == "usscargoblackbox" then Some(BlackBox)
    else if Contains(t, "thargoidtissuesample") then Some(Tissue)
    else None
  }

  /** The search-and-rescue kind of a SearchAndRescue hand-in; tissue samples are
      not handed in this way but sold as a commodity. */
  function HandInKey(name: string): Option<SandRKey> {
    var t := Lower(name);
    if t == "damagedescapepod" then Some(EscapePod)
    else if t == "occupiedcryopod" then Some(OccupiedPod)
    else if t == "usscargoblackbox" then Some(BlackBox)
    else None
  }

  predicate IsTissueSample(commodityType: string) {
    Contains(Lower(commodityType), "thargoidtissuesample")
  }
}
