/** The collaborators the ledger's handlers read and write: the session state
    and the mission log.  Their own source is not part of this model; they are
    reduced to the fields and operations the handlers use. */
module Session {
  import opened Ledger
  import opened Journal

  /** The ship last targeted, as ship_targeted records it. */
  datatype ShipTarget = ShipTarget(faction: string, pilotName: string)

  /** The settlement last approached, with the size inferred for it so far
      (None until a first combat bond is counted there). */
  datatype SettlementContext = SettlementContext(timestamp: int, name: string, size: Option<Level>)

  /** The session state: None stands for a missing value or an empty dictionary. */
  class State {
    var currentSystemId: Option<string>
    var stationFaction: Option<string>
    var stationType: string
    var lastShipTargeted: Option<ShipTarget>
    var lastSettlementApproached: Option<SettlementContext>
    var systemTwStatus: Option<string>

    constructor (currentSystemId: Option<string>, stationFaction: Option<string>, stationType: string)
      ensures this.currentSystemId == currentSystemId
      ensures this.stationFaction == stationFaction
      ensures this.stationType == stationType
      ensures lastShipTargeted.None? && lastSettlementApproached.None? && systemTwStatus.None?
    {
      this.currentSystemId := currentSystemId;
      this.stationFaction := stationFaction;
      this.stationType := stationType;
      lastShipTargeted := None;
      lastSettlementApproached := None;
      systemTwStatus := None;
    }

    /** The player is now in the system stored under `address`, whose
        Thargoid-war state is `tw`. */
    method Arrive(address: string, tw: Option<string>)
      modifies this
      ensures currentSystemId == Some(address) && systemTwStatus == tw
      ensures stationFaction == old(stationFaction) && stationType == old(stationType)
      ensures lastShipTargeted == old(lastShipTargeted)
      ensures lastSettlementApproached == old(lastSettlementApproached)
    {
      currentSystemId := Some(address);
      systemTwStatus := tw;
    }
  }

  /** The missions in progress, by mission id. */
  class MissionLog {
    var missions: map<int, Mission>

    constructor (missions: map<int, Mission>)
      ensures this.missions == missions
    {
      this.missions := missions;
    }

    function GetMission(id: int): (r: Option<Mission>)
      reads this
      ensures r.Some? <==> id in missions
      ensures r.Some? ==> r.value == missions[id]
    {
      if id in missions then Some(missions[id]) else None
    }

    /** The system names of the missions in progress. */
    function ActiveSystems(): (r: set<string>)
      reads this
      ensures forall id | id in missions :: missions[id].system in r
      ensures forall s | s in r :: exists id | id in missions :: missions[id].system == s
    {
      set id | id in missions :: missions[id].system
    }

    method DeleteMissionById(id: int)
      modifies this
      ensures missions == old(missions) - {id}
    {
      missions := missions - {id};
    }
  }
}
