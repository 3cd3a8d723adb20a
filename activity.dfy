/** The per-tick activity ledger (bgstally/activity.py, class Activity): the
    systems visited during one tick, keyed by system address, and the journal
    handlers that credit the player's activity to the factions there. */
module Activities {
  import opened Ledger
  import opened Journal
  import opened Session
  import opened EntryRules
  import opened MissionRules
  import opened TradeRules
  import opened CombatRules
  import opened RescueRules
  import opened TickRules
  import opened BountyRules

  //
  // Lookups and updates shared by the handlers
  //

  /** The current system is tracked (`self.systems.get(state.current_system_id)`). */
  predicate Tracked(m: Systems, current: Option<string>) {
    current.Some? && current.value in m
  }

  //
  // Specifications of the handlers that loop over the ledger
  //

  /** The system a system-entry event leaves behind: the one stored under the
      event's address, or a fresh one, with the snapshot and the conflicts
      applied to its factions. */
  function EnteredSystem(m: Systems, ev: SystemEvent, js: seq<JournalFaction>): (s: SystemEntry)
    ensures ev.systemAddress in m ==> s == m[ev.systemAddress].(factions := s.factions)
    ensures ev.systemAddress !in m ==>
              s == NewSystem(ev.starSystem, ev.systemAddress, map[]).(factions := s.factions)
    ensures s.factions == EnteredFactions(if ev.systemAddress in m then m[ev.systemAddress].factions else map[], js, ev.conflicts)
  {
    var s := if ev.systemAddress in m then m[ev.systemAddress] else NewSystem(ev.starSystem, ev.systemAddress, map[]);
    s.(factions := EnteredFactions(s.factions, js, ev.conflicts))
  }

  /** The ledger after a system-entry event with a snapshot: the entered
      system stored under the event's address, then every flag recomputed. */
  function EnteredSystems(m: Systems, ev: SystemEvent, js: seq<JournalFaction>): (r: Systems)
    ensures r.Keys == m.Keys + {ev.systemAddress}
  {
    RecalcFlags(m[ev.systemAddress := EnteredSystem(m, ev, js)])
  }

  /** The dictionary order after a system-entry event: a new system goes last. */
  function EnteredOrder(o: seq<string>, m: Systems, ev: SystemEvent): seq<string> {
    if ev.systemAddress in m then o else o + [ev.systemAddress]
  }

  /** The address the player's current system is set to: the stored system's
      own address, or the event's for a new one. */
  function EnteredAddress(m: Systems, ev: SystemEvent): string {
    if ev.systemAddress in m then m[ev.systemAddress].address else ev.systemAddress
  }

  /** The value an organic-data sale adds: every sample's value and bonus. */
  function BioTotal(bio: seq<BioSale>): int
    decreases |bio|
  {
    if bio == [] then 0 else BioTotal(bio[..|bio| - 1]) + bio[|bio| - 1].value + bio[|bio| - 1].bonus
  }

  /** organic_data_sold's loop: each sample's value and bonus credited in turn. */
  method CreditSamples(m: Systems, k: Option<string>, n: Option<string>, bio: seq<BioSale>) returns (r: Systems)
    ensures r == CreditAt(m, k, n, ExoData, BioTotal(bio))
  {
    r := m;
    CreditAtZero(m, k, n, ExoData);
    assert bio[..0] == [];
    var i := 0;
    while i < |bio|
      invariant 0 <= i <= |bio|
      invariant r == CreditAt(m, k, n, ExoData, BioTotal(bio[..i]))
    {
      CreditAtAdds(m, k, n, ExoData, BioTotal(bio[..i]), bio[i].value + bio[i].bonus);
      r := CreditAt(r, k, n, ExoData, bio[i].value + bio[i].bonus);
      assert bio[..i + 1][..i] == bio[..i];
      i := i + 1;
    }
    assert bio[..|bio|] == bio;
  }

  /** system_entered's update of the ledger, on values: the system found or
      added, its factions refreshed by the snapshot loop and the conflict loop,
      then every flag recomputed. */
  method EnterSystem(o: seq<string>, m: Systems, ev: SystemEvent, js: seq<JournalFaction>)
    returns (o': seq<string>, m': Systems, address: string)
    requires KeyOrder(o, m)
    ensures KeyOrder(o', m')
    ensures m' == EnteredSystems(m, ev, js)
    ensures o' == EnteredOrder(o, m, ev)
    ensures address == EnteredAddress(m, ev)
  {
    var key := ev.systemAddress;
    var current := if key in m then m[key] else NewSystem(ev.starSystem, key, map[]);
    var factions := SnapshotFactions(current.factions, js);
    factions := PairConflicts(factions, ev.conflicts);
    current := current.(factions := factions);
    address := current.address;
    o' := if key in m then o else o + [key];
    KeyOrderPut(o, m, key, current);
    m' := RecalculateAll(o', m[key := current]);
    KeyOrderSameKeys(o', m[key := current], m');
  }

  //
  // Persistence (_as_dict, _from_dict with the recalculation load() adds)
  //

  /** The activity file's fields; `order` is the order of the systems object. */
  datatype StoredActivity = StoredActivity(
    tickId: string,
    tickTime: int,
    bgsMessageId: Option<string>,
    twMessageId: Option<string>,
    notes: Option<string>,
    systems: map<string, StoredSystem>,
    order: seq<string>)

  function StoreAll(m: Systems): (r: map<string, StoredSystem>)
    ensures r.Keys == m.Keys
  {
    map k | k in m :: StoreSystem(m[k])
  }

  /** Loading: every system and faction migrated, then the flags recomputed. */
  function LoadAll(d: map<string, StoredSystem>): (r: Systems)
    ensures r.Keys == d.Keys
  {
    RecalcFlags(map k | k in d :: MigrateSystem(d[k]))
  }

  /** Saving then loading gives the ledger back, with its flags recomputed. */
  lemma LoadStored(m: Systems)
    ensures LoadAll(StoreAll(m)) == RecalcFlags(m)
  {
    var migrated := map k | k in StoreAll(m) :: MigrateSystem(StoreAll(m)[k]);
    forall k | k in m
      ensures migrated[k] == m[k]
    {
      MigrateStoredSystem(m[k]);
    }
    assert migrated == m;
  }

  class Activity {
    var tickId: string
    var tickTime: int
    var discordBgsMessageId: Option<string>
    var discordTwMessageId: Option<string>
    var discordNotes: Option<string>
    var dirty: bool
    var systems: Systems
    /** The systems' keys in the order the dictionary iterates them. */
    var order: seq<string>

    predicate Valid()
      reads this
    {
      KeyOrder(order, systems)
    }

    constructor (tickId: string, tickTime: int, discordBgsMessageId: Option<string>)
      ensures Valid()
      ensures this.tickId == tickId && this.tickTime == tickTime
      ensures this.discordBgsMessageId == discordBgsMessageId
      ensures discordTwMessageId.None? && discordNotes == Some("")
      ensures !dirty && systems == map[] && order == []
    {
      this.tickId := tickId;
      this.tickTime := tickTime;
      this.discordBgsMessageId := discordBgsMessageId;
      discordTwMessageId := None;
      discordNotes := Some("");
      dirty := false;
      systems := map[];
      order := [];
    }

    /** recalculate_zero_activity: every system's flag recomputed. */
    method RecalculateZeroActivity()
      requires Valid()
      modifies this
      ensures Valid()
      ensures tickId == old(tickId) && tickTime == old(tickTime) && discordNotes == old(discordNotes)
      ensures discordBgsMessageId == old(discordBgsMessageId) && discordTwMessageId == old(discordTwMessageId)
      ensures systems == RecalcFlags(old(systems)) && order == old(order) && dirty == old(dirty)
    {
      var m := RecalculateAll(order, systems);
      KeyOrderSameKeys(order, systems, m);
      systems := m;
    }

    /** system_entered: an event without a factions list is ignored;
        otherwise the system is found or added, its factions refreshed from the
        snapshot and the conflicts, the flags recomputed, and the player's
        current system set. */
    method SystemEntered(ev: SystemEvent, state: State)
      requires Valid()
      modifies this, state
      ensures Valid()
      ensures tickId == old(tickId) && tickTime == old(tickTime) && discordNotes == old(discordNotes)
      ensures discordBgsMessageId == old(discordBgsMessageId) && discordTwMessageId == old(discordTwMessageId)
      ensures ev.factions.None? ==> unchanged(this) && unchanged(state)
      ensures ev.factions.Some? ==>
                && dirty
                && systems == EnteredSystems(old(systems), ev, ev.factions.value)
                && order == EnteredOrder(old(order), old(systems), ev)
                && state.currentSystemId == Some(EnteredAddress(old(systems), ev))
                && state.systemTwStatus == ev.thargoidWar
      ensures state.stationFaction == old(state.stationFaction) && state.stationType == old(state.stationType)
      ensures state.lastShipTargeted == old(state.lastShipTargeted)
      ensures state.lastSettlementApproached == old(state.lastSettlementApproached)
    {
      if ev.factions.None? {
        return;
      }
      var o, m, address := EnterSystem(order, systems, ev, ev.factions.value);
      state.Arrive(address, ev.thargoidWar);
      systems, order, dirty := m, o, true;
    }

    /** mission_completed: the faction effects credited in order, then the
        Thargoid-war pass, the flags recomputed and the mission removed from
        the log. */
    method MissionCompleted(ev: MissionCompletedEvent, log: MissionLog)
      requires Valid()
      modifies this, log
      ensures Valid()
      ensures tickId == old(tickId) && tickTime == old(tickTime) && discordNotes == old(discordNotes)
      ensures discordBgsMessageId == old(discordBgsMessageId) && discordTwMessageId == old(discordTwMessageId)
      ensures dirty && order == old(order)
      ensures systems == RecalcFlags(CompletedSystems(old(systems), ev, old(log.GetMission(ev.missionId))))
      ensures log.missions == old(log.missions) - {ev.missionId}
    {
      var mission := log.GetMission(ev.missionId);
      log.DeleteMissionById(ev.missionId);
      var m := CompleteMission(order, systems, ev, mission);
      systems, dirty := m, true;
    }

    /** mission_failed: a mission the log does not know is ignored; otherwise
        the first system with the mission's system name counts a failure
        against the mission giver when it is tracked there, the mission leaves
        the log and the flags are recomputed.  When no system carries the name
        nothing else happens. */
    method MissionFailed(missionId: int, log: MissionLog)
      requires Valid()
      modifies this, log
      ensures Valid()
      ensures tickId == old(tickId) && tickTime == old(tickTime) && discordNotes == old(discordNotes)
      ensures discordBgsMessageId == old(discordBgsMessageId) && discordTwMessageId == old(discordTwMessageId)
      ensures order == old(order)
      ensures missionId !in old(log.missions) ==> unchanged(this) && unchanged(log)
      ensures missionId in old(log.missions) ==>
                dirty && systems == FailedSystems(old(order), old(systems), old(log.missions)[missionId])
      ensures missionId in old(log.missions) && FailedAt(old(order), old(systems), old(log.missions)[missionId]).None? ==>
                log.missions == old(log.missions)
      ensures missionId in old(log.missions) && FailedAt(old(order), old(systems), old(log.missions)[missionId]).Some? ==>
                log.missions == old(log.missions) - {old(log.missions)[missionId].missionId}
    {
      var mission := log.GetMission(missionId);
      if mission.None? {
        return;
      }
      var ms := mission.value;
      dirty := true;
      var found, m := FailMission(order, systems, ms);
      systems := m;
      if found {
        log.DeleteMissionById(ms.missionId);
      }
    }

    /** exploration_data_sold: the earnings go to the station's faction in the
        current system. */
    method ExplorationDataSold(totalEarnings: int, state: State)
      requires Valid()
      modifies this
      ensures Valid()
      ensures tickId == old(tickId) && tickTime == old(tickTime) && discordNotes == old(discordNotes)
      ensures discordBgsMessageId == old(discordBgsMessageId) && discordTwMessageId == old(discordTwMessageId)
      ensures order == old(order)
      ensures !Tracked(old(systems), state.currentSystemId) ==> unchanged(this)
      ensures Tracked(old(systems), state.currentSystemId) ==>
                && dirty
                && (FactionAt(old(systems), state.currentSystemId, state.stationFaction).None? ==> systems == old(systems))
                && (FactionAt(old(systems), state.currentSystemId, state.stationFaction).Some? ==>
                      systems == RecalcFlags(CreditAt(old(systems), state.currentSystemId, state.stationFaction, CartData, totalEarnings)))
    {
      if !Tracked(systems, state.currentSystemId) {
        return;
      }
      dirty := true;
      if FactionAt(systems, state.currentSystemId, state.stationFaction).Some? {
        systems := CreditAt(systems, state.currentSystemId, state.stationFaction, CartData, totalEarnings);
        KeyOrderSameKeys(order, old(systems), systems);
        RecalculateZeroActivity();
      }
    }

    /** organic_data_sold: every sample's value and bonus go, one sample at a
        time, to the station's faction in the current system. */
    method OrganicDataSold(bio: seq<BioSale>, state: State)
      requires Valid()
      modifies this
      ensures Valid()
      ensures tickId == old(tickId) && tickTime == old(tickTime) && discordNotes == old(discordNotes)
      ensures discordBgsMessageId == old(discordBgsMessageId) && discordTwMessageId == old(discordTwMessageId)
      ensures order == old(order)
      ensures !Tracked(old(systems), state.currentSystemId) ==> unchanged(this)
      ensures Tracked(old(systems), state.currentSystemId) ==>
                && dirty
                && (FactionAt(old(systems), state.currentSystemId, state.stationFaction).None? ==> systems == old(systems))
                && (FactionAt(old(systems), state.currentSystemId, state.stationFaction).Some? ==>
                      systems == RecalcFlags(CreditAt(old(systems), state.currentSystemId, state.stationFaction, ExoData, BioTotal(bio))))
    {
      if !Tracked(systems, state.currentSystemId) {
        return;
      }
      dirty := true;
      if FactionAt(systems, state.currentSystemId, state.stationFaction).Some? {
        systems := CreditSamples(systems, state.currentSystemId, state.stationFaction, bio);
        KeyOrderSameKeys(order, old(systems), systems);
        RecalculateZeroActivity();
      }
    }

    /** bv_redeemed: each voucher's amount, halved at a fleet carrier, goes
        to its faction in the current system. */
    method BvRedeemed(vouchers: seq<Voucher>, state: State)
      requires Valid()
      modifies this
      ensures Valid()
      ensures tickId == old(tickId) && tickTime == old(tickTime) && discordNotes == old(discordNotes)
      ensures discordBgsMessageId == old(discordBgsMessageId) && discordTwMessageId == old(discordTwMessageId)
      ensures order == old(order)
      ensures !Tracked(old(systems), state.currentSystemId) ==> unchanged(this)
      ensures Tracked(old(systems), state.currentSystemId) ==>
                dirty && systems == RedeemedSystems(old(systems), state.currentSystemId.value, vouchers, state.stationType)
    {
      if !Tracked(systems, state.currentSystemId) {
        return;
      }
      dirty := true;
      systems := RedeemVouchers(order, systems, state.currentSystemId.value, vouchers, state.stationType);
    }

    /** cb_redeemed: the bonds' amount goes to the awarding faction in the
        current system. */
    method CbRedeemed(faction: string, amount: int, state: State)
      requires Valid()
      modifies this
      ensures Valid()
      ensures tickId == old(tickId) && tickTime == old(tickTime) && discordNotes == old(discordNotes)
      ensures discordBgsMessageId == old(discordBgsMessageId) && discordTwMessageId == old(discordTwMessageId)
      ensures order == old(order)
      ensures !Tracked(old(systems), state.currentSystemId) ==> unchanged(this)
      ensures Tracked(old(systems), state.currentSystemId) ==>
                && dirty
                && (FactionAt(old(systems), state.currentSystemId, Some(faction)).None? ==> systems == old(systems))
                && (FactionAt(old(systems), state.currentSystemId, Some(faction)).Some? ==>
                      systems == RecalcFlags(CreditAt(old(systems), state.currentSystemId, Some(faction), CombatBonds, amount)))
    {
      if !Tracked(systems, state.currentSystemId) {
        return;
      }
      dirty := true;
      if FactionAt(systems, state.currentSystemId, Some(faction)).Some? {
        systems := CreditAt(systems, state.currentSystemId, Some(faction), CombatBonds, amount);
        KeyOrderSameKeys(order, old(systems), systems);
        RecalculateZeroActivity();
      }
    }

    /** trade_purchased: the purchase is counted for the station's faction in
        the current system, in the bracket of the commodity's stock. */
    method TradePurchased(ev: MarketBuyEvent, mk: Market, state: State)
      requires Valid()
      modifies this
      ensures Valid()
      ensures tickId == old(tickId) && tickTime == old(tickTime) && discordNotes == old(discordNotes)
      ensures discordBgsMessageId == old(discordBgsMessageId) && discordTwMessageId == old(discordTwMessageId)
      ensures order == old(order)
      ensures FactionAt(old(systems), state.currentSystemId, state.stationFaction).None? ==> unchanged(this)
      ensures var f := FactionAt(old(systems), state.currentSystemId, state.stationFaction);
              f.Some? ==>
                && dirty
                && systems == RecalcFlags(UpdateFaction(old(systems), state.currentSystemId.value, state.stationFaction.value,
                                                        RecordPurchase(f.value, PurchaseBracket(mk), ev)))
    {
      var f := FactionAt(systems, state.currentSystemId, state.stationFaction);
      if f.Some? {
        dirty := true;
        var g := RecordPurchase(f.value, PurchaseBracket(mk), ev);
        systems := UpdateFaction(systems, state.currentSystemId.value, state.stationFaction.value, g);
        KeyOrderPut(order, old(systems), state.currentSystemId.value, systems[state.currentSystemId.value]);
        RecalculateZeroActivity();
      }
    }

    /** trade_sold: in a tracked current system a sale of Thargoid tissue
        samples is first handed in as search-and-rescue items; then the sale is
        counted for the station's faction, in the bracket of the commodity's
        demand, or as black-market profit. */
    method TradeSold(ev: MarketSellEvent, mk: Market, state: State)
      requires Valid()
      modifies this
      ensures Valid()
      ensures tickId == old(tickId) && tickTime == old(tickTime) && discordNotes == old(discordNotes)
      ensures discordBgsMessageId == old(discordBgsMessageId) && discordTwMessageId == old(discordTwMessageId)
      ensures order == old(order)
      ensures !Tracked(old(systems), state.currentSystemId) ==> unchanged(this)
      ensures Tracked(old(systems), state.currentSystemId) ==>
                var tissue := IsTissueSample(ev.commodityType);
                var h := if tissue then Handin(old(systems), old(order), Tissue, ev.count) else old(systems);
                var f := FactionAt(h, state.currentSystemId, state.stationFaction);
                && (f.None? ==> systems == h)
                && (f.Some? ==> systems == RecalcFlags(UpdateFaction(h, state.currentSystemId.value, state.stationFaction.value,
                                                                     RecordSale(f.value, SaleBracket(mk), ev))))
                && dirty == (old(dirty) || (tissue && Allocates(old(systems), old(order), Tissue, ev.count)) || f.Some?)
    {
      if !Tracked(systems, state.currentSystemId) {
        return;
      }
      if IsTissueSample(ev.commodityType) {
        SearchAndRescueHandin(Tissue, ev.count);
      }
      var f := FactionAt(systems, state.currentSystemId, state.stationFaction);
      if f.Some? {
        dirty := true;
        var g := RecordSale(f.value, SaleBracket(mk), ev);
        ghost var before := systems;
        systems := UpdateFaction(systems, state.currentSystemId.value, state.stationFaction.value, g);
        KeyOrderPut(order, before, state.currentSystemId.value, systems[state.currentSystemId.value]);
        RecalculateZeroActivity();
      }
    }

    /** ship_targeted: a target whose faction and pilot name are both known
        becomes the last ship targeted. */
    method ShipTargeted(faction: Option<string>, pilotName: Option<string>, state: State)
      modifies this, state
      ensures systems == old(systems) && order == old(order)
      ensures tickId == old(tickId) && tickTime == old(tickTime) && discordNotes == old(discordNotes)
      ensures discordBgsMessageId == old(discordBgsMessageId) && discordTwMessageId == old(discordTwMessageId)
      ensures faction.None? || pilotName.None? ==> unchanged(this) && unchanged(state)
      ensures faction.Some? && pilotName.Some? ==>
                dirty && state.lastShipTargeted == Some(ShipTarget(faction.value, pilotName.value))
      ensures state.currentSystemId == old(state.currentSystemId) && state.stationFaction == old(state.stationFaction)
      ensures state.lastSettlementApproached == old(state.lastSettlementApproached)
    {
      if faction.Some? && pilotName.Some? {
        dirty := true;
        state.lastShipTargeted := Some(ShipTarget(faction.value, pilotName.value));
      }
    }

    /** crime_committed: a ship murder counts against the faction of the ship
        last targeted when the victim is its pilot; an on-foot murder against
        the faction the event names. */
    method CrimeCommitted(ev: CrimeEvent, state: State)
      requires Valid()
      modifies this
      ensures Valid()
      ensures tickId == old(tickId) && tickTime == old(tickTime) && discordNotes == old(discordNotes)
      ensures discordBgsMessageId == old(discordBgsMessageId) && discordTwMessageId == old(discordTwMessageId)
      ensures order == old(order)
      ensures !Tracked(old(systems), state.currentSystemId) ==> unchanged(this)
      ensures Tracked(old(systems), state.currentSystemId) ==>
                var k := state.currentSystemId;
                var ship := MurderedFaction(ev.victim, state.lastShipTargeted);
                && dirty
                && (ev.crimeType == "murder" && FactionAt(old(systems), k, ship).Some? ==>
                      systems == RecalcFlags(CreditAt(old(systems), k, ship, Murdered, 1)))
                && (ev.crimeType == "onFoot_murder" && FactionAt(old(systems), k, Some(ev.faction)).Some? ==>
                      systems == RecalcFlags(CreditAt(old(systems), k, Some(ev.faction), GroundMurdered, 1)))
                && ((ev.crimeType == "murder" && FactionAt(old(systems), k, ship).None?)
                    || (ev.crimeType == "onFoot_murder" && FactionAt(old(systems), k, Some(ev.faction)).None?)
                    || (ev.crimeType != "murder" && ev.crimeType != "onFoot_murder")
                    ==> systems == old(systems))
    {
      if !Tracked(systems, state.currentSystemId) {
        return;
      }
      dirty := true;
      var k := state.currentSystemId;
      if ev.crimeType == "murder" {
        var n := MurderedFaction(ev.victim, state.lastShipTargeted);
        if FactionAt(systems, k, n).Some? {
          systems := CreditAt(systems, k, n, Murdered, 1);
          KeyOrderSameKeys(order, old(systems), systems);
          RecalculateZeroActivity();
        }
      } else if ev.crimeType == "onFoot_murder" {
        if FactionAt(systems, k, Some(ev.faction)).Some? {
          systems := CreditAt(systems, k, Some(ev.faction), GroundMurdered, 1);
          KeyOrderSameKeys(order, old(systems), systems);
          RecalculateZeroActivity();
        }
      }
    }

    /** settlement_approached: a new settlement context, size not yet known. */
    method SettlementApproached(timestamp: int, name: string, state: State)
      modifies state
      ensures state.lastSettlementApproached == Some(SettlementContext(timestamp, name, None))
      ensures state.currentSystemId == old(state.currentSystemId) && state.stationFaction == old(state.stationFaction)
      ensures state.lastShipTargeted == old(state.lastShipTargeted)
    {
      state.lastSettlementApproached := Some(SettlementContext(timestamp, name, None));
    }

    /** cb_received: in a tracked current system, a bond for a Thargoid kill
        counts the kill by the reward's class and nothing else; any other bond
        needs a settlement approached: more than five minutes after it the
        context is dropped, otherwise its time is refreshed and, when the
        awarding faction is tracked, the ground conflict zone is counted. */
    method CbReceived(ev: BondEvent, state: State)
      requires Valid()
      modifies this, state
      ensures Valid()
      ensures tickId == old(tickId) && tickTime == old(tickTime) && discordNotes == old(discordNotes)
      ensures discordBgsMessageId == old(discordBgsMessageId) && discordTwMessageId == old(discordTwMessageId)
      ensures order == old(order)
      ensures state.currentSystemId == old(state.currentSystemId) && state.stationFaction == old(state.stationFaction)
      ensures state.lastShipTargeted == old(state.lastShipTargeted)
      ensures !Tracked(old(systems), state.currentSystemId) ==> unchanged(this) && unchanged(state)
      ensures Tracked(old(systems), state.currentSystemId) && ev.victimFaction == Some(ThargoidFaction) ==>
                var k := state.currentSystemId.value;
                && systems == old(systems)[k := old(systems)[k].(twKills := TwKill(old(systems)[k].twKills, ev.reward))]
                && dirty == old(dirty) && unchanged(state)
      ensures Tracked(old(systems), state.currentSystemId) && ev.victimFaction != Some(ThargoidFaction) ==>
                var k := state.currentSystemId.value;
                var ctx := old(state.lastSettlementApproached);
                var f := FactionAt(old(systems), state.currentSystemId, Some(ev.awardingFaction));
                && (ctx.None? ==> unchanged(this) && unchanged(state))
                && (ctx.Some? && !InWindow(ctx.value, ev.timestamp) ==>
                      dirty && systems == old(systems) && state.lastSettlementApproached.None?)
                && (ctx.Some? && InWindow(ctx.value, ev.timestamp) && f.None? ==>
                      dirty && systems == old(systems)
                      && state.lastSettlementApproached == Some(ctx.value.(timestamp := ev.timestamp)))
                && (ctx.Some? && InWindow(ctx.value, ev.timestamp) && f.Some? ==>
                      var r := GroundBond(f.value, ctx.value.(timestamp := ev.timestamp), ev.reward);
                      && dirty
                      && systems == RecalcFlags(UpdateFaction(old(systems), k, ev.awardingFaction, r.0))
                      && state.lastSettlementApproached == Some(r.1))
    {
      if !Tracked(systems, state.currentSystemId) {
        return;
      }
      var k := state.currentSystemId.value;
      if ev.victimFaction == Some(ThargoidFaction) {
        KeyOrderPut(order, systems, k, systems[k].(twKills := TwKill(systems[k].twKills, ev.reward)));
        systems := systems[k := systems[k].(twKills := TwKill(systems[k].twKills, ev.reward))];
        return;
      }
      if state.lastSettlementApproached.None? {
        return;
      }
      dirty := true;
      var ctx := state.lastSettlementApproached.value;
      if !InWindow(ctx, ev.timestamp) {
        state.lastSettlementApproached := None;
        return;
      }
      ctx := ctx.(timestamp := ev.timestamp);
      state.lastSettlementApproached := Some(ctx);
      var f := FactionAt(systems, Some(k), Some(ev.awardingFaction));
      if f.None? {
        return;
      }
      var r := GroundBond(f.value, ctx, ev.reward);
      systems := UpdateFaction(systems, k, ev.awardingFaction, r.0);
      KeyOrderPut(order, old(systems), k, systems[k]);
      state.lastSettlementApproached := Some(r.1);
      RecalculateZeroActivity();
    }

    /** collect_cargo: escape pods, occupied cryo pods, black boxes and tissue
        samples picked up are scooped in the current system (the flags are
        not recomputed). */
    method CollectCargo(cargoType: string, state: State)
      requires Valid()
      modifies this
      ensures Valid()
      ensures tickId == old(tickId) && tickTime == old(tickTime) && discordNotes == old(discordNotes)
      ensures discordBgsMessageId == old(discordBgsMessageId) && discordTwMessageId == old(discordTwMessageId)
      ensures order == old(order)
      ensures !Tracked(old(systems), state.currentSystemId) || CollectKey(cargoType).None? ==> unchanged(this)
      ensures Tracked(old(systems), state.currentSystemId) && CollectKey(cargoType).Some? ==>
                var k := state.currentSystemId.value;
                var key := CollectKey(cargoType).value;
                var p := old(systems)[k].twSandR.At(key);
                && dirty
                && systems == old(systems)[k := old(systems)[k].(twSandR := old(systems)[k].twSandR.With(key, p.(scooped := p.scooped + 1)))]
    {
      if !Tracked(systems, state.currentSystemId) {
        return;
      }
      var key := CollectKey(cargoType);
      if key.None? {
        return;
      }
      var k := state.currentSystemId.value;
      var p := systems[k].twSandR.At(key.value);
      var s := systems[k].(twSandR := systems[k].twSandR.With(key.value, p.(scooped := p.scooped + 1)));
      KeyOrderPut(order, systems, k, s);
      systems := systems[k := s];
      dirty := true;
    }

    /** search_and_rescue: escape pods, occupied cryo pods and black boxes
        handed in; `count` is the event's count, 0 when absent. */
    method SearchAndRescue(name: string, count: int)
      requires Valid()
      modifies this
      ensures Valid()
      ensures tickId == old(tickId) && tickTime == old(tickTime) && discordNotes == old(discordNotes)
      ensures discordBgsMessageId == old(discordBgsMessageId) && discordTwMessageId == old(discordTwMessageId)
      ensures order == old(order)
      ensures HandInKey(name).None? || count == 0 ==> unchanged(this)
      ensures HandInKey(name).Some? && count != 0 ==>
                && systems == Handin(old(systems), old(order), HandInKey(name).value, count)
                && dirty == (old(dirty) || Allocates(old(systems), old(order), HandInKey(name).value, count))
    {
      var key := HandInKey(name);
      if key.None? || count == 0 {
        return;
      }
      SearchAndRescueHandin(key.value, count);
    }

    /** _search_and_rescue_handin: the systems visited in order, each giving
        up as many items of the kind as it has scooped, until the count is
        used up; a count left over is dropped. */
    method SearchAndRescueHandin(key: SandRKey, count: int)
      requires Valid()
      modifies this
      ensures Valid()
      ensures tickId == old(tickId) && tickTime == old(tickTime) && discordNotes == old(discordNotes)
      ensures discordBgsMessageId == old(discordBgsMessageId) && discordTwMessageId == old(discordTwMessageId)
      ensures order == old(order)
      ensures systems == Handin(old(systems), old(order), key, count)
      ensures dirty == (old(dirty) || Allocates(old(systems), old(order), key, count))
    {
      KeyOrderFacts(order, systems);
      var m, moved := HandInScooped(order, systems, key, count);
      KeyOrderSameKeys(order, systems, m);
      systems := m;
      dirty := dirty || moved;
    }

    /** player_resurrected: cargo is lost, so every system's search-and-rescue
        record starts afresh (the flags are not recomputed). */
    method PlayerResurrected()
      requires Valid()
      modifies this
      ensures Valid()
      ensures tickId == old(tickId) && tickTime == old(tickTime) && discordNotes == old(discordNotes)
      ensures discordBgsMessageId == old(discordBgsMessageId) && discordTwMessageId == old(discordTwMessageId)
      ensures order == old(order)
      ensures dirty && systems == Resurrected(old(systems))
    {
      var m := ResetAll(order, systems);
      KeyOrderSameKeys(order, systems, m);
      systems := m;
      dirty := true;
    }

    /** clear_activity: at the tick, systems that must survive are cleared
        and every other system is deleted. */
    method ClearActivity(log: MissionLog, state: State)
      requires Valid()
      modifies this
      ensures Valid()
      ensures tickId == old(tickId) && tickTime == old(tickTime) && discordNotes == old(discordNotes)
      ensures discordBgsMessageId == old(discordBgsMessageId) && discordTwMessageId == old(discordTwMessageId)
      ensures dirty
      ensures systems == Cleared(old(systems), log.ActiveSystems(), state.currentSystemId)
      ensures order == FilterIn(old(order), systems.Keys)
    {
      dirty := true;
      var missionSystems := log.ActiveSystems();
      var current := state.currentSystemId;
      var m := ClearSystems(order, systems, missionSystems, current);
      FilterKeyOrder(order, systems, m);
      order := FilterIn(order, m.Keys);
      systems := m;
    }

    /** _as_dict: the fields an activity file holds. */
    function AsDict(): (d: StoredActivity)
      reads this
      ensures d.tickId == tickId && d.tickTime == tickTime && d.notes == discordNotes
      ensures d.bgsMessageId == discordBgsMessageId && d.twMessageId == discordTwMessageId
      ensures d.systems == StoreAll(systems) && d.order == order
    {
      StoredActivity(tickId, tickTime, discordBgsMessageId, discordTwMessageId, discordNotes, StoreAll(systems), order)
    }

    /** load: _from_dict followed by the recalculation, which migrates every
        record written by an earlier version and recomputes the flags. */
    method Load(d: StoredActivity)
      requires KeyOrder(d.order, d.systems)
      modifies this
      ensures Valid() && dirty == old(dirty)
      ensures tickId == d.tickId && tickTime == d.tickTime && discordNotes == d.notes
      ensures discordBgsMessageId == d.bgsMessageId && discordTwMessageId == d.twMessageId
      ensures systems == LoadAll(d.systems) && order == d.order
    {
      tickId := d.tickId;
      tickTime := d.tickTime;
      discordBgsMessageId := d.bgsMessageId;
      discordTwMessageId := d.twMessageId;
      discordNotes := d.notes;
      systems := map k | k in d.systems :: MigrateSystem(d.systems[k]);
      order := d.order;
      KeyOrderSameKeys(order, d.systems, systems);
      RecalculateZeroActivity();
    }

    /** save: an unchanged ledger writes nothing; otherwise its fields are
        written and it is clean again. */
    method Save() returns (written: Option<StoredActivity>)
      modifies this
      ensures systems == old(systems) && order == old(order)
      ensures tickId == old(tickId) && tickTime == old(tickTime) && discordNotes == old(discordNotes)
      ensures discordBgsMessageId == old(discordBgsMessageId) && discordTwMessageId == old(discordTwMessageId)
      ensures !old(dirty) ==> written.None? && !dirty
      ensures old(dirty) ==> written == Some(old(AsDict())) && !dirty
    {
      if !dirty {
        return None;
      }
      written := Some(AsDict());
      dirty := false;
    }
  }

  /** Saving and loading round-trips every field of the ledger, and its
      systems up to the recomputed flags. */
  lemma SaveLoadRoundTrip(d: StoredActivity, tickId: string, tickTime: int, bgs: Option<string>, tw: Option<string>,
                          notes: Option<string>, m: Systems, o: seq<string>)
    requires d == StoredActivity(tickId, tickTime, bgs, tw, notes, StoreAll(m), o)
    requires KeyOrder(o, m)
    ensures KeyOrder(d.order, d.systems)
    ensures LoadAll(d.systems) == RecalcFlags(m)
  {
    LoadStored(m);
  }
}
