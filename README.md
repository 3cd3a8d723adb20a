# BGS-Tally activity ledger and target log, in Dafny

This project models two parts of the BGS-Tally plugin for Elite Dangerous.

- **Activity ledger** (`bgstally/activity.py`, class `Activity`). This is the activity of one tick, i.e. one background-simulation day. It keeps one system entry per star system, keyed by system address. Each system entry holds one faction entry per faction, and every faction entry holds the counters the journal handlers credit:
  - mission influence;
  - trade, bounties and combat bonds;
  - exploration and organic data;
  - murders and conflict zones;
  - Thargoid-war station missions.

  Each system entry also holds its Thargoid kills, its search-and-rescue items (scooped and delivered), and a zero-activity flag computed from all of these.
- **Target log** (`bgstally/targetlog.py`, class `TargetLog`). It records every sighting of another commander, either from ship targeting or from a friend request. It also keeps a cache of the latest record per commander, and queues a profile lookup for any commander not yet cached. Entries expire after 90 days.

Both objects update their fields in place, so both are Dafny classes:
- `Activities.Activity`, with the systems as a `map` plus the dictionary's iteration order as a `seq`;
- `TargetLogs.TargetLog`, with the log, the cache and the queue of pending lookups.

Each handler is a method whose `ensures` gives the new state as a function of the old one. The rules behind these functions sit in separate modules:
- `EntryRules`: system entry;
- `MissionRules`: missions;
- `TradeRules`: trade;
- `BountyRules`: bounty vouchers;
- `CombatRules`: crimes and bonds;
- `RescueRules`: search and rescue;
- `TickRules`: the tick boundary;
- `Ledger`: records, the zero test, migration and order.

Lemmas prove what the rules promise about those functions. Every top-level loop over the systems, the reported factions, the conflicts, the faction effects, the vouchers, the samples and the target log is a method whose loop invariant ties it to its specification function. The inner per-system and per-faction loops are comprehensions or quantifiers inside the specification functions, and the generator of `get_target_info` is the recursive `LastIndexFor`. These are: the three per-system passes of `mission_completed` (`ExplicitEffect`, `ImplicitEffect`, `TwPass`), the per-faction reset of `clear_activity` (`ClearSystem`) and the per-faction zero test of `recalculate_zero_activity` (`IsSystemZero`). Where the source iterates over the systems dictionary, the model iterates over the recorded key order, because two handlers depend on that order:
- the greedy search-and-rescue hand-in;
- `mission_failed`, which stops at the first match.

Modelling choices:
- **Records are typed.** A faction, a system and a Thargoid-war station are datatypes. The source's fixed-key dictionaries become records with one field per key:
  - `l`/`m`/`h`;
  - the six Thargoid classes;
  - the four cargo kinds;
  - the four market brackets.

  A new faction's empty `SpaceCZ`/`GroundCZ` dictionaries are modelled as all-zero tallies; the zero test treats the two alike.
- **Migration.** Records written by older plugin versions are `StoredFaction`/`StoredSystem`, with optional fields, and they are migrated on load. On typed records the migration is the identity (proved), so the recalculation after a handler only recomputes the flags.
- **Bounties** are `real`, because redemption at a fleet carrier halves the amount with true division. The zero test's `int(x) == 0` is modelled as `-1 < x < 1`, which is exactly what `Ledger.TruncateZero` proves.
- **Time** is integer seconds. The current time is a parameter.
- **Collaborators.** The session `State` and the `MissionLog` are reduced to the fields and operations the handlers use (`Session`). The market data is reduced to a `Market` value: whether the market is available, and the commodity's brackets.
- **Profile lookups.** The target log does not perform HTTP requests. It appends the pending record to `requests`, and the answer arrives as a call to `InaraDataReceived`.

## Model

| member | source | states |
|---|---|---|
| Ledger.Ladder.With | bgstally/activity.py:468-469 | writing one market bracket sets that bracket and leaves the other three as they were |
| Ledger.LevelTally.With | bgstally/activity.py:613-643 | writing one of the 'l'/'m'/'h' entries sets it and leaves the other two |
| Ledger.ClassTally.With | bgstally/activity.py:569-576 | writing one Thargoid class's entry sets it and leaves the other five |
| Ledger.SandR.With | bgstally/activity.py:665 | writing one cargo kind's scooped/delivered pair leaves the other three kinds |
| Ledger.ListsFacts | bgstally/activity.py:197-206 | an order that lists a key set contains every key, nothing else, and no key twice |
| Ledger.KeyOrderFacts | bgstally/activity.py:166 | the iteration order of the systems dictionary visits exactly its keys |
| Ledger.KeyOrderDistinct | bgstally/activity.py:696 | the iteration order visits no system twice |
| Ledger.ListsAppend | bgstally/activity.py:206 | a key inserted into a dictionary goes last in the iteration order |
| Ledger.NewTwStation | bgstally/activity.py:777-785 | a new Thargoid-war station has the given name, is enabled, and has no missions counted and a zero sum |
| Ledger.NewTwKills | bgstally/activity.py:788-792 | new Thargoid kills are zero for every class |
| Ledger.NewSandR | bgstally/activity.py:795-799 | new search-and-rescue data has nothing scooped or delivered of any kind |
| Ledger.NewFaction | bgstally/activity.py:763-774 | a new faction has the given name and state, is enabled, and passes the zero test |
| Ledger.NewSystem | bgstally/activity.py:751-760 | a new system has the given name, address and factions, is flagged zero, and has no kills, scoops or deliveries |
| Ledger.TruncateZero | bgstally/activity.py:866 | `int(bounties) == 0` (truncation toward zero) holds exactly for amounts strictly between -1 and 1 |
| Ledger.KeyOrderPut | bgstally/activity.py:203-206 | storing under an existing key keeps the iteration order; a new key is appended to it |
| Ledger.RecalcFlags | bgstally/activity.py:723-744 | the recalculation keeps the set of systems |
| Ledger.RecalculateAll | bgstally/activity.py:723-744 | the loop over the systems, in dictionary order, yields every system with its flag recomputed and nothing else changed |
| Ledger.RecalcVisited | bgstally/activity.py:727-744 | once every system in the order has been visited, the ledger is the full recalculation |
| Ledger.RecalcIdempotent | bgstally/activity.py:723-744 | recalculating twice gives what recalculating once gives |
| Ledger.Credit | bgstally/activity.py:389 | a credit adds `v` to its own counter and leaves every other field of the faction (the other counters, mission points, trade, bounties, conflict zones, scenarios, Thargoid-war stations, name, state, check state) as it was |
| Ledger.CreditUndo | bgstally/activity.py:389 | crediting `v` then `-v` to the same counter restores the faction |
| Ledger.CreditAdds | bgstally/activity.py:406-407 | two credits to the same counter add up |
| Ledger.CreditNotZero | bgstally/activity.py:857-872 | a positive credit to a non-negative counter takes the faction out of the zero test |
| Ledger.UpdateFaction | bgstally/activity.py:387-389 | replacing a faction entry in a system keeps the set of systems |
| Ledger.CreditAt | bgstally/activity.py:380-389 | crediting a faction in a system keeps the set of systems |
| Ledger.CreditAtOnly | bgstally/activity.py:380-389 | with system and faction tracked, exactly that faction's counter moves; no other system, faction or system field changes; otherwise nothing changes |
| Ledger.CreditAtAdds | bgstally/activity.py:404-407 | two credits to the same faction counter add up |
| Ledger.CreditAtZero | bgstally/activity.py:404-407 | crediting zero changes nothing |
| Ledger.KeyOrderSameKeys | bgstally/activity.py:727 | a dictionary whose values are replaced keeps its iteration order |
| Ledger.Store | bgstally/activity.py:875-885 | a faction as saved has every field later versions introduced |
| Ledger.MigrateFaction | bgstally/activity.py:811-854 | migration keeps every field present and fills every missing one with what a new faction holds |
| Ledger.MigrateStoredFaction | bgstally/activity.py:811-854 | migrating a faction as saved gives it back unchanged |
| Ledger.MigrateSystem | bgstally/activity.py:802-808 | system migration keeps the factions' names and present fields, and the stored kills and search-and-rescue data; missing ones become fresh |
| Ledger.MigrateStoredSystem | bgstally/activity.py:802-854 | migrating a system as saved gives it back unchanged |
| Journal.Lower | bgstally/activity.py:657 | lower-casing keeps the length and maps each character through the ASCII lower-case mapping |
| EntryRules.NormaliseState | bgstally/activity.py:214 | a snapshot state is never a conflict state afterwards; a non-conflict state is kept; emptiness is kept |
| EntryRules.RefreshState | bgstally/activity.py:811-816 | refreshing changes nothing but the state, and only when the new state is non-empty |
| EntryRules.SnapshotKeys | bgstally/activity.py:210-222 | the snapshot keeps every tracked faction and adds exactly the reported ones other than the Pilots' Federation branch |
| EntryRules.SnapshotKeepsCounters | bgstally/activity.py:216-222 | tracked factions keep every counter; added factions are fresh |
| EntryRules.SnapshotNoConflictState | bgstally/activity.py:214 | a conflict state after the snapshot was already there before it |
| EntryRules.SnapshotLastState | bgstally/activity.py:210-222 | a faction ends with the normalised state of its last non-empty snapshot entry |
| EntryRules.SnapshotFactions | bgstally/activity.py:210-222 | the snapshot loop computes the snapshot specification |
| EntryRules.ConflictState | bgstally/activity.py:229 | the war type maps to War, CivilWar, Election or None |
| EntryRules.PairConflicts | bgstally/activity.py:225-231 | the conflict loop computes the conflict specification |
| EntryRules.ConflictKeys | bgstally/activity.py:225-231 | the conflicts add and remove no faction |
| EntryRules.ConflictKeepsCounters | bgstally/activity.py:225-231 | the conflicts change nothing but states |
| EntryRules.ConflictUnnamed | bgstally/activity.py:226-228 | a faction that no active pair of tracked factions names keeps its state |
| EntryRules.ConflictLastPairing | bgstally/activity.py:228-231 | a faction named by active pairs takes the state of the last such conflict |
| EntryRules.EnteredFactionState | bgstally/activity.py:210-231 | a faction last reported in a conflict state ends as "None" unless an active pair names it, in which case the last such conflict decides; the Pilots' Federation branch is never added; no tracked faction loses a counter |
| MissionRules.CreditInfluence | bgstally/activity.py:260-269 | the giver's own points or, for another faction, the secondary points move by the amount, up for UpGood/DownGood and down otherwise; nothing else changes |
| MissionRules.ExplicitEffect | bgstally/activity.py:248-269 | an influence report changes only the system at its first entry's address |
| MissionRules.ImplicitSystem | bgstally/activity.py:271-281 | the implicit credit changes only the effect faction's entry in the system |
| MissionRules.ImplicitEffect | bgstally/activity.py:271-281 | exactly the systems named as the mission's system get the implicit credit |
| MissionRules.OnlyMissionPointsTrans | bgstally/activity.py:246-283 | changing only mission points is preserved across successive faction effects |
| MissionRules.ExplicitOnlyMissionPoints | bgstally/activity.py:248-269 | an explicit effect changes mission points and nothing else |
| MissionRules.ImplicitOnlyMissionPoints | bgstally/activity.py:271-281 | an implicit effect changes mission points and nothing else |
| MissionRules.StepOnlyMissionPoints | bgstally/activity.py:246-283 | one faction effect changes mission points and nothing else |
| MissionRules.EffectsOnlyMissionPoints | bgstally/activity.py:246-283 | all faction effects together change mission points and nothing else |
| MissionRules.ExplicitCredit | bgstally/activity.py:248-269 | a tracked effect faction's points move by the length of the '+'/'-' string: its own for the giver, secondary otherwise; the direction follows the trend |
| MissionRules.ImplicitCredit | bgstally/activity.py:271-281 | the implicit +1 goes to the primary points exactly when the election-or-(war-and-giver) condition holds; the secondary points never change |
| MissionRules.ImplicitPrecedence | bgstally/activity.py:278-280 | the condition groups as `A or (B and C)`: a non-giver in Election is credited, a non-giver in War is not, the giver in War is |
| MissionRules.TwTarget | bgstally/activity.py:298-348 | a tally is chosen only for a mission with some count; passengers only for an evacuation template; escape pods only for occupied cryo pods; the cargo tally only for other commodities |
| MissionRules.CountAtStation | bgstally/activity.py:298-348 | counting a mission raises the chosen slot's count by one and its sum by the quantity; every other slot is unchanged |
| MissionRules.TwFaction | bgstally/activity.py:294-348 | the giver's station entry is created when missing and counted when a tally matches; other stations and fields are untouched |
| MissionRules.TwPass | bgstally/activity.py:286-348 | for a Thargoid-war template, a logged mission and a non-empty station, every system named as the mission's system where the giver is tracked has the giver's faction replaced by TwFaction at that station with the TwTarget tally and the mission quantity, and every other system and faction is unchanged; another template, an unknown mission or an empty/missing station leaves the ledger as it was |
| MissionRules.CreditEffects | bgstally/activity.py:246-283 | the faction-effect loop applies the effects in order |
| MissionRules.EffectsKeys | bgstally/activity.py:246-283 | the faction effects keep the set of systems |
| MissionRules.CompleteMission | bgstally/activity.py:238-350 | the ledger update of a completed mission is the effects, then the Thargoid-war pass, then the recalculation; the order is kept |
| MissionRules.FirstNamed | bgstally/activity.py:365-366 | returns the first system in iteration order carrying the name, or None when no system does |
| MissionRules.FindNamed | bgstally/activity.py:365-373 | the search loop stops at the first system carrying the name |
| MissionRules.FailMission | bgstally/activity.py:365-373 | a failed mission is found exactly when a system carries its name, and the ledger becomes the failure specification |
| MissionRules.FailedCounts | bgstally/activity.py:354-373 | a failure adds one failed mission to the giver in the first matching system only; no match leaves the ledger alone |
| TradeRules.PurchaseBracket | bgstally/activity.py:459-466 | bracket 0 without market data, else the commodity's stock bracket |
| TradeRules.SaleBracket | bgstally/activity.py:491-501 | bracket 0 without market data, else the commodity's demand bracket |
| TradeRules.RecordPurchase | bgstally/activity.py:468-469 | a purchase adds its cost and item count to its bracket only, and raises the bought-value total by the cost |
| TradeRules.RecordSale | bgstally/activity.py:489-505 | a black-market sale adds its profit to black-market profit only; any other sale adds items, value and profit to its bracket only |
| BountyRules.VoucherShare | bgstally/activity.py:425-428 | a voucher pays half its amount at a fleet carrier and its whole amount elsewhere |
| BountyRules.Redeem | bgstally/activity.py:422-428 | redeeming vouchers keeps the system's faction names |
| BountyRules.RedeemBounties | bgstally/activity.py:422-428 | a redemption changes only bounties: each tracked faction gains the shares of exactly the vouchers naming it |
| BountyRules.RedeemNone | bgstally/activity.py:423-424 | vouchers naming no tracked faction change nothing |
| BountyRules.RedeemAtFlag | bgstally/activity.py:422-429 | a redemption neither reads nor writes the zero-activity flag |
| BountyRules.FlagFree | bgstally/activity.py:727-744 | the recomputed flag does not depend on the old flag |
| BountyRules.RecalcRedeemAt | bgstally/activity.py:422-429 | recomputing the flags between two vouchers does not change the outcome |
| BountyRules.RedeemLoop | bgstally/activity.py:422-429 | the loop as written keeps the current system and its faction names |
| BountyRules.RedeemedStep | bgstally/activity.py:422-429 | one more voucher adds one credit and one recalculation when it names a tracked faction, and nothing otherwise |
| BountyRules.RedeemLoopIsRedeemed | bgstally/activity.py:422-429 | recalculating after each credit gives the ledger that crediting all vouchers and recalculating once gives |
| BountyRules.RedeemVouchers | bgstally/activity.py:415-429 | the voucher loop yields the redemption specification and keeps the iteration order |
| BountyRules.CreditsStep | bgstally/activity.py:422-424 | the first i+1 vouchers credit a faction exactly when the first i do or voucher i does |
| CombatRules.MurderedFaction | bgstally/activity.py:532-538 | a ship murder names a faction exactly when a ship was targeted and the victim is its pilot, and it is that ship's faction |
| CombatRules.TwKill | bgstally/activity.py:569-576 | a Thargoid bond counts one kill of the class its reward identifies, and no other; an unknown reward counts nothing |
| CombatRules.ClassifyReward | bgstally/activity.py:613-633 | Low exactly below 5000, High exactly from 38000 |
| CombatRules.MaxLevel | bgstally/activity.py:622-643 | the larger of two sizes, and one of them |
| CombatRules.GroundBond | bgstally/activity.py:600-643 | one bond records the settlement, counts it on the first bond of the approach, and on a size increase moves the faction-wide credit from the old size to the new one; the total rises only on the first bond |
| CombatRules.ApproachCreditsOnce | bgstally/activity.py:600-643 | any number of bonds in one approach credits one conflict zone, of the largest size seen, and counts the settlement once |
| CombatRules.LowHighLow | bgstally/activity.py:613-643 | Low, High, Low bonds give one High conflict zone and a settlement of size High |
| CombatRules.GroundBondAsWritten | bgstally/activity.py:613-643 | as written, a bond raises (TypeError, or KeyError when the previous size's tally is missing) exactly when it raises a size already counted; otherwise it agrees with the intended rule |
| CombatRules.EscalationRaisesAsWritten | bgstally/activity.py:613-643 | a High bond after a counted Low: as written it raises, keeps the Low credit, adds a High one and leaves the context at Low; the intended rule moves the credit to High |
| RescueRules.Deliver | bgstally/activity.py:699-703 | a delivery at one system leaves the other systems alone |
| RescueRules.Handin | bgstally/activity.py:696-704 | the hand-in keeps the set of systems |
| RescueRules.HandinStep | bgstally/activity.py:696-704 | one loop step: a system with a positive allocation delivers it and the count drops by it; otherwise it is passed over |
| RescueRules.HandInScooped | bgstally/activity.py:696-704 | the hand-in loop yields the hand-in specification, and `moved` is set exactly when something was allocated |
| RescueRules.Resurrected | bgstally/activity.py:713-720 | resurrection resets every system's search-and-rescue data and nothing else |
| RescueRules.ResetAll | bgstally/activity.py:717-718 | the resurrection loop yields the reset specification |
| RescueRules.SumAvailable | bgstally/activity.py:699 | the items available to a hand-in are never negative |
| RescueRules.HandinOutside | bgstally/activity.py:696-704 | a system the hand-in does not visit is unchanged |
| RescueRules.HandinAt | bgstally/activity.py:699-703 | in each system only the handed-in kind changes; scooped plus delivered is kept; scooped never rises and never goes negative from non-negative |
| RescueRules.SandRWithSame | bgstally/activity.py:701-702 | writing back a kind's own pair changes nothing |
| RescueRules.HandinKeepsScoopedNonNegative | bgstally/activity.py:699-701 | the hand-in never drives a scooped count below zero |
| RescueRules.SumsOutside | bgstally/activity.py:696-703 | totals over other systems do not see a delivery elsewhere |
| RescueRules.DistinctTail | bgstally/activity.py:696 | the rest of a repetition-free order lacks its head |
| RescueRules.MinSplit | bgstally/activity.py:699-703 | taking what the first system gives, then the rest from the others, is the minimum taken from all of them |
| RescueRules.HandinTotals | bgstally/activity.py:696-710 | handing in `count` items delivers min(count, items available) in total; any excess is dropped |
| RescueRules.HandinConserves | bgstally/activity.py:699-703 | the hand-in keeps the total of scooped plus delivered |
| RescueRules.AvailableIsScooped | bgstally/activity.py:699 | with no negative scooped counts, the items available are the items scooped |
| RescueRules.HandinExample | bgstally/activity.py:696-704 | 3 and 2 pods scooped, 4 handed in: the first system delivers 3, the second delivers 1 and keeps 1 |
| RescueRules.AllocatesIffAvailable | bgstally/activity.py:697-704 | the hand-in moves something (marks the ledger dirty) exactly when a positive count meets available items |
| TickRules.ClearSystem | bgstally/activity.py:174-177 | a surviving system keeps its name, address, flag, search-and-rescue data and faction names |
| TickRules.ClearSystemResets | bgstally/activity.py:174-176 | a surviving system's factions are fresh in their old state and pass the zero test; its kills are zero |
| TickRules.Cleared | bgstally/activity.py:166-180 | a system survives the tick exactly when a mission names it, the player is in it, or it holds scooped items; survivors are cleared |
| TickRules.FilterIn | bgstally/activity.py:166-180 | the order after deletion lists exactly the surviving keys |
| TickRules.ClearAlongAt | bgstally/activity.py:166-180 | after visiting the first n systems, each visited system is kept exactly when it must survive, and an unvisited one is untouched |
| TickRules.ClearAlongKeys | bgstally/activity.py:166-180 | the loop adds no system |
| TickRules.ClearAlongIsCleared | bgstally/activity.py:166-180 | visiting every system once gives the ledger after the tick |
| TickRules.ClearVisit | bgstally/activity.py:166-167 | the loop finds each system still present and not yet touched |
| TickRules.ClearSystems | bgstally/activity.py:166-180 | the clearing loop yields the after-tick specification |
| TickRules.ListsFilter | bgstally/activity.py:180 | deleting keys keeps the remaining keys' relative order |
| TickRules.FilterKeyOrder | bgstally/activity.py:180 | the order after deletion is the iteration order of the surviving systems |
| TickRules.FilterSameOn | bgstally/activity.py:180 | filtering by two sets that agree on the listed keys gives the same order |
| Session.State.Arrive | bgstally/activity.py:234-235 | arriving sets the current system and its Thargoid-war status only |
| Session.MissionLog.GetMission | bgstally/activity.py:243 | a mission is found exactly when its id is logged |
| Session.MissionLog.ActiveSystems | bgstally/activity.py:163 | the active systems are exactly the logged missions' systems |
| Session.MissionLog.DeleteMissionById | bgstally/activity.py:351 | deleting removes exactly that id |
| Activities.EnteredSystem | bgstally/activity.py:197-231 | the entered system is the stored one or a new one, changed only in its factions, which are the snapshot then the conflicts |
| Activities.EnteredSystems | bgstally/activity.py:203-233 | the ledger after a system entry has the old systems plus the entered one |
| Activities.CreditSamples | bgstally/activity.py:406-407 | the sample loop credits the sum of every sample's value and bonus |
| Activities.EnterSystem | bgstally/activity.py:197-234 | the system-entry update keeps the iteration order (a new system last) and yields the entry specification and the address the player is at |
| Activities.StoreAll | bgstally/activity.py:875-885 | saving keeps the set of systems |
| Activities.LoadAll | bgstally/activity.py:123-129 | loading keeps the set of systems |
| Activities.LoadStored | bgstally/activity.py:123-140 | saving then loading gives the ledger back, with its flags recomputed |
| Activities.SaveLoadRoundTrip | bgstally/activity.py:123-140 | a saved activity loads back with a valid order, and its systems up to the recomputed flags |
| Activities.Activity.constructor | bgstally/activity.py:84-98 | a new activity has the tick and message id, no Thargoid-war message, empty notes, no systems and is clean |
| Activities.Activity.RecalculateZeroActivity | bgstally/activity.py:723-744 | every system's flag is recomputed; nothing else changes |
| Activities.Activity.SystemEntered | bgstally/activity.py:187-235 | without factions nothing changes; otherwise the ledger is the entry specification, the order gains a new system, and the current system and Thargoid-war status are set |
| Activities.Activity.MissionCompleted | bgstally/activity.py:238-351 | the ledger becomes the completed-mission specification with flags recomputed, and the mission leaves the log |
| Activities.Activity.MissionFailed | bgstally/activity.py:354-373 | an unknown mission changes nothing; otherwise the ledger is the failure specification, and the mission leaves the log exactly when a system carried its name |
| Activities.Activity.ExplorationDataSold | bgstally/activity.py:376-390 | an untracked current system changes nothing; otherwise the station faction, if tracked, gains the earnings as cartography data |
| Activities.Activity.OrganicDataSold | bgstally/activity.py:393-408 | an untracked current system changes nothing; otherwise the station faction, if tracked, gains every sample's value and bonus |
| Activities.Activity.BvRedeemed | bgstally/activity.py:411-429 | an untracked current system changes nothing; otherwise the ledger is the redemption specification |
| Activities.Activity.CbRedeemed | bgstally/activity.py:432-446 | an untracked current system changes nothing; otherwise the awarding faction, if tracked, gains the bond amount |
| Activities.Activity.TradePurchased | bgstally/activity.py:449-471 | without a tracked station faction nothing changes; otherwise the purchase is recorded in its bracket |
| Activities.Activity.TradeSold | bgstally/activity.py:474-507 | tissue samples are handed in first; then a tracked station faction records the sale; the ledger is dirty when either moved something |
| Activities.Activity.ShipTargeted | bgstally/activity.py:510-516 | a target with faction and pilot name becomes the last ship targeted; otherwise nothing changes |
| Activities.Activity.CrimeCommitted | bgstally/activity.py:519-551 | a murder counts against the last target's faction when the victim is its pilot; an on-foot murder against the named faction; anything else changes no counter |
| Activities.Activity.SettlementApproached | bgstally/activity.py:554-558 | approaching a settlement starts a context with no size |
| Activities.Activity.CbReceived | bgstally/activity.py:561-645 | a Thargoid bond counts a kill only; otherwise a context older than five minutes is dropped, a fresh one is refreshed, and a tracked faction gets the ground-bond rule |
| Activities.Activity.CollectCargo | bgstally/activity.py:648-666 | collected pods, black boxes and tissue samples add one scooped item of their kind in the current system; nothing else changes |
| Activities.Activity.SearchAndRescue | bgstally/activity.py:669-684 | a hand-in of a known kind and non-zero count runs the greedy hand-in; anything else changes nothing |
| Activities.Activity.SearchAndRescueHandin | bgstally/activity.py:687-709 | the ledger becomes the hand-in specification and is dirty exactly when something moved |
| Activities.Activity.PlayerResurrected | bgstally/activity.py:713-720 | every system's search-and-rescue data is reset |
| Activities.Activity.ClearActivity | bgstally/activity.py:157-180 | the ledger becomes the after-tick specification; the order keeps exactly the survivors |
| Activities.Activity.AsDict | bgstally/activity.py:875-885 | the saved form holds every field and the saved systems |
| Activities.Activity.Load | bgstally/activity.py:123-129 | loading sets every field, then migrates and recalculates the systems |
| Activities.Activity.Save | bgstally/activity.py:132-140 | a clean activity writes nothing; a dirty one writes its saved form and becomes clean |
| TargetLogs.LastSemicolon | bgstally/targetlog.py:24 | the last ';' before any ']', or -1 when there is none |
| TargetLogs.ParseCmdrName | bgstally/targetlog.py:24 | matches exactly when the prefix is followed by a ']'-free run ending in ';'; the name is the longest such run |
| TargetLogs.ParseDecorated | bgstally/targetlog.py:24 | a decorated name reads back as the name |
| TargetLogs.LastIndexFor | bgstally/targetlog.py:63-67 | the position of the last entry for the commander, or -1 when there is none |
| TargetLogs.SightedName | bgstally/targetlog.py:75-81 | a commander is sighted exactly for scan stage 3 or more with a decorated pilot name |
| TargetLogs.FetchInfo | bgstally/targetlog.py:115-162 | a lookup is pending exactly for an uncached commander; the sighting differs exactly when uncached or when system, squadron, ship or legal status changed |
| TargetLogs.SightingRepeated | bgstally/targetlog.py:119-126 | a repeated sighting logs nothing and leaves the cache alone |
| TargetLogs.SightingChanged | bgstally/targetlog.py:128-139 | a changed sighting logs and caches one record: the new system, ship, legal status and time over the cached name, squadron and profile |
| TargetLogs.SightingUncached | bgstally/targetlog.py:141-162 | an uncached commander is neither logged nor cached until the lookup answers |
| TargetLogs.SightingSettles | bgstally/targetlog.py:122-139 | seeing the same again is logged again exactly when the squadron tag differs from the cached one |
| TargetLogs.Enriched | bgstally/targetlog.py:169-180 | a successful answer writes only the profile fields it carries; otherwise the record is unchanged |
| TargetLogs.InaraReceivedAsWritten | bgstally/targetlog.py:165-184 | as written, something is stored exactly when the lookup succeeded |
| TargetLogs.InaraFailureLost | bgstally/targetlog.py:165-184 | a failed lookup stores nothing as written; the corrected handler stores the sighting unchanged |
| TargetLogs.Unexpired | bgstally/targetlog.py:187-194 | the expiry never lengthens the log and keeps no expired entry |
| TargetLogs.UnexpiredKeeps | bgstally/targetlog.py:187-194 | the expiry keeps exactly the entries within 90 days |
| TargetLogs.UnexpiredAppend | bgstally/targetlog.py:187-194 | the expiry of two logs joined is the two expiries joined |
| TargetLogs.FirstIndex | bgstally/targetlog.py:194 | the first occurrence of an entry |
| TargetLogs.RemoveFirst | bgstally/targetlog.py:194 | `list.remove` shortens the log by one and takes out one copy of the entry |
| TargetLogs.RemoveFirstFront | bgstally/targetlog.py:194 | removing an entry found in the front part leaves the back part alone |
| TargetLogs.FirstIndexUnique | bgstally/targetlog.py:194 | a position holding the entry with none before it is the first occurrence |
| TargetLogs.UnexpiredRemove | bgstally/targetlog.py:193-194 | removing an expired entry does not change the unexpired ones |
| TargetLogs.ExpireTargets | bgstally/targetlog.py:187-194 | the reversed loop with `list.remove` leaves exactly the unexpired entries, in order |
| TargetLogs.ExpireDrop | bgstally/targetlog.py:193-194 | removing an expired entry at the loop position keeps the loop invariant |
| TargetLogs.ExpireKeep | bgstally/targetlog.py:191-193 | a kept entry at the loop position keeps the loop invariant |
| TargetLogs.TargetLog.constructor | bgstally/targetlog.py:26-44 | a new log holds the stored entries that have not expired, with an empty cache and no pending lookups |
| TargetLogs.TargetLog.GetTargetInfo | bgstally/targetlog.py:63-67 | None exactly when no entry names the commander; otherwise an entry for the commander with none after it |
| TargetLogs.TargetLog.ShipTargeted | bgstally/targetlog.py:70-92 | no sighted commander changes nothing; otherwise the log gains the record when it differs from the cache and no lookup is pending, the cache is refreshed, and an uncached commander's lookup is queued |
| TargetLogs.TargetLog.FriendRequest | bgstally/targetlog.py:95-112 | as ShipTargeted, for a friend request with a name |
| TargetLogs.TargetLog.FetchCmdrInfo | bgstally/targetlog.py:115-162 | answers as FetchInfo, refreshes the cache for a changed sighting, queues a lookup exactly when pending, and leaves the log alone |
| TargetLogs.TargetLog.InaraDataReceived | bgstally/targetlog.py:165-184 | the record, with whatever profile a success carries, is cached under its name and logged, whether or not the lookup succeeded |
| TargetLogs.TargetLog.ExpireOldTargets | bgstally/targetlog.py:187-194 | the log keeps exactly its unexpired entries, in order; cache and queue are unchanged |

## Left out

- The user interface: the activity indicator, the display ordering `get_ordered_systems` and `get_current_system` (`bgstally/activity.py:143-154`), and the text of any report.
- File and JSON input and output. These are `load_legacy_data` (`bgstally/activity.py:101-120`), the file parts of `load` and `save`, and `TargetLog.load`, `save` and `get_targetlog`. The model keeps only the data they read and write.
- Date parsing and formatting and the clock. Times are integer seconds, and the current time is a parameter.
- The request manager, its thread and the HTTP request to Inara. The model keeps the queue of pending records, and the answer is a call to `InaraDataReceived`. The Inara profile values are opaque text.
- The conversion of Thargoid-war station data written by 2.2.0 pre-releases (`bgstally/activity.py:840-848`). That format holds scalar tallies, which typed records cannot hold.
- Comparators, `__repr__` and `__deepcopy__` (`bgstally/activity.py:903-945`).
- The internals of the session state, the mission log and the market data (`state.py`, `missionlog.py` and `market.py` are not part of this model). They are reduced to the fields the handlers read and write.
- Journal.Lower: lower-cases ASCII letters only. The cargo names it is applied to are ASCII.
- Activities.Activity.CbReceived: does not model the TypeError (or KeyError) of the source on a size increase. It follows the intended ground-bond rule (see Findings).
- TargetLogs.TargetLog.InaraDataReceived: does not model the UnboundLocalError of the source on a failed lookup. It follows the intended behaviour (see Findings).

## Findings

| source | as written | input that shows it | evidently intended | confidence | as-written member | corrected member |
|---|---|---|---|---|---|---|
| bgstally/activity.py:613-643 | the new size's ground conflict-zone tally is written back as a string (`str(int(...) + 1)`), and the previous size's tally is then decremented as an integer (`-= 1`), which raises TypeError, or KeyError when another faction awarded the approach's earlier bond and this faction holds no tally of the previous size; either way the writes before the decrement stand | a Low bond (reward 1000) counted at a settlement, then a High bond (reward 40000) within five minutes | the credit moves from the previous size to the new one, so each approach counts once at its largest size | not executed | CombatRules.GroundBondAsWritten, CombatRules.EscalationRaisesAsWritten | CombatRules.GroundBond, CombatRules.ApproachCreditsOnce |
| bgstally/targetlog.py:165-184 | `cmdr_data` is bound only inside `if success:`, but it is used after the branch, so a failed lookup raises UnboundLocalError and the sighting is neither cached nor logged; the request manager calls the handler from inside its `except` clause (bgstally/requestmanager.py:83-85), so the error also ends its worker thread | `inara_data_received(False, ...)` for any queued sighting | as the handler's own comment says, the commander is cached and logged in all cases, with in-game data only | not executed | TargetLogs.InaraReceivedAsWritten, TargetLogs.InaraFailureLost | TargetLogs.TargetLog.InaraDataReceived, TargetLogs.Enriched |
