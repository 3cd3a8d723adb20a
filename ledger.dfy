/** The records of the per-tick activity ledger (bgstally/activity.py): a system
    entry per star system, holding a faction entry per faction.  The source keeps
    them as nested dictionaries; here each record is a datatype, each fixed set
    of keys ('l'/'m'/'h', the six Thargoid classes, the four search-and-rescue
    cargo kinds, the four market brackets) is a record with one field per key. */
module Ledger {

  datatype Option<+T> = None | Some(value: T) {
    function GetOr(default: T): T {
      if Some? then value else default
    }
  }

  /** A user-toggleable check state; every new entry starts switched on. */
  datatype CheckState = On | Off

  /** A market supply or demand bracket, as reported by the market data. */
  type Bracket = b: int | 0 <= b < 4

  /** Four values indexed by market bracket (the source's four-element lists). */
  datatype Ladder<T> = Ladder(b0: T, b1: T, b2: T, b3: T) {
    function At(i: Bracket): T {
      if i == 0 then b0 else if i == 1 then b1 else if i == 2 then b2 else b3
    }

    function With(i: Bracket, v: T): (r: Ladder<T>)
      ensures r.At(i) == v
      ensures forall j: Bracket | j != i :: r.At(j) == At(j)
    {
      if i == 0 then this.(b0 := v)
      else if i == 1 then this.(b1 := v)
      else if i == 2 then this.(b2 := v)
      else this.(b3 := v)
    }
  }

  /** Conflict-zone size and evacuation severity: the keys 'l', 'm' and 'h'. */
  datatype Level = Low | Med | High {
    function Rank(): nat {
      match this
      case Low => 0
      case Med => 1
      case High => 2
    }
  }

  /** One value per level. */
  datatype LevelTally<T> = LevelTally(l: T, m: T, h: T) {
    function At(x: Level): T {
      match x
      case Low => l
      case Med => m
      case High => h
    }

    function With(x: Level, v: T): (r: LevelTally<T>)
      ensures r.At(x) == v
      ensures forall y: Level | y != x :: r.At(y) == At(y)
    {
      match x
      case Low => this.(l := v)
      case Med => this.(m := v)
      case High => this.(h := v)
    }
  }

  /** The Thargoid ship classes: the keys 's', 'c', 'b', 'm', 'h' and 'o'. */
  datatype TwClass = Scout | Cyclops | Basilisk | Medusa | Hydra | Orthrus

  /** One value per Thargoid ship class. */
  datatype ClassTally<T> = ClassTally(s: T, c: T, b: T, m: T, h: T, o: T) {
    function At(x: TwClass): T {
      match x
      case Scout => s
      case Cyclops => c
      case Basilisk => b
      case Medusa => m
      case Hydra => h
      case Orthrus => o
    }

    function With(x: TwClass, v: T): (r: ClassTally<T>)
      ensures r.At(x) == v
      ensures forall y: TwClass | y != x :: r.At(y) == At(y)
    {
      match x
      case Scout => this.(s := v)
      case Cyclops => this.(c := v)
      case Basilisk => this.(b := v)
      case Medusa => this.(m := v)
      case Hydra => this.(h := v)
      case Orthrus => this.(o := v)
    }
  }

  function LevelTotal(t: LevelTally<int>): int {
    t.l + t.m + t.h
  }

  function KillTotal(k: ClassTally<int>): int {
    k.s + k.c + k.b + k.m + k.h + k.o
  }

  /** A mission count together with the sum of the missions' target quantities. */
  datatype CountSum = CountSum(count: int, sum: int)

  /** Thargoid-war missions completed for one station. */
  datatype TwStation = TwStation(
    name: string,
    enabled: CheckState,
    passengers: LevelTally<CountSum>,
    escapePods: LevelTally<CountSum>,
    cargo: CountSum,
    massacre: ClassTally<CountSum>)

  /** A ground conflict-zone settlement: how often it was fought at and its inferred size. */
  datatype Settlement = Settlement(count: int, enabled: CheckState, size: Level)

  datatype TradeBuy = TradeBuy(items: int, value: int)
  datatype TradeSell = TradeSell(items: int, value: int, profit: int)

  /** The counters kept for one faction in one system.  `bounties` is a real
      because redemptions at a fleet carrier are halved with true division.
      `groundCz` holds integers: the source writes these tallies back as
      strings (activity.py lines 617, 626, 637) but decrements them as integers
      (lines 628, 639); see the findings in README.md. */
  datatype Faction = Faction(
    name: string,
    state: string,
    enabled: CheckState,
    missionPoints: int,
    missionPointsSecondary: int,
    tradeProfit: int,
    tradePurchase: int,
    blackMarketProfit: int,
    bounties: real,
    cartData: int,
    exoData: int,
    tradeBuy: Ladder<TradeBuy>,
    tradeSell: Ladder<TradeSell>,
    combatBonds: int,
    missionFailed: int,
    murdered: int,
    groundMurdered: int,
    spaceCz: LevelTally<int>,
    groundCz: LevelTally<int>,
    groundCzSettlements: map<string, Settlement>,
    scenarios: int,
    twStations: map<string, TwStation>)

  /** The four search-and-rescue cargo kinds: 'dp', 'op', 'bb' and 't'. */
  datatype SandRKey = EscapePod | OccupiedPod | BlackBox | Tissue

  datatype SandRPair = SandRPair(scooped: int, delivered: int)

  datatype SandR = SandR(dp: SandRPair, op: SandRPair, bb: SandRPair, t: SandRPair) {
    function At(k: SandRKey): SandRPair {
      match k
      case EscapePod => dp
      case OccupiedPod => op
      case BlackBox => bb
      case Tissue => t
    }

    function With(k: SandRKey, v: SandRPair): (r: SandR)
      ensures r.At(k) == v
      ensures forall j: SandRKey | j != k :: r.At(j) == At(j)
    {
      match k
      case EscapePod => this.(dp := v)
      case OccupiedPod => this.(op := v)
      case BlackBox => this.(bb := v)
      case Tissue => this.(t := v)
    }
  }

  function ScoopedTotal(r: SandR): int {
    r.dp.scooped + r.op.scooped + r.bb.scooped + r.t.scooped
  }

  function DeliveredTotal(r: SandR): int {
    r.dp.delivered + r.op.delivered + r.bb.delivered + r.t.delivered
  }

  /** The record kept for one system; `address` duplicates the map key. */
  datatype SystemEntry = SystemEntry(
    name: string,
    address: string,
    zeroActivity: bool,
    factions: map<string, Faction>,
    twKills: ClassTally<int>,
    twSandR: SandR)

  type Systems = map<string, SystemEntry>

  /** `o` lists the keys `keys`, each exactly once: its head is one of them
      and its tail lists the rest. */
  predicate Lists(o: seq<string>, keys: set<string>)
    decreases |o|
  {
    if o == [] then keys == {} else o[0] in keys && Lists(o[1..], keys - {o[0]})
  }

  /** `o` is the order in which the dictionary `m` iterates its keys. */
  predicate KeyOrder<V>(o: seq<string>, m: map<string, V>) {
    Lists(o, m.Keys)
  }

  /** What listing the keys means: every key is listed, nothing else is, and
      no key twice. */
  lemma {:induction false} ListsFacts(o: seq<string>, keys: set<string>)
    requires Lists(o, keys)
    ensures forall k | k in keys :: k in o
    ensures forall i | 0 <= i < |o| :: o[i] in keys
    ensures forall i, j | 0 <= i < j < |o| :: o[i] != o[j]
    decreases |o|
  {
    if o != [] {
      var rest := o[1..];
      ListsFacts(rest, keys - {o[0]});
      forall k | k in keys ensures k in o {
        if k != o[0] { assert k in rest; }
      }
      forall i | 0 <= i < |o| ensures o[i] in keys {
        if i > 0 { assert o[i] == rest[i - 1]; }
      }
      forall i, j | 0 <= i < j < |o| ensures o[i] != o[j] {
        assert o[j] == rest[j - 1];
        if i > 0 { assert o[i] == rest[i - 1]; }
      }
    }
  }

  /** The iteration order of `m` lists every key of `m` and nothing else. */
  lemma KeyOrderFacts<V>(o: seq<string>, m: map<string, V>)
    requires KeyOrder(o, m)
    ensures forall k | k in m :: k in o
    ensures forall i | 0 <= i < |o| :: o[i] in m
  {
    ListsFacts(o, m.Keys);
  }

  /** The iteration order of `m` lists no key twice. */
  lemma KeyOrderDistinct<V>(o: seq<string>, m: map<string, V>)
    requires KeyOrder(o, m)
    ensures forall i, j | 0 <= i < j < |o| :: o[i] != o[j]
  {
    ListsFacts(o, m.Keys);
  }

  /** Listing one more key at the end. */
  lemma {:induction false} ListsAppend(o: seq<string>, keys: set<string>, k: string)
    requires Lists(o, keys) && k !in keys
    ensures Lists(o + [k], keys + {k})
    decreases |o|
  {
    if o == [] {
      assert [k][1..] == [];
      assert (keys + {k}) - {k} == {};
    } else {
      ListsAppend(o[1..], keys - {o[0]}, k);
      assert (o + [k])[1..] == o[1..] + [k];
      assert (keys + {k}) - {o[0]} == (keys - {o[0]}) + {k};
    }
  }

  //
  // Fresh data (_get_new_*_data)
  //

  const ZeroCount := CountSum(0, 0)

  function NewTwStation(name: string): (st: TwStation)
    ensures st.name == name && st.enabled == On
    ensures StationCount(st) == 0 && StationSum(st) == 0
  {
    TwStation(name, On,
      LevelTally(ZeroCount, ZeroCount, ZeroCount),
      LevelTally(ZeroCount, ZeroCount, ZeroCount),
      ZeroCount,
      ClassTally(ZeroCount, ZeroCount, ZeroCount, ZeroCount, ZeroCount, ZeroCount))
  }

  function NewTwKills(): (k: ClassTally<int>)
    ensures forall x: TwClass :: k.At(x) == 0
  {
    ClassTally(0, 0, 0, 0, 0, 0)
  }

  function NewSandR(): (r: SandR)
    ensures forall k: SandRKey :: r.At(k) == SandRPair(0, 0)
  {
    SandR(SandRPair(0, 0), SandRPair(0, 0), SandRPair(0, 0), SandRPair(0, 0))
  }

  function NewFaction(name: string, state: string): (f: Faction)
    ensures f.name == name && f.state == state && f.enabled == On
    ensures IsFactionZero(f)
  {
    Faction(name, state, On, 0, 0, 0, 0, 0, 0.0, 0, 0,
      Ladder(TradeBuy(0, 0), TradeBuy(0, 0), TradeBuy(0, 0), TradeBuy(0, 0)),
      Ladder(TradeSell(0, 0, 0), TradeSell(0, 0, 0), TradeSell(0, 0, 0), TradeSell(0, 0, 0)),
      0, 0, 0, 0, LevelTally(0, 0, 0), LevelTally(0, 0, 0), map[], 0, map[])
  }

  /** `g` holds every counter, the name and the check state of `f`: at most the state differs. */
  predicate SameButState(f: Faction, g: Faction) {
    && g.name == f.name && g.enabled == f.enabled
    && g.missionPoints == f.missionPoints && g.missionPointsSecondary == f.missionPointsSecondary
    && g.tradeProfit == f.tradeProfit && g.tradePurchase == f.tradePurchase
    && g.blackMarketProfit == f.blackMarketProfit && g.bounties == f.bounties
    && g.cartData == f.cartData && g.exoData == f.exoData
    && g.tradeBuy == f.tradeBuy && g.tradeSell == f.tradeSell
    && g.combatBonds == f.combatBonds && g.missionFailed == f.missionFailed
    && g.murdered == f.murdered && g.groundMurdered == f.groundMurdered
    && g.spaceCz == f.spaceCz && g.groundCz == f.groundCz
    && g.groundCzSettlements == f.groundCzSettlements
    && g.scenarios == f.scenarios && g.twStations == f.twStations
  }

  function NewSystem(name: string, address: string, factions: map<string, Faction>): (s: SystemEntry)
    ensures s.name == name && s.address == address && s.factions == factions && s.zeroActivity
    ensures KillTotal(s.twKills) == 0 && ScoopedTotal(s.twSandR) == 0 && DeliveredTotal(s.twSandR) == 0
  {
    SystemEntry(name, address, true, factions, NewTwKills(), NewSandR())
  }

  //
  // Totals used by the zero-activity test and by the Thargoid-war station rules
  //

  function CountsOf(t: LevelTally<CountSum>): int {
    t.l.count + t.m.count + t.h.count
  }

  function SumsOf(t: LevelTally<CountSum>): int {
    t.l.sum + t.m.sum + t.h.sum
  }

  function ClassCounts(t: ClassTally<CountSum>): int {
    t.s.count + t.c.count + t.b.count + t.m.count + t.h.count + t.o.count
  }

  function ClassSums(t: ClassTally<CountSum>): int {
    t.s.sum + t.c.sum + t.b.sum + t.m.sum + t.h.sum + t.o.sum
  }

  /** Missions counted at a station, over every sub-tally. */
  function StationCount(st: TwStation): int {
    CountsOf(st.passengers) + CountsOf(st.escapePods) + st.cargo.count + ClassCounts(st.massacre)
  }

  /** Target quantities summed at a station, over every sub-tally. */
  function StationSum(st: TwStation): int {
    SumsOf(st.passengers) + SumsOf(st.escapePods) + st.cargo.sum + ClassSums(st.massacre)
  }

  function BuyValueTotal(l: Ladder<TradeBuy>): int {
    l.b0.value + l.b1.value + l.b2.value + l.b3.value
  }

  function SellValueTotal(l: Ladder<TradeSell>): int {
    l.b0.value + l.b1.value + l.b2.value + l.b3.value
  }

  /** Python's int() on a float: truncation toward zero. */
  function Truncate(r: real): int {
    if r >= 0.0 then r.Floor else -((-r).Floor)
  }

  /** The zero test's `int(faction['Bounties']) == 0`, without the truncation:
      it holds exactly for the amounts strictly between -1 and 1. */
  lemma TruncateZero(r: real)
    ensures Truncate(r) == 0 <==> -1.0 < r < 1.0
  {
  }

  /** Storing under a key keeps the order; a new key goes last, as in a dictionary. */
  lemma KeyOrderPut<V>(o: seq<string>, m: map<string, V>, k: string, v: V)
    requires KeyOrder(o, m)
    ensures k in m ==> KeyOrder(o, m[k := v])
    ensures k !in m ==> KeyOrder(o + [k], m[k := v])
  {
    if k in m {
      assert m[k := v].Keys == m.Keys;
    } else {
      ListsAppend(o, m.Keys, k);
      assert m[k := v].Keys == m.Keys + {k};
    }
  }

  //
  // Zero-activity test (_is_faction_data_zero and recalculate_zero_activity)
  //

  /** Every counter the zero test reads is zero and every breakdown is empty.
      Buy and sell ladders are tested by the sum of their values, as the
      source does; a missing 'l'/'m'/'h' key reads as zero.  The bounties are
      tested through TruncateZero's form of `int(...) == 0`. */
  predicate IsFactionZero(f: Faction) {
    && f.missionPoints == 0 && f.missionPointsSecondary == 0
    && f.tradeProfit == 0 && f.tradePurchase == 0 && f.blackMarketProfit == 0
    && BuyValueTotal(f.tradeBuy) == 0 && SellValueTotal(f.tradeSell) == 0
    && -1.0 < f.bounties < 1.0 && f.cartData == 0 && f.exoData == 0
    && f.combatBonds == 0 && f.missionFailed == 0 && f.murdered == 0 && f.groundMurdered == 0
    && f.spaceCz == LevelTally(0, 0, 0) && f.groundCz == LevelTally(0, 0, 0)
    && f.groundCzSettlements == map[] && f.scenarios == 0 && f.twStations == map[]
  }

  /** The system flag: all factions zero, and neither the kill total nor the
      delivered total is positive (the source tests `sum(...) > 0`). */
  predicate IsSystemZero(s: SystemEntry) {
    && (forall n :: n in s.factions ==> IsFactionZero(s.factions[n]))
    && !(KillTotal(s.twKills) > 0)
    && !(DeliveredTotal(s.twSandR) > 0)
  }

  /** The system with its flag recomputed. */
  function WithFlag(s: SystemEntry): SystemEntry {
    s.(zeroActivity := IsSystemZero(s))
  }

  /** The effect of recalculate_zero_activity on typed records: every system's
      flag is recomputed, nothing else changes. */
  function RecalcFlags(m: Systems): (r: Systems)
    ensures r.Keys == m.Keys
  {
    map k | k in m :: WithFlag(m[k])
  }

  /** recalculate_zero_activity's loop: the systems visited in dictionary
      order, each one's flag recomputed in turn. */
  method RecalculateAll(o: seq<string>, m: Systems) returns (r: Systems)
    requires KeyOrder(o, m)
    ensures r == RecalcFlags(m)
  {
    KeyOrderFacts(o, m);
    KeyOrderDistinct(o, m);
    r := m;
    var i := 0;
    while i < |o|
      invariant 0 <= i <= |o|
      invariant r.Keys == m.Keys
      invariant forall j | 0 <= j < i :: r[o[j]] == WithFlag(m[o[j]])
      invariant forall j | i <= j < |o| :: r[o[j]] == m[o[j]]
    {
      var k := o[i];
      r := r[k := WithFlag(r[k])];
      i := i + 1;
    }
    RecalcVisited(o, m, r);
  }

  /** Every key visited with its flag recomputed is the whole recalculation. */
  lemma RecalcVisited(o: seq<string>, m: Systems, r: Systems)
    requires KeyOrder(o, m) && r.Keys == m.Keys
    requires forall j | 0 <= j < |o| :: o[j] in m && r[o[j]] == WithFlag(m[o[j]])
    ensures r == RecalcFlags(m)
  {
    KeyOrderFacts(o, m);
    forall k | k in r
      ensures r[k] == RecalcFlags(m)[k]
    {
      var j :| 0 <= j < |o| && o[j] == k;
    }
  }

  /** The recalculation only reads what it does not write: running it twice
      gives what running it once gives. */
  lemma RecalcIdempotent(m: Systems)
    ensures RecalcFlags(RecalcFlags(m)) == RecalcFlags(m)
  {
    var once := RecalcFlags(m);
    forall k | k in once
      ensures RecalcFlags(once)[k] == once[k]
    {
      assert once[k] == m[k].(zeroActivity := once[k].zeroActivity);
      assert IsSystemZero(once[k]) == IsSystemZero(m[k]);
    }
  }

  //
  // Single counters (the `faction['X'] += n` of the handlers)
  //

  /** The integer counters a handler adds to one at a time. */
  datatype Counter = CartData | ExoData | CombatBonds | MissionFailed | Murdered | GroundMurdered

  function Count(f: Faction, c: Counter): int {
    match c
    case CartData => f.cartData
    case ExoData => f.exoData
    case CombatBonds => f.combatBonds
    case MissionFailed => f.missionFailed
    case Murdered => f.murdered
    case GroundMurdered => f.groundMurdered
  }

  /** `v` added to counter `c` of `f`. */
  function Credit(f: Faction, c: Counter, v: int): (g: Faction)
    ensures Count(g, c) == Count(f, c) + v
    ensures forall d | d != c :: Count(g, d) == Count(f, d)
    ensures g == f.(cartData := g.cartData, exoData := g.exoData, combatBonds := g.combatBonds,
                    missionFailed := g.missionFailed, murdered := g.murdered, groundMurdered := g.groundMurdered)
  {
    match c
    case CartData => f.(cartData := f.cartData + v)
    case ExoData => f.(exoData := f.exoData + v)
    case CombatBonds => f.(combatBonds := f.combatBonds + v)
    case MissionFailed => f.(missionFailed := f.missionFailed + v)
    case Murdered => f.(murdered := f.murdered + v)
    case GroundMurdered => f.(groundMurdered := f.groundMurdered + v)
  }

  /** Taking the amount back restores the faction. */
  lemma CreditUndo(f: Faction, c: Counter, v: int)
    ensures Credit(Credit(f, c, v), c, -v) == f
  {
    match c
    case CartData =>
    case ExoData =>
    case CombatBonds =>
    case MissionFailed =>
    case Murdered =>
    case GroundMurdered =>
  }

  /** Two credits to the same counter add up. */
  lemma CreditAdds(f: Faction, c: Counter, a: int, b: int)
    ensures Credit(Credit(f, c, a), c, b) == Credit(f, c, a + b)
  {
  }

  /** A positive amount on a counter that was not negative takes the faction
      out of the zero-activity test. */
  lemma CreditNotZero(f: Faction, c: Counter, v: int)
    requires Count(f, c) >= 0 && v > 0
    ensures !IsFactionZero(Credit(f, c, v))
  {
  }

  /** The entry of faction `n` in system `k`, when both are tracked
      (`systems.get(...)` followed by `['Factions'].get(...)`). */
  function FactionAt(m: Systems, k: Option<string>, n: Option<string>): Option<Faction> {
    if k.Some? && k.value in m && n.Some? && n.value in m[k.value].factions then Some(m[k.value].factions[n.value])
    else None
  }

  /** System `k` with faction `n` replaced by `g`; every other system as it was. */
  function UpdateFaction(m: Systems, k: string, n: string, g: Faction): (r: Systems)
    requires k in m
    ensures r.Keys == m.Keys
  {
    m[k := m[k].(factions := m[k].factions[n := g])]
  }

  /** Counter `c` of faction `n` in system `k` credited with `v`; nothing
      happens unless both are tracked. */
  function CreditAt(m: Systems, k: Option<string>, n: Option<string>, c: Counter, v: int): (r: Systems)
    ensures r.Keys == m.Keys
  {
    var f := FactionAt(m, k, n);
    if f.Some? then UpdateFaction(m, k.value, n.value, Credit(f.value, c, v)) else m
  }

  /** A credit changes the one counter of the one faction and nothing else:
      no other system, no other faction, no other field of the system. */
  lemma CreditAtOnly(m: Systems, k: Option<string>, n: Option<string>, c: Counter, v: int)
    ensures FactionAt(m, k, n).None? ==> CreditAt(m, k, n, c, v) == m
    ensures FactionAt(m, k, n).Some? ==>
              && FactionAt(CreditAt(m, k, n, c, v), k, n) == Some(Credit(FactionAt(m, k, n).value, c, v))
              && (forall j | j in m && j != k.value :: CreditAt(m, k, n, c, v)[j] == m[j])
              && CreditAt(m, k, n, c, v)[k.value].factions.Keys == m[k.value].factions.Keys
              && (forall g | g in m[k.value].factions && g != n.value ::
                    CreditAt(m, k, n, c, v)[k.value].factions[g] == m[k.value].factions[g])
              && CreditAt(m, k, n, c, v)[k.value].(factions := m[k.value].factions) == m[k.value]
  {
  }

  /** Two credits to the same counter of the same faction add up. */
  lemma CreditAtAdds(m: Systems, k: Option<string>, n: Option<string>, c: Counter, a: int, b: int)
    ensures CreditAt(CreditAt(m, k, n, c, a), k, n, c, b) == CreditAt(m, k, n, c, a + b)
  {
    var f := FactionAt(m, k, n);
    if f.Some? {
      CreditAdds(f.value, c, a, b);
      var m1 := CreditAt(m, k, n, c, a);
      var fs := m[k.value].factions;
      assert m1[k.value].factions == fs[n.value := Credit(f.value, c, a)];
      assert fs[n.value := Credit(f.value, c, a)][n.value := Credit(f.value, c, a + b)] == fs[n.value := Credit(f.value, c, a + b)];
    }
  }

  /** Crediting nothing changes nothing. */
  lemma CreditAtZero(m: Systems, k: Option<string>, n: Option<string>, c: Counter)
    ensures CreditAt(m, k, n, c, 0) == m
  {
    var f := FactionAt(m, k, n);
    if f.Some? {
      CreditUndo(f.value, c, 0);
      assert m[k.value].factions[n.value := f.value] == m[k.value].factions;
    }
  }

  /** A dictionary with the same keys has the same iteration order. */
  lemma KeyOrderSameKeys<V, W>(o: seq<string>, m: map<string, V>, m': map<string, W>)
    requires KeyOrder(o, m) && m'.Keys == m.Keys
    ensures KeyOrder(o, m')
  {
  }

  //
  // Schema migration (_update_system_data, _update_faction_data)
  //

  /** A faction record as persisted by any plugin version: the fields that
      later versions introduced may be missing. */
  datatype StoredFaction = StoredFaction(
    name: string,
    state: string,
    enabled: Option<CheckState>,
    missionPoints: int,
    missionPointsSecondary: Option<int>,
    tradeProfit: int,
    tradePurchase: Option<int>,
    blackMarketProfit: Option<int>,
    bounties: real,
    cartData: int,
    exoData: Option<int>,
    tradeBuy: Option<Ladder<TradeBuy>>,
    tradeSell: Option<Ladder<TradeSell>>,
    combatBonds: int,
    missionFailed: int,
    murdered: int,
    groundMurdered: Option<int>,
    spaceCz: Option<LevelTally<int>>,
    groundCz: Option<LevelTally<int>>,
    groundCzSettlements: Option<map<string, Settlement>>,
    scenarios: Option<int>,
    twStations: Option<map<string, TwStation>>)

  /** A system record as persisted; 'TWKills' and 'TWSandR' arrived in 3.1.0. */
  datatype StoredSystem = StoredSystem(
    name: string,
    address: string,
    zeroActivity: bool,
    factions: map<string, StoredFaction>,
    twKills: Option<ClassTally<int>>,
    twSandR: Option<SandR>)

  /** Every field a later version introduced is present. */
  predicate Complete(sf: StoredFaction) {
    && sf.enabled.Some? && sf.missionPointsSecondary.Some? && sf.tradePurchase.Some?
    && sf.blackMarketProfit.Some? && sf.exoData.Some? && sf.tradeBuy.Some? && sf.tradeSell.Some?
    && sf.groundMurdered.Some? && sf.spaceCz.Some? && sf.groundCz.Some?
    && sf.groundCzSettlements.Some? && sf.scenarios.Some? && sf.twStations.Some?
  }

  /** `b` keeps every field `a` has, with the same value. */
  predicate KeepsPresent(a: StoredFaction, b: StoredFaction) {
    && a.name == b.name && a.state == b.state && a.missionPoints == b.missionPoints
    && a.tradeProfit == b.tradeProfit && a.bounties == b.bounties && a.cartData == b.cartData
    && a.combatBonds == b.combatBonds && a.missionFailed == b.missionFailed && a.murdered == b.murdered
    && (a.enabled.Some? ==> b.enabled == a.enabled)
    && (a.missionPointsSecondary.Some? ==> b.missionPointsSecondary == a.missionPointsSecondary)
    && (a.tradePurchase.Some? ==> b.tradePurchase == a.tradePurchase)
    && (a.blackMarketProfit.Some? ==> b.blackMarketProfit == a.blackMarketProfit)
    && (a.exoData.Some? ==> b.exoData == a.exoData)
    && (a.tradeBuy.Some? ==> b.tradeBuy == a.tradeBuy)
    && (a.tradeSell.Some? ==> b.tradeSell == a.tradeSell)
    && (a.groundMurdered.Some? ==> b.groundMurdered == a.groundMurdered)
    && (a.spaceCz.Some? ==> b.spaceCz == a.spaceCz)
    && (a.groundCz.Some? ==> b.groundCz == a.groundCz)
    && (a.groundCzSettlements.Some? ==> b.groundCzSettlements == a.groundCzSettlements)
    && (a.scenarios.Some? ==> b.scenarios == a.scenarios)
    && (a.twStations.Some? ==> b.twStations == a.twStations)
  }

  /** Every field missing from `sf` holds in `f` what a fresh faction holds. */
  predicate MissingAreFresh(sf: StoredFaction, f: Faction) {
    var z := NewFaction(sf.name, sf.state);
    && (sf.enabled.None? ==> f.enabled == z.enabled)
    && (sf.missionPointsSecondary.None? ==> f.missionPointsSecondary == z.missionPointsSecondary)
    && (sf.tradePurchase.None? ==> f.tradePurchase == z.tradePurchase)
    && (sf.blackMarketProfit.None? ==> f.blackMarketProfit == z.blackMarketProfit)
    && (sf.exoData.None? ==> f.exoData == z.exoData)
    && (sf.tradeBuy.None? ==> f.tradeBuy == z.tradeBuy)
    && (sf.tradeSell.None? ==> f.tradeSell == z.tradeSell)
    && (sf.groundMurdered.None? ==> f.groundMurdered == z.groundMurdered)
    && (sf.spaceCz.None? ==> f.spaceCz == z.spaceCz)
    && (sf.groundCz.None? ==> f.groundCz == z.groundCz)
    && (sf.groundCzSettlements.None? ==> f.groundCzSettlements == z.groundCzSettlements)
    && (sf.scenarios.None? ==> f.scenarios == z.scenarios)
    && (sf.twStations.None? ==> f.twStations == z.twStations)
  }

  /** The faction as the ledger stores it, every field present. */
  function Store(f: Faction): (sf: StoredFaction)
    ensures Complete(sf)
  {
    StoredFaction(f.name, f.state, Some(f.enabled), f.missionPoints, Some(f.missionPointsSecondary),
      f.tradeProfit, Some(f.tradePurchase), Some(f.blackMarketProfit), f.bounties, f.cartData,
      Some(f.exoData), Some(f.tradeBuy), Some(f.tradeSell), f.combatBonds, f.missionFailed,
      f.murdered, Some(f.groundMurdered), Some(f.spaceCz), Some(f.groundCz),
      Some(f.groundCzSettlements), Some(f.scenarios), Some(f.twStations))
  }

  /** _update_faction_data without a state: adds the missing fields, changes nothing present. */
  function MigrateFaction(sf: StoredFaction): (f: Faction)
    ensures KeepsPresent(sf, Store(f))
    ensures MissingAreFresh(sf, f)
  {
    var z := NewFaction(sf.name, sf.state);
    Faction(sf.name, sf.state, sf.enabled.GetOr(z.enabled), sf.missionPoints,
      sf.missionPointsSecondary.GetOr(z.missionPointsSecondary), sf.tradeProfit,
      sf.tradePurchase.GetOr(z.tradePurchase), sf.blackMarketProfit.GetOr(z.blackMarketProfit),
      sf.bounties, sf.cartData, sf.exoData.GetOr(z.exoData), sf.tradeBuy.GetOr(z.tradeBuy),
      sf.tradeSell.GetOr(z.tradeSell), sf.combatBonds, sf.missionFailed, sf.murdered,
      sf.groundMurdered.GetOr(z.groundMurdered), sf.spaceCz.GetOr(z.spaceCz),
      sf.groundCz.GetOr(z.groundCz), sf.groundCzSettlements.GetOr(z.groundCzSettlements),
      sf.scenarios.GetOr(z.scenarios), sf.twStations.GetOr(z.twStations))
  }

  /** Migrating a complete record gives it back: migration is idempotent. */
  lemma MigrateStoredFaction(f: Faction)
    ensures MigrateFaction(Store(f)) == f
  {
  }

  function StoreSystem(s: SystemEntry): StoredSystem {
    StoredSystem(s.name, s.address, s.zeroActivity, map n | n in s.factions :: Store(s.factions[n]),
      Some(s.twKills), Some(s.twSandR))
  }

  /** _update_system_data and _update_faction_data over one system. */
  function MigrateSystem(ss: StoredSystem): (s: SystemEntry)
    ensures s.factions.Keys == ss.factions.Keys
    ensures forall n :: n in s.factions ==> KeepsPresent(ss.factions[n], Store(s.factions[n]))
    ensures ss.twKills.Some? ==> s.twKills == ss.twKills.value
    ensures ss.twKills.None? ==> s.twKills == NewTwKills()
    ensures ss.twSandR.Some? ==> s.twSandR == ss.twSandR.value
    ensures ss.twSandR.None? ==> s.twSandR == NewSandR()
  {
    SystemEntry(ss.name, ss.address, ss.zeroActivity,
      map n | n in ss.factions :: MigrateFaction(ss.factions[n]),
      ss.twKills.GetOr(NewTwKills()), ss.twSandR.GetOr(NewSandR()))
  }

  /** Storing a system then migrating it gives the same system back. */
  lemma MigrateStoredSystem(s: SystemEntry)
    ensures MigrateSystem(StoreSystem(s)) == s
  {
    var back := MigrateSystem(StoreSystem(s));
    forall n | n in s.factions
      ensures back.factions[n] == s.factions[n]
    {
      MigrateStoredFaction(s.factions[n]);
    }
  }
}
