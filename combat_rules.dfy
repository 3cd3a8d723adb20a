/** The combat rules of crime_committed and cb_received (bgstally/activity.py
    lines 519-643): whose murder a crime is, which Thargoid class a bond pays
    for, and the ground conflict-zone size inferred from the bonds earned at a
    settlement. */
module CombatRules {
  import opened Ledger
  import opened Journal
  import opened Session

  //
  // Crimes
  //

  /** The faction a ship murder counts against: the faction of the ship last
      targeted, provided the victim is that ship's pilot.  A missing victim and
      a missing target compare equal, but then there is no faction. */
  function MurderedFaction(victim: Option<string>, last: Option<ShipTarget>): (r: Option<string>)
    ensures r.Some? <==> last.Some? && victim == Some(last.value.pilotName)
    ensures r.Some? ==> r.value == last.value.faction
  {
    var pilot := if last.Some? then Some(last.value.pilotName) else None;
    if victim != pilot then None
    else if last.Some? then Some(last.value.faction)
    else None
  }

  //
  // Thargoid kills
  //

  /** A Thargoid bond counts one kill of the class its reward identifies;
      an unknown reward counts nothing. */
  function TwKill(kills: ClassTally<int>, reward: int): (r: ClassTally<int>)
    ensures TwBondClass(reward).None? ==> r == kills
    ensures TwBondClass(reward).Some? ==>
              r.At(TwBondClass(reward).value) == kills.At(TwBondClass(reward).value) + 1
              && forall x: TwClass | x != TwBondClass(reward).value :: r.At(x) == kills.At(x)
    ensures KillTotal(r) == KillTotal(kills) + (if TwBondClass(reward).Some? then 1 else 0)
  {
    match TwBondClass(reward)
    case Some(c) => kills.With(c, kills.At(c) + 1)
    case None => kills
  }

  //
  // Ground conflict zones
  //

  /** Seconds after the last settlement approach (or last counted bond) within
      which a bond is taken to be earned at that settlement. */
  const BondWindow := 300

  /** The bond still belongs to the settlement approached: at most five minutes later. */
  predicate InWindow(ctx: SettlementContext, timestamp: int) {
    timestamp - ctx.timestamp <= BondWindow
  }

  /** The conflict-zone size a single bond's reward indicates. */
  function ClassifyReward(reward: int): (l: Level)
    ensures l == Low <==> reward < GroundLowCbMax
    ensures l == High <==> GroundMedCbMax <= reward
  {
    if reward < GroundLowCbMax then Low
    else if reward < GroundMedCbMax then Med
    else High
  }

  function MaxLevel(a: Level, b: Level): (r: Level)
    ensures r.Rank() >= a.Rank() && r.Rank() >= b.Rank()
    ensures r == a || r == b
  {
    if a.Rank() >= b.Rank() then a else b
  }

  /** The size recorded after a bond: the larger of the size so far and the
      bond's own. */
  function Widen(size: Option<Level>, cls: Level): Level {
    if size.None? then cls else MaxLevel(size.value, cls)
  }

  /** The bond raises the recorded size (a first bond always does). */
  predicate Escalates(size: Option<Level>, cls: Level) {
    size.None? || size.value.Rank() < cls.Rank()
  }

  /** The settlement entry a bond updates: the existing one, else a fresh one. */
  function SettlementOf(f: Faction, name: string): Settlement {
    if name in f.groundCzSettlements then f.groundCzSettlements[name] else Settlement(0, On, Low)
  }

  /** One ground combat bond within the window, as the conflict-zone code
      means it: the settlement is recorded, its count rises on the first bond
      of the approach, and when the bond raises the size the faction-wide
      tally of the new size gains one and that of the previous size (if any)
      loses one, so each approach is counted once, at its largest size. */
  function GroundBond(f: Faction, ctx: SettlementContext, reward: int): (r: (Faction, SettlementContext))
    ensures r.1 == ctx.(size := Some(Widen(ctx.size, ClassifyReward(reward))))
    ensures r.0 == f.(groundCz := r.0.groundCz, groundCzSettlements := r.0.groundCzSettlements)
    ensures r.0.groundCzSettlements.Keys == f.groundCzSettlements.Keys + {ctx.name}
    ensures forall n | n in f.groundCzSettlements && n != ctx.name :: r.0.groundCzSettlements[n] == f.groundCzSettlements[n]
    ensures r.0.groundCzSettlements[ctx.name].count == SettlementOf(f, ctx.name).count + (if ctx.size.None? then 1 else 0)
    ensures Escalates(ctx.size, ClassifyReward(reward)) ==> r.0.groundCzSettlements[ctx.name].size == ClassifyReward(reward)
    ensures forall l: Level :: r.0.groundCz.At(l) == f.groundCz.At(l)
              + (if Some(l) != ctx.size && l == Widen(ctx.size, ClassifyReward(reward)) then 1 else 0)
              - (if ctx.size == Some(l) && l != Widen(ctx.size, ClassifyReward(reward)) then 1 else 0)
    ensures LevelTotal(r.0.groundCz) == LevelTotal(f.groundCz) + (if ctx.size.None? then 1 else 0)
  {
    var base := SettlementOf(f, ctx.name);
    var counted := if ctx.size.None? then base.(count := base.count + 1) else base;
    var cls := ClassifyReward(reward);
    if Escalates(ctx.size, cls) then
      var raised := f.groundCz.With(cls, f.groundCz.At(cls) + 1);
      var cz := if ctx.size.Some? then raised.With(ctx.size.value, raised.At(ctx.size.value) - 1) else raised;
      (f.(groundCz := cz, groundCzSettlements := f.groundCzSettlements[ctx.name := counted.(size := cls)]),
       ctx.(size := Some(cls)))
    else
      (f.(groundCzSettlements := f.groundCzSettlements[ctx.name := counted]), ctx)
  }

  /** The bonds of one approach, in order, all within the window. */
  function Approach(f: Faction, ctx: SettlementContext, rewards: seq<int>): (Faction, SettlementContext)
    decreases |rewards|
  {
    if rewards == [] then (f, ctx)
    else
      var prev := Approach(f, ctx, rewards[..|rewards| - 1]);
      GroundBond(prev.0, prev.1, rewards[|rewards| - 1])
  }

  /** The largest size any of the rewards indicates. */
  function TopLevel(rewards: seq<int>): Level
    requires rewards != []
    decreases |rewards|
  {
    if |rewards| == 1 then ClassifyReward(rewards[0])
    else MaxLevel(TopLevel(rewards[..|rewards| - 1]), ClassifyReward(rewards[|rewards| - 1]))
  }

  /** However many bonds an approach earns, the faction is credited with one
      conflict zone, of the largest size seen, and the settlement's count
      rises by one. */
  lemma {:induction false} ApproachCreditsOnce(f: Faction, ctx: SettlementContext, rewards: seq<int>)
    requires ctx.size.None? && rewards != []
    ensures Approach(f, ctx, rewards).1 == ctx.(size := Some(TopLevel(rewards)))
    ensures forall l: Level :: Approach(f, ctx, rewards).0.groundCz.At(l)
              == f.groundCz.At(l) + (if l == TopLevel(rewards) then 1 else 0)
    ensures ctx.name in Approach(f, ctx, rewards).0.groundCzSettlements
    ensures Approach(f, ctx, rewards).0.groundCzSettlements[ctx.name].count == SettlementOf(f, ctx.name).count + 1
    ensures Approach(f, ctx, rewards).0.groundCzSettlements[ctx.name].size == TopLevel(rewards)
    decreases |rewards|
  {
    if |rewards| > 1 {
      var init := rewards[..|rewards| - 1];
      assert init != [];
      ApproachCreditsOnce(f, ctx, init);
      var prev := Approach(f, ctx, init);
      var cls := ClassifyReward(rewards[|rewards| - 1]);
      assert Approach(f, ctx, rewards) == GroundBond(prev.0, prev.1, rewards[|rewards| - 1]);
      assert TopLevel(rewards) == Widen(prev.1.size, cls);
      assert SettlementOf(prev.0, ctx.name) == prev.0.groundCzSettlements[ctx.name];
    } else {
      assert Approach(f, ctx, rewards) == GroundBond(f, ctx, rewards[0]) by {
        assert rewards[..0] == [];
      }
    }
  }

  /** A Low, a High and then a Low bond at one settlement: the settlement is
      recorded as High and the faction gains one High conflict zone only. */
  lemma LowHighLow(f: Faction, ctx: SettlementContext)
    requires ctx.size.None?
    ensures var r := Approach(f, ctx, [1000, 40000, 1000]);
            && r.1.size == Some(High)
            && ctx.name in r.0.groundCzSettlements && r.0.groundCzSettlements[ctx.name].size == High
            && r.0.groundCz == LevelTally(f.groundCz.l, f.groundCz.m, f.groundCz.h + 1)
  {
    var rewards := [1000, 40000, 1000];
    assert rewards[..2] == [1000, 40000] && rewards[..2][..1] == [1000];
    assert TopLevel(rewards) == High;
    ApproachCreditsOnce(f, ctx, rewards);
    var r := Approach(f, ctx, rewards);
    assert r.0.groundCz.At(Low) == f.groundCz.l && r.0.groundCz.At(Med) == f.groundCz.m;
    assert r.0.groundCz.At(High) == f.groundCz.h + 1;
  }

  /** What the source does on a bond, with the tallies it writes as strings:
      the new size's tally is written back as a string, so decrementing the
      previous size's tally raises a TypeError.  The handler stops there: the
      new size is counted, the previous one is not taken back, and neither the
      settlement's size nor the context's is updated.  When another faction
      awarded the approach's earlier bond and this faction holds no tally of
      that size, the same line raises KeyError instead, with the same outcome. */
  datatype BondOutcome = BondOutcome(faction: Faction, ctx: SettlementContext, raised: bool)

  function GroundBondAsWritten(f: Faction, ctx: SettlementContext, reward: int): (r: BondOutcome)
    ensures !r.raised ==> (r.faction, r.ctx) == GroundBond(f, ctx, reward)
    ensures r.raised <==> ctx.size.Some? && Escalates(ctx.size, ClassifyReward(reward))
  {
    var base := SettlementOf(f, ctx.name);
    var counted := if ctx.size.None? then base.(count := base.count + 1) else base;
    var cls := ClassifyReward(reward);
    if Escalates(ctx.size, cls) then
      var raised := f.groundCz.With(cls, f.groundCz.At(cls) + 1);
      if ctx.size.Some? then
        BondOutcome(f.(groundCz := raised, groundCzSettlements := f.groundCzSettlements[ctx.name := counted]), ctx, true)
      else
        BondOutcome(f.(groundCz := raised, groundCzSettlements := f.groundCzSettlements[ctx.name := counted.(size := cls)]),
                    ctx.(size := Some(cls)), false)
    else
      BondOutcome(f.(groundCzSettlements := f.groundCzSettlements[ctx.name := counted]), ctx, false)
  }

  /** The discrepancy on a concrete input: a Low bond was counted at a
      settlement, then a High one is earned.  As written the handler raises,
      the faction keeps its Low credit and gains a High one, and the context
      still says Low; the intended rule moves the credit from Low to High. */
  lemma EscalationRaisesAsWritten(f: Faction, ctx: SettlementContext)
    requires ctx.size == Some(Low)
    ensures var r := GroundBondAsWritten(f, ctx, 40000);
            && r.raised
            && r.ctx.size == Some(Low)
            && r.faction.groundCz == LevelTally(f.groundCz.l, f.groundCz.m, f.groundCz.h + 1)
    ensures var r := GroundBond(f, ctx, 40000);
            && r.1.size == Some(High)
            && r.0.groundCz == LevelTally(f.groundCz.l - 1, f.groundCz.m, f.groundCz.h + 1)
  {
    var r := GroundBond(f, ctx, 40000);
    assert r.0.groundCz.At(Low) == f.groundCz.l - 1 && r.0.groundCz.At(Med) == f.groundCz.m;
  }
}
