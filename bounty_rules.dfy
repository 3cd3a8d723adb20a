/** The bounty rules of bv_redeemed (bgstally/activity.py lines 411-429):
    each voucher of a redemption credits its faction in the current system,
    at half its amount when redeemed at a fleet carrier. */
module BountyRules {
  import opened Ledger
  import opened Journal

  const FleetCarrier := "FleetCarrier"

  /** What a voucher adds to its faction's bounties: half the amount, by true
      division, at a fleet carrier; the whole amount anywhere else. */
  function VoucherShare(v: Voucher, stationType: string): (r: real)
    ensures stationType == FleetCarrier ==> r + r == v.amount as real
    ensures stationType != FleetCarrier ==> r == v.amount as real
  {
    if stationType == FleetCarrier then v.amount as real / 2.0 else v.amount as real
  }

  /** One voucher redeemed in a system: its faction, if tracked there, gains the share. */
  function RedeemAt(s: SystemEntry, v: Voucher, stationType: string): SystemEntry {
    if v.faction in s.factions then
      var f := s.factions[v.faction];
      s.(factions := s.factions[v.faction := f.(bounties := f.bounties + VoucherShare(v, stationType))])
    else s
  }

  /** The vouchers redeemed in order in one system. */
  function Redeem(s: SystemEntry, vs: seq<Voucher>, stationType: string): (r: SystemEntry)
    ensures r.factions.Keys == s.factions.Keys
    decreases |vs|
  {
    if vs == [] then s else RedeemAt(Redeem(s, vs[..|vs| - 1], stationType), vs[|vs| - 1], stationType)
  }

  /** The bounties the vouchers naming faction `n` pay it. */
  function ShareTotal(vs: seq<Voucher>, n: string, stationType: string): real
    decreases |vs|
  {
    if vs == [] then 0.0
    else ShareTotal(vs[..|vs| - 1], n, stationType)
         + (if vs[|vs| - 1].faction == n then VoucherShare(vs[|vs| - 1], stationType) else 0.0)
  }

  /** A redemption changes only bounties: the system keeps its factions and
      every field but the bounties, and each tracked faction's bounties rise by
      the shares of exactly the vouchers that name it. */
  lemma {:induction false} RedeemBounties(s: SystemEntry, vs: seq<Voucher>, stationType: string)
    ensures Redeem(s, vs, stationType) == s.(factions := Redeem(s, vs, stationType).factions)
    ensures Redeem(s, vs, stationType).factions.Keys == s.factions.Keys
    ensures forall n | n in s.factions ::
              Redeem(s, vs, stationType).factions[n]
              == s.factions[n].(bounties := s.factions[n].bounties + ShareTotal(vs, n, stationType))
    decreases |vs|
  {
    if vs != [] {
      RedeemBounties(s, vs[..|vs| - 1], stationType);
    }
  }

  /** Some voucher names a faction tracked in the system. */
  predicate Credits(s: SystemEntry, vs: seq<Voucher>) {
    exists i | 0 <= i < |vs| :: vs[i].faction in s.factions
  }

  /** The effect of bv_redeemed on the ledger: when a voucher credits a
      faction tracked in system `k` the flags are recomputed, otherwise
      nothing changes. */
  function RedeemedSystems(m: Systems, k: string, vs: seq<Voucher>, stationType: string): Systems
    requires k in m
  {
    if Credits(m[k], vs) then RecalcFlags(m[k := Redeem(m[k], vs, stationType)]) else m
  }

  /** Vouchers that name no tracked faction change nothing. */
  lemma {:induction false} RedeemNone(s: SystemEntry, vs: seq<Voucher>, stationType: string)
    requires !Credits(s, vs)
    ensures Redeem(s, vs, stationType) == s
    decreases |vs|
  {
    if vs != [] {
      var init := vs[..|vs| - 1];
      assert !Credits(s, init) by {
        forall i | 0 <= i < |init| ensures init[i].faction !in s.factions {
          assert init[i] == vs[i];
        }
      }
      RedeemNone(s, init, stationType);
      assert vs[|vs| - 1].faction !in s.factions;
    }
  }

  /** A redemption neither reads nor writes the zero-activity flag. */
  lemma RedeemAtFlag(s: SystemEntry, z: bool, v: Voucher, stationType: string)
    ensures RedeemAt(s.(zeroActivity := z), v, stationType) == RedeemAt(s, v, stationType).(zeroActivity := z)
  {
  }

  /** The recomputed flag does not depend on the flag it replaces. */
  lemma FlagFree(s: SystemEntry, z: bool)
    ensures WithFlag(s.(zeroActivity := z)) == WithFlag(s)
  {
    assert s.(zeroActivity := z).factions == s.factions;
  }

  /** Recomputing the flags between two vouchers does not change the outcome:
      the recalculation only rewrites the flags, which a redemption never reads. */
  lemma RecalcRedeemAt(x: Systems, k: string, v: Voucher, stationType: string)
    requires k in x
    ensures RecalcFlags(RecalcFlags(x)[k := RedeemAt(RecalcFlags(x)[k], v, stationType)])
         == RecalcFlags(x[k := RedeemAt(x[k], v, stationType)])
  {
    var a := RecalcFlags(x)[k := RedeemAt(RecalcFlags(x)[k], v, stationType)];
    var b := x[k := RedeemAt(x[k], v, stationType)];
    forall j | j in b
      ensures WithFlag(a[j]) == WithFlag(b[j])
    {
      var z := IsSystemZero(x[j]);
      if j == k {
        RedeemAtFlag(x[k], z, v, stationType);
        FlagFree(RedeemAt(x[k], v, stationType), z);
      } else {
        FlagFree(x[j], z);
      }
    }
    assert RecalcFlags(a).Keys == RecalcFlags(b).Keys;
  }

  /** bv_redeemed's loop as written: after each voucher that credits a
      tracked faction the flags are recomputed. */
  function RedeemLoop(m: Systems, k: string, vs: seq<Voucher>, stationType: string): (r: Systems)
    requires k in m
    ensures k in r && r[k].factions.Keys == m[k].factions.Keys
    decreases |vs|
  {
    if vs == [] then m
    else
      var p := RedeemLoop(m, k, vs[..|vs| - 1], stationType);
      var v := vs[|vs| - 1];
      if v.faction in p[k].factions then RecalcFlags(p[k := RedeemAt(p[k], v, stationType)]) else p
  }

  /** One more voucher, on the ledger that redeems every voucher and
      recomputes once: a credit followed by a recalculation when it names a
      tracked faction, nothing otherwise. */
  lemma RedeemedStep(m: Systems, k: string, vs: seq<Voucher>, v: Voucher, stationType: string)
    requires k in m
    ensures var p := RedeemedSystems(m, k, vs, stationType);
            && k in p
            && RedeemedSystems(m, k, vs + [v], stationType)
               == if v.faction in m[k].factions then RecalcFlags(p[k := RedeemAt(p[k], v, stationType)]) else p
  {
    var vs' := vs + [v];
    assert vs'[..|vs|] == vs;
    CreditsStep(m[k], vs', |vs|);
    var rs := Redeem(m[k], vs, stationType);
    assert Redeem(m[k], vs', stationType) == RedeemAt(rs, v, stationType);
    if !Credits(m[k], vs) {
      RedeemNone(m[k], vs, stationType);
    } else if v.faction in m[k].factions {
      var x := m[k := rs];
      RecalcRedeemAt(x, k, v, stationType);
      assert x[k := RedeemAt(x[k], v, stationType)] == m[k := RedeemAt(rs, v, stationType)];
    } else {
      assert RedeemAt(rs, v, stationType) == rs;
    }
  }

  /** Recomputing after every credit gives the ledger that redeeming every
      voucher and recomputing once gives. */
  lemma {:induction false} RedeemLoopIsRedeemed(m: Systems, k: string, vs: seq<Voucher>, stationType: string)
    requires k in m
    ensures RedeemLoop(m, k, vs, stationType) == RedeemedSystems(m, k, vs, stationType)
    decreases |vs|
  {
    if vs != [] {
      var n := |vs| - 1;
      RedeemLoopIsRedeemed(m, k, vs[..n], stationType);
      RedeemedStep(m, k, vs[..n], vs[n], stationType);
      assert vs[..n] + [vs[n]] == vs;
    }
  }

  /** bv_redeemed's loop: the vouchers visited in order, each crediting its
      faction when tracked in system `k`, the flags recomputed after each credit. */
  method RedeemVouchers(o: seq<string>, m: Systems, k: string, vs: seq<Voucher>, stationType: string) returns (r: Systems)
    requires KeyOrder(o, m) && k in m
    ensures KeyOrder(o, r)
    ensures r == RedeemedSystems(m, k, vs, stationType)
  {
    r := m;
    var i := 0;
    while i < |vs|
      invariant 0 <= i <= |vs|
      invariant KeyOrder(o, r)
      invariant r == RedeemLoop(m, k, vs[..i], stationType)
    {
      var v := vs[i];
      assert vs[..i + 1][..i] == vs[..i];
      if v.faction in r[k].factions {
        var c := r[k := RedeemAt(r[k], v, stationType)];
        KeyOrderSameKeys(o, r, c);
        r := RecalculateAll(o, c);
        KeyOrderSameKeys(o, c, r);
      }
      i := i + 1;
    }
    assert vs[..|vs|] == vs;
    RedeemLoopIsRedeemed(m, k, vs, stationType);
  }

  /** Whether the first i + 1 vouchers credit a faction. */
  lemma CreditsStep(s: SystemEntry, vs: seq<Voucher>, i: int)
    requires 0 <= i < |vs|
    ensures Credits(s, vs[..i + 1]) <==> Credits(s, vs[..i]) || vs[i].faction in s.factions
  {
    if Credits(s, vs[..i]) {
      var j :| 0 <= j < i && vs[..i][j].faction in s.factions;
      assert vs[..i + 1][j] == vs[..i][j];
    }
    if vs[i].faction in s.factions {
      assert vs[..i + 1][i] == vs[i];
    }
  }
}
