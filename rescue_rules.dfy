/** The search-and-rescue hand-in of _search_and_rescue_handin
    (bgstally/activity.py lines 687-709): items handed in anywhere are taken
    from the systems where items of that kind were scooped, greedily, in the
    ledger's iteration order. */
module RescueRules {
  import opened Ledger

  function Min(a: int, b: int): int {
    if a <= b then a else b
  }

  function Max0(a: int): int {
    if a >= 0 then a else 0
  }

  /** Moves `amount` items of kind `key` from scooped to delivered in system `k`. */
  function Deliver(m: Systems, k: string, key: SandRKey, amount: int): (r: Systems)
    requires k in m
    ensures r.Keys == m.Keys
    ensures forall j | j in m && j != k :: r[j] == m[j]
  {
    var p := m[k].twSandR.At(key);
    m[k := m[k].(twSandR := m[k].twSandR.With(key, SandRPair(p.scooped - amount, p.delivered + amount)))]
  }

  /** The hand-in of `count` items of kind `key` over the systems `o`, in
      order: stop once the count is used up; each system gives up as many as
      it has scooped (when that is positive); a count left over is dropped.
      A key the ledger does not hold is passed over; visiting the ledger in
      its own order meets none. */
  function Handin(m: Systems, o: seq<string>, key: SandRKey, count: int): (r: Systems)
    ensures r.Keys == m.Keys
    decreases |o|
  {
    if o == [] || count <= 0 then m
    else if o[0] !in m then Handin(m, o[1..], key, count)
    else
      var a := Min(count, m[o[0]].twSandR.At(key).scooped);
      if a > 0 then Handin(Deliver(m, o[0], key, a), o[1..], key, count - a)
      else Handin(m, o[1..], key, count)
  }

  /** One step of the hand-in at position `i`, `a` being what that system gives up. */
  lemma HandinStep(m: Systems, o: seq<string>, i: int, key: SandRKey, c: int, a: int)
    requires 0 <= i < |o| && c > 0 && o[i] in m
    requires a == Min(c, m[o[i]].twSandR.At(key).scooped)
    ensures a > 0 ==> Handin(m, o[i..], key, c) == Handin(Deliver(m, o[i], key, a), o[i + 1..], key, c - a)
    ensures a <= 0 ==> Handin(m, o[i..], key, c) == Handin(m, o[i + 1..], key, c)
    ensures Allocates(m, o[i..], key, c) == (a > 0 || Allocates(m, o[i + 1..], key, c))
  {
    assert o[i..][0] == o[i] && o[i..][1..] == o[i + 1..];
  }

  /** Whether the hand-in moves anything at all (the source marks the
      ledger dirty exactly then). */
  predicate Allocates(m: Systems, o: seq<string>, key: SandRKey, count: int)
    decreases |o|
  {
    if o == [] || count <= 0 then false
    else if o[0] !in m then Allocates(m, o[1..], key, count)
    else
      var a := Min(count, m[o[0]].twSandR.At(key).scooped);
      a > 0 || Allocates(m, o[1..], key, count)
  }

  /** _search_and_rescue_handin's loop: the systems visited in dictionary
      order, each giving up what it can until the count is used up; `moved`
      records whether any item moved. */
  method HandInScooped(o: seq<string>, m: Systems, key: SandRKey, count: int) returns (r: Systems, moved: bool)
    requires forall i | 0 <= i < |o| :: o[i] in m
    ensures r == Handin(m, o, key, count)
    ensures moved == Allocates(m, o, key, count)
  {
    r := m;
    moved := false;
    var c := count;
    var i := 0;
    while i < |o|
      invariant 0 <= i <= |o|
      invariant r.Keys == m.Keys
      invariant Handin(r, o[i..], key, c) == Handin(m, o, key, count)
      invariant (moved || Allocates(r, o[i..], key, c)) == Allocates(m, o, key, count)
    {
      if c <= 0 {
        break;
      }
      var k := o[i];
      var a := Min(c, r[k].twSandR.At(key).scooped);
      HandinStep(r, o, i, key, c, a);
      if a > 0 {
        r := Deliver(r, k, key, a);
        c := c - a;
        moved := true;
      }
      assert Handin(r, o[i + 1..], key, c) == Handin(m, o, key, count);
      i := i + 1;
    }
  }

  /** Every system's search-and-rescue record cleared (player_resurrected). */
  function Resurrected(m: Systems): (r: Systems)
    ensures r.Keys == m.Keys
    ensures forall k | k in m :: r[k] == m[k].(twSandR := NewSandR())
    ensures forall k | k in r :: ScoopedTotal(r[k].twSandR) == 0 && DeliveredTotal(r[k].twSandR) == 0
  {
    map k | k in m :: m[k].(twSandR := NewSandR())
  }

  /** player_resurrected's loop: the systems visited in dictionary order, each
      one's record replaced by a fresh one. */
  method ResetAll(o: seq<string>, m: Systems) returns (r: Systems)
    requires KeyOrder(o, m)
    ensures r == Resurrected(m)
  {
    KeyOrderFacts(o, m);
    KeyOrderDistinct(o, m);
    r := m;
    var i := 0;
    while i < |o|
      invariant 0 <= i <= |o|
      invariant r.Keys == m.Keys
      invariant forall j | 0 <= j < i :: r[o[j]] == m[o[j]].(twSandR := NewSandR())
      invariant forall j | i <= j < |o| :: r[o[j]] == m[o[j]]
    {
      var k := o[i];
      r := r[k := r[k].(twSandR := NewSandR())];
      i := i + 1;
    }
    forall k | k in r
      ensures r[k] == Resurrected(m)[k]
    {
      var j :| 0 <= j < |o| && o[j] == k;
    }
  }

  predicate Distinct(o: seq<string>) {
    forall i, j | 0 <= i < j < |o| :: o[i] != o[j]
  }

  /** The scooped items of kind `key` over the systems `o` (keys the ledger
      does not hold count nothing). */
  function SumScooped(m: Systems, o: seq<string>, key: SandRKey): int
    decreases |o|
  {
    if o == [] then 0
    else (if o[0] in m then m[o[0]].twSandR.At(key).scooped else 0) + SumScooped(m, o[1..], key)
  }

  /** The items available to a hand-in: negative scooped counts give nothing. */
  function SumAvailable(m: Systems, o: seq<string>, key: SandRKey): (r: int)
    ensures r >= 0
    decreases |o|
  {
    if o == [] then 0
    else (if o[0] in m then Max0(m[o[0]].twSandR.At(key).scooped) else 0) + SumAvailable(m, o[1..], key)
  }

  /** The delivered items of kind `key` over the systems `o`. */
  function SumDelivered(m: Systems, o: seq<string>, key: SandRKey): int
    decreases |o|
  {
    if o == [] then 0
    else (if o[0] in m then m[o[0]].twSandR.At(key).delivered else 0) + SumDelivered(m, o[1..], key)
  }

  /** A system the hand-in does not visit is left alone. */
  lemma {:induction false} HandinOutside(m: Systems, o: seq<string>, key: SandRKey, count: int, k: string)
    requires k in m && k !in o
    ensures Handin(m, o, key, count)[k] == m[k]
    decreases |o|
  {
    if o != [] && count > 0 {
      assert o[0] != k;
      if o[0] !in m {
        HandinOutside(m, o[1..], key, count, k);
      } else {
        var a := Min(count, m[o[0]].twSandR.At(key).scooped);
        if a > 0 {
          var m' := Deliver(m, o[0], key, a);
          assert Handin(m, o, key, count) == Handin(m', o[1..], key, count - a);
          HandinOutside(m', o[1..], key, count - a, k);
        } else {
          assert Handin(m, o, key, count) == Handin(m, o[1..], key, count);
          HandinOutside(m, o[1..], key, count, k);
        }
      }
    }
  }

  /** In every system the hand-in changes only the pair of the kind handed
      in, keeps scooped plus delivered, and never raises scooped. */
  lemma {:induction false} HandinAt(m: Systems, o: seq<string>, key: SandRKey, count: int, k: string)
    requires k in m
    ensures var p := m[k].twSandR.At(key);
            var q := Handin(m, o, key, count)[k].twSandR.At(key);
            && Handin(m, o, key, count)[k] == m[k].(twSandR := m[k].twSandR.With(key, q))
            && q.scooped + q.delivered == p.scooped + p.delivered
            && q.scooped <= p.scooped
            && (p.scooped >= 0 ==> q.scooped >= 0)
    decreases |o|
  {
    if o != [] && count > 0 {
      if o[0] !in m {
        HandinAt(m, o[1..], key, count, k);
      } else {
        var a := Min(count, m[o[0]].twSandR.At(key).scooped);
        if a > 0 {
          var m' := Deliver(m, o[0], key, a);
          HandinAt(m', o[1..], key, count - a, k);
          if k != o[0] { SandRWithSame(m[k].twSandR, key); }
        } else {
          HandinAt(m, o[1..], key, count, k);
        }
      }
    } else {
      SandRWithSame(m[k].twSandR, key);
    }
  }

  lemma SandRWithSame(r: SandR, key: SandRKey)
    ensures r.With(key, r.At(key)) == r
  {
  }

  /** The hand-in never drives a scooped count below zero: each system gives
      up at most what it holds. */
  lemma HandinKeepsScoopedNonNegative(m: Systems, o: seq<string>, key: SandRKey, count: int)
    requires forall k | k in m :: m[k].twSandR.At(key).scooped >= 0
    ensures forall k | k in m :: Handin(m, o, key, count)[k].twSandR.At(key).scooped >= 0
  {
    forall k | k in m
      ensures Handin(m, o, key, count)[k].twSandR.At(key).scooped >= 0
    {
      HandinAt(m, o, key, count, k);
    }
  }

  /** Sums over `o` do not see a change at a system outside `o`. */
  lemma {:induction false} SumsOutside(m: Systems, o: seq<string>, key: SandRKey, k: string, amount: int)
    requires k in m && k !in o
    ensures SumDelivered(Deliver(m, k, key, amount), o, key) == SumDelivered(m, o, key)
    ensures SumScooped(Deliver(m, k, key, amount), o, key) == SumScooped(m, o, key)
    ensures SumAvailable(Deliver(m, k, key, amount), o, key) == SumAvailable(m, o, key)
    decreases |o|
  {
    if o != [] {
      SumsOutside(m, o[1..], key, k, amount);
    }
  }

  /** The tail of a list without repetitions has none, and lacks the head. */
  lemma DistinctTail(o: seq<string>)
    requires o != [] && Distinct(o)
    ensures o[0] !in o[1..] && Distinct(o[1..])
  {
    var rest := o[1..];
    forall i | 0 <= i < |rest| ensures rest[i] != o[0] { assert rest[i] == o[i + 1]; }
    forall i, j | 0 <= i < j < |rest| ensures rest[i] != rest[j] { assert rest[i] == o[i + 1] && rest[j] == o[j + 1]; }
  }

  /** Taking what the first system can give, then the rest from the others,
      is taking the minimum from them all. */
  lemma MinSplit(c: int, s: int, r: int)
    requires Min(c, s) > 0 && r >= 0
    ensures Min(c, s) + Min(Max0(c - Min(c, s)), r) == Min(Max0(c), Max0(s) + r)
  {
  }

  /** Handing in `count` items delivers min(count, items available) of them. */
  lemma {:induction false} HandinTotals(m: Systems, o: seq<string>, key: SandRKey, count: int)
    requires Distinct(o)
    ensures SumDelivered(Handin(m, o, key, count), o, key) == SumDelivered(m, o, key) + Min(Max0(count), SumAvailable(m, o, key))
    decreases |o|
  {
    if o != [] && count > 0 {
      var k := o[0];
      var rest := o[1..];
      DistinctTail(o);
      if k !in m {
        HandinTotals(m, rest, key, count);
      } else {
        var a := Min(count, m[k].twSandR.At(key).scooped);
        if a > 0 {
          var m' := Deliver(m, k, key, a);
          var h := Handin(m', rest, key, count - a);
          assert Handin(m, o, key, count) == h;
          HandinTotals(m', rest, key, count - a);
          HandinOutside(m', rest, key, count - a, k);
          SumsOutside(m, rest, key, k, a);
          assert h[k].twSandR.At(key).delivered == m[k].twSandR.At(key).delivered + a;
          MinSplit(count, m[k].twSandR.At(key).scooped, SumAvailable(m, rest, key));
        } else {
          assert Handin(m, o, key, count) == Handin(m, rest, key, count);
          HandinTotals(m, rest, key, count);
          HandinOutside(m, rest, key, count, k);
        }
      }
    }
  }

  /** The hand-in keeps the sum of scooped and delivered over the systems. */
  lemma {:induction false} HandinConserves(m: Systems, o: seq<string>, key: SandRKey, count: int)
    requires Distinct(o)
    ensures SumScooped(Handin(m, o, key, count), o, key) + SumDelivered(Handin(m, o, key, count), o, key)
         == SumScooped(m, o, key) + SumDelivered(m, o, key)
    decreases |o|
  {
    if o != [] && count > 0 {
      var k := o[0];
      var rest := o[1..];
      DistinctTail(o);
      if k !in m {
        HandinConserves(m, rest, key, count);
      } else {
        var a := Min(count, m[k].twSandR.At(key).scooped);
        if a > 0 {
          var m' := Deliver(m, k, key, a);
          assert Handin(m, o, key, count) == Handin(m', rest, key, count - a);
          HandinConserves(m', rest, key, count - a);
          HandinOutside(m', rest, key, count - a, k);
          SumsOutside(m, rest, key, k, a);
        } else {
          assert Handin(m, o, key, count) == Handin(m, rest, key, count);
          HandinConserves(m, rest, key, count);
          HandinOutside(m, rest, key, count, k);
        }
      }
    }
  }

  /** With no negative scooped counts, the items available are the items
      scooped, so a hand-in delivers min(count, total scooped). */
  lemma {:induction false} AvailableIsScooped(m: Systems, o: seq<string>, key: SandRKey)
    requires forall k | k in m :: m[k].twSandR.At(key).scooped >= 0
    ensures SumAvailable(m, o, key) == SumScooped(m, o, key)
    decreases |o|
  {
    if o != [] {
      AvailableIsScooped(m, o[1..], key);
    }
  }

  /** Two systems hold 3 and 2 scooped escape pods; handing in 4 empties the
      first, leaves 1 in the second and delivers all 4. */
  lemma HandinExample(m: Systems, a: string, b: string)
    requires a in m && b in m && a != b
    requires m[a].twSandR.At(EscapePod) == SandRPair(3, 0) && m[b].twSandR.At(EscapePod) == SandRPair(2, 0)
    ensures Handin(m, [a, b], EscapePod, 4)[a].twSandR.At(EscapePod) == SandRPair(0, 3)
    ensures Handin(m, [a, b], EscapePod, 4)[b].twSandR.At(EscapePod) == SandRPair(1, 1)
  {
    var m1 := Deliver(m, a, EscapePod, 3);
    assert [a, b][1..] == [b];
    assert Handin(m, [a, b], EscapePod, 4) == Handin(m1, [b], EscapePod, 1);
    var m2 := Deliver(m1, b, EscapePod, 1);
    assert Handin(m1, [b], EscapePod, 1) == Handin(m2, [], EscapePod, 0);
  }

  /** The hand-in moves something exactly when a positive count meets
      available items. */
  lemma {:induction false} AllocatesIffAvailable(m: Systems, o: seq<string>, key: SandRKey, count: int)
    ensures Allocates(m, o, key, count) <==> count > 0 && SumAvailable(m, o, key) > 0
    decreases |o|
  {
    if o != [] && count > 0 {
      AllocatesIffAvailable(m, o[1..], key, count);
    }
  }
}
