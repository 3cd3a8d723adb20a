/** The tick-boundary rules of clear_activity (bgstally/activity.py lines
    161-180): which systems survive into the new tick, and what is left of
    them. */
module TickRules {
  import opened Ledger

  /** A system survives the tick when a mission in progress names it, when
      the player is in it, or when scooped search-and-rescue items wait there. */
  predicate Keep(s: SystemEntry, key: string, missionSystems: set<string>, current: Option<string>) {
    s.name in missionSystems || current == Some(key) || ScoopedTotal(s.twSandR) > 0
  }

  /** A surviving system: every faction starts afresh in its present state,
      the Thargoid kills are zeroed, the search-and-rescue record is carried
      forward, and the zero-activity flag is left as it was. */
  function ClearSystem(s: SystemEntry): (r: SystemEntry)
    ensures r.name == s.name && r.address == s.address && r.zeroActivity == s.zeroActivity
    ensures r.twSandR == s.twSandR
    ensures r.factions.Keys == s.factions.Keys
  {
    s.(factions := map n | n in s.factions :: NewFaction(n, s.factions[n].state), twKills := NewTwKills())
  }

  /** What the clearing resets: every faction is fresh in its old state and
      passes the zero test, and no Thargoid kill is left. */
  lemma ClearSystemResets(s: SystemEntry)
    ensures KillTotal(ClearSystem(s).twKills) == 0 && forall x: TwClass :: ClearSystem(s).twKills.At(x) == 0
    ensures forall n | n in s.factions :: ClearSystem(s).factions[n] == NewFaction(n, s.factions[n].state)
    ensures forall n | n in ClearSystem(s).factions :: IsFactionZero(ClearSystem(s).factions[n])
  {
  }

  /** The ledger after the tick. */
  function Cleared(m: Systems, missionSystems: set<string>, current: Option<string>): (r: Systems)
    ensures forall k :: k in r <==> k in m && Keep(m[k], k, missionSystems, current)
    ensures forall k | k in r :: r[k] == ClearSystem(m[k])
  {
    map k | k in m && Keep(m[k], k, missionSystems, current) :: ClearSystem(m[k])
  }

  /** The keys of `o` that are in `keys`, in the order of `o`. */
  function FilterIn(o: seq<string>, keys: set<string>): (r: seq<string>)
    ensures forall x :: x in r <==> x in o && x in keys
    decreases |o|
  {
    if o == [] then []
    else
      var rest := FilterIn(o[1..], keys);
      assert forall x :: x in o <==> x == o[0] || x in o[1..];
      if o[0] in keys then [o[0]] + rest else rest
  }

  /** One iteration of clear_activity's loop, at system `k`. */
  function ClearStep(r: Systems, k: string, missionSystems: set<string>, current: Option<string>): Systems {
    if k !in r then r
    else if Keep(r[k], k, missionSystems, current) then r[k := ClearSystem(r[k])]
    else r - {k}
  }

  /** clear_activity's loop over the systems `o`, in order. */
  function ClearAlong(m: Systems, o: seq<string>, missionSystems: set<string>, current: Option<string>): Systems
    decreases |o|
  {
    if o == [] then m
    else ClearStep(ClearAlong(m, o[..|o| - 1], missionSystems, current), o[|o| - 1], missionSystems, current)
  }

  /** After visiting the first `n` of the distinct systems `o`: a visited
      system is kept (cleared) exactly when it must survive, an unvisited one
      is as it was. */
  lemma {:induction false} ClearAlongAt(m: Systems, o: seq<string>, n: nat, missionSystems: set<string>, current: Option<string>, x: string)
    requires n <= |o|
    requires forall i, j | 0 <= i < j < |o| :: o[i] != o[j]
    requires forall i | 0 <= i < |o| :: o[i] in m
    requires x in m
    ensures var r := ClearAlong(m, o[..n], missionSystems, current);
            && (x !in o[..n] ==> x in r && r[x] == m[x])
            && (x in o[..n] ==> (x in r <==> Keep(m[x], x, missionSystems, current)))
            && (x in o[..n] && x in r ==> r[x] == ClearSystem(m[x]))
    decreases n
  {
    if n > 0 {
      var last := o[n - 1];
      assert o[..n][..n - 1] == o[..n - 1];
      var init := o[..n - 1];
      assert last !in init by {
        forall i | 0 <= i < |init| ensures init[i] != last { assert init[i] == o[i]; }
      }
      assert x in o[..n] <==> x in o[..n - 1] || x == last by {
        assert o[..n] == o[..n - 1] + [last];
      }
      ClearAlongAt(m, o, n - 1, missionSystems, current, x);
      if x != last {
        ClearAlongAt(m, o, n - 1, missionSystems, current, last);
      }
    }
  }

  /** The keys the loop can leave are keys it started with. */
  lemma {:induction false} ClearAlongKeys(m: Systems, o: seq<string>, missionSystems: set<string>, current: Option<string>)
    ensures ClearAlong(m, o, missionSystems, current).Keys <= m.Keys
    decreases |o|
  {
    if o != [] {
      ClearAlongKeys(m, o[..|o| - 1], missionSystems, current);
    }
  }

  /** Visiting every system once gives the ledger after the tick. */
  lemma ClearAlongIsCleared(m: Systems, o: seq<string>, missionSystems: set<string>, current: Option<string>)
    requires KeyOrder(o, m)
    ensures ClearAlong(m, o, missionSystems, current) == Cleared(m, missionSystems, current)
  {
    KeyOrderFacts(o, m);
    KeyOrderDistinct(o, m);
    var r := ClearAlong(m, o, missionSystems, current);
    var t := Cleared(m, missionSystems, current);
    ClearAlongKeys(m, o, missionSystems, current);
    assert o[..|o|] == o;
    forall x | x in m
      ensures (x in r <==> x in t) && (x in r ==> r[x] == t[x])
    {
      ClearAlongAt(m, o, |o|, missionSystems, current, x);
    }
  }

  /** What the loop finds at its `i`-th system: one the ledger holds and
      the visits so far have not touched. */
  lemma ClearVisit(m: Systems, o: seq<string>, i: nat, missionSystems: set<string>, current: Option<string>)
    requires KeyOrder(o, m) && i < |o|
    ensures o[i] in m
    ensures o[i] in ClearAlong(m, o[..i], missionSystems, current)
    ensures ClearAlong(m, o[..i], missionSystems, current)[o[i]] == m[o[i]]
    ensures ClearAlong(m, o[..i + 1], missionSystems, current)
         == ClearStep(ClearAlong(m, o[..i], missionSystems, current), o[i], missionSystems, current)
  {
    KeyOrderFacts(o, m);
    KeyOrderDistinct(o, m);
    assert o[..i + 1][..i] == o[..i];
    var visited := o[..i];
    assert o[i] !in visited by {
      forall j | 0 <= j < |visited| ensures visited[j] != o[i] { assert visited[j] == o[j]; }
    }
    ClearAlongAt(m, o, i, missionSystems, current, o[i]);
  }

  /** clear_activity's loop: the systems visited in dictionary order, each
      cleared when it must survive the tick and deleted otherwise. */
  method ClearSystems(o: seq<string>, m: Systems, missionSystems: set<string>, current: Option<string>) returns (r: Systems)
    requires KeyOrder(o, m)
    ensures r == Cleared(m, missionSystems, current)
  {
    r := m;
    var i := 0;
    while i < |o|
      invariant 0 <= i <= |o|
      invariant r == ClearAlong(m, o[..i], missionSystems, current)
    {
      var k := o[i];
      ClearVisit(m, o, i, missionSystems, current);
      if Keep(r[k], k, missionSystems, current) {
        r := r[k := ClearSystem(r[k])];
      } else {
        r := r - {k};
      }
      i := i + 1;
    }
    assert o[..|o|] == o;
    ClearAlongIsCleared(m, o, missionSystems, current);
  }

  /** Keeping some of the listed keys keeps their relative order. */
  lemma {:induction false} ListsFilter(o: seq<string>, keys: set<string>, sub: set<string>)
    requires Lists(o, keys) && sub <= keys
    ensures Lists(FilterIn(o, sub), sub)
    decreases |o|
  {
    if o != [] {
      var x := o[0];
      var rest := o[1..];
      ListsFacts(rest, keys - {x});
      FilterSameOn(rest, sub, sub - {x});
      ListsFilter(rest, keys - {x}, sub - {x});
      if x in sub {
        assert ([x] + FilterIn(rest, sub))[1..] == FilterIn(rest, sub);
      } else {
        assert sub - {x} == sub;
      }
    }
  }

  /** Keeping the systems of a sub-map keeps their relative order. */
  lemma FilterKeyOrder<V, W>(o: seq<string>, m: map<string, V>, m': map<string, W>)
    requires KeyOrder(o, m) && m'.Keys <= m.Keys
    ensures KeyOrder(FilterIn(o, m'.Keys), m')
  {
    ListsFilter(o, m.Keys, m'.Keys);
  }

  /** Filtering by two sets that agree on the elements of `o` gives the same result. */
  lemma {:induction false} FilterSameOn(o: seq<string>, a: set<string>, b: set<string>)
    requires forall i | 0 <= i < |o| :: (o[i] in a <==> o[i] in b)
    ensures FilterIn(o, a) == FilterIn(o, b)
    decreases |o|
  {
    if o != [] {
      forall i | 0 <= i < |o| - 1 ensures (o[1..][i] in a <==> o[1..][i] in b) {
        assert o[1..][i] == o[i + 1];
      }
      FilterSameOn(o[1..], a, b);
    }
  }
}
