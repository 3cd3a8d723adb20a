/** The faction-state rules of system_entered (bgstally/activity.py lines 210-231):
    the snapshot of the factions present, then the conflict pairs. */
module EntryRules {
  import opened Ledger
  import opened Journal

  predicate IsConflictState(s: string) {
    s in StatesWar || s in StatesElection
  }

  /** Conflict states in the per-faction snapshot are not trusted: they become "None". */
  function NormaliseState(s: string): (r: string)
    ensures !IsConflictState(r)
    ensures !IsConflictState(s) ==> r == s
    ensures r == "" <==> s == ""
  {
    if IsConflictState(s) then "None" else s
  }

  /** _update_faction_data with a state: an empty (falsy) state leaves the faction alone. */
  function RefreshState(f: Faction, s: string): (g: Faction)
    ensures SameButState(f, g)
    ensures s != "" ==> g.state == s
    ensures s == "" ==> g == f
  {
    if s != "" then f.(state := s) else f
  }

  /** One faction of the snapshot. */
  function SnapshotStep(m: map<string, Faction>, jf: JournalFaction): map<string, Faction> {
    if jf.name == PilotsFederation then m
    else
      var s := NormaliseState(jf.factionState);
      if jf.name in m then m[jf.name := RefreshState(m[jf.name], s)]
      else m[jf.name := NewFaction(jf.name, s)]
  }

  /** The snapshot loop, applied to the factions in order. */
  function ApplySnapshot(m: map<string, Faction>, js: seq<JournalFaction>): map<string, Faction>
    decreases |js|
  {
    if js == [] then m else SnapshotStep(ApplySnapshot(m, js[..|js| - 1]), js[|js| - 1])
  }

  /** The names a snapshot adds or refreshes. */
  function SnapshotNames(js: seq<JournalFaction>): set<string> {
    set i | 0 <= i < |js| && js[i].name != PilotsFederation :: js[i].name
  }

  /** js[i] is the last entry of the snapshot for its faction. */
  predicate LastOfName(js: seq<JournalFaction>, i: int)
    requires 0 <= i < |js|
  {
    forall j | i < j < |js| :: js[j].name != js[i].name
  }

  /** The snapshot keeps every tracked faction and adds every named faction
      except the Pilots' Federation branch. */
  lemma {:induction false} SnapshotKeys(m: map<string, Faction>, js: seq<JournalFaction>)
    ensures ApplySnapshot(m, js).Keys == m.Keys + SnapshotNames(js)
    decreases |js|
  {
    if js != [] {
      var js' := js[..|js| - 1];
      var last := js[|js| - 1];
      SnapshotKeys(m, js');
      forall n | n in SnapshotNames(js)
        ensures n in SnapshotNames(js') || (last.name != PilotsFederation && n == last.name)
      {
        var i :| 0 <= i < |js| && js[i].name != PilotsFederation && js[i].name == n;
        if i < |js| - 1 { assert js'[i] == js[i]; }
      }
      forall n | n in SnapshotNames(js')
        ensures n in SnapshotNames(js)
      {
        var i :| 0 <= i < |js'| && js'[i].name != PilotsFederation && js'[i].name == n;
        assert js[i] == js'[i];
      }
      if last.name != PilotsFederation {
        assert last.name in SnapshotNames(js) by { assert js[|js| - 1] == last; }
      }
    }
  }

  /** The snapshot changes no counter: a tracked faction changes at most its
      state, and a faction it adds is fresh. */
  lemma {:induction false} SnapshotKeepsCounters(m: map<string, Faction>, js: seq<JournalFaction>)
    ensures forall n | n in m ::
              n in ApplySnapshot(m, js) && SameButState(m[n], ApplySnapshot(m, js)[n])
    ensures forall n | n in ApplySnapshot(m, js) && n !in m ::
              ApplySnapshot(m, js)[n] == NewFaction(n, ApplySnapshot(m, js)[n].state)
    decreases |js|
  {
    if js != [] {
      SnapshotKeepsCounters(m, js[..|js| - 1]);
    }
  }

  /** The snapshot never sets a conflict state: one present afterwards was
      already there. */
  lemma {:induction false} SnapshotNoConflictState(m: map<string, Faction>, js: seq<JournalFaction>)
    ensures forall n | n in ApplySnapshot(m, js) && IsConflictState(ApplySnapshot(m, js)[n].state) ::
              n in m && ApplySnapshot(m, js)[n].state == m[n].state
    decreases |js|
  {
    if js != [] {
      SnapshotNoConflictState(m, js[..|js| - 1]);
    }
  }

  /** A faction whose last snapshot entry carries a state ends with that state, normalised. */
  lemma {:induction false} SnapshotLastState(m: map<string, Faction>, js: seq<JournalFaction>, i: int)
    requires 0 <= i < |js| && LastOfName(js, i) && js[i].name != PilotsFederation
    requires js[i].factionState != ""
    ensures js[i].name in ApplySnapshot(m, js)
    ensures ApplySnapshot(m, js)[js[i].name].state == NormaliseState(js[i].factionState)
    decreases |js|
  {
    var js' := js[..|js| - 1];
    var last := js[|js| - 1];
    if i < |js| - 1 {
      assert js'[i] == js[i];
      assert LastOfName(js', i);
      assert last.name != js[i].name;
      SnapshotLastState(m, js', i);
    }
  }

  /** The snapshot loop of system_entered: each faction reported, except the
      Pilots' Federation branch, refreshed with its state or added fresh. */
  method SnapshotFactions(fs: map<string, Faction>, js: seq<JournalFaction>) returns (r: map<string, Faction>)
    ensures r == ApplySnapshot(fs, js)
  {
    r := fs;
    var i := 0;
    while i < |js|
      invariant 0 <= i <= |js|
      invariant r == ApplySnapshot(fs, js[..i])
    {
      var jf := js[i];
      if jf.name != PilotsFederation {
        var st := NormaliseState(jf.factionState);
        if jf.name in r {
          r := r[jf.name := RefreshState(r[jf.name], st)];
        } else {
          r := r[jf.name := NewFaction(jf.name, st)];
        }
      }
      assert js[..i + 1][..i] == js[..i];
      i := i + 1;
    }
    assert js[..|js|] == js;
  }

  /** The state an active conflict of type `warType` gives both its factions. */
  function ConflictState(warType: string): (s: string)
    ensures s in {"War", "CivilWar", "Election", "None"}
  {
    if warType == "war" then "War"
    else if warType == "civilwar" then "CivilWar"
    else if warType == "election" then "Election"
    else "None"
  }

  /** `c` is an active conflict, both of whose factions are tracked, naming `n`. */
  predicate Pairs(c: Conflict, m: map<string, Faction>, n: string) {
    c.status == "active" && c.faction1 in m && c.faction2 in m && (c.faction1 == n || c.faction2 == n)
  }

  function ConflictStep(m: map<string, Faction>, c: Conflict): map<string, Faction> {
    if c.status != "active" || c.faction1 !in m || c.faction2 !in m then m
    else
      var s := ConflictState(c.warType);
      var m1 := m[c.faction1 := m[c.faction1].(state := s)];
      m1[c.faction2 := m1[c.faction2].(state := s)]
  }

  /** The conflict loop, applied to the conflicts in order. */
  function ApplyConflicts(m: map<string, Faction>, cs: seq<Conflict>): map<string, Faction>
    decreases |cs|
  {
    if cs == [] then m else ConflictStep(ApplyConflicts(m, cs[..|cs| - 1]), cs[|cs| - 1])
  }

  /** The conflict loop of system_entered: each active conflict between two
      tracked factions gives both the state of its war type. */
  method PairConflicts(fs: map<string, Faction>, cs: seq<Conflict>) returns (r: map<string, Faction>)
    ensures r == ApplyConflicts(fs, cs)
  {
    r := fs;
    var i := 0;
    while i < |cs|
      invariant 0 <= i <= |cs|
      invariant r == ApplyConflicts(fs, cs[..i])
    {
      var c := cs[i];
      if c.status == "active" && c.faction1 in r && c.faction2 in r {
        var s := ConflictState(c.warType);
        r := r[c.faction1 := r[c.faction1].(state := s)];
        r := r[c.faction2 := r[c.faction2].(state := s)];
      }
      assert cs[..i + 1][..i] == cs[..i];
      i := i + 1;
    }
    assert cs[..|cs|] == cs;
  }

  /** cs[i] is the last conflict pairing `n`. */
  predicate LastPairing(cs: seq<Conflict>, m: map<string, Faction>, n: string, i: int)
    requires 0 <= i < |cs|
  {
    Pairs(cs[i], m, n) && forall j | i < j < |cs| :: !Pairs(cs[j], m, n)
  }

  /** The conflicts add and remove no faction. */
  lemma {:induction false} ConflictKeys(m: map<string, Faction>, cs: seq<Conflict>)
    ensures ApplyConflicts(m, cs).Keys == m.Keys
    decreases |cs|
  {
    if cs != [] {
      ConflictKeys(m, cs[..|cs| - 1]);
    }
  }

  /** The conflicts change nothing but states. */
  lemma {:induction false} ConflictKeepsCounters(m: map<string, Faction>, cs: seq<Conflict>)
    ensures forall n | n in m :: n in ApplyConflicts(m, cs) && SameButState(m[n], ApplyConflicts(m, cs)[n])
    decreases |cs|
  {
    if cs != [] {
      ConflictKeepsCounters(m, cs[..|cs| - 1]);
    }
  }

  /** A faction no active pair names keeps its state. */
  lemma {:induction false} ConflictUnnamed(m: map<string, Faction>, cs: seq<Conflict>, n: string)
    requires n in m
    requires forall i | 0 <= i < |cs| :: !Pairs(cs[i], m, n)
    ensures n in ApplyConflicts(m, cs) && ApplyConflicts(m, cs)[n].state == m[n].state
    decreases |cs|
  {
    ConflictKeys(m, cs);
    if cs != [] {
      var cs' := cs[..|cs| - 1];
      forall i | 0 <= i < |cs'| ensures !Pairs(cs'[i], m, n) { assert cs'[i] == cs[i]; }
      ConflictUnnamed(m, cs', n);
      ConflictKeys(m, cs');
      assert !Pairs(cs[|cs| - 1], m, n);
    }
  }

  /** A faction an active pair names has the state of the last conflict naming it. */
  lemma {:induction false} ConflictLastPairing(m: map<string, Faction>, cs: seq<Conflict>, n: string, i: int)
    requires n in m && 0 <= i < |cs| && LastPairing(cs, m, n, i)
    ensures n in ApplyConflicts(m, cs) && ApplyConflicts(m, cs)[n].state == ConflictState(cs[i].warType)
    decreases |cs|
  {
    ConflictKeys(m, cs);
    var cs' := cs[..|cs| - 1];
    var last := cs[|cs| - 1];
    ConflictKeys(m, cs');
    if i < |cs| - 1 {
      assert cs'[i] == cs[i];
      assert !Pairs(last, m, n);
      forall j | i < j < |cs'| ensures !Pairs(cs'[j], m, n) { assert cs'[j] == cs[j]; }
      assert LastPairing(cs', m, n, i);
      ConflictLastPairing(m, cs', n, i);
    }
  }

  /** The factions of a system after an entry event with a snapshot. */
  function EnteredFactions(m: map<string, Faction>, js: seq<JournalFaction>, cs: seq<Conflict>): map<string, Faction> {
    ApplyConflicts(ApplySnapshot(m, js), cs)
  }

  /** The faction-state property of system entry: a faction whose last snapshot
      entry reports War, CivilWar or Election ends in state "None" unless an
      active conflict with both factions tracked names it, in which case the
      last such conflict decides.  The Pilots' Federation branch is never added,
      and no faction already tracked loses a counter. */
  lemma EnteredFactionState(m: map<string, Faction>, js: seq<JournalFaction>, cs: seq<Conflict>, i: int)
    requires 0 <= i < |js| && LastOfName(js, i) && js[i].name != PilotsFederation
    requires IsConflictState(js[i].factionState)
    ensures js[i].name in EnteredFactions(m, js, cs)
    ensures (forall k | 0 <= k < |cs| :: !Pairs(cs[k], ApplySnapshot(m, js), js[i].name)) ==>
              EnteredFactions(m, js, cs)[js[i].name].state == "None"
    ensures forall k | 0 <= k < |cs| && LastPairing(cs, ApplySnapshot(m, js), js[i].name, k) ::
              EnteredFactions(m, js, cs)[js[i].name].state == ConflictState(cs[k].warType)
    ensures (PilotsFederation in EnteredFactions(m, js, cs)) == (PilotsFederation in m)
    ensures forall n | n in m :: n in EnteredFactions(m, js, cs) && SameButState(m[n], EnteredFactions(m, js, cs)[n])
  {
    var snap := ApplySnapshot(m, js);
    var n := js[i].name;
    SnapshotKeys(m, js);
    SnapshotKeepsCounters(m, js);
    SnapshotLastState(m, js, i);
    ConflictKeys(snap, cs);
    ConflictKeepsCounters(snap, cs);
    assert n in SnapshotNames(js);
    if forall k | 0 <= k < |cs| :: !Pairs(cs[k], snap, n) {
      ConflictUnnamed(snap, cs, n);
    }
    forall k | 0 <= k < |cs| && LastPairing(cs, snap, n, k)
      ensures EnteredFactions(m, js, cs)[n].state == ConflictState(cs[k].warType)
    {
      ConflictLastPairing(snap, cs, n, k);
    }
    assert PilotsFederation !in SnapshotNames(js);
  }
}
