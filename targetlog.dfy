/** The commander target log (bgstally/targetlog.py, class TargetLog): every
    sighting of another player, a cache of the latest record per commander,
    and the profile lookups queued for commanders not yet cached. */
module TargetLogs {
  import opened Ledger

  /** Entries more than 90 days old expire. */
  const ExpirySeconds: int := 90 * 24 * 60 * 60

  /** The fixed text in front of a commander's name in a decorated pilot name. */
  const CmdrPrefix: string := "$cmdr_decorate:#name="

  /** The placeholder for a field the event does not carry. */
  const Unknown: string := "----"

  /** One sighting of a commander.  The Inara profile fields stay opaque: the
      JSON values are carried as text. */
  datatype CmdrEntry = CmdrEntry(
    targetName: string,
    system: string,
    squadronId: string,
    ship: string,
    shipLocalised: string,
    legalStatus: string,
    timestamp: int,
    ranks: Option<string>,
    squadron: Option<string>,
    inaraUrl: Option<string>)

  /** The ShipTargeted journal event; absent keys are None. */
  datatype ShipTargetedEvent = ShipTargetedEvent(
    timestamp: int,
    scanStage: Option<int>,
    pilotName: Option<string>,
    squadronId: Option<string>,
    ship: Option<string>,
    shipLocalised: Option<string>,
    legalStatus: Option<string>)

  /** The Friends journal event with status Requested. */
  datatype FriendsEvent = FriendsEvent(timestamp: int, name: Option<string>)

  /** What a commander-profile answer may carry, and the answer's shape. */
  datatype InaraProfile = InaraProfile(ranks: Option<string>, squadron: Option<string>, inaraUrl: Option<string>)
  datatype InaraEvent = InaraEvent(eventData: Option<InaraProfile>)
  datatype InaraResponse = InaraResponse(events: Option<seq<InaraEvent>>)

  //
  // The pilot-name pattern
  //

  /** The position of the last ';' in `rest` that comes before any ']', or -1. */
  function LastSemicolon(rest: string): (j: int)
    ensures -1 <= j < |rest|
    ensures j >= 0 ==> rest[j] == ';' && ']' !in rest[..j]
    ensures forall i | j < i < |rest| && ']' !in rest[..i] :: rest[i] != ';'
    decreases |rest|
  {
    if rest == [] || rest[0] == ']' then -1
    else
      var t := LastSemicolon(rest[1..]);
      assert forall i | 1 <= i <= |rest| :: rest[..i] == [rest[0]] + rest[1..][..i - 1];
      if t >= 0 then t + 1 else if rest[0] == ';' then 0 else -1
  }

  /** The name in `$cmdr_decorate:#name=<name>;` at the start of `pilot`:
      the pattern's `[^]]*` takes the longest run without ']' that is
      followed by ';'.  None when the text does not match. */
  function ParseCmdrName(pilot: string): (r: Option<string>)
    ensures r.Some? <==>
              CmdrPrefix <= pilot
              && exists i | |CmdrPrefix| <= i < |pilot| :: pilot[i] == ';' && ']' !in pilot[|CmdrPrefix|..i]
    ensures r.Some? ==> CmdrPrefix + r.value + ";" <= pilot && ']' !in r.value
    ensures r.Some? ==>
              forall i | |CmdrPrefix| + |r.value| < i < |pilot| && ']' !in pilot[|CmdrPrefix|..i] :: pilot[i] != ';'
  {
    var n := |CmdrPrefix|;
    if n <= |pilot| && pilot[..n] == CmdrPrefix then
      var rest := pilot[n..];
      var j := LastSemicolon(rest);
      assert forall i | n <= i <= |pilot| :: pilot[n..i] == rest[..i - n];
      if j >= 0 then
        assert pilot[..n + j + 1] == CmdrPrefix + rest[..j] + ";";
        Some(rest[..j])
      else None
    else None
  }

  /** A decorated name reads back as the name, whatever follows the closing
      ';' as long as it holds no other ';'. */
  lemma ParseDecorated(name: string, tail: string)
    requires ']' !in name && ';' !in tail
    ensures ParseCmdrName(CmdrPrefix + name + ";" + tail) == Some(name)
  {
    var pilot := CmdrPrefix + name + ";" + tail;
    var n := |CmdrPrefix|;
    assert pilot[n + |name|] == ';';
    assert pilot[n..n + |name|] == name;
    var r := ParseCmdrName(pilot);
    assert r.Some?;
    var v := r.value;
    assert pilot[..n + |v| + 1] == CmdrPrefix + v + ";";
    assert pilot[n + |v|] == ';';
    assert v == pilot[n..n + |v|];
  }

  //
  // Lookups
  //

  /** The position of the last entry for commander `name`, or -1. */
  function LastIndexFor(log: seq<CmdrEntry>, name: string): (i: int)
    ensures -1 <= i < |log|
    ensures i >= 0 ==> log[i].targetName == name
    ensures forall j | i < j < |log| :: log[j].targetName != name
    decreases |log|
  {
    if log == [] then -1
    else if log[|log| - 1].targetName == name then |log| - 1
    else LastIndexFor(log[..|log| - 1], name)
  }

  //
  // Sightings
  //

  /** The commander a ShipTargeted event names: only a fully scanned target
      (scan stage 3 or more) whose pilot name is a decorated commander name. */
  function SightedName(ev: ShipTargetedEvent): (r: Option<string>)
    ensures r.Some? <==>
              ev.scanStage.Some? && ev.scanStage.value >= 3 && ev.pilotName.Some?
              && ParseCmdrName(ev.pilotName.value).Some?
    ensures r.Some? ==> r == ParseCmdrName(ev.pilotName.value)
  {
    if ev.scanStage.None? || ev.scanStage.value < 3 then None
    else if ev.pilotName.None? then None
    else ParseCmdrName(ev.pilotName.value)
  }

  /** The record a ship-target sighting makes; the localised ship name falls
      back to the ship's own name, any other missing field to "----". */
  function ShipSighting(ev: ShipTargetedEvent, system: string, name: string): CmdrEntry {
    CmdrEntry(name, system, ev.squadronId.GetOr(Unknown), ev.ship.GetOr(Unknown),
              ev.shipLocalised.GetOr(ev.ship.GetOr(Unknown)), ev.legalStatus.GetOr(Unknown),
              ev.timestamp, None, None, None)
  }

  /** The record a friend request makes: nothing but the name, the system and the time. */
  function FriendSighting(ev: FriendsEvent, system: string, name: string): CmdrEntry {
    CmdrEntry(name, system, Unknown, Unknown, Unknown, Unknown, ev.timestamp, None, None, None)
  }

  /** The fields compared to decide whether a sighting repeats the cached one. */
  predicate SameSighting(seen: CmdrEntry, cached: CmdrEntry) {
    seen.system == cached.system && seen.squadronId == cached.squadronId
    && seen.ship == cached.ship && seen.legalStatus == cached.legalStatus
  }

  /** The cached record brought up to date by a new sighting: where, in what
      ship, with what legal status and when; the squadron tag and the profile
      stay the cached ones. */
  function Refreshed(cached: CmdrEntry, seen: CmdrEntry): CmdrEntry {
    cached.(system := seen.system, ship := seen.ship, shipLocalised := seen.shipLocalised,
            legalStatus := seen.legalStatus, timestamp := seen.timestamp)
  }

  /** What _fetch_cmdr_info answers: the record, whether it differs from the
      cached one, and whether a profile lookup is pending for it. */
  datatype Fetch = Fetch(entry: CmdrEntry, different: bool, pending: bool)

  /** _fetch_cmdr_info on values: a cached commander gives the cached record
      when the sighting repeats it and a refreshed copy otherwise; an
      uncached one gives the sighting itself, pending a lookup. */
  function FetchInfo(cache: map<string, CmdrEntry>, name: string, data: CmdrEntry): (f: Fetch)
    ensures f.pending <==> name !in cache
    ensures f.different <==> name !in cache || !SameSighting(data, cache[name])
  {
    if name in cache then
      if SameSighting(data, cache[name]) then Fetch(cache[name], false, false)
      else Fetch(Refreshed(cache[name], data), true, false)
    else Fetch(data, true, true)
  }

  /** The cache after _fetch_cmdr_info: a changed sighting of a cached
      commander replaces the cached record with the refreshed copy. */
  function CacheAfter(cache: map<string, CmdrEntry>, name: string, data: CmdrEntry): map<string, CmdrEntry> {
    var f := FetchInfo(cache, name, data);
    if f.different && !f.pending then cache[name := f.entry] else cache
  }

  /** What a sighting appends to the log: the record, when it differs from
      the cached one and no lookup is pending. */
  function Recorded(cache: map<string, CmdrEntry>, name: string, data: CmdrEntry): seq<CmdrEntry> {
    var f := FetchInfo(cache, name, data);
    if f.different && !f.pending then [f.entry] else []
  }

  /** A sighting that repeats the cached record leaves log and cache alone. */
  lemma SightingRepeated(cache: map<string, CmdrEntry>, name: string, data: CmdrEntry)
    requires name in cache && SameSighting(data, cache[name])
    ensures Recorded(cache, name, data) == [] && CacheAfter(cache, name, data) == cache
    ensures FetchInfo(cache, name, data) == Fetch(cache[name], false, false)
  {
  }

  /** A changed sighting of a cached commander logs one record and caches
      it: the sighting's system, ship, legal status and time over the cached
      name, squadron tag and profile. */
  lemma SightingChanged(cache: map<string, CmdrEntry>, name: string, data: CmdrEntry)
    requires name in cache && !SameSighting(data, cache[name])
    ensures |Recorded(cache, name, data)| == 1
    ensures var c := Recorded(cache, name, data)[0];
            && CacheAfter(cache, name, data) == cache[name := c]
            && c.system == data.system && c.ship == data.ship && c.shipLocalised == data.shipLocalised
            && c.legalStatus == data.legalStatus && c.timestamp == data.timestamp
            && c.targetName == cache[name].targetName && c.squadronId == cache[name].squadronId
            && c.ranks == cache[name].ranks && c.squadron == cache[name].squadron && c.inaraUrl == cache[name].inaraUrl
  {
  }

  /** A commander not yet cached: nothing is logged or cached until the
      profile lookup answers. */
  lemma SightingUncached(cache: map<string, CmdrEntry>, name: string, data: CmdrEntry)
    requires name !in cache
    ensures Recorded(cache, name, data) == [] && CacheAfter(cache, name, data) == cache
    ensures FetchInfo(cache, name, data) == Fetch(data, true, true)
  {
  }

  /** Seeing a cached commander again just as before is logged again exactly
      when the squadron tag differs from the cached one: the refreshed copy
      keeps the old tag, so that one difference never settles. */
  lemma SightingSettles(cache: map<string, CmdrEntry>, name: string, data: CmdrEntry)
    requires name in cache
    ensures var cache' := CacheAfter(cache, name, data);
            && name in cache'
            && (|Recorded(cache', name, data)| == 1 <==> data.squadronId != cache[name].squadronId)
  {
    var cache' := CacheAfter(cache, name, data);
    if SameSighting(data, cache[name]) {
      assert cache' == cache;
    } else {
      assert cache'[name] == Refreshed(cache[name], data);
    }
  }

  //
  // Profile answers
  //

  /** The first event's profile in an answer, when the answer has one. */
  function ProfileOf(response: InaraResponse): Option<InaraProfile> {
    match response.events
    case Some(es) => if |es| > 0 then es[0].eventData else None
    case None => None
  }

  /** The record after a profile answer: on success, each of ranks, squadron
      and profile address the answer carries is written in; nothing else changes. */
  function Enriched(success: bool, response: InaraResponse, data: CmdrEntry): (r: CmdrEntry)
    ensures r == data.(ranks := r.ranks, squadron := r.squadron, inaraUrl := r.inaraUrl)
    ensures !success || ProfileOf(response).None? ==> r == data
    ensures success && ProfileOf(response).Some? ==>
              var p := ProfileOf(response).value;
              && r.ranks == (if p.ranks.Some? then p.ranks else data.ranks)
              && r.squadron == (if p.squadron.Some? then p.squadron else data.squadron)
              && r.inaraUrl == (if p.inaraUrl.Some? then p.inaraUrl else data.inaraUrl)
  {
    match ProfileOf(response)
    case Some(p) =>
      if success then
        data.(ranks := if p.ranks.Some? then p.ranks else data.ranks,
              squadron := if p.squadron.Some? then p.squadron else data.squadron,
              inaraUrl := if p.inaraUrl.Some? then p.inaraUrl else data.inaraUrl)
      else data
    case None => data
  }

  /** inara_data_received as written: the record is bound only inside the
      success branch, so a failed lookup raises before anything is stored
      (None), and the sighting is lost. */
  function InaraReceivedAsWritten(success: bool, response: InaraResponse, data: CmdrEntry): (r: Option<CmdrEntry>)
    ensures r.Some? <==> success
  {
    if success then Some(Enriched(success, response, data)) else None
  }

  /** A failed lookup stores nothing as written, although the handler means to
      log and cache the sighting in all cases; the corrected handler stores the
      sighting unchanged. */
  lemma InaraFailureLost(response: InaraResponse, data: CmdrEntry)
    ensures InaraReceivedAsWritten(false, response, data).None?
    ensures Enriched(false, response, data) == data
  {
  }

  //
  // Expiry
  //

  /** An entry is too old once more than 90 days separate it from `now`. */
  predicate Expired(e: CmdrEntry, now: int) {
    now - e.timestamp > ExpirySeconds
  }

  /** The entries within 90 days of `now`, in order. */
  function Unexpired(s: seq<CmdrEntry>, now: int): (r: seq<CmdrEntry>)
    ensures |r| <= |s|
    ensures forall i | 0 <= i < |r| :: !Expired(r[i], now)
    decreases |s|
  {
    if s == [] then []
    else
      var rest := Unexpired(s[1..], now);
      if Expired(s[0], now) then rest else [s[0]] + rest
  }

  /** The expiry keeps exactly the entries within 90 days: none older, and
      every younger one. */
  lemma {:induction false} UnexpiredKeeps(s: seq<CmdrEntry>, now: int)
    ensures forall x :: x in Unexpired(s, now) <==> x in s && !Expired(x, now)
    decreases |s|
  {
    if s != [] {
      UnexpiredKeeps(s[1..], now);
      assert forall x :: x in s <==> x == s[0] || x in s[1..];
    }
  }

  lemma {:induction false} UnexpiredAppend(a: seq<CmdrEntry>, b: seq<CmdrEntry>, now: int)
    ensures Unexpired(a + b, now) == Unexpired(a, now) + Unexpired(b, now)
    decreases |a|
  {
    if a != [] {
      assert (a + b)[1..] == a[1..] + b;
      UnexpiredAppend(a[1..], b, now);
    } else {
      assert a + b == b;
    }
  }

  /** The position of the first occurrence of `x` in `s`. */
  function FirstIndex(s: seq<CmdrEntry>, x: CmdrEntry): (i: nat)
    requires x in s
    ensures i < |s| && s[i] == x && x !in s[..i]
    decreases |s|
  {
    if s[0] == x then 0
    else
      var i := FirstIndex(s[1..], x);
      assert s[..i + 1] == [s[0]] + s[1..][..i];
      i + 1
  }

  /** list.remove: the first occurrence of `x` taken out. */
  function RemoveFirst(s: seq<CmdrEntry>, x: CmdrEntry): (r: seq<CmdrEntry>)
    requires x in s
    ensures |r| == |s| - 1
    ensures multiset(r) == multiset(s) - multiset{x}
  {
    var i := FirstIndex(s, x);
    assert s == s[..i] + [x] + s[i + 1..];
    s[..i] + s[i + 1..]
  }

  /** Removing an occurrence found in the front part leaves the back part alone. */
  lemma RemoveFirstFront(p: seq<CmdrEntry>, q: seq<CmdrEntry>, x: CmdrEntry)
    requires x in p
    ensures RemoveFirst(p + q, x) == RemoveFirst(p, x) + q
  {
    var i := FirstIndex(p, x);
    assert (p + q)[..i + 1] == p[..i + 1];
    assert (p + q)[i] == x && x !in (p + q)[..i];
    FirstIndexUnique(p + q, x, i);
    assert (p + q)[..i] == p[..i];
    assert (p + q)[i + 1..] == p[i + 1..] + q;
  }

  lemma FirstIndexUnique(s: seq<CmdrEntry>, x: CmdrEntry, i: nat)
    requires i < |s| && s[i] == x && x !in s[..i]
    ensures FirstIndex(s, x) == i
  {
    var k := FirstIndex(s, x);
  }

  /** Taking out an expired entry does not change the unexpired ones. */
  lemma UnexpiredRemove(s: seq<CmdrEntry>, x: CmdrEntry, now: int)
    requires x in s && Expired(x, now)
    ensures Unexpired(RemoveFirst(s, x), now) == Unexpired(s, now)
  {
    var i := FirstIndex(s, x);
    assert s == s[..i] + ([x] + s[i + 1..]);
    UnexpiredAppend(s[..i], [x] + s[i + 1..], now);
    UnexpiredAppend([x], s[i + 1..], now);
    UnexpiredAppend(s[..i], s[i + 1..], now);
    assert Unexpired([x], now) == [];
  }

  /** _expire_old_targets' loop: the entries visited from the last to the
      first, each expired one removed with list.remove (its first occurrence),
      the iterator stepping down one place either way. */
  method ExpireTargets(log: seq<CmdrEntry>, now: int) returns (r: seq<CmdrEntry>)
    ensures r == Unexpired(log, now)
  {
    r := log;
    var k := |r|;
    assert r[..k] == log && r[k..] == [];
    while k > 0
      invariant 0 <= k <= |r|
      invariant Unexpired(r[..k], now) + r[k..] == Unexpired(log, now)
    {
      if Expired(r[k - 1], now) {
        ExpireDrop(r, k, now);
        r := RemoveFirst(r, r[k - 1]);
      } else {
        ExpireKeep(r, k, now);
      }
      k := k - 1;
    }
    assert r[..0] == [] && r[0..] == r;
  }

  /** An expired entry at the `k`-th place: removing it keeps the unexpired
      entries of the part still to visit, followed by the part visited. */
  lemma ExpireDrop(r: seq<CmdrEntry>, k: int, now: int)
    requires 0 < k <= |r| && Expired(r[k - 1], now)
    ensures var r' := RemoveFirst(r, r[k - 1]);
            && k - 1 <= |r'|
            && Unexpired(r'[..k - 1], now) + r'[k - 1..] == Unexpired(r[..k], now) + r[k..]
  {
    var front := r[..k];
    var back := r[k..];
    var target := r[k - 1];
    assert target == front[k - 1];
    var rest := RemoveFirst(front, target);
    assert r == front + back;
    RemoveFirstFront(front, back, target);
    UnexpiredRemove(front, target, now);
    var r' := rest + back;
    assert r'[..k - 1] == rest && r'[k - 1..] == back;
  }

  /** An entry within 90 days at the `k`-th place stays, and moves to the
      part visited. */
  lemma ExpireKeep(r: seq<CmdrEntry>, k: int, now: int)
    requires 0 < k <= |r| && !Expired(r[k - 1], now)
    ensures Unexpired(r[..k - 1], now) + r[k - 1..] == Unexpired(r[..k], now) + r[k..]
  {
    var front := r[..k];
    var target := r[k - 1];
    assert front == front[..k - 1] + [target];
    UnexpiredAppend(front[..k - 1], [target], now);
    assert r[..k - 1] == front[..k - 1] && r[k - 1..] == [target] + r[k..];
  }

  //
  // The log object
  //

  class TargetLog {
    /** The sightings, oldest first. */
    var log: seq<CmdrEntry>
    /** The latest record per commander name. */
    var cache: map<string, CmdrEntry>
    /** The profile lookups handed to the request manager, in order; each
        carries the record it completes. */
    var requests: seq<CmdrEntry>

    /** __init__ with the entries load() read from the file (none without
        one), then the expiry pass. */
    constructor (stored: seq<CmdrEntry>, now: int)
      ensures log == Unexpired(stored, now) && cache == map[] && requests == []
    {
      log := [];
      cache := map[];
      requests := [];
      new;
      log := stored;
      ExpireOldTargets(now);
    }

    /** get_target_info: the latest entry for the commander, if any. */
    function GetTargetInfo(name: string): (r: Option<CmdrEntry>)
      reads this
      ensures r.None? <==> forall j | 0 <= j < |log| :: log[j].targetName != name
      ensures r.Some? ==> r.value.targetName == name
                          && exists i | 0 <= i < |log| :: log[i] == r.value
                                                          && forall j | i < j < |log| :: log[j].targetName != name
    {
      var i := LastIndexFor(log, name);
      if i >= 0 then Some(log[i]) else None
    }

    /** ship_targeted: a fully scanned commander is looked up and, when the
        sighting is new and no lookup is pending, logged. */
    method ShipTargeted(ev: ShipTargetedEvent, system: string)
      modifies this
      ensures SightedName(ev).None? ==> log == old(log) && cache == old(cache) && requests == old(requests)
      ensures SightedName(ev).Some? ==>
                && log == old(log) + Recorded(old(cache), SightedName(ev).value, ShipSighting(ev, system, SightedName(ev).value))
                && cache == CacheAfter(old(cache), SightedName(ev).value, ShipSighting(ev, system, SightedName(ev).value))
                && requests == old(requests) + (if SightedName(ev).value in old(cache) then [] else [ShipSighting(ev, system, SightedName(ev).value)])
    {
      var name := SightedName(ev);
      if name.None? {
        return;
      }
      var data := ShipSighting(ev, system, name.value);
      var entry, different, pending := FetchCmdrInfo(name.value, data);
      if different && !pending {
        log := log + [entry];
      }
    }

    /** friend_request: the requesting commander is looked up and, when the
        sighting is new and no lookup is pending, logged. */
    method FriendRequest(ev: FriendsEvent, system: string)
      modifies this
      ensures ev.name.None? ==> log == old(log) && cache == old(cache) && requests == old(requests)
      ensures ev.name.Some? ==>
                && log == old(log) + Recorded(old(cache), ev.name.value, FriendSighting(ev, system, ev.name.value))
                && cache == CacheAfter(old(cache), ev.name.value, FriendSighting(ev, system, ev.name.value))
                && requests == old(requests) + (if ev.name.value in old(cache) then [] else [FriendSighting(ev, system, ev.name.value)])
    {
      if ev.name.None? {
        return;
      }
      var data := FriendSighting(ev, system, ev.name.value);
      var entry, different, pending := FetchCmdrInfo(ev.name.value, data);
      if different && !pending {
        log := log + [entry];
      }
    }

    /** _fetch_cmdr_info: answers from the cache, refreshing a changed
        record there, or queues one profile lookup for an uncached commander. */
    method FetchCmdrInfo(name: string, data: CmdrEntry) returns (entry: CmdrEntry, different: bool, pending: bool)
      modifies this
      ensures Fetch(entry, different, pending) == FetchInfo(old(cache), name, data)
      ensures cache == CacheAfter(old(cache), name, data)
      ensures requests == old(requests) + (if pending then [data] else [])
      ensures log == old(log)
    {
      if name in cache {
        var cached := cache[name];
        if SameSighting(data, cached) {
          return cached, false, false;
        }
        var copy := Refreshed(cached, data);
        cache := cache[name := copy];
        return copy, true, false;
      }
      requests := requests + [data];
      return data, true, true;
    }

    /** inara_data_received, corrected: the record the lookup was made for,
        with whatever profile a successful answer carries, is cached under its
        name and logged, whether or not the lookup succeeded. */
    method InaraDataReceived(success: bool, response: InaraResponse, data: CmdrEntry)
      modifies this
      ensures cache == old(cache)[data.targetName := Enriched(success, response, data)]
      ensures log == old(log) + [Enriched(success, response, data)]
      ensures requests == old(requests)
    {
      var entry := Enriched(success, response, data);
      cache := cache[entry.targetName := entry];
      log := log + [entry];
    }

    /** _expire_old_targets: every entry more than 90 days older than `now`
        removed, the others kept in order. */
    method ExpireOldTargets(now: int)
      modifies this
      ensures log == Unexpired(old(log), now)
      ensures cache == old(cache) && requests == old(requests)
    {
      log := ExpireTargets(log, now);
    }
  }
}
