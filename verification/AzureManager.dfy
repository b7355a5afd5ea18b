/** The gateway's side of DNS reconciliation. */
module AzureManager {
  import opened Text
  import opened AzureDns

  /** Every write of ours created a record or replaced or removed one that this gateway owned at that moment. */
  ghost predicate OnlyOwn(instance: string, was: seq<Write>, now: seq<Write>) {
    && |was| <= |now| && now[..|was|] == was
    && forall i :: |was| <= i < |now| ==> OwnWrite(instance, now[i])
  }

  predicate OwnWrite(instance: string, w: Write) {
    (w.before.Some? ==> Owns(instance, w.before.value)) && (w.after.Some? ==> Owns(instance, w.after.value))
  }

  lemma OnlyOwnTogether(instance: string, a: seq<Write>, b: seq<Write>, c: seq<Write>)
    requires OnlyOwn(instance, a, b) && OnlyOwn(instance, b, c)
    ensures OnlyOwn(instance, a, c)
  {
    hide OwnWrite;
    assert c[..|a|] == b[..|a|];
    forall i | |a| <= i < |c| ensures OwnWrite(instance, c[i]) {
      if i < |b| {
        assert c[..|b|][i] == b[i];
      }
    }
  }

  /** A record as a host asks for it: marked as the gateway's, with the host, the address and five minutes to live. */
  predicate Asks(r: Record, instance: string, host: string, ip: string) {
    && r.managedBy == Some("ai-docker-farm-gateway") && r.owner == Some(instance) && r.routeHost == Some(host)
    && r.ttl == Some(300) && r.addresses == [Some(ip)] && !r.target
  }

  /** A record in place, whichever host it was made for. */
  predicate InPlace(r: Record, instance: string, ip: string) {
    && r.managedBy == Some("ai-docker-farm-gateway") && r.owner == Some(instance)
    && r.ttl == Some(300) && r.addresses == [Some(ip)] && !r.target
  }

  lemma SettledIsInPlace(instance: string, world: World, key: Key, ip: string)
    requires instance != ""
    ensures Settled(instance, world, key, ip) <==> key in world && InPlace(world[key], instance, ip)
  {
  }

  /** Every write since creates or updates the record of a host that belongs there, as the host asks for it. */
  ghost predicate OnlyPuts(
    instance: string, hosts: seq<string>, zones: seq<Zone>, ip: string, was: seq<Write>, now: seq<Write>)
  {
    && |was| <= |now| && now[..|was|] == was
    && forall i :: |was| <= i < |now| ==>
                     now[i].after.Some? && exists h <- hosts ::
                       Belongs(h, zones, now[i].key) && Asks(now[i].after.value, instance, h, ip)
  }

  /** Every write since deletes a record of one of these zones that is not desired. */
  ghost predicate OnlyDeletes(zones: set<Zone>, desired: set<Key>, was: seq<Write>, now: seq<Write>) {
    && |was| <= |now| && now[..|was|] == was
    && forall i :: |was| <= i < |now| ==> now[i].after.None? && now[i].key.zone in zones && now[i].key !in desired
  }

  lemma MorePuts(
    instance: string, hosts: seq<string>, zones: seq<Zone>, ip: string, i: nat, key: Key, a: seq<Write>, b: seq<Write>,
    c: seq<Write>)
    requires OnlyPuts(instance, hosts, zones, ip, a, b) && i < |hosts| && Belongs(hosts[i], zones, key)
    requires |b| <= |c| && c[..|b|] == b
    requires forall k :: |b| <= k < |c| ==>
                           c[k].key == key && c[k].after.Some? && Asks(c[k].after.value, instance, hosts[i], ip)
    ensures OnlyPuts(instance, hosts, zones, ip, a, c)
  {
    hide Belongs, Asks;
    assert c[..|a|] == b[..|a|];
    forall k | |a| <= k < |c|
      ensures c[k].after.Some? && exists h <- hosts ::
                Belongs(h, zones, c[k].key) && Asks(c[k].after.value, instance, h, ip)
    {
      if k < |b| {
        assert c[..|b|][k] == b[k];
      } else {
        assert hosts[i] in hosts;
      }
    }
  }

  lemma MoreDeletes(zones: set<Zone>, some: set<Zone>, desired: set<Key>, a: seq<Write>, b: seq<Write>, c: seq<Write>)
    requires OnlyDeletes(zones, desired, a, b) && OnlyDeletes(some, desired, b, c) && some <= zones
    ensures OnlyDeletes(zones, desired, a, c)
  {
    assert c[..|a|] == b[..|a|];
    forall k | |a| <= k < |c| ensures c[k].after.None? && c[k].key.zone in zones && c[k].key !in desired {
      if k < |b| {
        assert c[..|b|][k] == b[k];
      }
    }
  }

  /** The record a route asks for. */
  function Wanted(instance: string, host: string, ip: string): Record {
    Record(Some(MANAGED), Some(instance), Some(host), Some(300), [Some(ip)], false, None)
  }

  predicate Settled(instance: string, world: World, key: Key, ip: string) {
    key in world && Owns(instance, world[key]) && UpToDate(world[key], ip)
  }

  /** Nothing stands in the way of a record: it is absent, up to date, or ours with a version to name. */
  predicate Attainable(instance: string, world: World, key: Key, ip: string) {
    key !in world || (Owns(instance, world[key]) && (UpToDate(world[key], ip) || world[key].etag.Some?))
  }

  method Upsert(dns: Dns, instance: string, key: Key, host: string, ip: string) returns (ok: bool)
    requires dns.Valid() && instance != ""
    modifies dns
    ensures dns.Valid() && OnlyOwn(instance, old(dns.writes), dns.writes)
    ensures |old(dns.writes)| <= |dns.writes| && dns.writes[..|old(dns.writes)|] == old(dns.writes)
    ensures forall k :: |old(dns.writes)| <= k < |dns.writes| ==>
                          && dns.writes[k].key == key && dns.writes[k].after.Some?
                          && Asks(dns.writes[k].after.value, instance, host, ip)
    ensures dns.Quiet() ==> (ok <==> Attainable(instance, old(dns.world), key, ip))
    ensures dns.Quiet() && ok ==>
              Settled(instance, dns.world, key, ip) && dns.world == old(dns.world)[key := dns.world[key]]
    ensures dns.Quiet() && (!ok || Settled(instance, old(dns.world), key, ip)) ==>
              dns.world == old(dns.world) && dns.writes == old(dns.writes)
  {
    hide Recorded, Bounded;
    var existing := dns.Get(key);
    var condition := MustBeAbsent;
    match existing {
      case ReadFailed => return false;
      case Absent =>
      case Found(record) =>
        if !Owns(instance, record) {
          return false;
        }
        if UpToDate(record, ip) {
          return true;
        }
        if record.etag.None? {
          return false;
        }
        condition := MustBe(record.etag.value);
        assert (key, record.etag.value) in dns.history && dns.history[(key, record.etag.value)] == record by {
          dns.VersionOf(key);
        }
    }
    ok := dns.Put(key, Wanted(instance, host, ip), condition);
  }

  // ---------- Desired records ----------

  /** The record of a host: in the zone that is chosen for it. */
  predicate Belongs(host: string, zones: seq<Zone>, key: Key) {
    exists i | 0 <= i < |zones| && Chosen(host, zones, i) ::
      key.zone == zones[i] && RelativeName(host, key.zone.name) == Some(key.name)
  }

  lemma OneZoneIsChosen(host: string, zones: seq<Zone>, i: nat, j: nat)
    requires i < |zones| && j < |zones| && Chosen(host, zones, i) && Chosen(host, zones, j)
    ensures i == j
  {
    hide InZone;
  }

  predicate Desired(hosts: seq<string>, zones: seq<Zone>, key: Key) {
    exists h <- hosts :: Belongs(h, zones, key)
  }

  method KeyOf(host: string, zones: seq<Zone>) returns (key: Option<Key>)
    ensures forall k :: Belongs(host, zones, k) <==> key == Some(k)
    ensures key.None? <==> forall z <- zones :: !InZone(host, z)
  {
    hide RelativeName;
    var zone := SelectZone(host, zones);
    if zone.None? {
      return None;
    }
    key := Some(Key(zone.value, RelativeName(host, zone.value.name).value));
    ghost var i :| 0 <= i < |zones| && Chosen(host, zones, i) && zone.value == zones[i];
    forall k ensures Belongs(host, zones, k) <==> key == Some(k) {
      if Belongs(host, zones, k) {
        var j :| 0 <= j < |zones| && Chosen(host, zones, j) && k.zone == zones[j];
        OneZoneIsChosen(host, zones, i, j);
      }
    }
  }

  lemma OneMoreHost(hosts: seq<string>, i: nat, zones: seq<Zone>)
    requires i < |hosts|
    ensures forall k :: Desired(hosts[..i + 1], zones, k) <==>
                        Desired(hosts[..i], zones, k) || Belongs(hosts[i], zones, k)
  {
    hide Belongs;
    assert hosts[..i + 1] == hosts[..i] + [hosts[i]];
  }

  /** The worlds agree outside the given keys. */
  ghost predicate SameOutside(was: World, now: World, keys: set<Key>) {
    forall k :: k !in keys ==> (k in now <==> k in was) && (k in was ==> now[k] == was[k])
  }

  lemma OneMoreKey(was: World, mid: World, now: World, keys: set<Key>, key: Key)
    requires SameOutside(was, mid, keys) && key in now && now == mid[key := now[key]]
    ensures SameOutside(was, now, keys + {key})
  {
  }

  /** Creates or updates the record of every host that lies in a configured zone. */
  method UpsertAll(
    dns: Dns, instance: string, hosts: seq<string>, zones: seq<Zone>, ip: string)
    returns (ok: bool, desired: set<Key>, count: nat, warnings: nat)
    requires dns.Valid() && instance != ""
    modifies dns
    ensures dns.Valid() && OnlyOwn(instance, old(dns.writes), dns.writes)
    ensures ok ==> (forall k :: k in desired <==> Desired(hosts, zones, k)) && count == |desired|
    ensures ok ==> warnings == |HomelessTo(hosts, |hosts|, zones)|
    ensures OnlyPuts(instance, hosts, zones, ip, old(dns.writes), dns.writes)
    ensures dns.Quiet() && ok ==>
              SameOutside(old(dns.world), dns.world, desired) && forall k <- desired ::
                Settled(instance, dns.world, k, ip)
    ensures dns.Quiet() && !ok ==> exists k :: Desired(hosts, zones, k) && !Attainable(instance, old(dns.world), k, ip)
    ensures dns.Quiet() && (forall k :: Desired(hosts, zones, k) ==> Settled(instance, old(dns.world), k, ip)) ==>
              dns.world == old(dns.world) && dns.writes == old(dns.writes)
  {
    hide Belongs, Desired, Settled, Attainable, OnlyOwn, OnlyPuts, Asks, Homeless, HomelessTo, InZone, SameOutside,
      Recorded, Bounded;
    desired, count, warnings := {}, 0, 0;
    NothingWritten(instance, dns.writes);
    NothingPut(instance, hosts, zones, ip, dns.writes);
    NobodyHomeless(hosts, zones);
    NothingOutside(dns.world);
    NothingDesired(zones);
    assert hosts[..0] == [];
    for i := 0 to |hosts|
      invariant dns.Valid() && OnlyOwn(instance, old(dns.writes), dns.writes)
      invariant (forall k :: k in desired <==> Desired(hosts[..i], zones, k)) && count == |desired|
      invariant warnings == |HomelessTo(hosts, i, zones)|
      invariant OnlyPuts(instance, hosts, zones, ip, old(dns.writes), dns.writes)
      invariant dns.Quiet() ==>
          SameOutside(old(dns.world), dns.world, desired) && forall k <- desired :: Settled(instance, dns.world, k, ip)
      invariant dns.Quiet() && (forall k :: Desired(hosts, zones, k) ==> Settled(instance, old(dns.world), k, ip)) ==>
          dns.world == old(dns.world) && dns.writes == old(dns.writes)
    {
      OneMoreHost(hosts, i, zones);
      StillDesired(hosts, i, zones);
      var key := KeyOf(hosts[i], zones);
      HomelessHost(hosts[i], zones, key);
      OneMoreHomeless(hosts, i, zones);
      if key.None? {
        warnings := warnings + 1;
      } else if key.value !in desired {
        var k := key.value;
        ghost var before, log := dns.world, dns.writes;
        ok := Upsert(dns, instance, k, hosts[i], ip);
        OnlyOwnTogether(instance, old(dns.writes), log, dns.writes);
        MorePuts(instance, hosts, zones, ip, i, k, old(dns.writes), log, dns.writes);
        if !ok {
          if dns.Quiet() {
            SameAttainable(instance, old(dns.world), before, desired, k, ip);
          }
          return;
        }
        if dns.Quiet() {
          OneMoreKey(old(dns.world), before, dns.world, desired, k);
          StillSettled(instance, before, dns.world, desired, k, ip);
        }
        desired, count := desired + {k}, count + 1;
      }
    }
    assert hosts[..|hosts|] == hosts;
    ok := true;
  }

  /** The host lies in none of the zones. */
  predicate Homeless(host: string, zones: seq<Zone>) {
    forall z <- zones :: RelativeName(host, z.name).None?
  }

  /** The positions of hosts that lie in no zone. */
  function HomelessTo(hosts: seq<string>, n: nat, zones: seq<Zone>): set<int>
    requires n <= |hosts|
  {
    set i | 0 <= i < n && Homeless(hosts[i], zones)
  }

  lemma NobodyHomeless(hosts: seq<string>, zones: seq<Zone>)
    ensures |HomelessTo(hosts, 0, zones)| == 0
  {
    hide Homeless;
    assert HomelessTo(hosts, 0, zones) == {};
  }

  lemma OneMoreHomeless(hosts: seq<string>, i: nat, zones: seq<Zone>)
    requires i < |hosts|
    ensures |HomelessTo(hosts, i + 1, zones)| ==
            |HomelessTo(hosts, i, zones)| + if Homeless(hosts[i], zones) then 1 else 0
  {
    hide Homeless;
    var now := HomelessTo(hosts, i + 1, zones);
    assert now == HomelessTo(hosts, i, zones) + if Homeless(hosts[i], zones) then {i as int} else {};
  }

  lemma NothingOutside(world: World)
    ensures SameOutside(world, world, {})
  {
  }

  lemma HomelessHost(host: string, zones: seq<Zone>, key: Option<Key>)
    requires key.None? <==> forall z <- zones :: !InZone(host, z)
    ensures key.None? <==> Homeless(host, zones)
  {
    hide RelativeName;
  }

  lemma NothingPut(instance: string, hosts: seq<string>, zones: seq<Zone>, ip: string, writes: seq<Write>)
    ensures OnlyPuts(instance, hosts, zones, ip, writes, writes)
  {
  }

  lemma NothingDeleted(zones: set<Zone>, desired: set<Key>, writes: seq<Write>)
    ensures OnlyDeletes(zones, desired, writes, writes)
  {
  }

  lemma NothingWritten(instance: string, writes: seq<Write>)
    ensures OnlyOwn(instance, writes, writes)
  {
  }

  lemma NothingDesired(zones: seq<Zone>)
    ensures forall k :: !Desired([], zones, k)
  {
  }

  lemma StillDesired(hosts: seq<string>, i: nat, zones: seq<Zone>)
    requires i < |hosts|
    ensures forall k :: Belongs(hosts[i], zones, k) ==> Desired(hosts, zones, k)
  {
    hide Belongs;
  }

  lemma SameAttainable(instance: string, was: World, now: World, keys: set<Key>, key: Key, ip: string)
    requires SameOutside(was, now, keys) && key !in keys
    ensures Attainable(instance, was, key, ip) == Attainable(instance, now, key, ip)
  {
  }

  lemma StillSettled(instance: string, mid: World, now: World, keys: set<Key>, key: Key, ip: string)
    requires key in now && now == mid[key := now[key]] && key !in keys && Settled(instance, now, key, ip)
    requires forall k <- keys :: Settled(instance, mid, k, ip)
    ensures forall k <- keys + {key} :: Settled(instance, now, k, ip)
  {
  }

  // ---------- Cleanup ----------

  /** A record of ours in this zone, under one of these names, that no host asks for. */
  predicate Surplus(instance: string, world: World, zone: Zone, names: set<string>, desired: set<Key>, key: Key) {
    key in world && key.zone == zone && key.name in names && Owns(instance, world[key]) && key !in desired
  }

  function Names(pages: seq<seq<string>>): set<string> {
    set page <- pages, name <- page :: name
  }

  /** The worlds agree except that the surplus records are gone. */
  ghost predicate Removed(instance: string, was: World, now: World, zone: Zone, names: set<string>, desired: set<Key>) {
    forall k ::
      (k in now <==> k in was && !Surplus(instance, was, zone, names, desired, k)) && (k in now ==> now[k] == was[k])
  }

  /** Deletes one record read from a page, if it is ours and not desired. */
  method RemoveOne(
    dns: Dns, instance: string, key: Key, record: Record, desired: set<Key>)
    returns (ok: bool, removed: bool)
    requires dns.Valid()
    requires record.etag.Some? ==>
               (key, record.etag.value) in dns.history && dns.history[(key, record.etag.value)] == record
    modifies dns
    ensures dns.Valid() && OnlyOwn(instance, old(dns.writes), dns.writes)
    ensures forall v <- old(dns.history) :: v in dns.history && dns.history[v] == old(dns.history)[v]
    ensures OnlyDeletes({key.zone}, desired, old(dns.writes), dns.writes)
    ensures ok ==> (removed <==> Owns(instance, record) && key !in desired)
    ensures !Owns(instance, record) || key in desired ==>
              ok && !removed && dns.world == old(dns.world) && dns.writes == old(dns.writes)
    ensures Owns(instance, record) && key !in desired && record.etag.None? ==>
              !ok && dns.world == old(dns.world) && dns.writes == old(dns.writes)
    ensures dns.Quiet() && Owns(instance, record) && key !in desired && record.etag.Some? ==>
              (key in old(dns.world) ==> old(dns.world)[key] == record) ==> ok && dns.world == old(dns.world) - {key}
  {
    hide Recorded, Bounded;
    if !Owns(instance, record) || key in desired {
      return true, false;
    }
    if record.etag.None? {
      return false, false;
    }
    var gone, missing := dns.Delete(key, record.etag.value);
    return gone || missing, true;
  }

  /** Reads one page: the records now present under its names. */
  method NextPage(dns: Dns, zone: Zone, names: seq<string>) returns (page: Option<seq<(Key, Record)>>)
    requires dns.Valid()
    modifies dns`world, dns`nextTag, dns`clock, dns`history
    ensures dns.Valid()
    ensures dns.Quiet() ==> page.Some? && dns.world == old(dns.world)
    ensures page.Some? ==> PageOf(dns.world, zone, names, page.value)
  {
    hide Recorded, Bounded;
    dns.Elapse();
    if dns.reply(dns.clock) != Ok {
      return None;
    }
    var records := [];
    for i := 0 to |names|
      invariant PageOf(dns.world, zone, names[..i], records)
    {
      assert names[..i + 1] == names[..i] + [names[i]];
      if Key(zone, names[i]) in dns.world && forall p <- records :: p.0 != Key(zone, names[i]) {
        records := records + [(Key(zone, names[i]), dns.world[Key(zone, names[i])])];
      }
    }
    assert names[..|names|] == names;
    page := Some(records);
  }

  predicate PageOf(world: World, zone: Zone, names: seq<string>, page: seq<(Key, Record)>) {
    && (forall p <- page :: p.0 in world && world[p.0] == p.1 && p.0.zone == zone && p.0.name in names)
    && (forall n <- names :: Key(zone, n) in world ==> exists p <- page :: p.0 == Key(zone, n))
    && OnceEach(page)
  }

  /** A page shows a record once. */
  predicate OnceEach(page: seq<(Key, Record)>) {
    forall i, j :: 0 <= i < j < |page| ==> page[i].0 != page[j].0
  }

  predicate OnPage(instance: string, page: seq<(Key, Record)>, desired: set<Key>, key: Key) {
    key !in desired && exists p <- page :: p.0 == key && Owns(instance, p.1)
  }

  /** The worlds agree except that what the page shows as ours and nobody wants is gone. */
  ghost predicate Cleared(instance: string, was: World, now: World, page: seq<(Key, Record)>, desired: set<Key>) {
    forall k :: (k in now <==> k in was && !OnPage(instance, page, desired, k)) && (k in now ==> now[k] == was[k])
  }

  /** Deletes what is surplus on one page. */
  method CleanPage(
    dns: Dns, instance: string, zone: Zone, page: seq<(Key, Record)>, desired: set<Key>)
    returns (ok: bool, deleted: nat)
    requires dns.Valid() && forall p <- page :: p.0 in dns.world && dns.world[p.0] == p.1
    requires OnceEach(page) && forall p <- page :: p.0.zone == zone
    modifies dns
    ensures dns.Valid() && OnlyOwn(instance, old(dns.writes), dns.writes)
    ensures OnlyDeletes({zone}, desired, old(dns.writes), dns.writes)
    ensures dns.Quiet() && ok ==> |dns.world| + deleted == |old(dns.world)|
    ensures dns.Quiet() && ok ==>
              Cleared(instance, old(dns.world), dns.world, page, desired)
    ensures dns.Quiet() && !ok ==> exists p <- page :: Owns(instance, p.1) && p.0 !in desired && p.1.etag.None?
    ensures (forall p <- page :: !Owns(instance, p.1) || p.0 in desired) ==>
              ok && dns.world == old(dns.world) && dns.writes == old(dns.writes)
  {
    hide Owns, OnlyOwn, OnlyDeletes, Cleared, OnceEach, Recorded, Bounded;
    deleted := 0;
    NothingCleared(instance, dns.world, page, desired);
    NothingWritten(instance, dns.writes);
    NothingDeleted({zone}, desired, dns.writes);
    PageVersions(dns, page);
    for i := 0 to |page|
      invariant dns.Valid() && OnlyOwn(instance, old(dns.writes), dns.writes)
      invariant forall p <- page :: p.1.etag.Some? ==>
                                      (p.0, p.1.etag.value) in dns.history && dns.history[(p.0, p.1.etag.value)] == p.1
      invariant OnlyDeletes({zone}, desired, old(dns.writes), dns.writes)
      invariant dns.Quiet() ==>
          Cleared(instance, old(dns.world), dns.world, page[..i], desired) && |dns.world| + deleted == |old(dns.world)|
      invariant (forall p <- page :: !Owns(instance, p.1) || p.0 in desired) ==>
          dns.world == old(dns.world) && dns.writes == old(dns.writes)
    {
      assert page[..i + 1] == page[..i] + [page[i]] && page[i] in page;
      ghost var log, mid := dns.writes, dns.world;
      if dns.Quiet() {
        NotYetCleared(instance, old(dns.world), dns.world, page, i, desired);
      }
      var removed;
      ok, removed := RemoveOne(dns, instance, page[i].0, page[i].1, desired);
      OnlyOwnTogether(instance, old(dns.writes), log, dns.writes);
      MoreDeletes({zone}, {page[i].0.zone}, desired, old(dns.writes), log, dns.writes);
      if !ok {
        return;
      }
      if dns.Quiet() {
        ClearedMore(instance, old(dns.world), mid, dns.world, page, i, desired, removed);
      }
      if removed {
        deleted := deleted + 1;
        if dns.Quiet() {
          OneFewer(mid, page[i].0);
        }
      }
    }
    assert page[..|page|] == page;
    ok := true;
  }

  lemma NothingCleared(instance: string, world: World, page: seq<(Key, Record)>, desired: set<Key>)
    ensures Cleared(instance, world, world, page[..0], desired)
  {
  }

  lemma ClearedMore(
    instance: string, was: World, mid: World, now: World, page: seq<(Key, Record)>, i: nat,
    desired: set<Key>, removed: bool)
    requires i < |page| && Cleared(instance, was, mid, page[..i], desired)
    requires removed <==> Owns(instance, page[i].1) && page[i].0 !in desired
    requires now == if removed then mid - {page[i].0} else mid
    ensures Cleared(instance, was, now, page[..i + 1], desired)
  {
    hide Owns;
    assert page[..i + 1] == page[..i] + [page[i]];
  }

  lemma NotYetCleared(
    instance: string, was: World, now: World, page: seq<(Key, Record)>, i: nat, desired: set<Key>)
    requires i < |page| && OnceEach(page) && Cleared(instance, was, now, page[..i], desired)
    requires page[i].0 in was && was[page[i].0] == page[i].1
    ensures page[i].0 in now && now[page[i].0] == page[i].1
  {
    hide Owns;
  }

  lemma OneFewer(world: World, key: Key)
    requires key in world
    ensures |world - {key}| + 1 == |world|
  {
    assert world.Keys == (world - {key}).Keys + {key};
  }

  lemma PageVersions(dns: Dns, page: seq<(Key, Record)>)
    requires dns.Valid() && forall p <- page :: p.0 in dns.world && dns.world[p.0] == p.1
    ensures forall p <- page :: p.1.etag.Some? ==>
                                  (p.0, p.1.etag.value) in dns.history && dns.history[(p.0, p.1.etag.value)] == p.1
  {
    forall p | p in page && p.1.etag.Some?
      ensures (p.0, p.1.etag.value) in dns.history && dns.history[(p.0, p.1.etag.value)] == p.1
    {
      dns.VersionOf(p.0);
    }
  }

  lemma PageSurplus(
    instance: string, world: World, zone: Zone, names: seq<string>, page: seq<(Key, Record)>, desired: set<Key>)
    requires PageOf(world, zone, names, page)
    ensures forall k :: OnPage(instance, page, desired, k) <==>
                        Surplus(instance, world, zone, (set n <- names), desired, k)
  {
    hide Owns;
  }

  lemma RemovedMore(
    instance: string, was: World, mid: World, now: World, zone: Zone, pages: seq<seq<string>>, i: nat,
    desired: set<Key>)
    requires i < |pages| && Removed(instance, was, mid, zone, Names(pages[..i]), desired)
    requires Removed(instance, mid, now, zone, (set n <- pages[i]), desired)
    ensures Removed(instance, was, now, zone, Names(pages[..i + 1]), desired)
  {
    hide Owns;
    MoreNames(pages, i);
  }

  lemma MoreNames(pages: seq<seq<string>>, i: nat)
    requires i < |pages|
    ensures Names(pages[..i + 1]) == Names(pages[..i]) + set n <- pages[i]
  {
    assert pages[..i + 1] == pages[..i] + [pages[i]];
  }

  /** Removes the gateway's surplus records of a zone, page by page. */
  method CleanupZone(
    dns: Dns, instance: string, zone: Zone, pages: seq<seq<string>>, desired: set<Key>)
    returns (ok: bool, deleted: nat)
    requires dns.Valid()
    modifies dns
    ensures dns.Valid() && OnlyOwn(instance, old(dns.writes), dns.writes)
    ensures OnlyDeletes({zone}, desired, old(dns.writes), dns.writes)
    ensures dns.Quiet() && ok ==> |dns.world| + deleted == |old(dns.world)|
    ensures dns.Quiet() && ok ==> Removed(instance, old(dns.world), dns.world, zone, Names(pages), desired)
    ensures dns.Quiet() && !ok ==>
              exists k ::
                Surplus(instance, old(dns.world), zone, Names(pages), desired, k) && old(dns.world)[k].etag.None?
    ensures dns.Quiet() && (forall k :: !Surplus(instance, old(dns.world), zone, Names(pages), desired, k)) ==>
              ok && dns.world == old(dns.world) && dns.writes == old(dns.writes)
  {
    hide OnlyOwn, OnlyDeletes, Recorded, Bounded, Owns, OnPage, PageOf, OnceEach;
    deleted := 0;
    NothingWritten(instance, dns.writes);
    NothingDeleted({zone}, desired, dns.writes);
    for i := 0 to |pages|
      invariant dns.Valid() && OnlyOwn(instance, old(dns.writes), dns.writes)
      invariant OnlyDeletes({zone}, desired, old(dns.writes), dns.writes)
      invariant dns.Quiet() ==>
          && Removed(instance, old(dns.world), dns.world, zone, Names(pages[..i]), desired)
          && |dns.world| + deleted == |old(dns.world)|
      invariant dns.Quiet() && (forall k :: !Surplus(instance, old(dns.world), zone, Names(pages), desired, k)) ==>
          dns.world == old(dns.world) && dns.writes == old(dns.writes)
    {
      ghost var mid, log := dns.world, dns.writes;
      var page := NextPage(dns, zone, pages[i]);
      if page.None? {
        return false, deleted;
      }
      PageSurplus(instance, dns.world, zone, pages[i], page.value, desired);
      PageIsPresent(dns.world, zone, pages[i], page.value);
      var more;
      ok, more := CleanPage(dns, instance, zone, page.value, desired);
      OnlyOwnTogether(instance, old(dns.writes), log, dns.writes);
      MoreDeletes({zone}, {zone}, desired, old(dns.writes), log, dns.writes);
      if dns.Quiet() {
        SomeNames(pages, i);
        RemovedPage(instance, old(dns.world), mid, zone, pages, i, page.value, desired);
      }
      if !ok {
        return false, deleted;
      }
      if dns.Quiet() {
        RemovedMore(instance, old(dns.world), mid, dns.world, zone, pages, i, desired);
      }
      deleted := deleted + more;
    }
    assert pages[..|pages|] == pages;
    ok := true;
  }

  lemma PageIsPresent(world: World, zone: Zone, names: seq<string>, page: seq<(Key, Record)>)
    requires PageOf(world, zone, names, page)
    ensures forall p <- page :: p.0 in world && world[p.0] == p.1 && p.0.zone == zone
    ensures OnceEach(page)
  {
  }

  lemma SomeNames(pages: seq<seq<string>>, i: nat)
    requires i < |pages|
    ensures (set n <- pages[i]) <= Names(pages) && Names(pages[..i]) <= Names(pages)
  {
  }

  /** What a page shows in the way of surplus was surplus from the start. */
  lemma RemovedPage(
    instance: string, was: World, mid: World, zone: Zone, pages: seq<seq<string>>, i: nat, page: seq<(Key, Record)>,
    desired: set<Key>)
    requires i < |pages| && Removed(instance, was, mid, zone, Names(pages[..i]), desired)
    requires PageOf(mid, zone, pages[i], page)
    ensures forall p <- page :: Owns(instance, p.1) && p.0 !in desired ==>
                                  Surplus(instance, was, zone, Names(pages), desired, p.0) && was[p.0] == p.1
  {
    hide Owns;
    SomeNames(pages, i);
  }

  // ---------- The whole reconciliation ----------

  /** Every wanted record is in place and no other record in the zones is ours. */
  ghost predicate AtTarget(instance: string, hosts: seq<string>, zones: seq<Zone>, ip: string, world: World) {
    && (forall k :: Desired(hosts, zones, k) ==> Settled(instance, world, k, ip))
    && forall k <- world :: k.zone in zones && Owns(instance, world[k]) ==> Desired(hosts, zones, k)
  }

  /** The listings name every record of the zones. */
  ghost predicate FullListing(world: World, zones: seq<Zone>, pages: Zone -> seq<seq<string>>) {
    forall k <- world :: k.zone in zones ==> k.name in Names(pages(k.zone))
  }

  /** Records that nobody asks for and that are not ours stay as they are, and nothing else appears. */
  ghost predicate OthersUntouched(instance: string, hosts: seq<string>, zones: seq<Zone>, was: World, now: World) {
    && (forall k <- was :: !Desired(hosts, zones, k) && !(k.zone in zones && Owns(instance, was[k])) ==>
                             k in now && now[k] == was[k])
    && forall k <- now :: k !in was ==> Desired(hosts, zones, k)
  }

  method CleanupAll(
    dns: Dns, instance: string, zones: seq<Zone>, pages: Zone -> seq<seq<string>>, desired: set<Key>)
    returns (ok: bool, deleted: nat)
    requires dns.Valid()
    modifies dns
    ensures dns.Valid() && OnlyOwn(instance, old(dns.writes), dns.writes)
    ensures OnlyDeletes((set z <- zones), desired, old(dns.writes), dns.writes)
    ensures dns.Quiet() && ok ==> |dns.world| + deleted == |old(dns.world)|
    ensures dns.Quiet() && ok ==> Swept(instance, old(dns.world), dns.world, zones, pages, desired)
    ensures dns.Quiet() && !ok ==>
              exists k :: SurplusIn(instance, old(dns.world), zones, pages, desired, k) && old(dns.world)[k].etag.None?
    ensures dns.Quiet() && (forall k :: !SurplusIn(instance, old(dns.world), zones, pages, desired, k)) ==>
              ok && dns.world == old(dns.world) && dns.writes == old(dns.writes)
  {
    hide OnlyOwn, OnlyDeletes, Recorded, Bounded, Owns, Removed;
    deleted := 0;
    NothingWritten(instance, dns.writes);
    NothingDeleted((set z <- zones), desired, dns.writes);
    for i := 0 to |zones|
      invariant dns.Valid() && OnlyOwn(instance, old(dns.writes), dns.writes)
      invariant OnlyDeletes((set z <- zones), desired, old(dns.writes), dns.writes)
      invariant dns.Quiet() ==>
          && Swept(instance, old(dns.world), dns.world, zones[..i], pages, desired)
          && |dns.world| + deleted == |old(dns.world)|
      invariant dns.Quiet() && (forall k :: !SurplusIn(instance, old(dns.world), zones, pages, desired, k)) ==>
          dns.world == old(dns.world) && dns.writes == old(dns.writes)
    {
      ghost var mid, log := dns.world, dns.writes;
      var more;
      ok, more := CleanupZone(dns, instance, zones[i], pages(zones[i]), desired);
      OnlyOwnTogether(instance, old(dns.writes), log, dns.writes);
      MoreDeletes((set z <- zones), {zones[i]}, desired, old(dns.writes), log, dns.writes);
      if dns.Quiet() {
        StillSurplus(instance, old(dns.world), mid, zones, i, pages, desired);
      }
      if !ok {
        return;
      }
      if dns.Quiet() {
        SweptMore(instance, old(dns.world), mid, dns.world, zones, i, pages, desired);
      }
      deleted := deleted + more;
    }
    assert zones[..|zones|] == zones;
    ok := true;
  }

  predicate SurplusIn(
    instance: string, world: World, zones: seq<Zone>, pages: Zone -> seq<seq<string>>, desired: set<Key>, key: Key)
  {
    key in world && key.zone in zones && key.name in Names(pages(key.zone)) && Owns(instance, world[key])
    && key !in desired
  }

  ghost predicate Swept(
    instance: string, was: World, now: World, zones: seq<Zone>, pages: Zone -> seq<seq<string>>, desired: set<Key>)
  {
    forall k ::
      (k in now <==> k in was && !SurplusIn(instance, was, zones, pages, desired, k)) && (k in now ==> now[k] == was[k])
  }

  lemma StillSurplus(
    instance: string, was: World, mid: World, zones: seq<Zone>, i: nat, pages: Zone -> seq<seq<string>>,
    desired: set<Key>)
    requires i < |zones| && Swept(instance, was, mid, zones[..i], pages, desired)
    ensures forall k :: Surplus(instance, mid, zones[i], Names(pages(zones[i])), desired, k) ==>
                          SurplusIn(instance, was, zones, pages, desired, k) && was[k] == mid[k]
  {
    hide Owns, Names;
  }

  lemma SweptMore(
    instance: string, was: World, mid: World, now: World, zones: seq<Zone>, i: nat, pages: Zone -> seq<seq<string>>,
    desired: set<Key>)
    requires i < |zones| && Swept(instance, was, mid, zones[..i], pages, desired)
    requires Removed(instance, mid, now, zones[i], Names(pages(zones[i])), desired)
    ensures Swept(instance, was, now, zones[..i + 1], pages, desired)
  {
    hide Owns, Names;
    assert zones[..i + 1] == zones[..i] + [zones[i]];
  }

  /** A write that the gateway may make: it replaces or removes only records marked as its own, creates or updates the
      record of a host as the host asks for it, and removes only what no host asks for. */
  ghost predicate RightWrite(instance: string, hosts: seq<string>, zones: seq<Zone>, ip: string, w: Write) {
    && (w.before.Some? ==>
          w.before.value.managedBy == Some("ai-docker-farm-gateway") && w.before.value.owner == Some(instance))
    && (w.after.Some? ==> exists h <- hosts :: Belongs(h, zones, w.key) && Asks(w.after.value, instance, h, ip))
    && (w.after.None? ==> w.key.zone in zones && !Desired(hosts, zones, w.key))
  }

  ghost predicate OnlyRight(
    instance: string, hosts: seq<string>, zones: seq<Zone>, ip: string, was: seq<Write>, now: seq<Write>)
  {
    && |was| <= |now| && now[..|was|] == was
    && forall i :: |was| <= i < |now| ==> RightWrite(instance, hosts, zones, ip, now[i])
  }

  lemma RightPuts(instance: string, hosts: seq<string>, zones: seq<Zone>, ip: string, was: seq<Write>, now: seq<Write>)
    requires OnlyOwn(instance, was, now) && OnlyPuts(instance, hosts, zones, ip, was, now)
    ensures OnlyRight(instance, hosts, zones, ip, was, now)
  {
    hide Belongs, Asks;
    forall i | |was| <= i < |now| ensures RightWrite(instance, hosts, zones, ip, now[i]) {
      assert OwnWrite(instance, now[i]);
    }
  }

  lemma RightDeletes(
    instance: string, hosts: seq<string>, zones: seq<Zone>, ip: string, desired: set<Key>, a: seq<Write>, b: seq<Write>,
    c: seq<Write>)
    requires forall k :: k in desired <==> Desired(hosts, zones, k)
    requires OnlyRight(instance, hosts, zones, ip, a, b) && OnlyOwn(instance, b, c)
    requires OnlyDeletes((set z <- zones), desired, b, c)
    ensures OnlyRight(instance, hosts, zones, ip, a, c)
  {
    hide Belongs, Asks, Desired;
    assert c[..|a|] == b[..|a|];
    forall i | |a| <= i < |c| ensures RightWrite(instance, hosts, zones, ip, c[i]) {
      if i < |b| {
        assert c[..|b|][i] == b[i];
      } else {
        assert OwnWrite(instance, c[i]);
      }
    }
  }

  /** The gateway's records in the zones that the listings name and no host asks for. */
  function Unwanted(
    instance: string, world: World, hosts: seq<string>, zones: seq<Zone>, pages: Zone -> seq<seq<string>>): set<Key>
  {
    set k <- world | k.zone in zones && (exists page <- pages(k.zone) :: k.name in page)
                     && world[k].managedBy == Some("ai-docker-farm-gateway") && world[k].owner == Some(instance)
                     && !Desired(hosts, zones, k)
  }

  lemma CountDeleted(
    instance: string, hosts: seq<string>, zones: seq<Zone>, ip: string, was: World, mid: World, now: World,
    pages: Zone -> seq<seq<string>>, desired: set<Key>)
    requires instance != "" && forall k :: k in desired <==> Desired(hosts, zones, k)
    requires SameOutside(was, mid, desired) && Swept(instance, mid, now, zones, pages, desired)
    ensures |mid| - |now| == |Unwanted(instance, was, hosts, zones, pages)|
  {
    hide Desired;
    var gone := Unwanted(instance, was, hosts, zones, pages);
    assert forall k :: k in gone <==> SurplusIn(instance, mid, zones, pages, desired, k);
    assert mid.Keys == now.Keys + gone && now.Keys !! gone;
  }

  /** One run. Whatever others do, every write of ours concerns a record we own at that moment or one that was absent.
      Left alone, a run that succeeds reaches the target and touches nothing else, it fails only over a record it may
      not write, and at the target it writes nothing. */
  method ReconcileDns(
    dns: Dns, instance: string, cfg: AzureConfig, hosts: seq<string>, ip: string, pages: Zone -> seq<seq<string>>)
    returns (ok: bool, count: nat, deleted: nat, warnings: nat)
    requires dns.Valid()
    modifies dns
    ensures dns.Valid() && OnlyOwn(instance, old(dns.writes), dns.writes)
    ensures var zones := Configured(cfg, Candidates(cfg));
            dns.Quiet() && ok ==>
              && OthersUntouched(instance, hosts, zones, old(dns.world), dns.world)
              && (FullListing(old(dns.world), zones, pages) ==> AtTarget(instance, hosts, zones, ip, dns.world))
    ensures var zones := Configured(cfg, Candidates(cfg));
            dns.Quiet() && instance != "" && zones != [] && AtTarget(instance, hosts, zones, ip, old(dns.world)) ==>
              ok && dns.world == old(dns.world) && dns.writes == old(dns.writes)
    ensures var zones := Configured(cfg, Candidates(cfg));
            dns.Quiet() && instance != "" && zones != [] && !ok ==>
              || (exists k :: Desired(hosts, zones, k) && !Attainable(instance, old(dns.world), k, ip))
              || (exists k <- old(dns.world) ::
                    k.zone in zones && Owns(instance, old(dns.world)[k]) && !Desired(hosts, zones, k)
                    && old(dns.world)[k].etag.None?)
    ensures OnlyRight(instance, hosts, Configured(cfg, Candidates(cfg)), ip, old(dns.writes), dns.writes)
    ensures var zones := Configured(cfg, Candidates(cfg));
            ok ==>
              && (exists desired: set<Key> ::
                    (forall k :: k in desired <==> Desired(hosts, zones, k)) && count == |desired|)
              && warnings == |set i | 0 <= i < |hosts| && Homeless(hosts[i], zones)|
              && (dns.Quiet() ==> deleted == |Unwanted(instance, old(dns.world), hosts, zones, pages)|)
    ensures instance == "" || Configured(cfg, Candidates(cfg)) == [] ==> !ok && dns.writes == old(dns.writes)
    ensures ok ==> instance != "" && Configured(cfg, Candidates(cfg)) != []
  {
    hide OnlyOwn, Recorded, Bounded, Owns, Attainable, Desired, NormalizeName, Candidates, Configured, Settled,
      SurplusIn, Names, OnlyPuts, OnlyDeletes, OnlyRight, Homeless, Unwanted;
    count, deleted, warnings := 0, 0, 0;
    NothingWritten(instance, dns.writes);
    NothingPut(instance, hosts, Configured(cfg, Candidates(cfg)), ip, dns.writes);
    RightPuts(instance, hosts, Configured(cfg, Candidates(cfg)), ip, dns.writes, dns.writes);
    if instance == "" {
      return false, 0, 0, 0;
    }
    var zones := ConfiguredZones(cfg);
    if |zones| == 0 {
      return false, 0, 0, 0;
    }
    var desired;
    ok, desired, count, warnings := UpsertAll(dns, instance, hosts, zones, ip);
    RightPuts(instance, hosts, zones, ip, old(dns.writes), dns.writes);
    if !ok {
      if dns.Quiet() && AtTarget(instance, hosts, zones, ip, old(dns.world)) {
        SettledIsAttainable(instance, hosts, zones, ip, old(dns.world));
      }
      return;
    }
    ghost var mid, log := dns.world, dns.writes;
    ok, deleted := CleanupAll(dns, instance, zones, pages, desired);
    OnlyOwnTogether(instance, old(dns.writes), log, dns.writes);
    if dns.Quiet() {
      BothPhases(instance, hosts, zones, ip, old(dns.world), mid, dns.world, pages, desired, ok);
      if ok {
        CountDeleted(instance, hosts, zones, ip, old(dns.world), mid, dns.world, pages, desired);
      }
    }
    RightDeletes(instance, hosts, zones, ip, desired, old(dns.writes), log, dns.writes);
  }

  lemma SettledIsAttainable(instance: string, hosts: seq<string>, zones: seq<Zone>, ip: string, world: World)
    requires AtTarget(instance, hosts, zones, ip, world)
    ensures forall k :: Desired(hosts, zones, k) ==> Attainable(instance, world, k, ip)
  {
    hide Owns, Desired, UpToDate;
  }

  lemma BothPhases(
    instance: string, hosts: seq<string>, zones: seq<Zone>, ip: string, was: World, mid: World, now: World,
    pages: Zone -> seq<seq<string>>,
    desired: set<Key>, ok: bool)
    requires forall k :: k in desired <==> Desired(hosts, zones, k)
    requires SameOutside(was, mid, desired) && forall k <- desired :: Settled(instance, mid, k, ip)
    ensures AtTarget(instance, hosts, zones, ip, was) && mid == was ==>
              forall k :: !SurplusIn(instance, mid, zones, pages, desired, k)
    ensures forall k :: SurplusIn(instance, mid, zones, pages, desired, k) ==>
                          k in was && k.zone in zones && Owns(instance, was[k]) && !Desired(hosts, zones, k)
                          && was[k] == mid[k]
    ensures Swept(instance, mid, now, zones, pages, desired) ==> OthersUntouched(instance, hosts, zones, was, now)
    ensures Swept(instance, mid, now, zones, pages, desired) && FullListing(was, zones, pages) ==>
              AtTarget(instance, hosts, zones, ip, now)
  {
    hide Owns, Desired, UpToDate, Names;
  }

  /** A second run after a successful one writes and deletes nothing. */
  method RunTwice(
    dns: Dns, instance: string, cfg: AzureConfig, hosts: seq<string>, ip: string, pages: Zone -> seq<seq<string>>,
    again: Zone -> seq<seq<string>>)
    returns (first: bool, second: bool, ghost between: seq<Write>)
    requires dns.Valid()
    modifies dns
    ensures dns.Quiet() && first && FullListing(old(dns.world), Configured(cfg, Candidates(cfg)), pages) ==>
              second && dns.writes == between
  {
    hide OnlyOwn, Recorded, Bounded, Owns, Attainable, Desired, NormalizeName, Candidates, Configured, AtTarget,
      OthersUntouched, FullListing;
    var count, deleted, warnings;
    first, count, deleted, warnings := ReconcileDns(dns, instance, cfg, hosts, ip, pages);
    between := dns.writes;
    second, count, deleted, warnings := ReconcileDns(dns, instance, cfg, hosts, ip, again);
  }
}
