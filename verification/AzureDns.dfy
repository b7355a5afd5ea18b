/** DNS reconciliation against a zone that other writers change: conditional writes touch only records the gateway
    owns, and without interference a run reaches its target. */
module AzureDns {
  import opened Text

  datatype Zone = Zone(group: string, name: string)

  datatype Key = Key(zone: Zone, name: string)

  /** An A record set; `etag` numbers its version, and None is a record read without one. */
  datatype Record = Record(
    managedBy: Option<string>, owner: Option<string>, routeHost: Option<string>, ttl: Option<int>,
    addresses: seq<Option<string>>,
    target: bool, etag: Option<nat>)

  type World = map<Key, Record>

  const MANAGED := "ai-docker-farm-gateway"

  predicate IsManaged(r: Record) {
    r.managedBy == Some(MANAGED)
  }

  predicate Owns(instance: string, r: Record) {
    IsManaged(r) && instance != "" && r.owner == Some(instance)
  }

  predicate UpToDate(r: Record, ip: string) {
    r.ttl == Some(300) && r.addresses == [Some(ip)] && !r.target
  }

  // ---------- Zones and names ----------

  /** The record name of a host within a zone; None when the host lies outside. */
  function RelativeName(host: string, zone: string): Option<string> {
    var h, z := NormalizeName(host), NormalizeName(zone);
    if h == "" || z == "" then None
    else if h == z then Some("@")
    else if HasSuffix(h, "." + z) then Some(h[..|h| - |z| - 1])
    else None
  }

  predicate InZone(host: string, zone: Zone) {
    RelativeName(host, zone.name).Some?
  }

  /** The first of the zones with the longest name that the host lies in. */
  predicate Chosen(host: string, zones: seq<Zone>, i: nat)
    requires i < |zones|
  {
    && InZone(host, zones[i])
    && (forall j :: 0 <= j < i && InZone(host, zones[j]) ==> |zones[j].name| < |zones[i].name|)
    && forall j :: i < j < |zones| && InZone(host, zones[j]) ==> |zones[j].name| <= |zones[i].name|
  }

  method SelectZone(host: string, zones: seq<Zone>) returns (selected: Option<Zone>)
    ensures selected.None? <==> forall z <- zones :: !InZone(host, z)
    ensures selected.Some? ==> exists i :: 0 <= i < |zones| && Chosen(host, zones, i) && selected.value == zones[i]
  {
    hide InZone;
    selected := None;
    ghost var at := 0;
    for i := 0 to |zones|
      invariant selected.None? ==> forall j :: 0 <= j < i ==> !InZone(host, zones[j])
      invariant selected.Some? ==> at < i && selected.value == zones[at] && Chosen(host, zones[..i], at)
    {
      if InZone(host, zones[i]) {
        if selected.None? || |zones[i].name| > |selected.value.name| {
          selected, at := Some(zones[i]), i;
        }
      }
    }
    assert zones[..|zones|] == zones;
    if selected.Some? {
      assert zones[at] in zones;
    }
  }

  /** Named zones, no two of one name. */
  predicate ZonesOk(zones: seq<Zone>) {
    (forall z <- zones :: z.name != "") && forall i, j :: 0 <= i < j < |zones| ==> zones[i].name != zones[j].name
  }

  /** No other zone with a name as long has the host, unless a name is changed by normalizing it again. */
  lemma ChosenIsLongest(host: string, zones: seq<Zone>, i: nat, j: nat)
    requires ZonesOk(zones) && i < |zones| && j < |zones| && i != j && Chosen(host, zones, i) && InZone(host, zones[j])
    requires NormalizeName(zones[i].name) == zones[i].name && NormalizeName(zones[j].name) == zones[j].name
    ensures |zones[j].name| < |zones[i].name|
  {
    hide NormalizeName, RelativeName;
    if |zones[j].name| == |zones[i].name| {
      SameSuffix(host, zones[i], zones[j]);
    }
  }

  lemma SameSuffix(host: string, a: Zone, b: Zone)
    requires RelativeName(host, a.name).Some? && RelativeName(host, b.name).Some? && |a.name| == |b.name|
    requires NormalizeName(a.name) == a.name && NormalizeName(b.name) == b.name
    ensures a.name == b.name
  {
    hide NormalizeName;
    var h := NormalizeName(host);
    SuffixOf(h, a.name);
    SuffixOf(h, b.name);
  }

  lemma SuffixOf(h: string, z: string)
    requires h == z || HasSuffix(h, "." + z)
    ensures |z| <= |h| && h[|h| - |z|..] == z
  {
    if h != z {
      assert h[|h| - |z| - 1..] == "." + z;
      assert h[|h| - |z|..] == h[|h| - |z| - 1..][1..];
    }
  }

  /** Distinct hosts never share a record, provided that none of them spells out the zone's own name. */
  lemma RecordsAreDistinct(a: string, b: string, zone: string)
    requires RelativeName(a, zone).Some? && RelativeName(a, zone) == RelativeName(b, zone) && '@' !in NormalizeName(a)
    requires '@' !in NormalizeName(b)
    ensures NormalizeName(a) == NormalizeName(b)
  {
    hide NormalizeName, RelativeName;
    RelativeShape(a, zone);
    RelativeShape(b, zone);
    assert '@' in "@";
  }

  lemma RelativeShape(host: string, zone: string)
    requires RelativeName(host, zone).Some?
    ensures var name := RelativeName(host, zone).value;
            if NormalizeName(host) == NormalizeName(zone) then name == "@"
            else NormalizeName(host) == name + ("." + NormalizeName(zone))
                 && ('@' in name ==> '@' in NormalizeName(host))
  {
    hide NormalizeName;
    var h, z := NormalizeName(host), NormalizeName(zone);
    if h != z {
      assert h == h[..|h| - |z| - 1] + ("." + z);
    }
  }

  datatype AzureConfig = AzureConfig(zones: seq<Zone>, group: string, zoneName: string)

  function CompletedZone(cfg: AzureConfig, zone: Zone): Zone {
    var group := TrimSpace(zone.group);
    Zone(if group == "" then TrimSpace(cfg.group) else group, NormalizeName(zone.name))
  }

  function Candidates(cfg: AzureConfig): seq<Zone> {
    cfg.zones + if cfg.zoneName != "" then [Zone(cfg.group, cfg.zoneName)] else []
  }

  /** The usable zones in order; of two with one name the first counts. */
  function Configured(cfg: AzureConfig, candidates: seq<Zone>): seq<Zone> {
    if candidates == [] then []
    else
      var before, zone := Configured(cfg, candidates[..|candidates| - 1]),
                          CompletedZone(cfg, candidates[|candidates| - 1]);
      if zone.name == "" || zone.group == "" || (exists z <- before :: z.name == zone.name) then before
      else before + [zone]
  }

  method ConfiguredZones(cfg: AzureConfig) returns (zones: seq<Zone>)
    ensures zones == Configured(cfg, Candidates(cfg))
  {
    hide NormalizeName, TrimSpace;
    zones := [];
    var seen: set<string> := {};
    var candidates := Candidates(cfg);
    for i := 0 to |candidates|
      invariant zones == Configured(cfg, candidates[..i])
      invariant forall name :: name in seen <==> exists z <- zones :: z.name == name
    {
      assert candidates[..i + 1][..i] == candidates[..i];
      var zone := CompletedZone(cfg, candidates[i]);
      if zone.name != "" && zone.group != "" && zone.name !in seen {
        seen := seen + {zone.name};
        zones := zones + [zone];
      }
    }
    assert candidates[..|candidates|] == candidates;
  }

  predicate Usable(zone: Zone) {
    zone.name != "" && zone.group != ""
  }

  /** Configured zones are named, each name once. */
  lemma {:induction false} ConfiguredAreOk(cfg: AzureConfig, candidates: seq<Zone>)
    ensures ZonesOk(Configured(cfg, candidates))
  {
    hide CompletedZone;
    if candidates != [] {
      ConfiguredAreOk(cfg, candidates[..|candidates| - 1]);
    }
  }

  /** A configured zone comes from the first candidate of its name that has a resource group, its own or the common
      one. */
  lemma {:induction false} ConfiguredFrom(cfg: AzureConfig, candidates: seq<Zone>, z: Zone) returns (i: nat)
    requires z in Configured(cfg, candidates)
    ensures i < |candidates| && z.name == NormalizeName(candidates[i].name) != "" && z.group != ""
    ensures z.group == if TrimSpace(candidates[i].group) != "" then TrimSpace(candidates[i].group)
                       else TrimSpace(cfg.group)
    ensures forall j :: 0 <= j < i && NormalizeName(candidates[j].name) == z.name ==>
                          TrimSpace(candidates[j].group) == "" && TrimSpace(cfg.group) == ""
  {
    hide NormalizeName, TrimSpace;
    var n := |candidates| - 1;
    if z in Configured(cfg, candidates[..n]) {
      i := ConfiguredFrom(cfg, candidates[..n], z);
    } else {
      i := n;
      forall j | 0 <= j < i && NormalizeName(candidates[j].name) == z.name
        ensures TrimSpace(candidates[j].group) == "" && TrimSpace(cfg.group) == ""
      {
        OfferedNames(cfg, candidates[..n], z.name);
        assert candidates[..n][j] in candidates[..n];
      }
    }
  }

  predicate Offers(cfg: AzureConfig, candidates: seq<Zone>, name: string) {
    exists c <- candidates :: Usable(CompletedZone(cfg, c)) && CompletedZone(cfg, c).name == name
  }

  lemma {:induction false} OfferedNames(cfg: AzureConfig, candidates: seq<Zone>, name: string)
    ensures (exists z <- Configured(cfg, candidates) :: z.name == name) <==> Offers(cfg, candidates, name)
  {
    hide CompletedZone;
    if candidates != [] {
      var n := |candidates| - 1;
      var before, now := Configured(cfg, candidates[..n]), Configured(cfg, candidates);
      OfferedNames(cfg, candidates[..n], name);
      assert candidates == candidates[..n] + [candidates[n]];
      assert now == before || now == before + [CompletedZone(cfg, candidates[n])];
    }
  }

  /** A name is configured exactly if a listed zone has it, or it is that of the single zone, and there is a resource
      group for it. */
  lemma ConfiguredNames(cfg: AzureConfig, name: string)
    ensures (exists z <- Configured(cfg, Candidates(cfg)) :: z.name == name) <==>
            && name != ""
            && ((exists z <- cfg.zones ::
                   NormalizeName(z.name) == name && (TrimSpace(z.group) != "" || TrimSpace(cfg.group) != ""))
                || (cfg.zoneName != "" && NormalizeName(cfg.zoneName) == name && TrimSpace(cfg.group) != ""))
  {
    hide NormalizeName, TrimSpace, Configured;
    var all := Candidates(cfg);
    OfferedNames(cfg, all, name);
    var single := Zone(cfg.group, cfg.zoneName);
    assert cfg.zoneName != "" ==> all[|cfg.zones|] == single;
    assert forall z :: z in all <==> z in cfg.zones || (cfg.zoneName != "" && z == single);
    forall z | z in all
      ensures Usable(CompletedZone(cfg, z)) && CompletedZone(cfg, z).name == name <==>
              name != "" && NormalizeName(z.name) == name && (TrimSpace(z.group) != "" || TrimSpace(cfg.group) != "")
    {
    }
  }

  // ---------- The service ----------

  /** A call succeeds, fails without effect, or takes effect without an answer. */
  datatype Reply = Ok | Lost | Refused

  datatype Write = Write(key: Key, before: Option<Record>, after: Option<Record>)

  datatype Read = Found(record: Record) | Absent | ReadFailed

  datatype Condition = MustBeAbsent | MustBe(etag: nat)

  /** Every version of every record so far. */
  type History = map<(Key, nat), Record>

  predicate Recorded(world: World, nextTag: nat, history: History) {
    forall k <- world :: world[k].etag.Some? ==>
                           world[k].etag.value < nextTag && (k, world[k].etag.value) in history
                           && history[(k, world[k].etag.value)] == world[k]
  }

  predicate Bounded(nextTag: nat, history: History) {
    forall v <- history :: v.1 < nextTag
  }

  /** What others may do: anything that never gives two versions of a record one ETag. */
  predicate Allowed(world: World, nextTag: nat, history: History, next: World, nextNextTag: nat) {
    && nextTag <= nextNextTag
    && forall k <- next | next[k].etag.Some? ::
         var tag := next[k].etag.value;
         tag < nextNextTag && (tag < nextTag ==> (k, tag) in history && history[(k, tag)] == next[k])
  }

  function Remembered(history: History, next: World): History {
    history + map k <- next | next[k].etag.Some? :: (k, next[k].etag.value) := next[k]
  }

  class Dns {
    const others: (nat, World, nat) -> (World, nat)
    const reply: nat -> Reply
    var world: World
    var nextTag: nat
    var clock: nat
    var history: History
    ghost var writes: seq<Write>

    ghost predicate Valid()
      reads this
    {
      Recorded(world, nextTag, history) && Bounded(nextTag, history)
    }

    lemma VersionOf(key: Key)
      requires Valid() && key in world && world[key].etag.Some?
      ensures (key, world[key].etag.value) in history && history[(key, world[key].etag.value)] == world[key]
    {
    }

    /** Nobody else writes and no call fails. */
    ghost predicate Quiet() {
      (forall c: nat, w: World, t: nat :: others(c, w, t) == (w, t)) && forall c: nat :: reply(c) == Ok
    }

    /** Between any two calls others have their turn. */
    method Elapse()
      requires Valid()
      modifies this`world, this`nextTag, this`clock, this`history
      ensures Valid() && clock == old(clock) + 1
      ensures forall v <- old(history) :: v in history && history[v] == old(history)[v]
      ensures Quiet() ==> world == old(world)
    {
      var (w, t) := others(clock, world, nextTag);
      clock := clock + 1;
      if Allowed(world, nextTag, history, w, t) {
        AllowedStep(world, nextTag, history, w, t);
        history := Remembered(history, w);
        world, nextTag := w, t;
      }
    }

    method Get(key: Key) returns (r: Read)
      requires Valid()
      modifies this`world, this`nextTag, this`clock, this`history
      ensures Valid()
      ensures forall v <- old(history) :: v in history && history[v] == old(history)[v]
      ensures r.Found? ==> key in world && world[key] == r.record
      ensures r.Absent? ==> key !in world
      ensures Quiet() ==> world == old(world) && !r.ReadFailed?
    {
      Elapse();
      if reply(clock) != Ok {
        return ReadFailed;
      }
      return if key in world then Found(world[key]) else Absent;
    }

    predicate Meets(key: Key, condition: Condition)
      reads this
    {
      match condition
      case MustBeAbsent => key !in world
      case MustBe(etag) => key in world && world[key].etag == Some(etag)
    }

    /** A conditional write (sections 13.1.1 and 13.1.2 of RFC 9110): it happens only if the condition holds of the
        record as it is then. */
    method Put(key: Key, record: Record, condition: Condition) returns (ok: bool)
      requires Valid()
      modifies this
      ensures Valid()
      ensures forall v <- old(history) :: v in history && history[v] == old(history)[v]
      ensures writes == old(writes)
              || (exists before :: LoggedPut(old(writes), writes, key, before, record, condition, history))
      ensures ok ==> key in world && world[key] == record.(etag := world[key].etag) && world[key].etag.Some?
      ensures Quiet() ==>
                (ok <==> old(Meets(key, condition))) && (ok ==> world == old(world)[key := world[key]])
                && (!ok ==> world == old(world) && writes == old(writes))
    {
      Elapse();
      if reply(clock) == Refused || !Meets(key, condition) {
        return false;
      }
      var version := record.(etag := Some(nextTag));
      ghost var before := if key in world then Some(world[key]) else None;
      writes := writes + [Write(key, before, Some(version))];
      history := history[(key, nextTag) := version];
      world, nextTag := world[key := version], nextTag + 1;
      assert LoggedPut(old(writes), writes, key, before, record, condition, history);
      return reply(clock) == Ok;
    }

    method Delete(key: Key, etag: nat) returns (ok: bool, missing: bool)
      requires Valid()
      modifies this
      ensures Valid()
      ensures forall v <- old(history) :: v in history && history[v] == old(history)[v]
      ensures writes == old(writes) || (exists before :: LoggedDelete(old(writes), writes, key, before, etag, history))
      ensures Quiet() ==> missing == (key !in old(world)) && (ok <==> old(Meets(key, MustBe(etag))))
      ensures Quiet() ==> world == if ok then old(world) - {key} else old(world)
      ensures Quiet() && !ok ==> writes == old(writes)
    {
      Elapse();
      if reply(clock) == Refused {
        return false, false;
      }
      if key !in world {
        return false, reply(clock) == Ok;
      }
      if world[key].etag != Some(etag) {
        return false, false;
      }
      writes := writes + [Write(key, Some(world[key]), None)];
      assert LoggedDelete(old(writes), writes, key, Some(world[key]), etag, history);
      world := world - {key};
      return reply(clock) == Ok, false;
    }
  }

  lemma AllowedStep(world: World, nextTag: nat, history: History, next: World, t: nat)
    requires Recorded(world, nextTag, history) && Bounded(nextTag, history) && Allowed(world, nextTag, history, next, t)
    ensures Recorded(next, t, Remembered(history, next)) && Bounded(t, Remembered(history, next))
    ensures forall v <- history :: v in Remembered(history, next) && Remembered(history, next)[v] == history[v]
  {
  }

  /** One more write of ours: it met its condition when it happened. */
  ghost predicate LoggedPut(
    was: seq<Write>, now: seq<Write>, key: Key, before: Option<Record>, record: Record, condition: Condition,
    history: History)
  {
    && |now| == |was| + 1 && now[..|was|] == was
    && now[|was|].key == key && now[|was|].before == before && now[|was|].after.Some?
    && now[|was|].after.value == record.(etag := now[|was|].after.value.etag)
    && match condition
       case MustBeAbsent => before.None?
       case MustBe(etag) => before.Some? && (key, etag) in history && history[(key, etag)] == before.value
  }

  ghost predicate LoggedDelete(
    was: seq<Write>, now: seq<Write>, key: Key, before: Option<Record>, etag: nat, history: History)
  {
    now == was + [Write(key, before, None)] && before.Some? && (key, etag) in history
    && history[(key, etag)] == before.value
  }
}
