/** Splitting a legacy route into a listener, a pool and a rule, and why compiling them back keeps its meaning. */
module Migration {
  import opened Text
  import opened Routing
  import opened RoutingFacts
  import opened NormalForms
  import opened StoreSpec

  const MAX_INT := 0x7fff_ffff_ffff_ffff

  /** Generated identifiers; a clash with an existing one is refused like any other duplicate. */
  datatype FreshIds = FreshIds(route: string, listener: string, pool: string)

  function Named(r: Route, freshId: string): Route {
    if r.id == "" then r.(id := freshId) else r
  }

  function ListenerFor(r: Route): Listener {
    var given := Lower(TrimSpace(r.listenerProtocol));
    var protocol := if given != "" then given else if r.https then "https" else "http";
    Listener("", r.host, r.host, if r.listenerPort == 0 then DefaultPort(protocol) else r.listenerPort,
             protocol, "compatibility", 0)
  }

  /** The port an upstream names, or the default of its scheme; a malformed URL has none. */
  function UpstreamPort(u: Upstream): nat {
    if u.url.Malformed? then 0
    else match u.url.port case None => DefaultPort(Lower(u.url.scheme)) case Some(port) => port
  }

  /** Upstreams that can share one rule: parsed, named, of one scheme, with ports that fit an integer. */
  predicate Splittable(us: seq<Upstream>) {
    forall u <- us :: u.url.Url? && u.url.hostname != "" && us[0].url.Url?
                      && Lower(u.url.scheme) == Lower(us[0].url.scheme) && UpstreamPort(u) <= MAX_INT
  }

  /** The port of the rule: the first port that is not zero. */
  function SharedPort(us: seq<Upstream>): nat {
    if us == [] then 0
    else
      var first := SharedPort(us[..|us| - 1]);
      if first != 0 then first else UpstreamPort(us[|us| - 1])
  }

  /** The health path of the rule: the one all upstreams agree on. */
  function SharedHealth(us: seq<Upstream>): string {
    if us == [] then ""
    else if forall u <- us :: u.healthPath == us[0].healthPath then us[0].healthPath
    else ""
  }

  function SplitTarget(u: Upstream, port: nat, health: string): Target {
    Target(u.name, if u.url.Url? then u.url.hostname else "", if UpstreamPort(u) != port then UpstreamPort(u) else 0,
           if health == "" then u.healthPath else "")
  }

  function SplitTargets(us: seq<Upstream>): seq<Target> {
    seq(|us|, i requires 0 <= i < |us| => SplitTarget(us[i], SharedPort(us), SharedHealth(us)))
  }

  function PoolFor(r: Route, poolId: string): Pool {
    Pool(poolId, r.id + " backends", SplitTargets(r.upstreams), "compatibility", 0)
  }

  function RuleFor(r: Route, listenerId: string, poolId: string): Rule
    requires r.upstreams != [] && r.upstreams[0].url.Url?
  {
    Rule(r.id, r.id, listenerId, poolId, SharedPort(r.upstreams), Lower(r.upstreams[0].url.scheme), r.pathPrefix,
         SharedHealth(r.upstreams), r.exposure, r.enabled, r.webSocket, r.headers, r.security,
         SourceOr(r.source, "explicit"), r.lastError, 0)
  }

  /** The three resources that stand for a route after migration. */
  ghost predicate SplitOf(r: Route, l: Listener, p: Pool, rule: Rule) {
    && r.upstreams != [] && r.upstreams[0].url.Url? && Splittable(r.upstreams)
    && SameListener(l, ListenerFor(r))
    && (exists id: string, now: int :: p == CompletePool(PoolFor(r, id), id, now))
    && (exists id: string, now: int :: rule == CompleteRule(RuleFor(r, l.id, p.id), id, now))
  }

  /** The resources after a route was split: one more pool and rule, and a listener that is new or reused. */
  ghost predicate MigratedInto(before: Resources, r: Route, l: Listener, p: Pool, rule: Rule, after: Resources) {
    && SplitOf(r, l, p, rule)
    && after == Resources(before.version, after.listeners, before.pools + [p], before.rules + [rule])
    && l in after.listeners && (after.listeners == before.listeners || after.listeners == before.listeners + [l])
  }

  lemma NewListenerServesRoute(r: Route, freshId: string, now: int)
    requires ValidHost(r.host) && ValidListener(CompleteListener(ListenerFor(r), freshId, now))
    ensures SameListener(CompleteListener(ListenerFor(r), freshId, now), ListenerFor(r))
  {
    ValidHostIsNormal(r.host);
    LowerTrimStable(r.listenerProtocol);
    WebProtocolsNormal();
  }

  lemma NamedRouteShape(net: Net, route: Route, freshId: string)
    requires ValidRoute(net, route) && freshId != ""
    ensures var r := Named(NormalizeRoute(route), freshId);
            && r.id != "" && ValidHost(r.host) && r.upstreams == route.upstreams != []
            && (forall u <- r.upstreams :: ValidUpstream(u))
            && (r.exposure == "internal" || r.exposure == "protected" || r.exposure == "public")
  {
    hide ValidHost, ValidUpstream, ValidSecurity, NormalizeSecurity;
  }

  lemma IdsSurvive(r: Route, rule: Rule, id: string, now: int, l: Listener, p: Pool)
    requires r.id != "" && r.upstreams != [] && r.upstreams[0].url.Url?
    requires rule == CompleteRule(RuleFor(r, l.id, p.id), id, now)
    ensures rule.id == r.id && CompileRule(rule, l, p).id == r.id
  {
  }

  /** Why a route cannot be added next to another, or replace the one whose id is given. */
  predicate RouteClash(e: Route, route: Route, replacing: string) {
    var samePlace := e.host == route.host && e.pathPrefix == route.pathPrefix;
    if replacing == "" then (route.id != "" && e.id == route.id) || samePlace
    else e.id != replacing && samePlace
  }

  // ---------- What a migration is answered ----------

  /** What a route is split into. */
  datatype Parts = Parts(listener: Listener, pool: Pool, rule: Rule)

  function Serving(ls: seq<Listener>, endpoint: Listener): Option<Listener> {
    if ls == [] then None
    else if SameListener(ls[0], endpoint) then Some(ls[0])
    else Serving(ls[1..], endpoint)
  }

  lemma {:induction false} FirstServing(ls: seq<Listener>, endpoint: Listener, i: nat)
    requires i <= |ls| && forall k :: 0 <= k < i ==> !SameListener(ls[k], endpoint)
    ensures i < |ls| && SameListener(ls[i], endpoint) ==> Serving(ls, endpoint) == Some(ls[i])
    ensures i == |ls| ==> Serving(ls, endpoint) == None
  {
    hide SameListener;
    if i > 0 {
      FirstServing(ls[1..], endpoint, i - 1);
    }
  }

  function ChosenListener(ls: seq<Listener>, endpoint: Listener, freshId: string, now: int): Result<Listener> {
    match Serving(ls, endpoint) case Some(l) => Success(l) case None => CheckedListener(ls, endpoint, freshId, now)
  }

  function WithListener(ls: seq<Listener>, l: Listener): seq<Listener> {
    if l in ls then ls else ls + [l]
  }

  function WithParts(res: Resources, parts: Parts): Resources {
    Resources(res.version, WithListener(res.listeners, parts.listener), res.pools + [parts.pool],
              res.rules + [parts.rule])
  }

  /** A rule also has to compile, which normalizes its security lists once more. */
  function Compiling(net: Net, checked: Result<Rule>): Result<Rule> {
    if checked.Success? && !ValidSecurity(net, NormalizeSecurity(checked.value.security)) then Failure(Invalid)
    else checked
  }

  /** The first reason against a migration, or its parts. */
  function CheckedMigration(net: Net, res: Resources, route: Route, ids: FreshIds, now: int): Result<Parts> {
    if !ValidRoute(net, route) then Failure(Invalid)
    else
      var named := Named(NormalizeRoute(route), ids.route);
      var l := ChosenListener(res.listeners, ListenerFor(named), ids.listener, now);
      if l.Failure? then Failure(l.error)
      else if !Splittable(named.upstreams) then Failure(Invalid)
      else
        var p := CheckedPool(net, res.pools, PoolFor(named, ids.pool), ids.pool, now);
        if p.Failure? then Failure(p.error)
        else
          FirstUpstream(route);
          var sofar := Resources(res.version, WithListener(res.listeners, l.value), res.pools + [p.value], res.rules);
          var rule := Compiling(net, CheckedRule(net, sofar, RuleFor(named, l.value.id, p.value.id), ids.route, now));
          if rule.Failure? then Failure(rule.error) else Success(Parts(l.value, p.value, rule.value))
  }

  lemma FirstUpstream(route: Route)
    requires route.upstreams != [] && Splittable(route.upstreams)
    ensures route.upstreams[0].url.Url?
  {
    assert route.upstreams[0] in route.upstreams;
  }

  /** The parts made for a route are marked, so that deleting the route can remove them again. */
  lemma PartsAreMarked(net: Net, res: Resources, route: Route, ids: FreshIds, now: int)
    ensures var checked := CheckedMigration(net, res, route, ids, now);
            checked.Success? ==>
              && checked.value.pool.source == "compatibility"
              && (checked.value.listener in res.listeners || checked.value.listener.source == "compatibility")
  {
    hide ValidRoute, NormalizeRoute, ValidListener, ValidPool, ListenerClash, PoolClash, CheckedRule, Compiling,
      Splittable, SplitTargets, TrimSpace, Lower, SameListener, NormalizeName;
    CompatibilityIsNormal();
    if ValidRoute(net, route) {
      ServingIsMember(res.listeners, ListenerFor(Named(NormalizeRoute(route), ids.route)));
    }
  }

  lemma CompatibilityIsNormal()
    ensures Lower(TrimSpace("compatibility")) == "compatibility"
  {
    TrimSpaceFixpoint("compatibility");
    assert Lower("compatibility") == "compatibility";
  }

  lemma {:induction false} ServingIsMember(ls: seq<Listener>, endpoint: Listener)
    ensures Serving(ls, endpoint).Some? ==> Serving(ls, endpoint).value in ls
  {
    hide SameListener;
    if ls != [] {
      ServingIsMember(ls[1..], endpoint);
    }
  }

  /** Deleting a route that was just added removes all that was made for it. */
  lemma DeleteUndoesAdd(net: Net, res: Resources, route: Route, ids: FreshIds, now: int)
    requires WellFormed(net, res) && CheckedMigration(net, res, route, ids, now).Success?
    requires var parts := CheckedMigration(net, res, route, ids, now).value;
             && parts.rule.listenerId == parts.listener.id && parts.rule.poolId == parts.pool.id
             && WellFormed(net, WithParts(res, parts))
    ensures var parts := CheckedMigration(net, res, route, ids, now).value;
            var added := WithParts(res, parts);
            var back := Pruned(added.(rules := added.rules[..|res.rules|]), parts.rule);
            && added.rules == added.rules[..|res.rules|] + [parts.rule]
            && back.rules == res.rules && back.pools == res.pools
            && (parts.listener !in res.listeners ==> back == res)
  {
    hide CheckedMigration, GoodListener, GoodPool, GoodRule, SameListener, SamePlace, Lower;
    var parts := CheckedMigration(net, res, route, ids, now).value;
    var added := WithParts(res, parts);
    PartsAreMarked(net, res, route, ids, now);
    assert added.rules[..|res.rules|] == res.rules;
    forall r <- res.rules
      ensures r.poolId != parts.pool.id && (parts.listener !in res.listeners ==> r.listenerId != parts.listener.id)
    {
      ListenerOfMember(res.listeners, r.listenerId);
      PoolOfMember(res.pools, r.poolId);
      NewIds(res, parts);
    }
    PoolIndexIsFirst(added.pools, parts.pool.id, |res.pools|);
    assert Without(added.pools, |res.pools|) == res.pools;
    if parts.listener !in res.listeners {
      NewIds(res, parts);
      ListenerIndexIsFirst(added.listeners, parts.listener.id, |res.listeners|);
      assert Without(added.listeners, |res.listeners|) == res.listeners;
    }
  }

  lemma NewIds(res: Resources, parts: Parts)
    requires UniquePools(res.pools + [parts.pool]) && UniqueListeners(WithListener(res.listeners, parts.listener))
    ensures forall p <- res.pools :: p.id != parts.pool.id
    ensures parts.listener !in res.listeners ==> forall l <- res.listeners :: l.id != parts.listener.id
  {
    hide SameListener, Lower;
    var pools, ls := res.pools + [parts.pool], WithListener(res.listeners, parts.listener);
    forall p | p in res.pools ensures p.id != parts.pool.id {
      var i :| 0 <= i < |res.pools| && res.pools[i] == p;
      assert pools[i] == p && pools[|res.pools|] == parts.pool;
    }
    if parts.listener !in res.listeners {
      forall l | l in res.listeners ensures l.id != parts.listener.id {
        var i :| 0 <= i < |res.listeners| && res.listeners[i] == l;
        assert ls[i] == l && ls[|res.listeners|] == parts.listener;
      }
    }
  }

  predicate Answers(r: Result<Route>, parts: Parts, answer: Result<Parts>) {
    match r case Success(_) => answer == Success(parts) case Failure(error) => answer == Failure(error)
  }

  /** Adding a route: it must be valid and take nobody's id or place. */
  function CheckedRoute(net: Net, s: StoreState, route: Route, ids: FreshIds, now: int): Result<Parts> {
    if !ValidRoute(net, route) then Failure(Invalid)
    else if exists e <- s.routes :: RouteClash(e, NormalizeRoute(route), "") then Failure(AlreadyExists)
    else CheckedMigration(net, s.resources, NormalizeRoute(route), ids, now)
  }

  /** The resources left by migrating rows one after the other, if none of them is refused. */
  function MigratedRows(net: Net, rows: seq<Route>, names: nat -> FreshIds, now: int): Option<Resources> {
    if rows == [] then Some(EMPTY)
    else
      var n := |rows| - 1;
      match MigratedRows(net, rows[..n], names, now)
      case None => None
      case Some(res) =>
        match CheckedMigration(net, res, rows[n], names(n), now)
        case Failure(_) => None
        case Success(parts) => Some(WithParts(res, parts))
  }

  lemma {:induction false} RowsStop(net: Net, rows: seq<Route>, names: nat -> FreshIds, now: int, i: nat)
    requires i <= |rows| && MigratedRows(net, rows[..i], names, now).None?
    ensures MigratedRows(net, rows, names, now).None?
  {
    if i == |rows| {
      assert rows[..i] == rows;
    } else {
      assert rows[..|rows| - 1][..i] == rows[..i];
      RowsStop(net, rows[..|rows| - 1], names, now, i);
    }
  }

  lemma NoRows(net: Net, names: nat -> FreshIds, now: int)
    ensures MigratedRows(net, [], names, now) == Some(EMPTY)
  {
  }

  /** The resources a file holds, or those its rows migrate to. */
  function Converted(net: Net, file: Envelope, names: nat -> FreshIds, now: int): Option<Resources> {
    if HoldsResources(file) then Decoded(net, file.resources.(version := RESOURCE_SET_VERSION))
    else MigratedRows(net, file.routes, names, now)
  }

  lemma RowsNext(net: Net, rows: seq<Route>, names: nat -> FreshIds, now: int, i: nat, res: Resources)
    requires i < |rows| && MigratedRows(net, rows[..i], names, now) == Some(res)
    ensures MigratedRows(net, rows[..i + 1], names, now) ==
            match CheckedMigration(net, res, rows[i], names(i), now)
            case Failure(_) => None
            case Success(parts) => Some(WithParts(res, parts))
  {
    hide CheckedMigration;
    assert rows[..i + 1][..i] == rows[..i];
  }

  /** Migrating a list of routes one after the other, from no resources at all. */
  ghost predicate MigrationChain(routes: seq<Route>, names: nat -> FreshIds, chain: seq<Resources>) {
    && |chain| >= 1 && chain[0] == EMPTY && |chain| <= |routes| + 1
    && forall i :: 0 <= i < |chain| - 1 ==>
                     MigrationStep(chain[i], Named(NormalizeRoute(routes[i]), names(i).route), chain[i + 1])
  }

  ghost predicate MigrationStep(before: Resources, r: Route, after: Resources) {
    exists l, p, rule :: MigratedInto(before, r, l, p, rule, after)
  }

  // ---------- The splitting loop ----------

  lemma SharedPortGrows(us: seq<Upstream>, i: nat)
    requires i <= |us|
    ensures SharedPort(us[..i]) != 0 ==> SharedPort(us) == SharedPort(us[..i])
    ensures SharedPort(us[..i]) == 0 ==> forall k :: 0 <= k < i ==> UpstreamPort(us[k]) == 0
  {
    if i == |us| {
      assert us[..i] == us;
      if us != [] {
        SharedPortGrows(us[..|us| - 1], |us| - 1);
      }
    } else {
      assert us[..|us| - 1][..i] == us[..i];
      SharedPortGrows(us[..|us| - 1], i);
    }
  }

  /** Comparing with the port known so far sets the same target port as comparing with the final one. */
  lemma TargetPortSettled(us: seq<Upstream>, i: nat)
    requires i < |us|
    ensures var p := UpstreamPort(us[i]);
            (if p != SharedPort(us[..i + 1]) then p else 0) == (if p != SharedPort(us) then p else 0)
  {
    SharedPortGrows(us, i + 1);
  }

  lemma SharedPortStep(us: seq<Upstream>, i: nat)
    requires i < |us|
    ensures SharedPort(us[..0]) == 0
    ensures SharedPort(us[..i + 1]) == if SharedPort(us[..i]) != 0 then SharedPort(us[..i]) else UpstreamPort(us[i])
  {
    assert us[..i + 1][..i] == us[..i];
  }

  predicate AgreeOnHealth(us: seq<Upstream>, i: nat)
    requires i <= |us|
  {
    forall k :: 0 <= k < i ==> us[k].healthPath == us[0].healthPath
  }

  /** The loop over the upstreams; on success its outputs are the shared values and the targets. */
  method SplitUpstreams(
    us: seq<Upstream>)
    returns (ok: bool, protocol: string, port: nat, targets: seq<Target>, health: string)
    requires us != [] && forall u <- us :: ValidUpstream(u)
    ensures ok <==> Splittable(us)
    ensures ok ==>
              us[0].url.Url? && protocol == Lower(us[0].url.scheme) && port == SharedPort(us)
              && health == SharedHealth(us)
              && targets == SplitTargets(us)
  {
    hide Lower, SharedPort, UpstreamPort;
    protocol, port, targets, health := "", 0, [], "";
    SharedPortStep(us, 0);
    for i := 0 to |us|
      invariant forall k :: 0 <= k < i ==> Joins(us, k)
      invariant if i == 0 then protocol == ""
        else us[0].url.Url? && protocol == Lower(us[0].url.scheme) && protocol != ""
      invariant port == SharedPort(us[..i])
      invariant |targets| == i && forall k :: 0 <= k < i ==> targets[k] == SplitTarget(us[k], SharedPort(us), "")
      invariant i > 0 ==> health == if AgreeOnHealth(us, i) then us[0].healthPath else ""
    {
      var u := us[i];
      assert u in us;
      if u.url.Malformed? || u.url.hostname == "" {
        NotSplittable(us, i);
        return false, "", 0, [], "";
      }
      var scheme := Lower(u.url.scheme);
      if protocol == "" {
        protocol := scheme;
      } else if protocol != scheme {
        NotSplittable(us, i);
        return false, "", 0, [], "";
      }
      var given := UpstreamPort(u);
      if given > MAX_INT {
        NotSplittable(us, i);
        return false, "", 0, [], "";
      }
      SharedPortStep(us, i);
      TargetPortSettled(us, i);
      if port == 0 {
        port := given;
      }
      targets := targets + [Target(u.name, u.url.hostname, if given != port then given else 0, u.healthPath)];
      if i == 0 {
        health := u.healthPath;
      } else if health != u.healthPath {
        health := "";
      }
    }
    assert us[..|us|] == us;
    AllJoin(us);
    TargetsTogether(us, targets);
    if health != "" {
      targets := seq(|targets|, i requires 0 <= i < |targets| => targets[i].(healthPath := ""));
    }
    return true, protocol, port, targets, health;
  }

  lemma TargetsTogether(us: seq<Upstream>, targets: seq<Target>)
    requires |targets| == |us| && forall k :: 0 <= k < |us| ==> targets[k] == SplitTarget(us[k], SharedPort(us), "")
    ensures SplitTargets(us) ==
            if SharedHealth(us) == "" then targets
            else seq(|targets|, i requires 0 <= i < |targets| => targets[i].(healthPath := ""))
  {
    hide SharedPort, SharedHealth, UpstreamPort;
  }

  predicate Joins(us: seq<Upstream>, k: nat)
    requires k < |us|
  {
    us[k].url.Url? && us[k].url.hostname != "" && us[0].url.Url? && Lower(us[k].url.scheme) == Lower(us[0].url.scheme)
    && UpstreamPort(us[k]) <= MAX_INT
  }

  lemma NotSplittable(us: seq<Upstream>, k: nat)
    requires k < |us| && !Joins(us, k)
    ensures !Splittable(us)
  {
    hide Lower, UpstreamPort;
    assert us[k] in us && us[0] in us;
  }

  lemma AllJoin(us: seq<Upstream>)
    requires us != [] && forall k :: 0 <= k < |us| ==> Joins(us, k)
    ensures Splittable(us)
    ensures SharedHealth(us) == if AgreeOnHealth(us, |us|) then us[0].healthPath else ""
  {
    hide Lower, UpstreamPort;
    assert us[0] in us;
    forall u <- us ensures u.url.Url? && u.url.hostname != "" && us[0].url.Url?
                           && Lower(u.url.scheme) == Lower(us[0].url.scheme) && UpstreamPort(u) <= MAX_INT {
      var k :| 0 <= k < |us| && us[k] == u;
      assert Joins(us, k);
    }
    if AgreeOnHealth(us, |us|) {
      assert forall u <- us :: u.healthPath == us[0].healthPath;
    } else {
      var k :| 0 <= k < |us| && us[k].healthPath != us[0].healthPath;
      assert us[k] in us;
    }
  }

  // ---------- Meaning ----------

  /** The compiled route serves the same host, path and exposure on the same endpoint. */
  lemma MigrationKeepsPlace(r: Route, l: Listener, p: Pool, rule: Rule)
    requires SplitOf(r, l, p, rule) && ValidHost(r.host)
    requires r.exposure == "internal" || r.exposure == "protected" || r.exposure == "public"
    ensures var c := CompileRule(rule, l, p);
            && c.host == r.host && c.exposure == r.exposure
            && LowerOr(r.listenerProtocol, if r.https then "https" else "http", c.listenerProtocol)
            && c.listenerPort == (if r.listenerPort != 0 then r.listenerPort
                                  else if c.listenerProtocol == "https" then 443 else 80)
            && c.https == (c.listenerProtocol == "https")
            && c.enabled == r.enabled && c.webSocket == r.webSocket && c.headers == r.headers
            && c.isPublic == (r.exposure != "internal") && c.isProtected == (r.exposure == "protected")
            && c.pathPrefix == NormalizePrefix(NormalizePrefix(r.pathPrefix))
            && (c.pathPrefix == r.pathPrefix <==> StablePrefix(r.pathPrefix))
            && (r.id != "" ==> c.id == r.id) && c.lastError == r.lastError && LowerOr(r.source, "explicit", c.source)
            && exists once :: SecurityTaken(r.security, once) && SecurityTaken(once, c.security)
  {
    hide NormalizeSecurity, NormalizePool, SplitTargets, CompileTarget, SharedHealth, SharedPort, Splittable,
      SecurityTaken;
    SecurityIsTaken(r.security);
    SecurityIsTaken(NormalizeSecurity(r.security));
    TrimmedTwice(r.listenerProtocol);
    SourceKept(r.source);
    ValidHostIsNormal(r.host);
    ExposuresNormal();
    PrefixShrinks(r.pathPrefix);
    PrefixShrinks(NormalizePrefix(r.pathPrefix));
  }

  /** The name of a legacy route is lost: rule, compiled route and pool are named after its id. */
  lemma MigrationNames(r: Route, l: Listener, p: Pool, rule: Rule)
    requires SplitOf(r, l, p, rule) && r.id != ""
    ensures rule.id == CompileRule(rule, l, p).id == r.id && rule.name == CompileRule(rule, l, p).name
    ensures rule.name == if TrimSpace(r.id) == "" then r.id else TrimSpace(r.id)
    ensures p.name == TrimSpace(r.id + " backends") && p.source == "compatibility"
    ensures rule.listenerId == TrimSpace(l.id) && rule.poolId == TrimSpace(p.id)
  {
    hide NormalizeSecurity, NormalizePrefix, NormalizeName, TrimSpace, Lower, SplitTargets, SharedHealth, SharedPort,
      Splittable, CompileTarget, SameListener;
    CompatibilityIsNormal();
  }

  lemma SourceKept(source: string)
    ensures var given := Lower(TrimSpace(SourceOr(source, "explicit")));
            LowerOr(source, "explicit", SourceOr(if given == "" then "explicit" else given, "explicit"))
  {
    TrimmedTwice(source);
    TrimSpaceFixpoint("explicit");
    assert Lower("explicit") == "explicit";
    LowerTrimStable(source);
  }

  lemma ExposuresNormal()
    ensures Lower(TrimSpace("internal")) == "internal"
    ensures Lower(TrimSpace("protected")) == "protected"
    ensures Lower(TrimSpace("public")) == "public"
  {
    TrimSpaceFixpoint("internal");
    TrimSpaceFixpoint("protected");
    TrimSpaceFixpoint("public");
    assert Lower("internal") == "internal" && Lower("protected") == "protected" && Lower("public") == "public";
  }

  lemma PrefixShrinks(p: string)
    ensures |NormalizePrefix(p)| <= |p| && (|NormalizePrefix(p)| == |p| ==> NormalizePrefix(p) == p)
  {
    TrimSpaceShape(p);
    TrimSlashesShape(TrimSpace(p));
  }

  /** All that an upstream keeps but a port 0. */
  predicate UpstreamMigrated(u: Upstream, p: Pool, c: Upstream) {
    && u.url.Url? && c.url.Url? && c.url.scheme == Lower(u.url.scheme)
    && c.url.hostname == TrimBrackets(TrimSpace(u.url.hostname))
    && c.healthPath == TrimSpace(u.healthPath) && c.name == SourceOr(TrimSpace(u.name), p.name)
    && (u.url.port.None? ==> c.url.port == Some(if c.url.scheme == "https" then 443 else 80))
    && (u.url.port.Some? ==> (c.url.port == u.url.port <==> u.url.port.value != 0))
  }

  /** Each upstream keeps its position, name, scheme, address and trimmed health path. Its port, with the default
      made explicit, survives for all upstreams exactly when none of them names port 0. */
  lemma MigrationKeepsUpstreams(net: Net, r: Route, l: Listener, p: Pool, rule: Rule)
    requires SplitOf(r, l, p, rule) && ValidRule(net, rule) && forall u <- r.upstreams :: ValidUpstream(u)
    ensures var us, cs := r.upstreams, CompileRule(rule, l, p).upstreams;
            |cs| == |us| && forall i :: 0 <= i < |us| ==> UpstreamMigrated(us[i], p, cs[i])
  {
    hide CompileRule, CompileTarget, SplitTarget, NormalizeTarget, NormalizeSecurity, ValidSecurity, ValidPathPrefix,
      ValidHost, NormalizeName, NormalizePrefix, SharedHealth, SharedPort, UpstreamPort, TrimBrackets, TrimSpace,
      Lower, UpstreamMigrated;
    var us, cs := r.upstreams, CompileRule(rule, l, p).upstreams;
    assert us[0] in us && forall i :: 0 <= i < |us| ==> us[i] in us;
    assert |p.targets| == |us|;
    var id: string, now: int :| rule == CompleteRule(RuleFor(r, l.id, p.id), id, now);
    SplitProtocol(us, rule, RuleFor(r, l.id, p.id), id, now);
    TargetsAreSplit(r, l, p, rule);
    forall i | 0 <= i < |us| ensures UpstreamMigrated(us[i], p, cs[i]) {
      UpstreamKept(net, us, i, p, rule);
    }
  }

  /** An upstream "http://a:0" beside "http://b:8080" is dialled on port 8080 after the migration. */
  lemma ZeroPortBecomesShared(p: Pool, rule: Rule)
    requires var us := [Upstream("a", Url("http", "a", Some(0)), ""), Upstream("b", Url("http", "b", Some(8080)), "")];
             rule.backendPort == SharedPort(us)
    ensures var us := [Upstream("a", Url("http", "a", Some(0)), ""), Upstream("b", Url("http", "b", Some(8080)), "")];
            && Splittable(us) && UpstreamPort(us[0]) == 0
            && CompileTarget(rule, p, NormalizeTarget(SplitTargets(us)[0])).url.port == Some(8080)
  {
    hide Lower, TrimSpace, TrimBrackets, TrimSlashes;
    var us := [Upstream("a", Url("http", "a", Some(0)), ""), Upstream("b", Url("http", "b", Some(8080)), "")];
    SharedPortStep(us, 0);
    SharedPortStep(us, 1);
    assert us[..2] == us;
  }

  lemma TargetsAreSplit(r: Route, l: Listener, p: Pool, rule: Rule)
    requires exists id: string, now: int :: p == CompletePool(PoolFor(r, id), id, now)
    ensures var us, cs := r.upstreams, CompileRule(rule, l, p).upstreams;
            && |cs| == |us|
            && var port, health := SharedPort(us), SharedHealth(us);
            forall i :: 0 <= i < |us| ==>
                          cs[i] == CompileTarget(rule, p, NormalizeTarget(SplitTarget(us[i], port, health)))
  {
    hide NormalizeSecurity, NormalizeName, NormalizePrefix, SharedHealth, SharedPort, TrimSpace, Lower, NormalizeTarget,
      SplitTarget, CompileTarget;
  }

  lemma UpstreamKept(net: Net, us: seq<Upstream>, i: nat, p: Pool, rule: Rule)
    requires i < |us| && Splittable(us) && ValidUpstream(us[i]) && us[0].url.Url?
    requires rule.backendPort == SharedPort(us) && 1 <= rule.backendPort
    requires rule.healthPath == TrimSpace(SharedHealth(us))
    requires rule.backendProtocol == Lower(us[0].url.scheme)
    ensures var c := CompileTarget(rule, p, NormalizeTarget(SplitTarget(us[i], SharedPort(us), SharedHealth(us))));
            UpstreamMigrated(us[i], p, c)
  {
    hide Lower, TrimSpace, TrimBrackets, SharedPort, UpstreamPort;
    assert us[i] in us;
    NothingToTrim();
    PortOfUpstream(us[i]);
  }

  lemma PortOfUpstream(u: Upstream)
    requires u.url.Url?
    ensures UpstreamPort(u) == if u.url.port.Some? then u.url.port.value
                               else if Lower(u.url.scheme) == "https" then 443 else 80
  {
  }

  lemma NothingToTrim()
    ensures TrimSpace("") == ""
  {
  }

  lemma SplitProtocol(us: seq<Upstream>, rule: Rule, r: Rule, id: string, now: int)
    requires us != [] && us[0].url.Url? && ValidUpstream(us[0])
    requires r.backendProtocol == Lower(us[0].url.scheme) && rule == CompleteRule(r, id, now)
    ensures rule.backendProtocol == Lower(us[0].url.scheme)
    ensures rule.healthPath == TrimSpace(r.healthPath) && rule.backendPort == r.backendPort
  {
    WebProtocolsNormal();
  }
}
