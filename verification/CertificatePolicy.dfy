/** The certificate policy parsed from a decoded configuration: the subjects it manages and its TLS endpoints. */
module CertificatePolicy {
  import opened Text
  import opened Certificates

  /** A server as the policy reads it: a TLS server has connection policies, each true when it has contents. */
  datatype ServerConfig = ServerConfig(
    listen: seq<string>, connections: seq<bool>, disabled: bool, disabledCertificates: bool, skip: seq<string>,
    skipCertificates: seq<string>, routes: seq<RouteConfig>)

  datatype RouteConfig = RouteConfig(matches: seq<seq<string>>, nested: bool)

  /** The decoded configuration: whether its storage is the inspected one, the certificate loaders with their subjects,
      whether certificates are obtained dynamically, and the servers in some order. */
  datatype Decoded = Decoded(
    storageMatches: bool, loaders: seq<(string, seq<string>)>, dynamic: bool, servers: seq<ServerConfig>)

  /** The address functions of the network library. */
  datatype Checks = Checks(
    split: string -> Option<(string, string)>, loopback: string -> bool, join: (string, string) -> string)
  {
    /** The loopback address of a listener; None for a listener that cannot be reached there. */
    function Endpoint(address: string): Option<string> {
      match split(address)
      case None => None
      case Some(parts) =>
        var host := if parts.0 == "" || parts.0 == "0.0.0.0" then "127.0.0.1"
                    else if parts.0 == "::" then "::1" else parts.0;
        if loopback(host) then Some(join(host, parts.1)) else None
    }
  }

  datatype Endpoint = Endpoint(address: string, host: string)

  datatype Parsed = Parsed(managed: seq<string>, endpoints: seq<Endpoint>)

  predicate SafeIdentifier(value: string) {
    0 < |value| <= 253 && forall c <- value :: c in ".-*:" || 'a' <= c <= 'z' || 'A' <= c <= 'Z' || '0' <= c <= '9'
  }

  predicate GoodHost(host: string) {
    host != "" && forall c <- host :: c !in "{} /\\"
  }

  // ---------- What parsing accepts and collects ----------

  predicate Managing(server: ServerConfig, host: string) {
    !server.disabled && !server.disabledCertificates && host !in server.skip && host !in server.skipCertificates
  }

  function HostsIn(server: ServerConfig, hosts: seq<string>): seq<string> {
    if hosts == [] then []
    else
      var before, host := HostsIn(server, hosts[..|hosts| - 1]), NormalizeName(hosts[|hosts| - 1]);
      if Managing(server, host) then before + [host] else before
  }

  function MatchesIn(server: ServerConfig, matches: seq<seq<string>>): seq<string> {
    if matches == [] then [] else MatchesIn(server, matches[..|matches| - 1]) + HostsIn(server, matches[|matches| - 1])
  }

  function RoutesIn(server: ServerConfig, routes: seq<RouteConfig>): seq<string> {
    if routes == [] then []
    else RoutesIn(server, routes[..|routes| - 1]) + MatchesIn(server, routes[|routes| - 1].matches)
  }

  function ServersIn(servers: seq<ServerConfig>): seq<string> {
    if servers == [] then []
    else
      var server := servers[|servers| - 1];
      ServersIn(servers[..|servers| - 1]) + if server.connections == [] then [] else RoutesIn(server, server.routes)
  }

  function EndpointsAt(checks: Checks, listen: seq<string>, host: string): seq<Endpoint> {
    if listen == [] then []
    else
      var before, address := EndpointsAt(checks, listen[..|listen| - 1], host), checks.Endpoint(listen[|listen| - 1]);
      if address.Some? then before + [Endpoint(address.value, host)] else before
  }

  function HostEndpoints(checks: Checks, server: ServerConfig, hosts: seq<string>): seq<Endpoint> {
    if hosts == [] then []
    else
      HostEndpoints(checks, server, hosts[..|hosts| - 1])
      + EndpointsAt(checks, server.listen, NormalizeName(hosts[|hosts| - 1]))
  }

  function MatchEndpoints(checks: Checks, server: ServerConfig, matches: seq<seq<string>>): seq<Endpoint> {
    if matches == [] then []
    else
      var n := |matches| - 1;
      MatchEndpoints(checks, server, matches[..n]) + HostEndpoints(checks, server, matches[n])
  }

  function RouteEndpoints(checks: Checks, server: ServerConfig, routes: seq<RouteConfig>): seq<Endpoint> {
    if routes == [] then []
    else
      var n := |routes| - 1;
      RouteEndpoints(checks, server, routes[..n]) + MatchEndpoints(checks, server, routes[n].matches)
  }

  function ServerEndpoints(checks: Checks, servers: seq<ServerConfig>): seq<Endpoint> {
    if servers == [] then []
    else
      var server := servers[|servers| - 1];
      ServerEndpoints(checks, servers[..|servers| - 1])
      + if server.connections == [] then [] else RouteEndpoints(checks, server, server.routes)
  }

  predicate MatchParses(checks: Checks, server: ServerConfig, hosts: seq<string>) {
    hosts != [] && forall h <- hosts :: GoodHost(NormalizeName(h)) && forall a <- server.listen ::
                                          checks.Endpoint(a).Some?
  }

  predicate RouteParses(checks: Checks, server: ServerConfig, route: RouteConfig) {
    route.matches != [] && !route.nested && forall m <- route.matches :: MatchParses(checks, server, m)
  }

  predicate ServerParses(checks: Checks, server: ServerConfig) {
    if server.connections == [] then server.disabled
    else true !in server.connections && server.listen != [] && forall r <- server.routes ::
           RouteParses(checks, server, r)
  }

  function Explicit(loaders: seq<(string, seq<string>)>): seq<string> {
    if loaders == [] then [] else NormalizedNames(loaders[|loaders| - 1].1)
  }

  function NormalizedNames(names: seq<string>): seq<string> {
    seq(|names|, i requires 0 <= i < |names| => NormalizeName(names[i]))
  }

  predicate Parses(checks: Checks, d: Decoded) {
    && d.storageMatches && !d.dynamic && (forall l <- d.loaders :: l.0 == "automate")
    && (forall s <- Explicit(d.loaders) :: SafeIdentifier(s)) && forall s <- d.servers :: ServerParses(checks, s)
  }

  function AllSubjects(d: Decoded): seq<string> {
    Explicit(d.loaders) + ServersIn(d.servers)
  }

  /** The managed subjects: pruned, sorted and without repeats. */
  function ManagedNames(d: Decoded): seq<string> {
    SortedNames(Pruned(AllSubjects(d), Explicit(d.loaders), |AllSubjects(d)|))
  }

  // ---------- Parsing ----------

  method ParseListeners(checks: Checks, listen: seq<string>, host: string) returns (ok: bool, endpoints: seq<Endpoint>)
    ensures ok == forall a <- listen :: checks.Endpoint(a).Some?
    ensures ok ==> endpoints == EndpointsAt(checks, listen, host)
  {
    endpoints := [];
    for i := 0 to |listen|
      invariant forall a <- listen[..i] :: checks.Endpoint(a).Some?
      invariant endpoints == EndpointsAt(checks, listen[..i], host)
    {
      assert listen[..i + 1] == listen[..i] + [listen[i]];
      var address := checks.Endpoint(listen[i]);
      if address.None? {
        assert listen[i] in listen;
        return false, [];
      }
      endpoints := endpoints + [Endpoint(address.value, host)];
    }
    assert listen[..|listen|] == listen;
    ok := true;
  }

  method ParseHosts(checks: Checks, server: ServerConfig, hosts: seq<string>)
    returns (ok: bool, found: seq<string>, endpoints: seq<Endpoint>)
    ensures ok == MatchParses(checks, server, hosts)
    ensures ok ==> found == HostsIn(server, hosts) && endpoints == HostEndpoints(checks, server, hosts)
  {
    hide NormalizeName, EndpointsAt, GoodHost, Managing;
    found, endpoints := [], [];
    if hosts == [] {
      return false, [], [];
    }
    for i := 0 to |hosts|
      invariant found == HostsIn(server, hosts[..i]) && endpoints == HostEndpoints(checks, server, hosts[..i])
      invariant forall h <- hosts[..i] ::
          GoodHost(NormalizeName(h)) && forall a <- server.listen :: checks.Endpoint(a).Some?
    {
      var host := NormalizeName(hosts[i]);
      assert hosts[i] in hosts && hosts[..i + 1] == hosts[..i] + [hosts[i]];
      if !GoodHost(host) {
        return false, [], [];
      }
      var good, more := ParseListeners(checks, server.listen, host);
      if !good {
        return false, [], [];
      }
      endpoints := endpoints + more;
      if Managing(server, host) {
        found := found + [host];
      }
    }
    assert hosts[..|hosts|] == hosts;
    ok := true;
  }

  method ParseRoute(checks: Checks, server: ServerConfig, route: RouteConfig)
    returns (ok: bool, found: seq<string>, endpoints: seq<Endpoint>)
    ensures ok == RouteParses(checks, server, route)
    ensures ok ==>
              found == MatchesIn(server, route.matches) && endpoints == MatchEndpoints(checks, server, route.matches)
  {
    hide MatchParses, HostsIn, HostEndpoints;
    found, endpoints := [], [];
    if route.matches == [] || route.nested {
      return false, [], [];
    }
    for i := 0 to |route.matches|
      invariant found == MatchesIn(server, route.matches[..i])
      invariant endpoints == MatchEndpoints(checks, server, route.matches[..i])
      invariant forall m <- route.matches[..i] :: MatchParses(checks, server, m)
    {
      assert route.matches[..i + 1] == route.matches[..i] + [route.matches[i]];
      var good, more, at := ParseHosts(checks, server, route.matches[i]);
      if !good {
        assert route.matches[i] in route.matches;
        return false, [], [];
      }
      found, endpoints := found + more, endpoints + at;
    }
    assert route.matches[..|route.matches|] == route.matches;
    ok := true;
  }

  method ParseServer(checks: Checks, server: ServerConfig)
    returns (ok: bool, found: seq<string>, endpoints: seq<Endpoint>)
    ensures ok == ServerParses(checks, server)
    ensures ok ==> found == if server.connections == [] then [] else RoutesIn(server, server.routes)
    ensures ok ==> endpoints == if server.connections == [] then [] else RouteEndpoints(checks, server, server.routes)
  {
    hide RouteParses, MatchesIn, MatchEndpoints;
    found, endpoints := [], [];
    if server.connections == [] {
      return server.disabled, [], [];
    }
    if true in server.connections || server.listen == [] {
      return false, [], [];
    }
    for i := 0 to |server.routes|
      invariant found == RoutesIn(server, server.routes[..i])
      invariant endpoints == RouteEndpoints(checks, server, server.routes[..i])
      invariant forall r <- server.routes[..i] :: RouteParses(checks, server, r)
    {
      assert server.routes[..i + 1] == server.routes[..i] + [server.routes[i]];
      var good, more, at := ParseRoute(checks, server, server.routes[i]);
      if !good {
        assert server.routes[i] in server.routes;
        return false, [], [];
      }
      found, endpoints := found + more, endpoints + at;
    }
    assert server.routes[..|server.routes|] == server.routes;
    ok := true;
  }

  method ParseServers(checks: Checks, servers: seq<ServerConfig>)
    returns (ok: bool, found: seq<string>, endpoints: seq<Endpoint>)
    ensures ok == forall s <- servers :: ServerParses(checks, s)
    ensures ok ==> found == ServersIn(servers) && endpoints == ServerEndpoints(checks, servers)
  {
    hide ServerParses, RoutesIn, RouteEndpoints;
    found, endpoints := [], [];
    for i := 0 to |servers|
      invariant found == ServersIn(servers[..i]) && endpoints == ServerEndpoints(checks, servers[..i])
      invariant forall s <- servers[..i] :: ServerParses(checks, s)
    {
      assert servers[..i + 1] == servers[..i] + [servers[i]];
      var good, more, at := ParseServer(checks, servers[i]);
      if !good {
        assert servers[i] in servers;
        return false, [], [];
      }
      found, endpoints := found + more, endpoints + at;
    }
    assert servers[..|servers|] == servers;
    ok := true;
  }

  /** The subjects of the one loader that is understood. */
  method LoadedSubjects(loaders: seq<(string, seq<string>)>) returns (ok: bool, subjects: seq<string>)
    ensures ok == forall l <- loaders :: l.0 == "automate"
    ensures ok ==> subjects == if loaders == [] then [] else loaders[|loaders| - 1].1
  {
    subjects := [];
    for i := 0 to |loaders|
      invariant forall l <- loaders[..i] :: l.0 == "automate"
      invariant subjects == if i == 0 then [] else loaders[i - 1].1
    {
      assert loaders[..i + 1] == loaders[..i] + [loaders[i]];
      if loaders[i].0 != "automate" {
        assert loaders[i] in loaders;
        return false, [];
      }
      subjects := loaders[i].1;
    }
    assert loaders[..|loaders|] == loaders;
    ok := true;
  }

  method NormalizeSubjects(subjects: seq<string>) returns (safe: bool, managed: seq<string>)
    ensures safe == forall s <- NormalizedNames(subjects) :: SafeIdentifier(s)
    ensures managed == NormalizedNames(subjects)
  {
    hide NormalizeName, SafeIdentifier;
    managed, safe := subjects, true;
    for i := 0 to |subjects|
      invariant |managed| == |subjects|
      invariant forall k :: 0 <= k < |managed| ==>
                              managed[k] == if k < i then NormalizeName(subjects[k]) else subjects[k]
      invariant safe == forall k :: 0 <= k < i ==> SafeIdentifier(managed[k])
    {
      managed := managed[i := NormalizeName(managed[i])];
      safe := safe && SafeIdentifier(managed[i]);
    }
    assert managed == NormalizedNames(subjects);
    assert forall k :: 0 <= k < |managed| ==> managed[k] in managed;
  }

  /** The managed subjects and the endpoints; None when the configuration is refused. */
  method ParsePolicy(checks: Checks, d: Decoded) returns (out: Option<Parsed>)
    ensures out == if Parses(checks, d) then Some(Parsed(ManagedNames(d), ServerEndpoints(checks, d.servers))) else None
  {
    hide SafeIdentifier, ServerParses, RoutesIn, NormalizeName, Pruned, SortedNames, ServerEndpoints;
    if !d.storageMatches {
      return None;
    }
    var known, subjects := LoadedSubjects(d.loaders);
    if !known || d.dynamic {
      return None;
    }
    var safe, explicit := NormalizeSubjects(subjects);
    assert explicit == Explicit(d.loaders);
    if !safe {
      return None;
    }
    var good, hosts, endpoints := ParseServers(checks, d.servers);
    if !good {
      return None;
    }
    var kept := PruneSubjects(explicit + hosts, explicit);
    return Some(Parsed(SortedNames(kept), endpoints));
  }

  // ---------- Membership ----------

  lemma {:induction false} EndpointsAtMembers(checks: Checks, listen: seq<string>, host: string, e: Endpoint)
    ensures e in EndpointsAt(checks, listen, host) <==>
            e.host == host && exists a <- listen :: checks.Endpoint(a) == Some(e.address)
  {
    if listen != [] {
      EndpointsAtMembers(checks, listen[..|listen| - 1], host, e);
      assert listen == listen[..|listen| - 1] + [listen[|listen| - 1]];
    }
  }

  lemma {:induction false} HostEndpointsMembers(checks: Checks, server: ServerConfig, hosts: seq<string>, e: Endpoint)
    ensures e in HostEndpoints(checks, server, hosts) <==>
            (exists x <- hosts :: NormalizeName(x) == e.host) && exists a <- server.listen ::
              checks.Endpoint(a) == Some(e.address)
  {
    hide NormalizeName, EndpointsAt;
    if hosts != [] {
      var n := |hosts| - 1;
      HostEndpointsMembers(checks, server, hosts[..n], e);
      EndpointsAtMembers(checks, server.listen, NormalizeName(hosts[n]), e);
      assert hosts == hosts[..n] + [hosts[n]];
    }
  }

  lemma {:induction false} HostsInMembers(server: ServerConfig, hosts: seq<string>, h: string)
    ensures h in HostsIn(server, hosts) <==> Managing(server, h) && exists x <- hosts :: NormalizeName(x) == h
  {
    hide NormalizeName;
    if hosts != [] {
      HostsInMembers(server, hosts[..|hosts| - 1], h);
      assert hosts == hosts[..|hosts| - 1] + [hosts[|hosts| - 1]];
    }
  }

  /** A server contributes the hosts it names. */
  predicate Names(server: ServerConfig, h: string) {
    exists r <- server.routes, m <- r.matches, x <- m :: NormalizeName(x) == h
  }

  lemma {:induction false} MatchesInMembers(server: ServerConfig, matches: seq<seq<string>>, h: string)
    ensures h in MatchesIn(server, matches) <==>
            Managing(server, h) && exists m <- matches, x <- m :: NormalizeName(x) == h
  {
    hide NormalizeName, Managing, HostsIn;
    if matches != [] {
      var n := |matches| - 1;
      MatchesInMembers(server, matches[..n], h);
      HostsInMembers(server, matches[n], h);
      assert matches == matches[..n] + [matches[n]];
    }
  }

  lemma {:induction false} RouteHosts(server: ServerConfig, routes: seq<RouteConfig>, h: string)
    ensures h in RoutesIn(server, routes) <==>
            Managing(server, h) && exists r <- routes, m <- r.matches, x <- m :: NormalizeName(x) == h
  {
    hide NormalizeName, Managing, MatchesIn;
    if routes != [] {
      var n := |routes| - 1;
      RouteHosts(server, routes[..n], h);
      MatchesInMembers(server, routes[n].matches, h);
      assert routes == routes[..n] + [routes[n]];
    }
  }

  /** The hosts collected are those of the TLS servers that obtain certificates for them. */
  lemma {:induction false} HostsExactly(servers: seq<ServerConfig>, h: string)
    ensures h in ServersIn(servers) <==>
            exists s <- servers ::
              && s.connections != [] && !s.disabled && !s.disabledCertificates
              && h !in s.skip && h !in s.skipCertificates && Names(s, h)
  {
    hide NormalizeName, RoutesIn;
    if servers != [] {
      var n := |servers| - 1;
      HostsExactly(servers[..n], h);
      RouteHosts(servers[n], servers[n].routes, h);
      assert servers == servers[..n] + [servers[n]];
    }
  }

  lemma {:induction false} MatchEndpointsMembers(checks: Checks, server: ServerConfig, matches: seq<seq<string>>,
                                                 e: Endpoint)
    ensures e in MatchEndpoints(checks, server, matches) <==>
            && (exists m <- matches, x <- m :: NormalizeName(x) == e.host)
            && exists a <- server.listen :: checks.Endpoint(a) == Some(e.address)
  {
    hide NormalizeName, HostEndpoints;
    if matches != [] {
      var n := |matches| - 1;
      MatchEndpointsMembers(checks, server, matches[..n], e);
      HostEndpointsMembers(checks, server, matches[n], e);
      assert matches == matches[..n] + [matches[n]];
    }
  }

  lemma {:induction false} RouteEndpointsMembers(checks: Checks, server: ServerConfig, routes: seq<RouteConfig>,
                                                 e: Endpoint)
    ensures e in RouteEndpoints(checks, server, routes) <==>
            && (exists r <- routes, m <- r.matches, x <- m :: NormalizeName(x) == e.host)
            && exists a <- server.listen :: checks.Endpoint(a) == Some(e.address)
  {
    hide NormalizeName, MatchEndpoints;
    if routes != [] {
      var n := |routes| - 1;
      RouteEndpointsMembers(checks, server, routes[..n], e);
      MatchEndpointsMembers(checks, server, routes[n].matches, e);
      assert routes == routes[..n] + [routes[n]];
    }
  }

  /** Where a listener is probed: at its port on the loopback address of the same kind when it takes all hosts, else at
      its own host, which must then be a loopback address. */
  ghost predicate ProbedAt(checks: Checks, listener: string, at: string) {
    exists host: string, port: string, local: string ::
      && checks.split(listener) == Some((host, port)) && checks.loopback(local) && at == checks.join(local, port)
      && (host in ["", "0.0.0.0"] ==> local == "127.0.0.1") && (host == "::" ==> local == "::1")
      && (host !in ["", "0.0.0.0", "::"] ==> local == host)
  }

  lemma EndpointIsProbed(checks: Checks, listener: string, at: string)
    ensures checks.Endpoint(listener) == Some(at) <==> ProbedAt(checks, listener, at)
  {
    if checks.Endpoint(listener) == Some(at) {
      var parts := checks.split(listener).value;
      var local := if parts.0 == "" || parts.0 == "0.0.0.0" then "127.0.0.1"
      else if parts.0 == "::" then "::1" else parts.0;
      assert checks.split(listener) == Some((parts.0, parts.1));
      assert at == checks.join(local, parts.1) && checks.loopback(local);
    }
  }

  lemma {:induction false} EndpointMembers(checks: Checks, servers: seq<ServerConfig>, e: Endpoint)
    ensures e in ServerEndpoints(checks, servers) <==>
            exists s <- servers ::
              s.connections != [] && Names(s, e.host) && exists a <- s.listen :: checks.Endpoint(a) == Some(e.address)
  {
    hide NormalizeName, RouteEndpoints;
    if servers != [] {
      var n := |servers| - 1;
      EndpointMembers(checks, servers[..n], e);
      RouteEndpointsMembers(checks, servers[n], servers[n].routes, e);
      assert servers == servers[..n] + [servers[n]];
    }
  }

  /** The endpoints are where the listeners of the TLS servers are probed, with the hosts these servers name. */
  lemma EndpointsExactly(checks: Checks, servers: seq<ServerConfig>, e: Endpoint)
    ensures e in ServerEndpoints(checks, servers) <==>
            exists s <- servers ::
              s.connections != [] && Names(s, e.host) && exists a <- s.listen :: ProbedAt(checks, a, e.address)
  {
    hide Names, ServerEndpoints, ProbedAt, Checks.Endpoint;
    EndpointMembers(checks, servers, e);
    forall a ensures checks.Endpoint(a) == Some(e.address) <==> ProbedAt(checks, a, e.address) {
      EndpointIsProbed(checks, a, e.address);
    }
  }

  /** A subject handed to the loader, in normal form. */
  predicate Loaded(d: Decoded, name: string) {
    d.loaders != [] && exists s <- d.loaders[|d.loaders| - 1].1 :: NormalizeName(s) == name
  }

  lemma LoadedExactly(d: Decoded, name: string)
    ensures name in Explicit(d.loaders) <==> Loaded(d, name)
  {
    hide NormalizeName;
    if d.loaders != [] {
      var names := d.loaders[|d.loaders| - 1].1;
      if s :| s in names && NormalizeName(s) == name {
        var i :| 0 <= i < |names| && names[i] == s;
        assert NormalizedNames(names)[i] == name;
      }
    }
  }

  /** A managed subject is one that was loaded or collected, and no other one covers it unless it was loaded itself. */
  lemma ManagedExactly(d: Decoded, name: string)
    ensures name in ManagedNames(d) <==>
            && (exists x :: (Loaded(d, x) || x in ServersIn(d.servers)) && NormalizeName(x) == name)
            && (Loaded(d, name) || forall w :: Loaded(d, w) || w in ServersIn(d.servers) ==>
                                                 NormalizeName(w) == name || !Covers(w, name))
  {
    hide NormalizeName, Covers, Pruned, SortedNames, Explicit, ServersIn, Loaded;
    var all, explicit := AllSubjects(d), Explicit(d.loaders);
    SortedNamesShape(Pruned(all, explicit, |all|));
    PrunedMembers(all, explicit, |all|, name);
    forall x ensures x in all <==> Loaded(d, x) || x in ServersIn(d.servers) {
      LoadedExactly(d, x);
    }
    LoadedExactly(d, name);
    if x :| x in all && NormalizeName(x) == name {
      var k :| 0 <= k < |all| && all[k] == x;
    }
  }

  predicate HostAccepted(host: string) {
    host != "" && '{' !in host && '}' !in host && ' ' !in host && '/' !in host && '\\' !in host
  }

  predicate NameAccepted(name: string) {
    0 < |name| <= 253 && forall c <- name ::
      c == '.' || c == '-' || c == '*' || c == ':' || 'a' <= c <= 'z' || 'A' <= c <= 'Z' || '0' <= c <= '9'
  }

  /** A plain server that is switched off, or a TLS server without special policies whose listeners are all loopback
      ones and whose routes name their hosts. */
  predicate ServerAccepted(checks: Checks, s: ServerConfig) {
    if s.connections == [] then s.disabled
    else
      && true !in s.connections && s.listen != []
      && (forall r <- s.routes :: r.matches != [] && !r.nested)
      && (forall r <- s.routes, m <- r.matches :: m != [])
      && (forall r <- s.routes, m <- r.matches, x <- m :: HostAccepted(NormalizeName(x)))
      && (s.routes != [] ==> forall a <- s.listen :: checks.Endpoint(a).Some?)
  }

  lemma MatchAccepted(checks: Checks, s: ServerConfig, m: seq<string>)
    ensures MatchParses(checks, s, m) <==>
            && m != [] && (forall x <- m :: HostAccepted(NormalizeName(x)))
            && forall a <- s.listen :: checks.Endpoint(a).Some?
  {
    hide NormalizeName;
    if m != [] {
      assert m[0] in m;
    }
  }

  lemma ServerIsAccepted(checks: Checks, s: ServerConfig)
    ensures ServerParses(checks, s) <==> ServerAccepted(checks, s)
  {
    hide NormalizeName, MatchParses, HostAccepted;
    if s.connections != [] && ServerParses(checks, s) {
      forall r, m | r in s.routes && m in r.matches
        ensures m != [] && (forall x <- m :: HostAccepted(NormalizeName(x)))
        ensures forall a <- s.listen :: checks.Endpoint(a).Some?
      {
        assert RouteParses(checks, s, r);
        MatchAccepted(checks, s, m);
      }
      if s.routes != [] {
        assert RouteParses(checks, s, s.routes[0]);
        assert s.routes[0].matches[0] in s.routes[0].matches;
      }
    }
    if s.connections != [] && ServerAccepted(checks, s) {
      forall r | r in s.routes ensures RouteParses(checks, s, r) {
        forall m | m in r.matches ensures MatchParses(checks, s, m) {
          MatchAccepted(checks, s, m);
        }
      }
    }
  }

  /** What is accepted: the inspected storage, no dynamic certificates, one kind of loader with safe names, and servers
      of the kinds that are understood. */
  lemma AcceptedExactly(checks: Checks, d: Decoded)
    ensures Parses(checks, d) <==>
            && d.storageMatches && !d.dynamic && (forall l <- d.loaders :: l.0 == "automate")
            && (forall name :: Loaded(d, name) ==> NameAccepted(name))
            && forall s <- d.servers :: ServerAccepted(checks, s)
  {
    hide NormalizeName, Explicit, ServerParses, ServerAccepted, Loaded;
    forall name: string ensures name in Explicit(d.loaders) <==> Loaded(d, name) {
      LoadedExactly(d, name);
    }
    forall s | s in d.servers ensures ServerParses(checks, s) <==> ServerAccepted(checks, s) {
      ServerIsAccepted(checks, s);
    }
    forall name: string ensures SafeIdentifier(name) <==> NameAccepted(name) {
    }
  }
}
