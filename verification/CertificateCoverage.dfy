/** What the certificate policy makes of a rendered configuration: which hosts its managed subjects cover, which
    endpoints it lists, and that archiving leaves no TLS route without a certificate. */
module CertificateCoverage {
  import opened Text
  import opened Routing
  import opened Certificates
  import opened CertificatePolicy
  import opened CaddyMatch
  import opened CaddyRoute
  import opened CaddyOrder
  import opened CaddyRender
  import opened CaddyServe

  predicate NamesHost(entries: seq<Entry>, h: string) {
    exists e <- entries :: NormalizeName(e.matcher.host) == h
  }

  /** Rendered routes carry one matcher with one host. */
  function Decode(e: Entry): RouteConfig {
    RouteConfig([[e.matcher.host]], false)
  }

  function DecodeAll(entries: seq<Entry>): seq<RouteConfig> {
    seq(|entries|, i requires 0 <= i < |entries| => Decode(entries[i]))
  }

  lemma {:induction false} RoutesInMembers(server: ServerConfig, entries: seq<Entry>, h: string)
    ensures h in RoutesIn(server, DecodeAll(entries)) <==> Managing(server, h) && NamesHost(entries, h)
  {
    hide NormalizeName, Managing, HostsIn;
    if entries != [] {
      var n := |entries| - 1;
      var e := entries[n];
      assert DecodeAll(entries)[..n] == DecodeAll(entries[..n]);
      RoutesInMembers(server, entries[..n], h);
      assert entries == entries[..n] + [e];
      var one := [[e.matcher.host]];
      assert one[..0] == [] && MatchesIn(server, one) == HostsIn(server, one[0]);
      HostsInMembers(server, one[0], h);
    }
  }

  // ---------- Rendered, then parsed ----------

  /** The server sections as rendered: HTTP servers turn automatic certificates off, HTTPS servers list the skipped
      ones. */
  function ConfigOf(address: string, s: Server): ServerConfig {
    if s.protocol == "http" then ServerConfig([address], [], true, false, [], [], DecodeAll(s.entries))
    else ServerConfig([address], [false], false, false, [], s.skip, DecodeAll(s.entries))
  }

  function DecodedServers(servers: Servers, order: seq<string>): seq<ServerConfig>
    requires forall a <- order :: a in servers
  {
    seq(|order|, i requires 0 <= i < |order| => ConfigOf(order[i], servers[order[i]]))
  }

  /** Subjects are handed to the certificate loader unless the issuer is the default one. */
  predicate Automates(issuer: string) {
    var name := Lower(TrimSpace(issuer));
    name != "" && name != "default"
  }

  function RenderedConfig(setup: Setup, issuer: string, servers: Servers, order: seq<string>): Decoded
    requires forall a <- order :: a in servers
  {
    Decoded(true, if Automates(issuer) && setup.subjects != [] then [("automate", setup.subjects)] else [], false,
            DecodedServers(servers, order))
  }

  predicate Settled(name: string) {
    NormalizeName(NormalizeName(name)) == NormalizeName(name)
  }

  predicate Tls(r: Route) {
    r.enabled && ProtocolOf(r) != "http"
  }

  /** A wildcard subject covers the host of an HTTPS route at the same address whose host is this one's normal form. */
  predicate Skipped(lib: Library, setup: Setup, input: seq<Route>, r: Route) {
    exists q <- AllRoutes(setup, input) ::
      && q.enabled && ProtocolOf(q) == "https" && AddressOf(lib, setup, q) == AddressOf(lib, setup, r)
      && q.host == NormalizeName(r.host) && WildcardCovers(setup.subjects, q.host)
  }

  lemma {:induction false} ServersInMembers(servers: Servers, order: seq<string>, h: string)
    requires forall a <- order :: a in servers
    ensures h in ServersIn(DecodedServers(servers, order)) <==>
            exists a <- order ::
              servers[a].protocol != "http" && h !in servers[a].skip && NamesHost(servers[a].entries, h)
  {
    hide NormalizeName, RoutesIn;
    if order != [] {
      var n := |order| - 1;
      var a := order[n];
      ServersInMembers(servers, order[..n], h);
      assert DecodedServers(servers, order)[..n] == DecodedServers(servers, order[..n]);
      assert order == order[..n] + [a];
      RoutesInMembers(ConfigOf(a, servers[a]), servers[a].entries, h);
    }
  }

  lemma RouteEntryHosts(r: Route, setup: Setup)
    requires RouteError(r, setup.policy, setup.ranges).None?
    ensures var entries := RouteEntries(r, setup.policy, setup.auth, setup.ranges);
            entries != [] && forall e <- entries :: e.matcher.host == r.host
  {
    hide RouteError, SecurityEntries, AccessEntries;
    Renderable(r, setup.policy, setup.ranges);
    SecurityHosts(r, setup.policy);
    AccessHosts(r, setup);
    var security, access := SecurityEntries(r, setup.policy), AccessEntries(r, setup.policy, setup.auth, setup.ranges);
    assert forall e <- security + access :: e in security || e in access;
  }

  lemma SecurityHosts(r: Route, policy: Policy)
    ensures forall e <- SecurityEntries(r, policy) :: e.matcher.host == r.host
  {
    hide RestrictedPaths, AppendUnique, PathMatchers;
  }

  lemma AccessHosts(r: Route, setup: Setup)
    requires RouteError(r, setup.policy, setup.ranges).None?
    ensures var entries := AccessEntries(r, setup.policy, setup.auth, setup.ranges);
            entries != [] && forall e <- entries :: e.matcher.host == r.host
  {
    hide RouteError, HeaderPolicies, ForwardAction, HeaderNames, PathMatchers;
    Renderable(r, setup.policy, setup.ranges);
  }

  lemma {:induction false} EntryHosts(setup: Setup, rs: seq<Route>, h: string)
    requires AllSound(setup, rs)
    ensures NamesHost(EntriesOf(setup, rs), h) <==> exists r <- rs :: NormalizeName(r.host) == h
  {
    hide NormalizeName, RouteError, RouteEntries;
    if rs != [] {
      var n := |rs| - 1;
      EntryHosts(setup, rs[..n], h);
      RouteEntryHosts(rs[n], setup);
      assert rs == rs[..n] + [rs[n]];
      var last := RouteEntries(rs[n], setup.policy, setup.auth, setup.ranges);
      assert last[0] in EntriesOf(setup, rs);
    }
  }

  predicate Complete(servers: Servers, order: seq<string>) {
    (forall a <- servers :: a in order) && forall a <- order :: a in servers
  }

  /** On a TLS server the entries name exactly the hosts of its routes. */
  lemma ServerHosts(lib: Library, setup: Setup, input: seq<Route>, servers: Servers, address: string, h: string)
    requires Rendered(lib, setup, input, servers) && address in servers && servers[address].protocol != "http"
    ensures NamesHost(servers[address].entries, h) <==>
            exists r <- AllRoutes(setup, input) ::
              r.enabled && AddressOf(lib, setup, r) == address && NormalizeName(r.host) == h
  {
    hide NormalizeName, StableSort, EntriesOf, Skips, RouteError, AddressOf, ProtocolOf, Compatible, AllRender;
    var rs := StableSort(AllRoutes(setup, input));
    SortedMembers(AllRoutes(setup, input));
    OnMembers(lib, setup, rs, address);
    OnRenders(lib, setup, rs, address);
    EntryHosts(setup, On(lib, setup, rs, address), h);
    NotTheHttpServer(lib, setup, rs, servers, address);
  }

  lemma NotTheHttpServer(lib: Library, setup: Setup, rs: seq<Route>, servers: Servers, address: string)
    requires Listens(servers, Places(lib, setup, rs)) && address in servers && servers[address].protocol != "http"
    ensures address == setup.http ==> Redirects(lib, setup, rs) == []
  {
    hide AddressOf, ProtocolOf;
    if setup.http == "" {
      NoRedirectsWithoutHttp(lib, setup, rs);
    } else {
      PlacesMembers(lib, setup, rs);
      assert (setup.http, "http") in Listeners(setup);
    }
  }

  /** A route runs on a TLS server exactly when its protocol is not plain HTTP. */
  lemma RouteServer(lib: Library, setup: Setup, input: seq<Route>, servers: Servers, r: Route)
    requires Rendered(lib, setup, input, servers) && r in AllRoutes(setup, input) && r.enabled
    ensures AddressOf(lib, setup, r) in servers && servers[AddressOf(lib, setup, r)].protocol == ProtocolOf(r)
  {
    hide StableSort, AddressOf, ProtocolOf, Compatible, AllRender, HoldsAt;
    var rs := StableSort(AllRoutes(setup, input));
    SortedMembers(AllRoutes(setup, input));
    PlacesMembers(lib, setup, rs);
    assert (AddressOf(lib, setup, r), ProtocolOf(r)) in Places(lib, setup, rs);
  }

  lemma {:induction false} SkipsMembers(setup: Setup, rs: seq<Route>, h: string)
    ensures h in Skips(setup, rs) <==>
            exists q <- rs :: ProtocolOf(q) == "https" && q.host == h && WildcardCovers(setup.subjects, q.host)
  {
    hide WildcardCovers, ProtocolOf;
    if rs != [] {
      var n := |rs| - 1;
      SkipsMembers(setup, rs[..n], h);
      AppendedMembers(Skips(setup, rs[..n]), [rs[n].host]);
      assert rs == rs[..n] + [rs[n]];
    }
  }

  /** The server skips a host's certificate exactly when the routes say so. */
  lemma SkippedOnServer(lib: Library, setup: Setup, input: seq<Route>, servers: Servers, r: Route)
    requires Rendered(lib, setup, input, servers) && AddressOf(lib, setup, r) in servers
    ensures NormalizeName(r.host) in servers[AddressOf(lib, setup, r)].skip <==> Skipped(lib, setup, input, r)
  {
    hide NormalizeName, StableSort, EntriesOf, Skips, RouteError, AddressOf, ProtocolOf, Compatible, AllRender,
      WildcardCovers;
    var rs := StableSort(AllRoutes(setup, input));
    SortedMembers(AllRoutes(setup, input));
    OnMembers(lib, setup, rs, AddressOf(lib, setup, r));
    SkipsMembers(setup, On(lib, setup, rs, AddressOf(lib, setup, r)), NormalizeName(r.host));
  }

  /** The subjects collected from the servers: the hosts of TLS routes whose certificate is not skipped. */
  lemma CollectedHosts(lib: Library, setup: Setup, input: seq<Route>, servers: Servers, order: seq<string>, h: string)
    requires Rendered(lib, setup, input, servers) && Complete(servers, order)
    ensures h in ServersIn(DecodedServers(servers, order)) <==>
            exists r <- AllRoutes(setup, input) ::
              Tls(r) && !Skipped(lib, setup, input, r) && NormalizeName(r.host) == h
  {
    hide NormalizeName, AddressOf, ProtocolOf, Rendered, Skipped;
    ServersInMembers(servers, order, h);
    forall a | a in servers && servers[a].protocol != "http"
      ensures NamesHost(servers[a].entries, h) <==>
              exists r <- AllRoutes(setup, input) ::
                r.enabled && AddressOf(lib, setup, r) == a && NormalizeName(r.host) == h
    {
      ServerHosts(lib, setup, input, servers, a, h);
    }
    forall r | r in AllRoutes(setup, input) && r.enabled
      ensures AddressOf(lib, setup, r) in servers && servers[AddressOf(lib, setup, r)].protocol == ProtocolOf(r)
      ensures NormalizeName(r.host) in servers[AddressOf(lib, setup, r)].skip <==> Skipped(lib, setup, input, r)
    {
      RouteServer(lib, setup, input, servers, r);
      SkippedOnServer(lib, setup, input, servers, r);
    }
  }

  predicate AllSettled(setup: Setup, input: seq<Route>) {
    (forall s <- setup.subjects :: Settled(s)) && forall r <- AllRoutes(setup, input) :: Settled(r.host)
  }

  /** Which hosts the managed subjects of a rendered configuration cover: those of the subjects handed to the loader
      and those of the TLS routes whose certificate is not skipped. */
  lemma ManagedCoverage(
    lib: Library, setup: Setup, issuer: string, input: seq<Route>, servers: Servers, order: seq<string>, host: string)
    requires Rendered(lib, setup, input, servers) && Complete(servers, order) && AllSettled(setup, input)
    ensures var d := RenderedConfig(setup, issuer, servers, order);
            (exists m <- ManagedNames(d) :: Covers(m, host)) <==>
            || (Automates(issuer) && exists s <- setup.subjects :: Covers(s, host))
            || (exists r <- AllRoutes(setup, input) :: Tls(r) && !Skipped(lib, setup, input, r) && Covers(r.host, host))
  {
    hide NormalizeName, Rendered, ServersIn, Skipped, Tls, Pruned, Automates, Covers, SortedNames;
    var d := RenderedConfig(setup, issuer, servers, order);
    var all, explicit := AllSubjects(d), Explicit(d.loaders);
    forall h ensures h in ServersIn(d.servers) <==>
                     exists r <- AllRoutes(setup, input) ::
                       Tls(r) && !Skipped(lib, setup, input, r) && NormalizeName(r.host) == h
    {
      CollectedHosts(lib, setup, input, servers, order, h);
    }
    forall h ensures h in explicit <==> Automates(issuer) && exists s <- setup.subjects :: NormalizeName(s) == h {
      ExplicitMembers(setup, issuer, servers, order, h);
    }
    SubjectsAreNormal(lib, setup, issuer, input, servers, order);
    PruningKeepsCoverage(all, explicit, host);
    SortedNamesShape(Pruned(all, explicit, |all|));
    forall name | Settled(name) ensures Covers(NormalizeName(name), host) == Covers(name, host) {
      CoversOfNormal(name, host);
    }
    MatchingNames(setup, input, servers, lib, issuer, host, explicit, ServersIn(d.servers));
  }

  lemma SubjectsAreNormal(
    lib: Library, setup: Setup, issuer: string, input: seq<Route>, servers: Servers, order: seq<string>)
    requires Rendered(lib, setup, input, servers) && Complete(servers, order) && AllSettled(setup, input)
    ensures Normal(AllSubjects(RenderedConfig(setup, issuer, servers, order)))
  {
    hide NormalizeName, Rendered, ServersIn, Skipped, Tls, Automates;
    var d := RenderedConfig(setup, issuer, servers, order);
    forall x | x in AllSubjects(d) ensures NormalizeName(x) == x {
      CollectedHosts(lib, setup, input, servers, order, x);
      ExplicitMembers(setup, issuer, servers, order, x);
    }
  }

  lemma CoversOfNormal(name: string, host: string)
    requires Settled(name)
    ensures Covers(NormalizeName(name), host) == Covers(name, host)
  {
    hide NormalizeName;
  }

  lemma ExplicitMembers(setup: Setup, issuer: string, servers: Servers, order: seq<string>, h: string)
    requires forall a <- order :: a in servers
    ensures h in Explicit(RenderedConfig(setup, issuer, servers, order).loaders) <==>
            Automates(issuer) && exists s <- setup.subjects :: NormalizeName(s) == h
  {
    hide NormalizeName, DecodedServers;
    var names := NormalizedNames(setup.subjects);
    if s :| s in setup.subjects && NormalizeName(s) == h {
      var i :| 0 <= i < |setup.subjects| && setup.subjects[i] == s;
      assert names[i] == h;
    }
  }

  lemma MatchingNames(
    setup: Setup, input: seq<Route>, servers: Servers, lib: Library, issuer: string, host: string,
    explicit: seq<string>, hosts: seq<string>)
    requires AllSettled(setup, input)
    requires forall name :: Settled(name) ==> Covers(NormalizeName(name), host) == Covers(name, host)
    requires forall h :: h in explicit <==> Automates(issuer) && exists s <- setup.subjects :: NormalizeName(s) == h
    requires forall h :: h in hosts <==>
                         exists r <- AllRoutes(setup, input) ::
                           Tls(r) && !Skipped(lib, setup, input, r) && NormalizeName(r.host) == h
    ensures (exists m <- explicit + hosts :: Covers(m, host)) <==>
            || (Automates(issuer) && exists s <- setup.subjects :: Covers(s, host))
            || (exists r <- AllRoutes(setup, input) :: Tls(r) && !Skipped(lib, setup, input, r) && Covers(r.host, host))
  {
    hide NormalizeName, Skipped, Tls, Automates, Covers, AllRoutes;
    if s :| Automates(issuer) && s in setup.subjects && Covers(s, host) {
      assert NormalizeName(s) in explicit + hosts && Settled(s);
    }
    if r :| r in AllRoutes(setup, input) && Tls(r) && !Skipped(lib, setup, input, r) && Covers(r.host, host) {
      assert NormalizeName(r.host) in explicit + hosts && Settled(r.host);
    }
    if m :| m in explicit + hosts && Covers(m, host) {
      if m in explicit {
        var s :| s in setup.subjects && NormalizeName(s) == m;
        assert Settled(s);
      } else {
        var r :| r in AllRoutes(setup, input) && Tls(r) && !Skipped(lib, setup, input, r) && NormalizeName(r.host) == m;
        assert Settled(r.host);
      }
    }
  }

  /** With an issuer that takes the subjects, every TLS route's host is covered after rendering and parsing; with the
      default issuer exactly those that a route whose certificate is not skipped covers. */
  lemma CoverageSurvives(
    lib: Library, setup: Setup, issuer: string, input: seq<Route>, servers: Servers, order: seq<string>, r: Route)
    requires Rendered(lib, setup, input, servers) && Complete(servers, order) && AllSettled(setup, input)
    requires r in AllRoutes(setup, input) && Tls(r)
    ensures var d := RenderedConfig(setup, issuer, servers, order);
            (exists m <- ManagedNames(d) :: Covers(m, r.host)) <==>
            Automates(issuer) || exists q <- AllRoutes(setup, input) ::
              Tls(q) && !Skipped(lib, setup, input, q) && Covers(q.host, r.host)
  {
    hide NormalizeName, Rendered, Tls, Automates, Covers, ManagedNames, RenderedConfig, AddressOf, Settled, Skipped;
    ManagedCoverage(lib, setup, issuer, input, servers, order, r.host);
    assert Settled(r.host);
    if Skipped(lib, setup, input, r) {
      SkippedIsCovered(lib, setup, input, r);
    } else {
      assert Covers(r.host, r.host) by {
        CoversItself(r.host);
      }
    }
  }

  /** A single TLS route for "a.b" under a subject "*.b": with the default issuer its certificate is skipped, and no
      managed subject covers the host. */
  lemma SkippedAndUncovered(
    lib: Library, setup: Setup, input: seq<Route>, servers: Servers, order: seq<string>, r: Route)
    requires Rendered(lib, setup, input, servers) && Complete(servers, order)
    requires AllRoutes(setup, input) == [r] && setup.subjects == ["*.b"]
    requires r.enabled && ProtocolOf(r) == "https" && r.host == "a.b"
    ensures Skipped(lib, setup, input, r) && Covers("*.b", r.host)
    ensures !exists m <- ManagedNames(RenderedConfig(setup, "default", servers, order)) :: Covers(m, r.host)
  {
    hide NormalizeName, Rendered, ManagedNames, RenderedConfig, AddressOf, ProtocolOf, WildcardCovers, Covers,
      Automates, AllRoutes;
    assert Tls(r) by {
      assert "https" != "http";
    }
    LabelUnderWildcard();
    DefaultIssuer();
    assert r in AllRoutes(setup, input) && forall q <- AllRoutes(setup, input) :: q == r;
    CoverageSurvives(lib, setup, "default", input, servers, order, r);
  }

  lemma LabelUnderWildcard()
    ensures NormalizeName("*.b") == "*.b" && NormalizeName("a.b") == "a.b"
    ensures WildcardCovers(["*.b"], "a.b") && Covers("*.b", "a.b")
  {
    TrimSpaceFixpoint("*.b");
    TrimSpaceFixpoint("a.b");
    assert Lower("*.b") == "*.b" && Lower("a.b") == "a.b";
    assert "a.b"[..1] == "a" && "a.b"[1..] == "." + "b";
    assert "*.b" in ["*.b"];
  }

  lemma DefaultIssuer()
    ensures !Automates("default")
  {
    TrimSpaceFixpoint("default");
    assert Lower("default") == "default";
  }

  lemma SkippedIsCovered(lib: Library, setup: Setup, input: seq<Route>, r: Route)
    requires Settled(r.host) && Skipped(lib, setup, input, r)
    ensures exists s <- setup.subjects :: Covers(s, r.host)
  {
    hide NormalizeName, AddressOf, ProtocolOf, CutSuffix, AllRoutes;
    SkippingAgreesWithCovers(setup.subjects, NormalizeName(r.host));
  }

  // ---------- Endpoints ----------

  lemma {:induction false} RouteEndpointsMembers(checks: Checks, server: ServerConfig, entries: seq<Entry>, e: Endpoint)
    ensures e in RouteEndpoints(checks, server, DecodeAll(entries)) <==>
            NamesHost(entries, e.host) && exists a <- server.listen :: checks.Endpoint(a) == Some(e.address)
  {
    hide NormalizeName, HostEndpoints;
    if entries != [] {
      var n := |entries| - 1;
      assert DecodeAll(entries)[..n] == DecodeAll(entries[..n]);
      RouteEndpointsMembers(checks, server, entries[..n], e);
      assert entries == entries[..n] + [entries[n]];
      var one := [[entries[n].matcher.host]];
      assert one[..0] == [] && MatchEndpoints(checks, server, one) == HostEndpoints(checks, server, one[0]);
      HostEndpointsMembers(checks, server, one[0], e);
    }
  }

  predicate Lists(checks: Checks, address: string, server: Server, e: Endpoint) {
    checks.Endpoint(address) == Some(e.address) && NamesHost(server.entries, e.host)
  }

  lemma ConfigEndpoints(checks: Checks, address: string, server: Server, e: Endpoint)
    ensures var config := ConfigOf(address, server);
            e in RouteEndpoints(checks, config, config.routes) <==> Lists(checks, address, server, e)
  {
    hide NamesHost, RouteEndpoints;
    RouteEndpointsMembers(checks, ConfigOf(address, server), server.entries, e);
  }

  lemma {:induction false} ServerEndpointsMembers(checks: Checks, servers: Servers, order: seq<string>, e: Endpoint)
    requires forall a <- order :: a in servers
    ensures e in ServerEndpoints(checks, DecodedServers(servers, order)) <==>
            exists a <- order :: servers[a].protocol != "http" && Lists(checks, a, servers[a], e)
  {
    hide RouteEndpoints, Lists;
    if order != [] {
      var n := |order| - 1;
      var a := order[n];
      ServerEndpointsMembers(checks, servers, order[..n], e);
      assert DecodedServers(servers, order)[..n] == DecodedServers(servers, order[..n]);
      assert order == order[..n] + [a];
      ConfigEndpoints(checks, a, servers[a], e);
    }
  }

  /** The endpoints of a parsed policy are those of the TLS routes: their listener's loopback address and their host. */
  lemma EndpointsAreTlsRoutes(
    checks: Checks, lib: Library, setup: Setup, input: seq<Route>, servers: Servers, order: seq<string>, e: Endpoint)
    requires Rendered(lib, setup, input, servers) && Complete(servers, order)
    ensures e in ServerEndpoints(checks, DecodedServers(servers, order)) <==>
            exists r <- AllRoutes(setup, input) ::
              Tls(r) && NormalizeName(r.host) == e.host && checks.Endpoint(AddressOf(lib, setup, r)) == Some(e.address)
  {
    hide NormalizeName, AddressOf, ProtocolOf, Rendered, NamesHost;
    ServerEndpointsMembers(checks, servers, order, e);
    forall a | a in servers && servers[a].protocol != "http"
      ensures NamesHost(servers[a].entries, e.host) <==>
              exists r <- AllRoutes(setup, input) ::
                r.enabled && AddressOf(lib, setup, r) == a && NormalizeName(r.host) == e.host
    {
      ServerHosts(lib, setup, input, servers, a, e.host);
    }
    forall r | r in AllRoutes(setup, input) && r.enabled
      ensures AddressOf(lib, setup, r) in servers && servers[AddressOf(lib, setup, r)].protocol == ProtocolOf(r)
    {
      RouteServer(lib, setup, input, servers, r);
    }
  }

  // ---------- Archiving ----------

  /** No TLS route loses its certificate to archiving: when the parsed policy covers a route's host and an archivable
      certificate does too, a managed subject that the certificate's status lists covers the host. */
  lemma ArchivingKeepsRoutes(
    lib: Library, setup: Setup, issuer: string, input: seq<Route>, servers: Servers, order: seq<string>, r: Route,
    before: Status, after: Status, verified: bool, warnings: bool)
    requires Rendered(lib, setup, input, servers) && Complete(servers, order) && AllSettled(setup, input)
    requires r in AllRoutes(setup, input) && Tls(r)
    requires Automates(issuer) || exists q <- AllRoutes(setup, input) ::
               Tls(q) && !Skipped(lib, setup, input, q) && Covers(q.host, r.host)
    requires Classified(before, after, ManagedNames(RenderedConfig(setup, issuer, servers, order)), verified, warnings)
    requires after.canArchive && exists s <- after.subjects :: Covers(s, r.host)
    ensures exists m <- after.coveredBy ::
              m in ManagedNames(RenderedConfig(setup, issuer, servers, order)) && Covers(m, r.host)
  {
    hide NormalizeName, Rendered, Tls, Automates, Covers, ManagedNames, RenderedConfig, Settled, Skipped, InUse,
      Replaces, StrictlySorted, AllSettled, AllRoutes;
    var managed := ManagedNames(RenderedConfig(setup, issuer, servers, order));
    CoverageSurvives(lib, setup, issuer, input, servers, order, r);
    CoversItself(r.host);
    var s :| s in after.subjects && Covers(s, r.host);
    var m :| m in managed && Covers(m, r.host);
    ReplacedWhereCovered(after.subjects, managed, r.host, s, m);
  }
}
